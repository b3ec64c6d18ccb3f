# IMU plugin of mavros: source arbiter and normaliser

This project models the core of `IMUPlugin` (mavros/src/plugins/imu.cpp), the
mavros plugin that turns MAVLink attitude and inertial messages into ROS IMU,
magnetic-field, pressure and temperature records. The plugin receives six
message kinds: ATTITUDE, ATTITUDE_QUATERNION, HIGHRES_IMU, RAW_IMU, SCALED_IMU
and SCALED_PRESSURE. It decides from three gates (`has_hr_imu`,
`has_scaled_imu`, `has_att_quat`) which of them to drop. It converts units,
rotates vectors and orientations into the base_link/ENU convention, and emits
records. It caches the last linear acceleration for the attitude records. A
connection change lowers all three gates.

Layout:

- `geometry.dfy` (module `Geometry`): vectors, quaternions, and the frame
  transforms as opaque function values.
- `mavlink.dfy` (`Mavlink`): the six decoded messages.
- `units.dfy` (`Units`): the unit coefficients, as exact reals.
- `records.dfy` (`Records`): the ROS records and the `Output` events that stand
  for publishing them.
- `covariance.dfy` (`Covariance`): `setup_covariance` as an in-place fill of a
  9-entry array, and the matrix it produces.
- `arbiter.dfy` (`Arbiter`): each handler as a pure function from the old state
  to the new state and the emitted records. Also the event stream `Run`.
- `properties.dfy` (`ArbiterProperties`): stream-level properties. These cover
  gate monotonicity, suppression, reset, the cache and the HIGHRES_IMU field
  groups.
- `plugin.dfy` (`Plugin`): the class `ImuPlugin`. Its fields are updated in place
  by one method per handler. Each method is proved equal to its `Arbiter`
  function.

Output events: `ImuEnu` is the base_link/ENU record. It is stored as the
vehicle attitude and published on `data`. `ImuNed` is the aircraft/NED record,
which is only stored. `ImuRaw`, `Mag`, `Pressure` and `Temperature` are
published on `data_raw`, `mag`, `atm_pressure` and `temperature`.

Points where imu.cpp may surprise a reader, all modelled as written:

- The NED attitude record carries the configured orientation covariance, not the
  unknown sentinel (imu.cpp:186).
- On non-ArduPilot firmware, every accepted RAW_IMU zeroes the cache, not only
  the first one (imu.cpp:415-420).
- A HIGHRES_IMU with every group present emits four records: raw IMU, magnetic
  field, pressure and temperature.
- The coefficient named milliTesla-to-Tesla is 1000.0 (imu.cpp:36). The
  RAW_IMU and SCALED_IMU magnetometer readings are multiplied by it, and the
  model keeps that value.

The cache is not set by the constructor: Eigen leaves a default-constructed
vector undefined. So the model promises nothing about the cache before the first
raw IMU record.

## Model

| member | source | states |
|---|---|---|
| Covariance.CovarianceFromStdev | mavros/src/plugins/imu.cpp:143-151 | 9 entries; deviation 0 gives -1 at index 0 and 0 elsewhere; otherwise stdev² at indices 0, 4, 8 and 0 elsewhere |
| Covariance.UnknownIffZeroStdev | mavros/src/plugins/imu.cpp:146-150 | the first entry is negative (the unknown sentinel) exactly when the deviation is 0 |
| Covariance.CovarianceIsDiagonal | mavros/src/plugins/imu.cpp:145-150 | every off-diagonal entry (row i, column j, i ≠ j) is 0 |
| Covariance.SetupCovariance | mavros/src/plugins/imu.cpp:143-151 | the in-place fill leaves the array equal to CovarianceFromStdev(stdev) |
| Arbiter.ImuData | mavros/src/plugins/imu.cpp:161-201 | an ENU record with the configured frame id and a NED record with frame "aircraft"; each carries the orientation and angular velocity given for its frame, the cached acceleration (not a new reading), the configured orientation, angular-velocity and linear-acceleration covariances, and the boot time in milliseconds |
| Arbiter.ImuDataRaw | mavros/src/plugins/imu.cpp:210-234 | one raw record with the header, angular velocity, angular-velocity and linear-acceleration covariances given, and the unknown orientation covariance; the cache afterwards holds exactly the ENU/NED pair given, and the ENU one is the published acceleration; gates untouched |
| Arbiter.MagRecord | mavros/src/plugins/imu.cpp:241-255 | a magnetic-field record with the given field and the magnetic covariance |
| Arbiter.OnAttitude | mavros/src/plugins/imu.cpp:265-291 | never changes gates or cache; emits nothing iff the quaternion gate is up; otherwise an ENU record (world remap then body remap of the RPY quaternion, rotated rates, cached ENU acceleration) and a NED record (RPY quaternion, raw rates, cached NED acceleration) |
| Arbiter.OnAttitudeQuaternion | mavros/src/plugins/imu.cpp:299-326 | always processed; raises only the quaternion gate and leaves the cache; ENU and NED records built from (q1,q2,q3,q4) with the cached acceleration |
| Arbiter.OnHighresImu | mavros/src/plugins/imu.cpp:334-385 | raises the high-resolution gate and no other; the cache changes only with accel/gyro bits, and then holds the message acceleration (NED) and its base_link rotation (ENU), which is also what the raw record publishes |
| Arbiter.OnRawImu | mavros/src/plugins/imu.cpp:393-428 | never changes a gate; emits nothing and changes nothing iff the high-resolution or scaled gate is up; otherwise a raw record (unknown orientation covariance, gyro in rad/s) and a magnetic record; on ArduPilot the published acceleration is milli-g scaled and cached; elsewhere it is published unscaled and the cache is zero afterwards |
| Arbiter.OnScaledImu | mavros/src/plugins/imu.cpp:436-460 | never changes the high-resolution or quaternion gate; the scaled gate is up afterwards iff it was up or the message was accepted; emits nothing iff the high-resolution gate is up; otherwise the cache holds the milli-g acceleration it publishes |
| Arbiter.OnScaledPressure | mavros/src/plugins/imu.cpp:468-484 | never changes the state; emits nothing iff the high-resolution gate is up; otherwise a temperature whose hundredfold is the message's centi-degrees and a pressure equal to the millibar reading in Pascal, with one header |
| Arbiter.OnConnectionChanged | mavros/src/plugins/imu.cpp:490-495 | every gate is lowered whatever `connected` is; the cache is kept |
| Arbiter.Handle | mavros/src/plugins/imu.cpp:103-112 | a message refused by its gate is a no-op; no message lowers a gate; a connection change emits nothing |
| ArbiterProperties.GatesRiseAlongStream | mavros/src/plugins/imu.cpp:265-495 | between connection changes no gate is ever lowered, over any stream |
| ArbiterProperties.SuppressedKindIsIgnored | mavros/src/plugins/imu.cpp:265-471 | once a gate refuses a message kind, it refuses it until the next connection change, and the stream behaves as if those messages never arrived |
| ArbiterProperties.HighresSilencesLowerSources | mavros/src/plugins/imu.cpp:393-471 | after HIGHRES_IMU and until a connection change, RAW_IMU, SCALED_IMU and SCALED_PRESSURE have no effect |
| ArbiterProperties.QuaternionSilencesEuler | mavros/src/plugins/imu.cpp:265-302 | after ATTITUDE_QUATERNION and until a connection change, ATTITUDE has no effect |
| ArbiterProperties.ScaledSilencesRaw | mavros/src/plugins/imu.cpp:393-442 | after SCALED_IMU and until a connection change, RAW_IMU has no effect |
| ArbiterProperties.ReconnectAdmitsEverything | mavros/src/plugins/imu.cpp:490-495 | after a connection change every message kind is admitted, the next message is handled as from the reset state, and the cache survives |
| ArbiterProperties.AttitudeStreamCarriesCache | mavros/src/plugins/imu.cpp:177-180 | along a stream without inertial messages the cache is unchanged and every ENU/NED attitude record carries the cached ENU/NED acceleration |
| ArbiterProperties.HighresAccelReachesAttitude | mavros/src/plugins/imu.cpp:346-353 | the acceleration of a HIGHRES_IMU with accel/gyro bits, rotated to base_link, is what every later ENU attitude record carries until the next inertial message |
| ArbiterProperties.HighresOutputsByGroup | mavros/src/plugins/imu.cpp:343-384 | each sink receives from HIGHRES_IMU exactly its own group (raw IMU, field in Tesla, pressure in Pascal, temperature), and no attitude record |
| ArbiterProperties.HighresEmitsIffGroupBits | mavros/src/plugins/imu.cpp:346-377 | a sink receives a HIGHRES_IMU record iff one of its group bits is set (0x3F accel/gyro, 7<<6 magnetometer, bit 9 pressure, bit 12 temperature) |
| ArbiterProperties.HighresGroupOwnBits | mavros/src/plugins/imu.cpp:343-384 | a group's records are built from its own bits and the readings only |
| ArbiterProperties.HighresGroupIndependent | mavros/src/plugins/imu.cpp:343-384 | what a sink receives from HIGHRES_IMU does not change when only other groups' bits change |
| ArbiterProperties.HighresThenScaledScenario | mavros/src/plugins/imu.cpp:334-439 | HIGHRES_IMU with every group present emits raw IMU, magnetic field, pressure, temperature in order, and a SCALED_IMU right after emits nothing |
| Plugin.ImuPlugin.constructor | mavros/src/plugins/imu.cpp:60-101 | gates down; each covariance array filled from its configured deviation, the unknown orientation covariance from 0; `Valid()` holds, and every handler keeps it |
| Plugin.ImuPlugin.PublishImuData | mavros/src/plugins/imu.cpp:161-201 | reads the cache and covariances and emits Arbiter.ImuData, changing nothing |
| Plugin.ImuPlugin.PublishImuDataRaw | mavros/src/plugins/imu.cpp:210-234 | writes the cache and emits exactly as Arbiter.ImuDataRaw |
| Plugin.ImuPlugin.PublishMag | mavros/src/plugins/imu.cpp:241-255 | emits Arbiter.MagRecord |
| Plugin.ImuPlugin.HandleAttitude | mavros/src/plugins/imu.cpp:265-291 | writes no field and emits Arbiter.OnAttitude's records |
| Plugin.ImuPlugin.HandleAttitudeQuaternion | mavros/src/plugins/imu.cpp:299-326 | new fields and records are those of Arbiter.OnAttitudeQuaternion on the old fields |
| Plugin.ImuPlugin.HandleHighresImu | mavros/src/plugins/imu.cpp:334-385 | new fields and records are those of Arbiter.OnHighresImu on the old fields |
| Plugin.ImuPlugin.HandleRawImu | mavros/src/plugins/imu.cpp:393-428 | new fields and records are those of Arbiter.OnRawImu on the old fields |
| Plugin.ImuPlugin.HandleScaledImu | mavros/src/plugins/imu.cpp:436-460 | new fields and records are those of Arbiter.OnScaledImu on the old fields |
| Plugin.ImuPlugin.HandleScaledPressure | mavros/src/plugins/imu.cpp:468-484 | writes no field and emits Arbiter.OnScaledPressure's records |
| Plugin.ImuPlugin.ConnectionCb | mavros/src/plugins/imu.cpp:490-495 | new fields are Arbiter.OnConnectionChanged of the old ones |

## Left out

- ROS plumbing is not modelled: the node handle, `advertise`, `Publisher::publish` and message allocation. Publishing is an `Output` event returned by the handler.
- Parameter loading (imu.cpp:79-83) is not modelled. The frame id and the four deviations are constructor arguments, so their defaults are not modelled.
- `synchronized_header` is an external time service. A `Header` keeps the frame id and the raw device time instead of a ROS stamp, tagged with its unit: milliseconds for `time_boot_ms` (ATTITUDE, ATTITUDE_QUATERNION, SCALED_IMU, SCALED_PRESSURE), microseconds for `time_usec` (HIGHRES_IMU, RAW_IMU).
- `update_attitude_imu_enu` and `update_attitude_imu_ned` are external stores. Handing a record to them is an `ImuEnu` or `ImuNed` event.
- `is_ardupilotmega` is an external query. It becomes the `isApm` argument of `HandleRawImu` and of the `RawImuReceived` event.
- The math library is foreign code: `ftf::transform_*`, `quaternion_from_rpy` and the Eigen/`tf` conversions. They are opaque function values, so the model only states which transform is applied to which input.
- IEEE floating-point rounding is not modelled. The coefficients, `std::pow(stdev, 2)` and the integer-to-double conversions are exact reals.
- Logging is not modelled, and neither is the plugin export. `get_subscriptions` is not modelled either; `Arbiter.Handle` plays the dispatch role in the stream properties only.
- `RAD_TO_DEG` is not modelled. It is declared but never used, and needs π.
- The `variance` fields of the pressure and temperature records are not modelled. The plugin never sets them.
- The cache's initial value is not modelled, because Eigen leaves it undefined.
- Serialized delivery is assumed, not checked. The model handles one event at a time, which is the host's guarantee.
