/** The six MAVLink common-set messages the plugin handles, as decoded
    structures. Integer fields keep their wire widths; float fields are reals. */
module Mavlink {

  newtype int16 = x: int | -0x8000 <= x < 0x8000
  newtype uint32 = x: int | 0 <= x < 0x1_0000_0000
  newtype uint64 = x: int | 0 <= x < 0x1_0000_0000_0000_0000

  /** ATTITUDE: Euler angles (rad) and body rates (rad/s), aircraft->NED. */
  datatype Attitude = Attitude(
    timeBootMs: uint32,
    roll: real, pitch: real, yaw: real,
    rollspeed: real, pitchspeed: real, yawspeed: real)

  /** ATTITUDE_QUATERNION: q1 is the scalar part, q2..q4 the vector part. */
  datatype AttitudeQuaternion = AttitudeQuaternion(
    timeBootMs: uint32,
    q1: real, q2: real, q3: real, q4: real,
    rollspeed: real, pitchspeed: real, yawspeed: real)

  /** HIGHRES_IMU: SI accel and gyro, magnetometer in gauss, pressures in
      millibar, temperature in degrees Celsius; `fieldsUpdated` says which
      of them this instance carries. */
  datatype HighresImu = HighresImu(
    timeUsec: uint64,
    xacc: real, yacc: real, zacc: real,
    xgyro: real, ygyro: real, zgyro: real,
    xmag: real, ymag: real, zmag: real,
    absPressure: real, diffPressure: real, pressureAlt: real,
    temperature: real,
    fieldsUpdated: bv16)

  /** RAW_IMU: raw sensor counts (ArduPilot sends scaled values here). */
  datatype RawImu = RawImu(
    timeUsec: uint64,
    xacc: int16, yacc: int16, zacc: int16,
    xgyro: int16, ygyro: int16, zgyro: int16,
    xmag: int16, ymag: int16, zmag: int16)

  /** SCALED_IMU: accel in milli-g, gyro in millirad/s, magnetometer scaled. */
  datatype ScaledImu = ScaledImu(
    timeBootMs: uint32,
    xacc: int16, yacc: int16, zacc: int16,
    xgyro: int16, ygyro: int16, zgyro: int16,
    xmag: int16, ymag: int16, zmag: int16)

  /** SCALED_PRESSURE: pressures in hectopascal, temperature in centi-degrees. */
  datatype ScaledPressure = ScaledPressure(
    timeBootMs: uint32,
    pressAbs: real, pressDiff: real,
    temperature: int16)
}
