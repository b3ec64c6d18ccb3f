/** The plugin's behaviour as pure functions: for each MAVLink handler, the
    state after the message and the records it emits, given the state before.
    The state is the three source gates and the cached linear acceleration;
    the covariances, the frame id and the transforms are fixed configuration. */
module Arbiter {
  import opened Geometry
  import opened Mavlink
  import opened Records
  import opened Units

  /** Frame id of the NED-side attitude record. */
  const AircraftFrame := "aircraft"

  /** HIGHRES_IMU `fields_updated` groups: bits 0-2 accelerometer and 3-5
      gyroscope, 6-8 magnetometer, 9 absolute pressure, 12 temperature. */
  const AccelGyroBits: bv16 := (7 << 3) | (7 << 0)
  const MagBits: bv16 := 7 << 6
  const PressureBit: bv16 := 1 << 9
  const TemperatureBit: bv16 := 1 << 12

  /** The fields the handlers read and write. */
  datatype State = State(
    hasHrImu: bool,
    hasScaledImu: bool,
    hasAttQuat: bool,
    accelEnu: Vec3,
    accelNed: Vec3)

  /** What `initialize` fixes once: frame id, covariances and the transforms. */
  datatype Config = Config(
    frameId: string,
    transforms: FrameTransforms,
    linearAccelerationCov: seq<real>,
    angularVelocityCov: seq<real>,
    orientationCov: seq<real>,
    unkOrientationCov: seq<real>,
    magneticCov: seq<real>)

  /** The result of handling one event. */
  datatype Step = Step(state: State, outputs: seq<Output>)

  /* -*- helpers -*- */

  /** `publish_imu_data`: the ENU and NED attitude records. Both carry the
      cached acceleration, not a new reading, and both carry the configured
      orientation covariance. */
  function ImuData(cfg: Config, s: State, timeBootMs: nat, orientationEnu: Quat, orientationNed: Quat,
                   gyroEnu: Vec3, gyroNed: Vec3): (r: seq<Output>)
    ensures |r| == 2 && r[0].ImuEnu? && r[1].ImuNed?
    ensures r[0].imu.linearAcceleration == s.accelEnu && r[1].imu.linearAcceleration == s.accelNed
    ensures r[0].imu.orientation == orientationEnu && r[0].imu.angularVelocity == gyroEnu
    ensures r[1].imu.orientation == orientationNed && r[1].imu.angularVelocity == gyroNed
    ensures forall i :: 0 <= i < 2 ==>
      && r[i].imu.orientationCovariance == cfg.orientationCov
      && r[i].imu.angularVelocityCovariance == cfg.angularVelocityCov
      && r[i].imu.linearAccelerationCovariance == cfg.linearAccelerationCov
    ensures r[0].imu.header == Header(cfg.frameId, BootMs(timeBootMs))
    ensures r[1].imu.header == Header(AircraftFrame, BootMs(timeBootMs))
  {
    var enu := Imu(Header(cfg.frameId, BootMs(timeBootMs)), orientationEnu, cfg.orientationCov,
                   gyroEnu, cfg.angularVelocityCov, s.accelEnu, cfg.linearAccelerationCov);
    var ned := Imu(Header(AircraftFrame, BootMs(timeBootMs)), orientationNed, cfg.orientationCov,
                   gyroNed, cfg.angularVelocityCov, s.accelNed, cfg.linearAccelerationCov);
    [ImuEnu(enu), ImuNed(ned)]
  }

  /** `publish_imu_data_raw`: one "data_raw" record with no orientation, and
      the cache overwritten with the pair it was given. */
  function ImuDataRaw(cfg: Config, s: State, header: Header, gyro: Vec3, accelEnu: Vec3, accelNed: Vec3): (r: Step)
    ensures |r.outputs| == 1 && r.outputs[0].ImuRaw?
    ensures r.outputs[0].imu.linearAcceleration == r.state.accelEnu == accelEnu
    ensures r.state.accelNed == accelNed
    ensures r.outputs[0].imu.header == header
    ensures r.outputs[0].imu.angularVelocity == gyro
    ensures r.outputs[0].imu.orientationCovariance == cfg.unkOrientationCov
    ensures r.outputs[0].imu.angularVelocityCovariance == cfg.angularVelocityCov
    ensures r.outputs[0].imu.linearAccelerationCovariance == cfg.linearAccelerationCov
    ensures r.state.hasHrImu == s.hasHrImu && r.state.hasScaledImu == s.hasScaledImu
    ensures r.state.hasAttQuat == s.hasAttQuat
  {
    var imu := Imu(header, UnsetOrientation, cfg.unkOrientationCov,
                   gyro, cfg.angularVelocityCov, accelEnu, cfg.linearAccelerationCov);
    Step(s.(accelEnu := accelEnu, accelNed := accelNed), [ImuRaw(imu)])
  }

  /** `publish_mag`. */
  function MagRecord(cfg: Config, header: Header, magField: Vec3): (r: Output)
    ensures r.Mag? && r.field.magneticField == magField
    ensures r.field.magneticFieldCovariance == cfg.magneticCov
  {
    Mag(MagneticField(header, magField, cfg.magneticCov))
  }

  /* -*- message handlers -*- */

  /** `handle_attitude`: dropped once a quaternion source was seen; never
      changes the state; otherwise one ENU record and one NED record carrying
      the cached acceleration. */
  function OnAttitude(cfg: Config, s: State, m: Attitude): (r: Step)
    ensures r.state == s
    ensures r.outputs == [] <==> s.hasAttQuat
    ensures !s.hasAttQuat ==>
      var t := cfg.transforms;
      var nedOrientation := t.quaternionFromRpy(m.roll, m.pitch, m.yaw);
      var gyroNed := Vec3(m.rollspeed, m.pitchspeed, m.yawspeed);
      && |r.outputs| == 2 && r.outputs[0].ImuEnu? && r.outputs[1].ImuNed?
      && r.outputs[0].imu.orientation == t.EnuBaselinkOrientation(nedOrientation)
      && r.outputs[0].imu.angularVelocity == t.frameAircraftBaselink(gyroNed)
      && r.outputs[0].imu.linearAcceleration == s.accelEnu
      && r.outputs[1].imu.orientation == nedOrientation
      && r.outputs[1].imu.angularVelocity == gyroNed
      && r.outputs[1].imu.linearAcceleration == s.accelNed
  {
    if s.hasAttQuat then Step(s, [])
    else
      var nedAircraftOrientation := cfg.transforms.quaternionFromRpy(m.roll, m.pitch, m.yaw);
      var gyroNed := Vec3(m.rollspeed, m.pitchspeed, m.yawspeed);
      var enuBaselinkOrientation := cfg.transforms.EnuBaselinkOrientation(nedAircraftOrientation);
      var gyroEnu := cfg.transforms.frameAircraftBaselink(gyroNed);
      Step(s, ImuData(cfg, s, m.timeBootMs as nat, enuBaselinkOrientation, nedAircraftOrientation, gyroEnu, gyroNed))
  }

  /** `handle_attitude_quaternion`: always processed; raises the quaternion
      gate and touches nothing else; one ENU and one NED record. */
  function OnAttitudeQuaternion(cfg: Config, s: State, m: AttitudeQuaternion): (r: Step)
    ensures r.state == s.(hasAttQuat := true)
    ensures
      var t := cfg.transforms;
      var nedOrientation := Quat(m.q1, m.q2, m.q3, m.q4);
      var gyroNed := Vec3(m.rollspeed, m.pitchspeed, m.yawspeed);
      && |r.outputs| == 2 && r.outputs[0].ImuEnu? && r.outputs[1].ImuNed?
      && r.outputs[0].imu.orientation == t.EnuBaselinkOrientation(nedOrientation)
      && r.outputs[0].imu.angularVelocity == t.frameAircraftBaselink(gyroNed)
      && r.outputs[0].imu.linearAcceleration == s.accelEnu
      && r.outputs[1].imu.orientation == nedOrientation
      && r.outputs[1].imu.angularVelocity == gyroNed
      && r.outputs[1].imu.linearAcceleration == s.accelNed
  {
    var s1 := s.(hasAttQuat := true);
    var nedAircraftOrientation := Quat(m.q1, m.q2, m.q3, m.q4);
    var gyroNed := Vec3(m.rollspeed, m.pitchspeed, m.yawspeed);
    var enuBaselinkOrientation := cfg.transforms.EnuBaselinkOrientation(nedAircraftOrientation);
    var gyroEnu := cfg.transforms.frameAircraftBaselink(gyroNed);
    Step(s1, ImuData(cfg, s1, m.timeBootMs as nat, enuBaselinkOrientation, nedAircraftOrientation, gyroEnu, gyroNed))
  }

  /** The four output groups of HIGHRES_IMU, each gated by its own bits. */
  function HighresRawPart(cfg: Config, s: State, m: HighresImu): Step {
    var header := Header(cfg.frameId, Usec(m.timeUsec as nat));
    if m.fieldsUpdated & AccelGyroBits != 0 then
      var gyro := cfg.transforms.frameAircraftBaselink(Vec3(m.xgyro, m.ygyro, m.zgyro));
      var accelNed := Vec3(m.xacc, m.yacc, m.zacc);
      var accelEnu := cfg.transforms.frameAircraftBaselink(accelNed);
      ImuDataRaw(cfg, s, header, gyro, accelEnu, accelNed)
    else Step(s, [])
  }

  function HighresMagPart(cfg: Config, m: HighresImu): seq<Output> {
    var header := Header(cfg.frameId, Usec(m.timeUsec as nat));
    if m.fieldsUpdated & MagBits != 0 then
      [MagRecord(cfg, header, cfg.transforms.frameAircraftBaselink(Vec3(m.xmag, m.ymag, m.zmag).Scale(GaussToTesla)))]
    else []
  }

  function HighresPressurePart(cfg: Config, m: HighresImu): seq<Output> {
    if m.fieldsUpdated & PressureBit != 0 then
      [Pressure(Header(cfg.frameId, Usec(m.timeUsec as nat)), m.absPressure * MillibarToPascal)]
    else []
  }

  function HighresTemperaturePart(cfg: Config, m: HighresImu): seq<Output> {
    if m.fieldsUpdated & TemperatureBit != 0 then
      [Temperature(Header(cfg.frameId, Usec(m.timeUsec as nat)), m.temperature)]
    else []
  }

  /** `handle_highres_imu`: always processed; raises the high-resolution
      gate; the cache changes exactly when accel/gyro bits are present, and
      then holds the reading just published. */
  function OnHighresImu(cfg: Config, s: State, m: HighresImu): (r: Step)
    ensures r.state.hasHrImu
    ensures r.state.hasScaledImu == s.hasScaledImu && r.state.hasAttQuat == s.hasAttQuat
    ensures m.fieldsUpdated & AccelGyroBits == 0 ==>
      r.state.accelEnu == s.accelEnu && r.state.accelNed == s.accelNed
    ensures m.fieldsUpdated & AccelGyroBits != 0 ==>
      && r.state.accelNed == Vec3(m.xacc, m.yacc, m.zacc)
      && r.state.accelEnu == cfg.transforms.frameAircraftBaselink(r.state.accelNed)
      && |r.outputs| >= 1 && r.outputs[0].ImuRaw? && r.outputs[0].imu.linearAcceleration == r.state.accelEnu
    ensures |r.outputs| <= 4
  {
    var raw := HighresRawPart(cfg, s.(hasHrImu := true), m);
    Step(raw.state, raw.outputs + HighresMagPart(cfg, m) + HighresPressurePart(cfg, m) + HighresTemperaturePart(cfg, m))
  }

  /** `handle_raw_imu`: dropped while a high-resolution or scaled source is
      active; never changes a gate. On ArduPilot the accelerometer counts are
      milli-g; elsewhere the unscaled reading is published and the cache is
      then zeroed, on every such message. */
  function OnRawImu(cfg: Config, s: State, m: RawImu, isApm: bool): (r: Step)
    ensures r.state.hasHrImu == s.hasHrImu && r.state.hasScaledImu == s.hasScaledImu
    ensures r.state.hasAttQuat == s.hasAttQuat
    ensures r.outputs == [] <==> s.hasHrImu || s.hasScaledImu
    ensures s.hasHrImu || s.hasScaledImu ==> r.state == s
    ensures !(s.hasHrImu || s.hasScaledImu) ==>
      var t := cfg.transforms;
      var accel := Vec3(m.xacc as real, m.yacc as real, m.zacc as real);
      && |r.outputs| == 2 && r.outputs[0].ImuRaw? && r.outputs[1].Mag?
      && r.outputs[0].imu.orientationCovariance == cfg.unkOrientationCov
      && r.outputs[0].imu.angularVelocity
         == t.frameAircraftBaselink(Vec3(m.xgyro as real, m.ygyro as real, m.zgyro as real).Scale(MilliRsToRadSec))
      && r.outputs[1].field.magneticField
         == t.frameAircraftBaselink(Vec3(m.xmag as real, m.ymag as real, m.zmag as real).Scale(MilliTToTesla))
      && (isApm ==>
            && r.outputs[0].imu.linearAcceleration == t.frameAircraftBaselink(accel).Scale(MilliGToMs2)
            && r.state.accelEnu == r.outputs[0].imu.linearAcceleration
            && r.state.accelNed == accel.Scale(MilliGToMs2))
      && (!isApm ==>
            && r.outputs[0].imu.linearAcceleration == t.frameAircraftBaselink(accel)
            && r.state.accelEnu == Zero && r.state.accelNed == Zero)
  {
    if s.hasHrImu || s.hasScaledImu then Step(s, [])
    else
      var header := Header(cfg.frameId, Usec(m.timeUsec as nat));
      var gyro := cfg.transforms.frameAircraftBaselink(
        Vec3(m.xgyro as real, m.ygyro as real, m.zgyro as real).Scale(MilliRsToRadSec));
      var accelNed := Vec3(m.xacc as real, m.yacc as real, m.zacc as real);
      var accelEnu := cfg.transforms.frameAircraftBaselink(accelNed);
      var accelNed' := if isApm then accelNed.Scale(MilliGToMs2) else accelNed;
      var accelEnu' := if isApm then accelEnu.Scale(MilliGToMs2) else accelEnu;
      var published := ImuDataRaw(cfg, s, header, gyro, accelEnu', accelNed');
      var after := if !isApm then published.state.(accelEnu := Zero, accelNed := Zero) else published.state;
      var magField := cfg.transforms.frameAircraftBaselink(
        Vec3(m.xmag as real, m.ymag as real, m.zmag as real).Scale(MilliTToTesla));
      Step(after, published.outputs + [MagRecord(cfg, header, magField)])
  }

  /** `handle_scaled_imu`: dropped while a high-resolution source is active;
      raises the scaled gate only when processed; the cache holds the milli-g
      reading it publishes. */
  function OnScaledImu(cfg: Config, s: State, m: ScaledImu): (r: Step)
    ensures r.state.hasHrImu == s.hasHrImu && r.state.hasAttQuat == s.hasAttQuat
    ensures r.state.hasScaledImu <==> s.hasScaledImu || !s.hasHrImu
    ensures r.outputs == [] <==> s.hasHrImu
    ensures s.hasHrImu ==> r.state == s
    ensures !s.hasHrImu ==>
      var t := cfg.transforms;
      && |r.outputs| == 2 && r.outputs[0].ImuRaw? && r.outputs[1].Mag?
      && r.outputs[0].imu.orientationCovariance == cfg.unkOrientationCov
      && r.state.accelNed == Vec3(m.xacc as real, m.yacc as real, m.zacc as real).Scale(MilliGToMs2)
      && r.state.accelEnu == t.frameAircraftBaselink(r.state.accelNed)
      && r.outputs[0].imu.linearAcceleration == r.state.accelEnu
      && r.outputs[0].imu.angularVelocity
         == t.frameAircraftBaselink(Vec3(m.xgyro as real, m.ygyro as real, m.zgyro as real).Scale(MilliRsToRadSec))
      && r.outputs[1].field.magneticField
         == t.frameAircraftBaselink(Vec3(m.xmag as real, m.ymag as real, m.zmag as real).Scale(MilliTToTesla))
  {
    if s.hasHrImu then Step(s, [])
    else
      var s1 := s.(hasScaledImu := true);
      var header := Header(cfg.frameId, BootMs(m.timeBootMs as nat));
      var gyro := cfg.transforms.frameAircraftBaselink(
        Vec3(m.xgyro as real, m.ygyro as real, m.zgyro as real).Scale(MilliRsToRadSec));
      var accelNed := Vec3(m.xacc as real, m.yacc as real, m.zacc as real).Scale(MilliGToMs2);
      var accelEnu := cfg.transforms.frameAircraftBaselink(accelNed);
      var published := ImuDataRaw(cfg, s1, header, gyro, accelEnu, accelNed);
      var magField := cfg.transforms.frameAircraftBaselink(
        Vec3(m.xmag as real, m.ymag as real, m.zmag as real).Scale(MilliTToTesla));
      Step(published.state, published.outputs + [MagRecord(cfg, header, magField)])
  }

  /** `handle_scaled_pressure`: dropped while a high-resolution source is
      active; never changes the state; otherwise a temperature record in
      degrees (the message's centi-degrees) and a pressure record in Pascal
      (the message's hectopascal). */
  function OnScaledPressure(cfg: Config, s: State, m: ScaledPressure): (r: Step)
    ensures r.state == s
    ensures r.outputs == [] <==> s.hasHrImu
    ensures !s.hasHrImu ==>
      && |r.outputs| == 2 && r.outputs[0].Temperature? && r.outputs[1].Pressure?
      && r.outputs[0].temperature * 100.0 == m.temperature as real
      && r.outputs[1].fluidPressure == m.pressAbs * MillibarToPascal
      && r.outputs[0].header == r.outputs[1].header == Header(cfg.frameId, BootMs(m.timeBootMs as nat))
  {
    if s.hasHrImu then Step(s, [])
    else
      var header := Header(cfg.frameId, BootMs(m.timeBootMs as nat));
      Step(s, [Temperature(header, m.temperature as real / 100.0), Pressure(header, m.pressAbs * 100.0)])
  }

  /** `connection_cb`: on connect and on disconnect alike, every gate is
      lowered; the cache is kept. */
  function OnConnectionChanged(s: State, connected: bool): (r: State)
    ensures !r.hasHrImu && !r.hasScaledImu && !r.hasAttQuat
    ensures r.accelEnu == s.accelEnu && r.accelNed == s.accelNed
  {
    s.(hasHrImu := false, hasScaledImu := false, hasAttQuat := false)
  }

  /* -*- event streams -*- */

  /** What the transport delivers, one at a time. `isApm` is the answer of
      the firmware-family query at the time a RAW_IMU is handled. */
  datatype Event =
    | AttitudeReceived(att: Attitude)
    | AttitudeQuaternionReceived(attQ: AttitudeQuaternion)
    | HighresImuReceived(imuHr: HighresImu)
    | RawImuReceived(imuRaw: RawImu, isApm: bool)
    | ScaledImuReceived(imuScaled: ScaledImu)
    | ScaledPressureReceived(press: ScaledPressure)
    | ConnectionChanged(connected: bool)

  datatype Kind = AttitudeMsg | AttitudeQuaternionMsg | HighresImuMsg | RawImuMsg | ScaledImuMsg
                | ScaledPressureMsg | Reconnect

  function KindOfEvent(e: Event): Kind {
    match e
    case AttitudeReceived(_) => AttitudeMsg
    case AttitudeQuaternionReceived(_) => AttitudeQuaternionMsg
    case HighresImuReceived(_) => HighresImuMsg
    case RawImuReceived(_, _) => RawImuMsg
    case ScaledImuReceived(_) => ScaledImuMsg
    case ScaledPressureReceived(_) => ScaledPressureMsg
    case ConnectionChanged(_) => Reconnect
  }

  /** The gate each handler checks before doing anything. */
  predicate Admitted(s: State, k: Kind) {
    match k
    case AttitudeMsg => !s.hasAttQuat
    case RawImuMsg => !(s.hasHrImu || s.hasScaledImu)
    case ScaledImuMsg => !s.hasHrImu
    case ScaledPressureMsg => !s.hasHrImu
    case _ => true
  }

  /** No gate is lowered in going from `s` to `t`. */
  predicate GatesOnlyRise(s: State, t: State) {
    && (s.hasHrImu ==> t.hasHrImu)
    && (s.hasScaledImu ==> t.hasScaledImu)
    && (s.hasAttQuat ==> t.hasAttQuat)
  }

  /** Dispatch of one event to its handler. A message that its gate refuses
      is a no-op; no message ever lowers a gate. */
  function Handle(cfg: Config, s: State, e: Event): (r: Step)
    ensures !Admitted(s, KindOfEvent(e)) ==> r == Step(s, [])
    ensures !e.ConnectionChanged? ==> GatesOnlyRise(s, r.state)
    ensures e.ConnectionChanged? ==> r.outputs == []
  {
    match e
    case AttitudeReceived(m) => OnAttitude(cfg, s, m)
    case AttitudeQuaternionReceived(m) => OnAttitudeQuaternion(cfg, s, m)
    case HighresImuReceived(m) => OnHighresImu(cfg, s, m)
    case RawImuReceived(m, isApm) => OnRawImu(cfg, s, m, isApm)
    case ScaledImuReceived(m) => OnScaledImu(cfg, s, m)
    case ScaledPressureReceived(m) => OnScaledPressure(cfg, s, m)
    case ConnectionChanged(c) => Step(OnConnectionChanged(s, c), [])
  }

  /** Serialized delivery of a stream of events: the final state and every
      record emitted, in order. */
  function Run(cfg: Config, s: State, evs: seq<Event>): Step
    decreases |evs|
  {
    if evs == [] then Step(s, [])
    else
      var first := Handle(cfg, s, evs[0]);
      var rest := Run(cfg, first.state, evs[1..]);
      Step(rest.state, first.outputs + rest.outputs)
  }
}
