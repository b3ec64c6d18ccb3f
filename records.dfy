/** The ROS records the plugin emits, and the tagged output events that stand
    for publishing them. */
module Records {
  import opened Geometry

  /** A device time as the message carries it: milliseconds since boot
      (`time_boot_ms`) or microseconds (`time_usec`). */
  datatype DeviceTime = BootMs(ms: nat) | Usec(us: nat)

  /** A message header. The plugin asks an external synchroniser to turn a
      device time into a ROS stamp; the model keeps the device time itself,
      tagged with its unit. */
  datatype Header = Header(frameId: string, deviceTime: DeviceTime)

  /** sensor_msgs/Imu; covariances are 3x3 row-major, 9 entries. */
  datatype Imu = Imu(
    header: Header,
    orientation: Quat,
    orientationCovariance: seq<real>,
    angularVelocity: Vec3,
    angularVelocityCovariance: seq<real>,
    linearAcceleration: Vec3,
    linearAccelerationCovariance: seq<real>)

  /** sensor_msgs/MagneticField. */
  datatype MagneticField = MagneticField(
    header: Header,
    magneticField: Vec3,
    magneticFieldCovariance: seq<real>)

  /** The orientation a freshly built sensor_msgs/Imu holds when nobody sets
      it: all four components zero. */
  const UnsetOrientation := Quat(0.0, 0.0, 0.0, 0.0)

  /** One emission of the plugin.
      ImuEnu: the base_link/ENU record, stored as the vehicle attitude and
        published on "data".
      ImuNed: the aircraft/NED record, stored as the vehicle attitude only.
      ImuRaw: published on "data_raw". Mag: on "mag". Pressure: on
        "atm_pressure" (Pascal). Temperature: on "temperature" (Celsius). */
  datatype Output =
    | ImuEnu(imu: Imu)
    | ImuNed(imu: Imu)
    | ImuRaw(imu: Imu)
    | Mag(field: MagneticField)
    | Pressure(header: Header, fluidPressure: real)
    | Temperature(header: Header, temperature: real)

  datatype OutputKind = ImuEnuOut | ImuNedOut | ImuRawOut | MagOut | PressureOut | TemperatureOut

  function KindOf(o: Output): OutputKind {
    match o
    case ImuEnu(_) => ImuEnuOut
    case ImuNed(_) => ImuNedOut
    case ImuRaw(_) => ImuRawOut
    case Mag(_) => MagOut
    case Pressure(_, _) => PressureOut
    case Temperature(_, _) => TemperatureOut
  }

  /** The outputs of one kind, in emission order: what one sink receives. */
  function OfKind(out: seq<Output>, k: OutputKind): (r: seq<Output>)
    ensures |r| <= |out|
    ensures forall i :: 0 <= i < |r| ==> KindOf(r[i]) == k
  {
    if out == [] then []
    else (if KindOf(out[0]) == k then [out[0]] else []) + OfKind(out[1..], k)
  }

  /** Splitting the emissions splits what every sink receives. */
  lemma {:induction false} OfKindConcat(a: seq<Output>, b: seq<Output>, k: OutputKind)
    ensures OfKind(a + b, k) == OfKind(a, k) + OfKind(b, k)
  {
    if a == [] {
      assert a + b == b;
    } else {
      assert (a + b)[0] == a[0];
      assert (a + b)[1..] == a[1..] + b;
      OfKindConcat(a[1..], b, k);
    }
  }
}
