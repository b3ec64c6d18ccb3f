/** The IMU plugin object: the three source gates and the acceleration cache
    as fields that the handlers update in place, and the five covariance
    arrays filled once at start-up. Every handler is proved to do exactly what
    the matching function of module Arbiter describes. */
module Plugin {
  import opened Geometry
  import opened Mavlink
  import opened Records
  import opened Units
  import opened Covariance
  import opened Arbiter

  class ImuPlugin {
    const frameId: string
    const transforms: FrameTransforms

    var hasHrImu: bool
    var hasScaledImu: bool
    var hasAttQuat: bool
    var linearAccelVecEnu: Vec3
    var linearAccelVecNed: Vec3

    const linearAccelerationCov: array<real>
    const angularVelocityCov: array<real>
    const orientationCov: array<real>
    const unkOrientationCov: array<real>
    const magneticCov: array<real>

    /** The configured standard deviations the covariances were built from. */
    ghost const linearStdev: real
    ghost const angularStdev: real
    ghost const orientationStdev: real
    ghost const magStdev: real

    /** Each covariance array holds the matrix built from its deviation; the
        unknown orientation covariance is the one built from deviation zero. */
    ghost predicate Valid()
      reads this, linearAccelerationCov, angularVelocityCov, orientationCov, unkOrientationCov, magneticCov
    {
      && linearAccelerationCov[..] == CovarianceFromStdev(linearStdev)
      && angularVelocityCov[..] == CovarianceFromStdev(angularStdev)
      && orientationCov[..] == CovarianceFromStdev(orientationStdev)
      && magneticCov[..] == CovarianceFromStdev(magStdev)
      && unkOrientationCov[..] == CovarianceFromStdev(0.0)
    }

    /** The fields the handlers read and write, as one value. */
    function CurrentState(): State
      reads this
    {
      State(hasHrImu, hasScaledImu, hasAttQuat, linearAccelVecEnu, linearAccelVecNed)
    }

    /** The configuration fixed by the constructor. */
    function CurrentConfig(): Config
      reads linearAccelerationCov, angularVelocityCov, orientationCov, unkOrientationCov, magneticCov
    {
      Config(frameId, transforms, linearAccelerationCov[..], angularVelocityCov[..],
             orientationCov[..], unkOrientationCov[..], magneticCov[..])
    }

    /** Construction and `initialize` together: every gate down, each
        covariance built from its configured deviation, and the unknown
        orientation covariance from deviation zero. The cache is not
        initialised (Eigen leaves a default-constructed vector undefined). */
    constructor (frameId: string, transforms: FrameTransforms,
                 linearStdev: real, angularStdev: real, orientationStdev: real, magStdev: real)
      ensures this.frameId == frameId && this.transforms == transforms
      ensures !hasHrImu && !hasScaledImu && !hasAttQuat
      ensures fresh(linearAccelerationCov) && fresh(angularVelocityCov) && fresh(orientationCov)
      ensures fresh(unkOrientationCov) && fresh(magneticCov)
      ensures linearAccelerationCov[..] == CovarianceFromStdev(linearStdev)
      ensures angularVelocityCov[..] == CovarianceFromStdev(angularStdev)
      ensures orientationCov[..] == CovarianceFromStdev(orientationStdev)
      ensures magneticCov[..] == CovarianceFromStdev(magStdev)
      ensures unkOrientationCov[..] == CovarianceFromStdev(0.0)
      ensures this.linearStdev == linearStdev && this.angularStdev == angularStdev
      ensures this.orientationStdev == orientationStdev && this.magStdev == magStdev
      ensures Valid()
    {
      this.frameId := frameId;
      this.transforms := transforms;
      this.linearStdev, this.angularStdev := linearStdev, angularStdev;
      this.orientationStdev, this.magStdev := orientationStdev, magStdev;
      hasHrImu, hasScaledImu, hasAttQuat := false, false, false;
      linearAccelerationCov := new real[9];
      angularVelocityCov := new real[9];
      orientationCov := new real[9];
      unkOrientationCov := new real[9];
      magneticCov := new real[9];
      new;
      SetupCovariance(linearAccelerationCov, linearStdev);
      SetupCovariance(angularVelocityCov, angularStdev);
      SetupCovariance(orientationCov, orientationStdev);
      SetupCovariance(magneticCov, magStdev);
      SetupCovariance(unkOrientationCov, 0.0);
    }

    /* -*- helpers -*- */

    /** `publish_imu_data`: reads the cache, changes nothing. */
    method PublishImuData(timeBootMs: nat, orientationEnu: Quat, orientationNed: Quat, gyroEnu: Vec3, gyroNed: Vec3)
      returns (out: seq<Output>)
      requires Valid()
      ensures out == ImuData(CurrentConfig(), CurrentState(), timeBootMs, orientationEnu, orientationNed, gyroEnu, gyroNed)
    {
      var imuEnu := Imu(Header(frameId, BootMs(timeBootMs)), orientationEnu, orientationCov[..],
                        gyroEnu, angularVelocityCov[..], linearAccelVecEnu, linearAccelerationCov[..]);
      var imuNed := Imu(Header(AircraftFrame, BootMs(timeBootMs)), orientationNed, orientationCov[..],
                        gyroNed, angularVelocityCov[..], linearAccelVecNed, linearAccelerationCov[..]);
      out := [ImuEnu(imuEnu), ImuNed(imuNed)];
    }

    /** `publish_imu_data_raw`: publishes and saves the reading in the cache. */
    method PublishImuDataRaw(header: Header, gyro: Vec3, accelEnu: Vec3, accelNed: Vec3) returns (out: seq<Output>)
      requires Valid()
      modifies this
      ensures Step(CurrentState(), out) == ImuDataRaw(CurrentConfig(), old(CurrentState()), header, gyro, accelEnu, accelNed)
      ensures Valid()
    {
      linearAccelVecEnu := accelEnu;
      linearAccelVecNed := accelNed;
      var imu := Imu(header, UnsetOrientation, unkOrientationCov[..],
                     gyro, angularVelocityCov[..], accelEnu, linearAccelerationCov[..]);
      out := [ImuRaw(imu)];
    }

    /** `publish_mag`. */
    method PublishMag(header: Header, magField: Vec3) returns (out: Output)
      requires Valid()
      ensures out == MagRecord(CurrentConfig(), header, magField)
    {
      out := Mag(MagneticField(header, magField, magneticCov[..]));
    }

    /* -*- message handlers -*- */

    /** `handle_attitude`: never writes a field. */
    method HandleAttitude(att: Attitude) returns (out: seq<Output>)
      requires Valid()
      ensures out == OnAttitude(CurrentConfig(), CurrentState(), att).outputs
    {
      if hasAttQuat {
        return [];
      }
      var nedAircraftOrientation := transforms.quaternionFromRpy(att.roll, att.pitch, att.yaw);
      var gyroNed := Vec3(att.rollspeed, att.pitchspeed, att.yawspeed);
      var enuBaselinkOrientation := transforms.orientationAircraftBaselink(transforms.orientationNedEnu(nedAircraftOrientation));
      var gyroEnu := transforms.frameAircraftBaselink(gyroNed);
      out := PublishImuData(att.timeBootMs as nat, enuBaselinkOrientation, nedAircraftOrientation, gyroEnu, gyroNed);
    }

    /** `handle_attitude_quaternion`. */
    method HandleAttitudeQuaternion(attQ: AttitudeQuaternion) returns (out: seq<Output>)
      requires Valid()
      modifies this
      ensures Step(CurrentState(), out) == OnAttitudeQuaternion(CurrentConfig(), old(CurrentState()), attQ)
      ensures Valid()
    {
      hasAttQuat := true;
      var nedAircraftOrientation := Quat(attQ.q1, attQ.q2, attQ.q3, attQ.q4);
      var gyroNed := Vec3(attQ.rollspeed, attQ.pitchspeed, attQ.yawspeed);
      var enuBaselinkOrientation := transforms.orientationAircraftBaselink(transforms.orientationNedEnu(nedAircraftOrientation));
      var gyroEnu := transforms.frameAircraftBaselink(gyroNed);
      out := PublishImuData(attQ.timeBootMs as nat, enuBaselinkOrientation, nedAircraftOrientation, gyroEnu, gyroNed);
    }

    /** `handle_highres_imu`. */
    method HandleHighresImu(imuHr: HighresImu) returns (out: seq<Output>)
      requires Valid()
      modifies this
      ensures Step(CurrentState(), out) == OnHighresImu(CurrentConfig(), old(CurrentState()), imuHr)
      ensures Valid()
    {
      hasHrImu := true;
      var header := Header(frameId, Usec(imuHr.timeUsec as nat));
      out := [];

      if imuHr.fieldsUpdated & ((7 << 3) | (7 << 0)) != 0 {
        var gyro := transforms.frameAircraftBaselink(Vec3(imuHr.xgyro, imuHr.ygyro, imuHr.zgyro));
        var accelNed := Vec3(imuHr.xacc, imuHr.yacc, imuHr.zacc);
        var accelEnu := transforms.frameAircraftBaselink(accelNed);
        out := PublishImuDataRaw(header, gyro, accelEnu, accelNed);
      }

      if imuHr.fieldsUpdated & (7 << 6) != 0 {
        var magField := transforms.frameAircraftBaselink(Vec3(imuHr.xmag, imuHr.ymag, imuHr.zmag).Scale(GaussToTesla));
        var mag := PublishMag(header, magField);
        out := out + [mag];
      }

      if imuHr.fieldsUpdated & (1 << 9) != 0 {
        out := out + [Pressure(header, imuHr.absPressure * MillibarToPascal)];
      }

      if imuHr.fieldsUpdated & (1 << 12) != 0 {
        out := out + [Temperature(header, imuHr.temperature)];
      }
    }

    /** `handle_raw_imu`; `isApm` is the firmware-family query. */
    method HandleRawImu(imuRaw: RawImu, isApm: bool) returns (out: seq<Output>)
      requires Valid()
      modifies this
      ensures Step(CurrentState(), out) == OnRawImu(CurrentConfig(), old(CurrentState()), imuRaw, isApm)
      ensures Valid()
    {
      if hasHrImu || hasScaledImu {
        return [];
      }
      var header := Header(frameId, Usec(imuRaw.timeUsec as nat));

      var gyro := transforms.frameAircraftBaselink(
        Vec3(imuRaw.xgyro as real, imuRaw.ygyro as real, imuRaw.zgyro as real).Scale(MilliRsToRadSec));
      var accelNed := Vec3(imuRaw.xacc as real, imuRaw.yacc as real, imuRaw.zacc as real);
      var accelEnu := transforms.frameAircraftBaselink(accelNed);

      if isApm {
        accelNed := accelNed.Scale(MilliGToMs2);
        accelEnu := accelEnu.Scale(MilliGToMs2);
      }

      out := PublishImuDataRaw(header, gyro, accelEnu, accelNed);

      if !isApm {
        linearAccelVecEnu := Zero;
        linearAccelVecNed := Zero;
      }

      var magField := transforms.frameAircraftBaselink(
        Vec3(imuRaw.xmag as real, imuRaw.ymag as real, imuRaw.zmag as real).Scale(MilliTToTesla));
      var mag := PublishMag(header, magField);
      out := out + [mag];
    }

    /** `handle_scaled_imu`. */
    method HandleScaledImu(imuScaled: ScaledImu) returns (out: seq<Output>)
      requires Valid()
      modifies this
      ensures Step(CurrentState(), out) == OnScaledImu(CurrentConfig(), old(CurrentState()), imuScaled)
      ensures Valid()
    {
      if hasHrImu {
        return [];
      }
      hasScaledImu := true;
      var header := Header(frameId, BootMs(imuScaled.timeBootMs as nat));

      var gyro := transforms.frameAircraftBaselink(
        Vec3(imuScaled.xgyro as real, imuScaled.ygyro as real, imuScaled.zgyro as real).Scale(MilliRsToRadSec));
      var accelNed := Vec3(imuScaled.xacc as real, imuScaled.yacc as real, imuScaled.zacc as real).Scale(MilliGToMs2);
      var accelEnu := transforms.frameAircraftBaselink(accelNed);

      out := PublishImuDataRaw(header, gyro, accelEnu, accelNed);

      var magField := transforms.frameAircraftBaselink(
        Vec3(imuScaled.xmag as real, imuScaled.ymag as real, imuScaled.zmag as real).Scale(MilliTToTesla));
      var mag := PublishMag(header, magField);
      out := out + [mag];
    }

    /** `handle_scaled_pressure`: never writes a field. */
    method HandleScaledPressure(press: ScaledPressure) returns (out: seq<Output>)
      requires Valid()
      ensures out == OnScaledPressure(CurrentConfig(), CurrentState(), press).outputs
    {
      if hasHrImu {
        return [];
      }
      var header := Header(frameId, BootMs(press.timeBootMs as nat));
      var temperature := Temperature(header, press.temperature as real / 100.0);
      var pressure := Pressure(header, press.pressAbs * 100.0);
      out := [temperature, pressure];
    }

    /** `connection_cb`: lowers every gate whatever `connected` says. */
    method ConnectionCb(connected: bool)
      requires Valid()
      modifies this
      ensures CurrentState() == OnConnectionChanged(old(CurrentState()), connected)
      ensures Valid()
    {
      hasHrImu := false;
      hasScaledImu := false;
      hasAttQuat := false;
    }
  }
}
