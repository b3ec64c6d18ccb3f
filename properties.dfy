/** Properties of event streams handled by the plugin: source arbitration,
    reset on connection change, the acceleration cache, and the independence
    of the HIGHRES_IMU field groups. */
module ArbiterProperties {
  import opened Geometry
  import opened Mavlink
  import opened Records
  import opened Arbiter

  /** No connection change happens in the stream. */
  predicate NoReconnect(evs: seq<Event>) {
    forall i :: 0 <= i < |evs| ==> !evs[i].ConnectionChanged?
  }

  /** The stream holds no message that can write the acceleration cache. */
  predicate NoInertial(evs: seq<Event>) {
    forall i :: 0 <= i < |evs| ==>
      !evs[i].HighresImuReceived? && !evs[i].RawImuReceived? && !evs[i].ScaledImuReceived?
  }

  /** The stream with every message of kind `k` taken out. */
  function Without(evs: seq<Event>, k: Kind): (r: seq<Event>)
    ensures |r| <= |evs|
    ensures NoReconnect(evs) ==> NoReconnect(r)
  {
    if evs == [] then []
    else (if KindOfEvent(evs[0]) == k then [] else [evs[0]]) + Without(evs[1..], k)
  }

  /* -*- arbitration -*- */

  /** Between two connection changes no gate is ever lowered. */
  lemma {:induction false} GatesRiseAlongStream(cfg: Config, s: State, evs: seq<Event>)
    requires NoReconnect(evs)
    ensures GatesOnlyRise(s, Run(cfg, s, evs).state)
    decreases |evs|
  {
    if evs != [] {
      var first := Handle(cfg, s, evs[0]);
      assert NoReconnect(evs[1..]) by {
        forall i | 0 <= i < |evs| - 1 ensures !evs[1..][i].ConnectionChanged? {
          assert evs[1..][i] == evs[i + 1];
        }
      }
      GatesRiseAlongStream(cfg, first.state, evs[1..]);
    }
  }

  /** Once a gate refuses a message kind, it keeps refusing it until the next
      connection change, and every message of that kind in between is a
      no-op: the stream behaves as if they had never arrived. */
  lemma {:induction false} SuppressedKindIsIgnored(cfg: Config, s: State, evs: seq<Event>, k: Kind)
    requires !Admitted(s, k) && NoReconnect(evs)
    ensures Run(cfg, s, evs) == Run(cfg, s, Without(evs, k))
    ensures !Admitted(Run(cfg, s, evs).state, k)
    decreases |evs|
  {
    if evs != [] {
      var e := evs[0];
      var first := Handle(cfg, s, e);
      assert NoReconnect(evs[1..]) by {
        forall i | 0 <= i < |evs| - 1 ensures !evs[1..][i].ConnectionChanged? {
          assert evs[1..][i] == evs[i + 1];
        }
      }
      assert !e.ConnectionChanged? by { assert evs[0] == e; }
      assert !Admitted(first.state, k);
      SuppressedKindIsIgnored(cfg, first.state, evs[1..], k);
      if KindOfEvent(e) == k {
        assert first == Step(s, []);
        assert Without(evs, k) == Without(evs[1..], k);
        assert first.outputs + Run(cfg, s, evs[1..]).outputs == Run(cfg, s, evs[1..]).outputs;
      } else {
        var rest := Without(evs[1..], k);
        assert Without(evs, k) == [e] + rest;
        assert ([e] + rest)[0] == e && ([e] + rest)[1..] == rest;
      }
    }
  }

  /** After a HIGHRES_IMU, and until the next connection change, RAW_IMU,
      SCALED_IMU and SCALED_PRESSURE messages have no effect at all. */
  lemma HighresSilencesLowerSources(cfg: Config, s: State, evs: seq<Event>)
    requires s.hasHrImu && NoReconnect(evs)
    ensures Run(cfg, s, evs)
         == Run(cfg, s, Without(Without(Without(evs, RawImuMsg), ScaledImuMsg), ScaledPressureMsg))
  {
    var evs1 := Without(evs, RawImuMsg);
    var evs2 := Without(evs1, ScaledImuMsg);
    SuppressedKindIsIgnored(cfg, s, evs, RawImuMsg);
    SuppressedKindIsIgnored(cfg, s, evs1, ScaledImuMsg);
    SuppressedKindIsIgnored(cfg, s, evs2, ScaledPressureMsg);
  }

  /** After an ATTITUDE_QUATERNION, and until the next connection change,
      ATTITUDE messages have no effect at all. */
  lemma QuaternionSilencesEuler(cfg: Config, s: State, evs: seq<Event>)
    requires s.hasAttQuat && NoReconnect(evs)
    ensures Run(cfg, s, evs) == Run(cfg, s, Without(evs, AttitudeMsg))
  {
    SuppressedKindIsIgnored(cfg, s, evs, AttitudeMsg);
  }

  /** After a SCALED_IMU, and until the next connection change, RAW_IMU
      messages have no effect at all. */
  lemma ScaledSilencesRaw(cfg: Config, s: State, evs: seq<Event>)
    requires s.hasScaledImu && NoReconnect(evs)
    ensures Run(cfg, s, evs) == Run(cfg, s, Without(evs, RawImuMsg))
  {
    SuppressedKindIsIgnored(cfg, s, evs, RawImuMsg);
  }

  /** A connection change, in either direction, reopens every gate: the
      message that follows is handled as in the initial state, whatever was
      suppressed before, and the cache survives the change. */
  lemma ReconnectAdmitsEverything(cfg: Config, s: State, connected: bool, e: Event)
    ensures Admitted(Run(cfg, s, [ConnectionChanged(connected)]).state, KindOfEvent(e))
    ensures Run(cfg, s, [ConnectionChanged(connected), e])
         == Handle(cfg, OnConnectionChanged(s, connected), e)
    ensures Run(cfg, s, [ConnectionChanged(connected)]).state.accelEnu == s.accelEnu
    ensures Run(cfg, s, [ConnectionChanged(connected)]).state.accelNed == s.accelNed
  {
    var evs := [ConnectionChanged(connected), e];
    var reset := OnConnectionChanged(s, connected);
    assert evs[1..] == [e];
    assert [ConnectionChanged(connected)][1..] == [];
    var h := Handle(cfg, reset, e);
    assert Run(cfg, reset, [e]) == Step(h.state, h.outputs + []);
    assert h.outputs + [] == h.outputs;
  }

  /* -*- the acceleration cache -*- */

  /** Attitude messages read the cache and never write it: along a stream
      without inertial messages, every ENU attitude record carries the cached
      ENU acceleration and every NED record the cached NED acceleration. */
  lemma {:induction false} AttitudeStreamCarriesCache(cfg: Config, s: State, evs: seq<Event>)
    requires NoInertial(evs)
    ensures Run(cfg, s, evs).state.accelEnu == s.accelEnu
    ensures Run(cfg, s, evs).state.accelNed == s.accelNed
    ensures forall i :: 0 <= i < |Run(cfg, s, evs).outputs| ==>
      var o := Run(cfg, s, evs).outputs[i];
      && (o.ImuEnu? ==> o.imu.linearAcceleration == s.accelEnu)
      && (o.ImuNed? ==> o.imu.linearAcceleration == s.accelNed)
    decreases |evs|
  {
    if evs != [] {
      var first := Handle(cfg, s, evs[0]);
      assert NoInertial(evs[1..]) by {
        forall i | 0 <= i < |evs| - 1
          ensures !evs[1..][i].HighresImuReceived? && !evs[1..][i].RawImuReceived? && !evs[1..][i].ScaledImuReceived?
        {
          assert evs[1..][i] == evs[i + 1];
        }
      }
      assert first.state.accelEnu == s.accelEnu && first.state.accelNed == s.accelNed;
      AttitudeStreamCarriesCache(cfg, first.state, evs[1..]);
    }
  }

  /** Splits "no output of kind k" into a statement about every output. */
  lemma {:induction false} OfKindEmpty(out: seq<Output>, k: OutputKind)
    ensures OfKind(out, k) == [] <==> forall i :: 0 <= i < |out| ==> KindOf(out[i]) != k
  {
    if out != [] {
      OfKindEmpty(out[1..], k);
      if KindOf(out[0]) != k {
        forall i | 0 <= i < |out| && KindOf(out[i]) == k ensures i > 0 && KindOf(out[1..][i - 1]) == k {
          assert out[1..][i - 1] == out[i];
        }
      }
    }
  }

  /** The acceleration of a HIGHRES_IMU carrying accel/gyro bits reaches
      every ENU attitude record that follows, up to the next inertial
      message, rotated into base_link. */
  lemma HighresAccelReachesAttitude(cfg: Config, s: State, m: HighresImu, evs: seq<Event>)
    requires m.fieldsUpdated & AccelGyroBits != 0 && NoInertial(evs)
    ensures forall i :: 0 <= i < |Run(cfg, s, [HighresImuReceived(m)] + evs).outputs| ==>
      var o := Run(cfg, s, [HighresImuReceived(m)] + evs).outputs[i];
      o.ImuEnu? ==> o.imu.linearAcceleration == cfg.transforms.frameAircraftBaselink(Vec3(m.xacc, m.yacc, m.zacc))
  {
    var all := [HighresImuReceived(m)] + evs;
    assert all[0] == HighresImuReceived(m) && all[1..] == evs;
    var first := OnHighresImu(cfg, s, m);
    var rest := Run(cfg, first.state, evs);
    AttitudeStreamCarriesCache(cfg, first.state, evs);
    HighresOutputsByGroup(cfg, s, m, ImuEnuOut);
    OfKindEmpty(first.outputs, ImuEnuOut);
    assert Run(cfg, s, all).outputs == first.outputs + rest.outputs;
    forall i | 0 <= i < |first.outputs + rest.outputs|
      ensures (first.outputs + rest.outputs)[i].ImuEnu? ==>
        (first.outputs + rest.outputs)[i].imu.linearAcceleration
          == cfg.transforms.frameAircraftBaselink(Vec3(m.xacc, m.yacc, m.zacc))
    {
      if i < |first.outputs| {
        assert (first.outputs + rest.outputs)[i] == first.outputs[i];
        assert KindOf(first.outputs[i]) != ImuEnuOut;
      } else {
        assert (first.outputs + rest.outputs)[i] == rest.outputs[i - |first.outputs|];
      }
    }
  }

  /* -*- HIGHRES_IMU field groups -*- */

  /** The `fields_updated` bits that gate each output sink (none gate the
      attitude records, which HIGHRES_IMU never emits). */
  function GroupBits(k: OutputKind): bv16 {
    match k
    case ImuRawOut => AccelGyroBits
    case MagOut => MagBits
    case PressureOut => PressureBit
    case TemperatureOut => TemperatureBit
    case _ => 0
  }

  /** What a sink receives from at most one record of a known kind. */
  lemma OfKindOfPart(p: seq<Output>, kp: OutputKind, k: OutputKind)
    requires |p| <= 1 && forall i :: 0 <= i < |p| ==> KindOf(p[i]) == kp
    ensures OfKind(p, k) == if k == kp then p else []
  {
    if p != [] {
      assert p[1..] == [];
    }
  }

  /** What each sink receives from four consecutive groups of at most one
      record each, of four distinct kinds. */
  lemma OfKindOfGroups(a: seq<Output>, b: seq<Output>, c: seq<Output>, d: seq<Output>, k: OutputKind)
    requires |a| <= 1 && forall i :: 0 <= i < |a| ==> KindOf(a[i]) == ImuRawOut
    requires |b| <= 1 && forall i :: 0 <= i < |b| ==> KindOf(b[i]) == MagOut
    requires |c| <= 1 && forall i :: 0 <= i < |c| ==> KindOf(c[i]) == PressureOut
    requires |d| <= 1 && forall i :: 0 <= i < |d| ==> KindOf(d[i]) == TemperatureOut
    ensures OfKind(a + b + c + d, k)
         == match k
            case ImuRawOut => a
            case MagOut => b
            case PressureOut => c
            case TemperatureOut => d
            case _ => []
  {
    OfKindConcat(a + b + c, d, k);
    OfKindConcat(a + b, c, k);
    OfKindConcat(a, b, k);
    OfKindOfPart(a, ImuRawOut, k);
    OfKindOfPart(b, MagOut, k);
    OfKindOfPart(c, PressureOut, k);
    OfKindOfPart(d, TemperatureOut, k);
    match k
    case ImuRawOut => assert a + [] + [] + [] == a;
    case MagOut => assert [] + b + [] + [] == b;
    case PressureOut => assert [] + [] + c + [] == c;
    case TemperatureOut => assert [] + [] + [] + d == d;
    case _ =>
  }

  /** HIGHRES_IMU emits its four groups one after another, each group at
      most one record of its own kind. */
  lemma HighresOutputsAreGroups(cfg: Config, s: State, m: HighresImu)
    ensures var a := HighresRawPart(cfg, s.(hasHrImu := true), m).outputs;
      var b := HighresMagPart(cfg, m);
      var c := HighresPressurePart(cfg, m);
      var d := HighresTemperaturePart(cfg, m);
      && OnHighresImu(cfg, s, m).outputs == a + b + c + d
      && |a| <= 1 && (forall i :: 0 <= i < |a| ==> KindOf(a[i]) == ImuRawOut)
      && |b| <= 1 && (forall i :: 0 <= i < |b| ==> KindOf(b[i]) == MagOut)
      && |c| <= 1 && (forall i :: 0 <= i < |c| ==> KindOf(c[i]) == PressureOut)
      && |d| <= 1 && (forall i :: 0 <= i < |d| ==> KindOf(d[i]) == TemperatureOut)
  {
  }

  /** The group of HIGHRES_IMU outputs that goes to sink `k`. */
  function HighresGroup(cfg: Config, s: State, m: HighresImu, k: OutputKind): seq<Output> {
    match k
    case ImuRawOut => HighresRawPart(cfg, s.(hasHrImu := true), m).outputs
    case MagOut => HighresMagPart(cfg, m)
    case PressureOut => HighresPressurePart(cfg, m)
    case TemperatureOut => HighresTemperaturePart(cfg, m)
    case _ => []
  }

  /** Each sink receives from HIGHRES_IMU exactly its own group: the raw IMU
      record, the magnetic field in Tesla, the pressure in Pascal and the
      temperature unconverted; no attitude record. */
  lemma HighresOutputsByGroup(cfg: Config, s: State, m: HighresImu, k: OutputKind)
    ensures OfKind(OnHighresImu(cfg, s, m).outputs, k) == HighresGroup(cfg, s, m, k)
  {
    var a := HighresRawPart(cfg, s.(hasHrImu := true), m).outputs;
    var b := HighresMagPart(cfg, m);
    var c := HighresPressurePart(cfg, m);
    var d := HighresTemperaturePart(cfg, m);
    HighresOutputsAreGroups(cfg, s, m);
    OfKindOfGroups(a, b, c, d, k);
  }

  /** A sink receives something from HIGHRES_IMU exactly when one of its
      group's bits is set. */
  lemma HighresEmitsIffGroupBits(cfg: Config, s: State, m: HighresImu, k: OutputKind)
    ensures OfKind(OnHighresImu(cfg, s, m).outputs, k) != [] <==> m.fieldsUpdated & GroupBits(k) != 0
  {
    HighresOutputsByGroup(cfg, s, m, k);
    HighresGroupIffBits(cfg, s, m, k);
  }

  /** A group is non-empty exactly when one of its bits is set. */
  lemma HighresGroupIffBits(cfg: Config, s: State, m: HighresImu, k: OutputKind)
    ensures HighresGroup(cfg, s, m, k) != [] <==> m.fieldsUpdated & GroupBits(k) != 0
  {
    match k
    case ImuRawOut => RawPartIffBits(cfg, s.(hasHrImu := true), m);
    case MagOut =>
    case PressureOut =>
    case TemperatureOut =>
    case _ =>
  }

  /** The raw IMU group is non-empty exactly when an accel/gyro bit is set. */
  lemma RawPartIffBits(cfg: Config, s: State, m: HighresImu)
    ensures HighresRawPart(cfg, s, m).outputs != [] <==> m.fieldsUpdated & AccelGyroBits != 0
  {
    if m.fieldsUpdated & AccelGyroBits != 0 {
      assert |HighresRawPart(cfg, s, m).outputs| == 1;
    }
  }

  /** A group is built from its own bits and the message's readings. */
  lemma HighresGroupOwnBits(cfg: Config, s: State, m: HighresImu, fields: bv16, k: OutputKind)
    requires (m.fieldsUpdated & GroupBits(k) != 0) == (fields & GroupBits(k) != 0)
    ensures HighresGroup(cfg, s, m, k) == HighresGroup(cfg, s, m.(fieldsUpdated := fields), k)
  {
    var m' := m.(fieldsUpdated := fields);
    match k
    case ImuRawOut => RawPartOwnBits(cfg, s.(hasHrImu := true), m, fields);
    case MagOut => assert HighresMagPart(cfg, m) == HighresMagPart(cfg, m');
    case PressureOut => assert HighresPressurePart(cfg, m) == HighresPressurePart(cfg, m');
    case TemperatureOut => assert HighresTemperaturePart(cfg, m) == HighresTemperaturePart(cfg, m');
    case _ =>
  }

  /** The raw IMU group reads only the accel/gyro bits of `fields_updated`. */
  lemma RawPartOwnBits(cfg: Config, s: State, m: HighresImu, fields: bv16)
    requires (m.fieldsUpdated & AccelGyroBits != 0) == (fields & AccelGyroBits != 0)
    ensures HighresRawPart(cfg, s, m) == HighresRawPart(cfg, s, m.(fieldsUpdated := fields))
  {
    var m' := m.(fieldsUpdated := fields);
    assert m'.xgyro == m.xgyro && m'.xacc == m.xacc && m'.timeUsec == m.timeUsec;
  }

  /** What a sink receives from HIGHRES_IMU depends on its own group's bits
      only: changing the other groups' bits changes nothing for it. */
  lemma HighresGroupIndependent(cfg: Config, s: State, m: HighresImu, fields: bv16, k: OutputKind)
    requires (m.fieldsUpdated & GroupBits(k) != 0) == (fields & GroupBits(k) != 0)
    ensures OfKind(OnHighresImu(cfg, s, m).outputs, k)
         == OfKind(OnHighresImu(cfg, s, m.(fieldsUpdated := fields)).outputs, k)
  {
    HighresOutputsByGroup(cfg, s, m, k);
    HighresOutputsByGroup(cfg, s, m.(fieldsUpdated := fields), k);
    HighresGroupOwnBits(cfg, s, m, fields, k);
  }

  /** A HIGHRES_IMU with every group present emits a raw IMU record, a
      magnetic field, a pressure and a temperature, in that order; a
      SCALED_IMU right after it emits nothing. */
  lemma HighresThenScaledScenario(cfg: Config, s: State, m: HighresImu, scaled: ScaledImu)
    requires m.fieldsUpdated == 0x13FF
    ensures var out := Run(cfg, s, [HighresImuReceived(m), ScaledImuReceived(scaled)]).outputs;
      && |out| == 4
      && out[0].ImuRaw? && out[1].Mag? && out[2].Pressure? && out[3].Temperature?
  {
    var evs := [HighresImuReceived(m), ScaledImuReceived(scaled)];
    var first := OnHighresImu(cfg, s, m);
    assert evs[1..] == [ScaledImuReceived(scaled)];
    assert OnScaledImu(cfg, first.state, scaled) == Step(first.state, []);
    assert Run(cfg, first.state, evs[1..]).outputs == [];
    assert Run(cfg, s, evs).outputs == first.outputs + [];
  }
}
