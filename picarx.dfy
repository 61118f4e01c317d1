/** The SmartBin class of picarx/picarx.py: the same four calibrated servos
    as smartbin/smartbin.py, under its own configuration keys, with all
    defaults 0, no `open`, and a `reset` that drives only P2, P1 and P0. */
module Picarx {
  import opened RobotHat
  import opened ServoAngles

  /** Configuration keys `picarx_servo_p0` .. `picarx_servo_p3`. */
  const KEYS: seq<string> := ["picarx_servo_p0", "picarx_servo_p1", "picarx_servo_p2", "picarx_servo_p3"]
  const DEFAULTS: seq<real> := [0.0, 0.0, 0.0, 0.0]

  lemma KeysDistinct()
    ensures |KEYS| == |DEFAULTS| == 4
    ensures Distinct(KEYS)
  {
    assert KEYS[0][14] == '0' && KEYS[1][14] == '1' && KEYS[2][14] == '2' && KEYS[3][14] == '3';
  }

  function LoadOffsets(entries: map<string, real>): seq<real>
  {
    LoadAll(entries, KEYS, DEFAULTS)
  }

  /** A missing key loads as offset 0; a present one loads as stored. */
  lemma LoadDefaultsToZero(entries: map<string, real>, p: ServoIndex)
    ensures KEYS[p] !in entries ==> LoadOffsets(entries)[p] == 0.0
    ensures KEYS[p] in entries ==> LoadOffsets(entries)[p] == entries[KEYS[p]]
  {
  }

  /** Saving v for servo p makes the next start-up load v for p, and the
      unchanged value for the others. */
  lemma CalibrationRoundTrip(entries: map<string, real>, p: ServoIndex, v: real)
    ensures LoadOffsets(entries[KEYS[p] := v]) == LoadOffsets(entries)[p := v]
  {
    KeysDistinct();
    LoadAfterSet(entries, KEYS, DEFAULTS, p, v);
  }

  /** What `reset` sends: P2, P1, P0 in that order, each asked for angle 0. */
  function ResetCommands(offsets: seq<real>): seq<ServoCommand>
    requires |offsets| == 4
  {
    [Angle(2, CommandedAngle(0.0, offsets[2])),
     Angle(1, CommandedAngle(0.0, offsets[1])),
     Angle(0, CommandedAngle(0.0, offsets[0]))]
  }

  /** `reset` drives P2, P1, P0 in that order, each to its own offset whatever
      that offset is, and never commands P3. */
  lemma ResetSendsOffsets(offsets: seq<real>)
    requires |offsets| == 4
    ensures ResetCommands(offsets) == [Angle(2, offsets[2]), Angle(1, offsets[1]), Angle(0, offsets[0])]
    ensures forall i :: 0 <= i < |ResetCommands(offsets)| ==> ResetCommands(offsets)[i].servo != 3
  {
    ZeroRequestSendsOffset(offsets[0]);
    ZeroRequestSendsOffset(offsets[1]);
    ZeroRequestSendsOffset(offsets[2]);
  }

  class SmartBin {
    const config: ConfigFile
    /** `servo_p0_cali_val` .. `servo_p3_cali_val`. */
    const cali: array<real>
    /** Every servo command issued by this object, oldest first. */
    var log: seq<ServoCommand>

    ghost predicate Valid()
      reads this
    {
      cali.Length == 4
    }

    /** Load the four offsets (default 0), then drive every servo to its raw
        offset. */
    constructor (config: ConfigFile)
      ensures Valid() && this.config == config && fresh(cali)
      ensures cali[..] == LoadOffsets(config.entries)
      ensures log == RawCommands(cali[..])
    {
      var offsets := new real[4];
      offsets[0] := config.Get(KEYS[0], DEFAULTS[0]);
      offsets[1] := config.Get(KEYS[1], DEFAULTS[1]);
      offsets[2] := config.Get(KEYS[2], DEFAULTS[2]);
      offsets[3] := config.Get(KEYS[3], DEFAULTS[3]);
      ghost var loaded := LoadOffsets(config.entries);
      assert offsets[..] == loaded by {
        assert loaded[0] == offsets[0] && loaded[1] == offsets[1];
        assert loaded[2] == offsets[2] && loaded[3] == offsets[3];
      }
      this.config := config;
      cali := offsets;
      log := [Angle(0, offsets[0]), Angle(1, offsets[1]), Angle(2, offsets[2]), Angle(3, offsets[3])];
    }

    /** `servo_pN_servo_calibrate(value)`. */
    method Calibrate(p: ServoIndex, value: real)
      requires Valid()
      modifies this, cali, config
      ensures Valid()
      ensures cali[..] == old(cali[..])[p := value]
      ensures config.entries == old(config.entries)[KEYS[p] := value]
      ensures log == old(log) + [Angle(p, value)]
    {
      cali[p] := value;
      config.Set(KEYS[p], value);
      log := log + [Angle(p, value)];
    }

    /** `set_servo_pN_angle(value)`. */
    method SetServoAngle(p: ServoIndex, value: real)
      requires Valid()
      modifies this
      ensures Valid() && unchanged(cali, config)
      ensures log == old(log) + [Angle(p, CommandedAngle(value, cali[p]))]
    {
      var v := Constrain(value, SERVO_MIN, SERVO_MAX);
      log := log + [Angle(p, -(v - cali[p]))];
    }

    /** `stop` does nothing. */
    method Stop()
      ensures unchanged(this, cali, config)
    {
    }

    /** `reset`: stop, then request 0 from P2, P1 and P0. */
    method Reset()
      requires Valid()
      modifies this
      ensures Valid() && unchanged(cali, config)
      ensures log == old(log) + ResetCommands(cali[..])
    {
      Stop();
      SetServoAngle(2, 0.0);
      SetServoAngle(1, 0.0);
      SetServoAngle(0, 0.0);
    }
  }
}
