/** The lid controller of smartbin/smartbin.py: four servos P0..P3, each
    with a calibration offset loaded from (and saved to) the configuration
    file, and the per-lid "open" angles. */
module SmartBinLids {
  import opened RobotHat
  import opened ServoAngles

  /** Configuration keys `smartbin_servo_p0` .. `smartbin_servo_p3`. */
  const KEYS: seq<string> := ["smartbin_servo_p0", "smartbin_servo_p1", "smartbin_servo_p2", "smartbin_servo_p3"]
  /** Offsets used when the file has no entry for a servo. */
  const DEFAULTS: seq<real> := [55.0, 80.0, -35.0, 80.0]
  /** P0_OPEN_ANGLE .. P3_OPEN_ANGLE. */
  const OPEN_ANGLES: seq<real> := [55.0, 40.0, 45.0, 55.0]

  lemma KeysDistinct()
    ensures |KEYS| == |DEFAULTS| == 4
    ensures Distinct(KEYS)
  {
    assert KEYS[0][16] == '0' && KEYS[1][16] == '1' && KEYS[2][16] == '2' && KEYS[3][16] == '3';
  }

  /** The offsets a new SmartBin loads from a file holding `entries`. */
  function LoadOffsets(entries: map<string, real>): seq<real>
  {
    LoadAll(entries, KEYS, DEFAULTS)
  }

  /** A key missing from the file loads its built-in default, a present one
      loads as stored; an empty file gives the defaults 55, 80, -35, 80. */
  lemma LoadDefaults(entries: map<string, real>, p: ServoIndex)
    ensures KEYS[p] !in entries ==> LoadOffsets(entries)[p] == DEFAULTS[p]
    ensures KEYS[p] in entries ==> LoadOffsets(entries)[p] == entries[KEYS[p]]
    ensures LoadOffsets(map[]) == [55.0, 80.0, -35.0, 80.0]
  {
  }

  /** Calibration round trip: once servo p's value v is saved, the next
      start-up loads v for servo p and the unchanged value for every other. */
  lemma CalibrationRoundTrip(entries: map<string, real>, p: ServoIndex, v: real)
    ensures LoadOffsets(entries[KEYS[p] := v]) == LoadOffsets(entries)[p := v]
  {
    KeysDistinct();
    LoadAfterSet(entries, KEYS, DEFAULTS, p, v);
  }

  /** What `open(pin_number)` sends: the servo of that pin, driven to its
      open angle; nothing at all for any other pin number. */
  function OpenCommands(n: int, offsets: seq<real>): seq<ServoCommand>
    requires |offsets| == 4
  {
    if 0 <= n < 4 then [Angle(n, CommandedAngle(OPEN_ANGLES[n], offsets[n]))] else []
  }

  /** The open angles lie inside the clamp range, so lid n is sent exactly
      `-(OPEN_n - cali_n)`. */
  lemma OpenSendsOffsetMinusOpenAngle(n: int, offsets: seq<real>)
    requires |offsets| == 4
    ensures 0 <= n < 4 ==> OpenCommands(n, offsets) == [Angle(n, -(OPEN_ANGLES[n] - offsets[n]))]
    ensures !(0 <= n < 4) ==> OpenCommands(n, offsets) == []
  {
    if 0 <= n < 4 {
      assert SERVO_MIN <= OPEN_ANGLES[n] <= SERVO_MAX;
    }
  }

  /** What `reset` sends: P0, P1, P2, P3 in that order, each asked for its
      own offset. */
  function ResetCommands(offsets: seq<real>): seq<ServoCommand>
    requires |offsets| == 4
  {
    seq(4, p requires 0 <= p < 4 => Angle(p, CommandedAngle(offsets[p], offsets[p])))
  }

  /** `reset` visits the servos in order P0..P3, and brings servo p to angle
      0 exactly when its offset lies within [-180, 180]. */
  lemma ResetZeroesInRangeServos(offsets: seq<real>)
    requires |offsets| == 4
    ensures |ResetCommands(offsets)| == 4
    ensures forall p :: 0 <= p < 4 ==> ResetCommands(offsets)[p].servo == p
    ensures forall p :: 0 <= p < 4 ==>
      (ResetCommands(offsets)[p].angle == 0.0 <==> SERVO_MIN <= offsets[p] <= SERVO_MAX)
  {
    forall p | 0 <= p < 4
      ensures ResetCommands(offsets)[p].angle == 0.0 <==> SERVO_MIN <= offsets[p] <= SERVO_MAX
    {
      RequestingOffsetZeroes(offsets[p]);
    }
  }

  class SmartBin {
    /** The configuration file (`config_flie`). */
    const config: ConfigFile
    /** `servo_p0_cali_val` .. `servo_p3_cali_val`. */
    const cali: array<real>
    /** Every servo command issued by this object, oldest first. */
    var log: seq<ServoCommand>

    ghost predicate Valid()
      reads this
    {
      cali.Length == 4
    }

    /** Load the four offsets (falling back to the defaults), then drive
        every servo to its raw offset. */
    constructor (config: ConfigFile)
      ensures Valid() && this.config == config && fresh(cali)
      ensures cali[..] == LoadOffsets(config.entries)
      ensures log == RawCommands(cali[..])
    {
      var offsets := new real[4];
      offsets[0] := config.Get(KEYS[0], DEFAULTS[0]);
      offsets[1] := config.Get(KEYS[1], DEFAULTS[1]);
      offsets[2] := config.Get(KEYS[2], DEFAULTS[2]);
      offsets[3] := config.Get(KEYS[3], DEFAULTS[3]);
      ghost var loaded := LoadOffsets(config.entries);
      assert offsets[..] == loaded by {
        assert loaded[0] == offsets[0] && loaded[1] == offsets[1];
        assert loaded[2] == offsets[2] && loaded[3] == offsets[3];
      }
      this.config := config;
      cali := offsets;
      log := [Angle(0, offsets[0]), Angle(1, offsets[1]), Angle(2, offsets[2]), Angle(3, offsets[3])];
    }

    /** `servo_pN_servo_calibrate(value)`: adopt and persist the new offset
        and drive servo N to it raw. */
    method Calibrate(p: ServoIndex, value: real)
      requires Valid()
      modifies this, cali, config
      ensures Valid()
      ensures cali[..] == old(cali[..])[p := value]
      ensures config.entries == old(config.entries)[KEYS[p] := value]
      ensures log == old(log) + [Angle(p, value)]
    {
      cali[p] := value;
      config.Set(KEYS[p], value);
      log := log + [Angle(p, value)];
    }

    /** `set_servo_pN_angle(value)`: clamp, correct by the offset, invert. */
    method SetServoAngle(p: ServoIndex, value: real)
      requires Valid()
      modifies this
      ensures Valid() && unchanged(cali, config)
      ensures log == old(log) + [Angle(p, CommandedAngle(value, cali[p]))]
    {
      var v := Constrain(value, SERVO_MIN, SERVO_MAX);
      log := log + [Angle(p, -(v - cali[p]))];
    }

    /** `open(pin_number)`. */
    method Open(pinNumber: int)
      requires Valid()
      modifies this
      ensures Valid() && unchanged(cali, config)
      ensures log == old(log) + OpenCommands(pinNumber, cali[..])
    {
      if pinNumber == 0 {
        SetServoAngle(0, OPEN_ANGLES[0]);
      } else if pinNumber == 1 {
        SetServoAngle(1, OPEN_ANGLES[1]);
      } else if pinNumber == 2 {
        SetServoAngle(2, OPEN_ANGLES[2]);
      } else if pinNumber == 3 {
        SetServoAngle(3, OPEN_ANGLES[3]);
      }
    }

    /** `close_all`, which is `reset`. */
    method CloseAll()
      requires Valid()
      modifies this
      ensures Valid() && unchanged(cali, config)
      ensures log == old(log) + ResetCommands(cali[..])
    {
      Reset();
    }

    /** `stop` does nothing. */
    method Stop()
      ensures unchanged(this, cali, config)
    {
    }

    /** `reset`: stop, then ask each servo, P0 to P3, for its own offset. */
    method Reset()
      requires Valid()
      modifies this
      ensures Valid() && unchanged(cali, config)
      ensures log == old(log) + ResetCommands(cali[..])
    {
      Stop();
      SetServoAngle(0, cali[0]);
      SetServoAngle(1, cali[1]);
      SetServoAngle(2, cali[2]);
      SetServoAngle(3, cali[3]);
    }
  }

  /** Calibrating servo p to v and then building a new SmartBin over the same
      file gives that new SmartBin offset v for servo p. */
  method CalibrationSurvivesRestart(config: ConfigFile, p: ServoIndex, v: real) returns (reloaded: real)
    modifies config
    ensures config.entries == old(config.entries)[KEYS[p] := v]
    ensures reloaded == v
  {
    var bin := new SmartBin(config);
    bin.Calibrate(p, v);
    var restarted := new SmartBin(config);
    CalibrationRoundTrip(old(config.entries), p, v);
    reloaded := restarted.cali[p];
  }
}
