/** smart-bin/src/hardware_control.py: the static class-name -> GPIO pin map,
    one lid servo per mapped class, and `pick_bin`, which opens and then
    closes the lid of the named class. Whether real GPIO servos or the no-op
    stubs are in use does not change which calls `pick_bin` makes; the model
    records those calls. */
module HardwareControl {

  /** PIN_MAP: the GPIO pin of each bin's lid servo. */
  const PIN_MAP: map<string, nat> := map["trash" := 17, "recycle" := 27, "compost" := 22, "electronics" := 23]

  /** Pulse widths given to every servo (0.5 ms and 2.4 ms, in seconds). */
  const MIN_PULSE_WIDTH: real := 0.0005
  const MAX_PULSE_WIDTH: real := 0.0024

  /** How one lid servo is set up. */
  datatype Servo = Servo(pin: nat, minPulseWidth: real, maxPulseWidth: real)

  /** The `SERVOS` comprehension over a pin map. */
  function BuildServos(pinMap: map<string, nat>): map<string, Servo>
  {
    map cls | cls in pinMap :: Servo(pinMap[cls], MIN_PULSE_WIDTH, MAX_PULSE_WIDTH)
  }

  const SERVOS: map<string, Servo> := BuildServos(PIN_MAP)

  /** PIN_MAP binds exactly trash, recycle, compost and electronics, to pins
      17, 27, 22 and 23, and no two classes share a pin. */
  lemma PinMapBindings()
    ensures PIN_MAP.Keys == {"trash", "recycle", "compost", "electronics"}
    ensures PIN_MAP["trash"] == 17 && PIN_MAP["recycle"] == 27
    ensures PIN_MAP["compost"] == 22 && PIN_MAP["electronics"] == 23
    ensures forall c, d :: c in PIN_MAP && d in PIN_MAP && c != d ==> PIN_MAP[c] != PIN_MAP[d]
  {
  }

  /** SERVOS holds one servo per PIN_MAP class, on that class's pin. */
  lemma ServosOnePerClass()
    ensures SERVOS.Keys == PIN_MAP.Keys
    ensures forall cls :: cls in SERVOS ==>
      SERVOS[cls] == Servo(PIN_MAP[cls], MIN_PULSE_WIDTH, MAX_PULSE_WIDTH)
  {
  }

  /** The two calls a servo can receive: `max()` (lid open) and `min()`
      (lid closed). */
  datatype LidCommand = ToMax(pin: nat) | ToMin(pin: nat)

  /** The state a lid is left in by a command history. */
  datatype Lid = NeverMoved | Open | Closed

  /** The lid on `pin` is where the last command for that pin put it. */
  function LidAt(log: seq<LidCommand>, pin: nat): Lid
    decreases |log|
  {
    if log == [] then NeverMoved
    else if log[|log| - 1].pin == pin then (if log[|log| - 1].ToMax? then Open else Closed)
    else LidAt(log[..|log| - 1], pin)
  }

  /** Commands addressed to other pins do not move the lid on `pin`. */
  lemma {:induction false} LidAtIgnoresOtherPins(log: seq<LidCommand>, more: seq<LidCommand>, pin: nat)
    requires forall i :: 0 <= i < |more| ==> more[i].pin != pin
    ensures LidAt(log + more, pin) == LidAt(log, pin)
    decreases |more|
  {
    if more != [] {
      var shorter := more[..|more| - 1];
      assert more[|more| - 1].pin != pin;
      assert (log + more)[|log + more| - 1] == more[|more| - 1];
      assert (log + more)[..|log + more| - 1] == log + shorter;
      LidAtIgnoresOtherPins(log, shorter, pin);
      assert LidAt(log + more, pin) == LidAt(log + shorter, pin);
    } else {
      assert log + more == log;
    }
  }

  /** The commands `pick_bin(clsName)` issues: none for an unmapped name;
      otherwise `max()` then `min()` on that class's servo. */
  function PickBinCommands(clsName: string): seq<LidCommand>
  {
    if clsName in SERVOS then [ToMax(SERVOS[clsName].pin), ToMin(SERVOS[clsName].pin)] else []
  }

  /** Every command of `pick_bin(clsName)` goes to the servo bound to that
      name, and there are two of them exactly when the name is mapped. */
  lemma PickBinTargetsOnlyItsServo(clsName: string)
    ensures clsName !in PIN_MAP ==> PickBinCommands(clsName) == []
    ensures clsName in PIN_MAP ==> |PickBinCommands(clsName)| == 2
    ensures forall i :: 0 <= i < |PickBinCommands(clsName)| ==>
      PickBinCommands(clsName)[i].pin == PIN_MAP[clsName]
  {
  }

  /** After `pick_bin` on a mapped name, that lid is closed whatever its
      earlier state, and every other lid is as it was. */
  lemma PickBinLeavesLidClosed(log: seq<LidCommand>, clsName: string, pin: nat)
    ensures clsName in PIN_MAP && pin == PIN_MAP[clsName] ==>
      LidAt(log + PickBinCommands(clsName), pin) == Closed
    ensures clsName !in PIN_MAP || pin != PIN_MAP[clsName] ==>
      LidAt(log + PickBinCommands(clsName), pin) == LidAt(log, pin)
  {
    if clsName in PIN_MAP && pin == PIN_MAP[clsName] {
      var after := log + PickBinCommands(clsName);
      assert after[|after| - 1] == ToMin(pin);
    } else {
      LidAtIgnoresOtherPins(log, PickBinCommands(clsName), pin);
    }
  }

  /** Two `pick_bin` calls in a row leave every lid as one call does. */
  lemma PickBinIdempotent(log: seq<LidCommand>, clsName: string, pin: nat)
    ensures LidAt(log + PickBinCommands(clsName) + PickBinCommands(clsName), pin)
         == LidAt(log + PickBinCommands(clsName), pin)
  {
    PickBinLeavesLidClosed(log, clsName, pin);
    PickBinLeavesLidClosed(log + PickBinCommands(clsName), clsName, pin);
  }

  /** The commands of `pick_bin` called once per name, in order. */
  function Dispatch(names: seq<string>): seq<LidCommand>
  {
    if names == [] then [] else Dispatch(names[..|names| - 1]) + PickBinCommands(names[|names| - 1])
  }

  lemma DispatchSnoc(names: seq<string>, name: string)
    ensures Dispatch(names + [name]) == Dispatch(names) + PickBinCommands(name)
  {
    assert (names + [name])[..|names|] == names;
  }

  lemma {:induction false} DispatchAppend(a: seq<string>, b: seq<string>)
    ensures Dispatch(a + b) == Dispatch(a) + Dispatch(b)
    decreases |b|
  {
    if b != [] {
      var b' := b[..|b| - 1];
      assert (a + b)[..|a + b| - 1] == a + b';
      DispatchAppend(a, b');
    } else {
      assert a + b == a;
    }
  }

  /** After a sequence of `pick_bin` calls, the lid of every pin some name
      was mapped to is closed, and every other lid is as it was. */
  lemma {:induction false} DispatchLeavesLidsClosed(log: seq<LidCommand>, names: seq<string>, pin: nat)
    ensures (exists i :: 0 <= i < |names| && names[i] in PIN_MAP && PIN_MAP[names[i]] == pin) ==>
      LidAt(log + Dispatch(names), pin) == Closed
    ensures (forall i :: 0 <= i < |names| ==> names[i] !in PIN_MAP || PIN_MAP[names[i]] != pin) ==>
      LidAt(log + Dispatch(names), pin) == LidAt(log, pin)
    decreases |names|
  {
    if names == [] {
      assert log + Dispatch(names) == log;
    } else {
      var init, last := names[..|names| - 1], names[|names| - 1];
      assert log + Dispatch(names) == (log + Dispatch(init)) + PickBinCommands(last);
      PickBinLeavesLidClosed(log + Dispatch(init), last, pin);
      DispatchLeavesLidsClosed(log, init, pin);
      forall i | 0 <= i < |init|
        ensures init[i] == names[i]
      {
      }
      if exists i :: 0 <= i < |names| && names[i] in PIN_MAP && PIN_MAP[names[i]] == pin {
        var i :| 0 <= i < |names| && names[i] in PIN_MAP && PIN_MAP[names[i]] == pin;
        if !(last in PIN_MAP && PIN_MAP[last] == pin) {
          assert i < |init| && init[i] == names[i];
        }
      }
    }
  }

  /** The servos behind SERVOS, as the record of calls they received. */
  class ServoBank {
    var log: seq<LidCommand>

    constructor ()
      ensures log == []
    {
      log := [];
    }

    /** `pick_bin(cls_name)`: unmapped names are a no-op; a mapped one opens
        the lid, holds it for the dwell time, and closes it. */
    method PickBin(clsName: string)
      modifies this
      ensures log == old(log) + PickBinCommands(clsName)
    {
      if clsName !in SERVOS {
        return;
      }
      var servo := SERVOS[clsName];
      log := log + [ToMax(servo.pin)];
      log := log + [ToMin(servo.pin)];
    }
  }
}
