/** The two robot_hat services the lid controllers rely on, reduced to what
    the controllers can observe: a servo channel is the ordered record of the
    angles it was told to take, and the fileDB configuration file is a
    key -> value map that outlives any one controller object. */
module RobotHat {

  /** One of the four servo channels P0..P3 of a SmartBin. */
  type ServoIndex = p: nat | p < 4

  /** One call `servo_pN.angle(a)`: channel N was commanded to angle `a` (degrees). */
  datatype ServoCommand = Angle(servo: ServoIndex, angle: real)

  /** The number `get(key, default_value)` yields on a file holding `entries`. */
  function Lookup(entries: map<string, real>, key: string, default: real): real
  {
    if key in entries then entries[key] else default
  }

  /** Writing a key makes it read back, and leaves every other key as it was. */
  lemma LookupAfterSet(entries: map<string, real>, key: string, value: real, other: string, default: real)
    ensures Lookup(entries[key := value], key, default) == value
    ensures other != key ==> Lookup(entries[key := value], other, default) == Lookup(entries, other, default)
  {
  }

  /** The persisted calibration file. Several controllers built over the same
      file see each other's writes, which is what makes calibration survive a
      restart. */
  class ConfigFile {
    var entries: map<string, real>

    constructor (initial: map<string, real>)
      ensures entries == initial
    {
      entries := initial;
    }

    /** `get(key, default_value)`, followed by the caller's `float(...)`. */
    method Get(key: string, default: real) returns (v: real)
      ensures v == Lookup(entries, key, default)
      ensures key in entries ==> v == entries[key]
      ensures key !in entries ==> v == default
    {
      v := if key in entries then entries[key] else default;
    }

    /** `set(key, "%s" % value)`. */
    method Set(key: string, value: real)
      modifies this
      ensures entries == old(entries)[key := value]
    {
      entries := entries[key := value];
    }
  }

  /** No key occurs twice. */
  ghost predicate Distinct(keys: seq<string>)
  {
    forall i, j :: 0 <= i < j < |keys| ==> keys[i] != keys[j]
  }

  /** The offsets a controller loads at start-up: the value stored under each
      key, or that key's default when the file lacks it. */
  function LoadAll(entries: map<string, real>, keys: seq<string>, defaults: seq<real>): seq<real>
    requires |keys| == |defaults|
  {
    seq(|keys|, i requires 0 <= i < |keys| => Lookup(entries, keys[i], defaults[i]))
  }

  /** Storing value v under key i changes the loaded offsets in position i,
      to v, and nowhere else, provided the keys are distinct. */
  lemma LoadAfterSet(entries: map<string, real>, keys: seq<string>, defaults: seq<real>, i: nat, v: real)
    requires |keys| == |defaults| && Distinct(keys) && i < |keys|
    ensures LoadAll(entries[keys[i] := v], keys, defaults) == LoadAll(entries, keys, defaults)[i := v]
  {
    var after, before := LoadAll(entries[keys[i] := v], keys, defaults), LoadAll(entries, keys, defaults);
    forall j | 0 <= j < |keys|
      ensures after[j] == before[i := v][j]
    {
      if j != i {
        assert keys[j] != keys[i] by {
          if j < i { assert keys[j] != keys[i]; } else { assert keys[i] != keys[j]; }
        }
        LookupAfterSet(entries, keys[i], v, keys[j], defaults[j]);
      } else {
        LookupAfterSet(entries, keys[i], v, keys[i], defaults[i]);
      }
    }
  }

  /** The start-up commands: every servo, P0 to P3 in order, driven to its own
      raw offset, with no clamping and no sign inversion. */
  function RawCommands(offsets: seq<real>): seq<ServoCommand>
    requires |offsets| == 4
  {
    [Angle(0, offsets[0]), Angle(1, offsets[1]), Angle(2, offsets[2]), Angle(3, offsets[3])]
  }
}
