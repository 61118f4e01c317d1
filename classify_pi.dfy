/** smart-bin/src/classify_pi.py: the control loop that reads camera frames,
    classifies each successful frame by the arg-max of the model's scores,
    prints the label and hands it to `pick_bin`. The camera, the TFLite
    interpreter and the keyboard are inputs: a read either fails or yields
    the model's score vector for that frame, together with the key code that
    `waitKey` returns after the frame is shown. */
module ClassifyPi {
  import opened HardwareControl

  /** One `cam.read()`: failed (`ret` false), or a frame whose model output
      is `scores` and after which `waitKey(1)` returned `key`. */
  datatype Read = Dropped | Captured(scores: seq<real>, key: int)

  /** The exceptions the loop body can raise: `np.argmax` of an empty
      output (ValueError) and `LABELS[cls_id]` past the end (IndexError). */
  datatype Error = EmptyScores | IndexError

  datatype Result<T> = Ok(value: T) | Err(error: Error)

  /** How `main` ended: camera not opened; 'q' pressed in debug mode; an
      exception escaped the loop; or still looping after the last read. */
  datatype Exit = CameraUnavailable | QuitPressed | Aborted(error: Error) | StillRunning

  /** The labels printed (each also passed to `pick_bin`), and the ending. */
  datatype Trace = Trace(reports: seq<string>, exit: Exit)

  /** `ord('q')`. */
  const QUIT_KEY: int := 113

  /** `waitKey(1) & 0xFF == ord('q')`; Python's `& 0xFF` keeps the low byte
      of the two's-complement value, which is the non-negative remainder
      modulo 256 (so the "no key" code -1 becomes 255). */
  predicate IsQuitKey(key: int)
  {
    key % 256 == QUIT_KEY
  }

  /** Only the low byte of the key code matters: 'q' (113) quits, and so does
      any code with the same low byte; the "no key" code -1 and 'Q' (81) do not. */
  lemma QuitKeyLowByte(key: int)
    ensures IsQuitKey(key) <==> IsQuitKey(key + 256)
    ensures IsQuitKey(113) && IsQuitKey(369) && IsQuitKey(-143)
    ensures !IsQuitKey(-1) && !IsQuitKey(81) && !IsQuitKey(255)
  {
  }

  /** k holds the largest score, and no earlier index holds one as large. */
  ghost predicate IsFirstMax(s: seq<real>, k: nat)
  {
    k < |s| &&
    (forall j :: 0 <= j < |s| ==> s[j] <= s[k]) &&
    (forall j :: 0 <= j < k ==> s[j] < s[k])
  }

  /** `np.argmax(output)`: the first index of a maximal score. */
  function Argmax(s: seq<real>): (k: nat)
    requires |s| > 0
    ensures IsFirstMax(s, k)
    decreases |s|
  {
    if |s| == 1 then 0
    else
      var k := Argmax(s[..|s| - 1]);
      if s[|s| - 1] > s[k] then |s| - 1 else k
  }

  /** The first maximum is unique, so it is exactly what Argmax returns. */
  lemma FirstMaxIsArgmax(s: seq<real>, k: nat)
    requires |s| > 0
    ensures IsFirstMax(s, k) <==> k == Argmax(s)
  {
  }

  /** `predict` followed by `LABELS[cls_id]`. */
  function Classify(labels: seq<string>, scores: seq<real>): (r: Result<string>)
    ensures r == Err(EmptyScores) <==> scores == []
    ensures r.Ok? ==> r.value in labels
    ensures r == Err(IndexError) ==> |labels| < |scores|
    ensures 0 < |scores| <= |labels| ==> r.Ok?
  {
    if scores == [] then Err(EmptyScores)
    else if Argmax(scores) < |labels| then Ok(labels[Argmax(scores)])
    else Err(IndexError)
  }

  /** A classified frame gets the label whose index holds the first maximal
      score; the two error cases are exactly an empty output and an index
      past the label list. */
  lemma ClassifyResolvesFirstMax(labels: seq<string>, scores: seq<real>, k: nat)
    requires IsFirstMax(scores, k)
    ensures k < |labels| ==> Classify(labels, scores) == Ok(labels[k])
    ensures k >= |labels| ==> Classify(labels, scores) == Err(IndexError)
  {
    FirstMaxIsArgmax(scores, k);
  }

  /** `reports` printed before the trace `t`. */
  function Then(reports: seq<string>, t: Trace): Trace
  {
    Trace(reports + t.reports, t.exit)
  }

  /** The `while True` loop over the reads it is given. */
  function Loop(labels: seq<string>, debug: bool, frames: seq<Read>): Trace
    decreases |frames|
  {
    if frames == [] then Trace([], StillRunning)
    else match frames[0]
      case Dropped => Loop(labels, debug, frames[1..])
      case Captured(scores, key) =>
        match Classify(labels, scores)
        case Err(e) => Trace([], Aborted(e))
        case Ok(name) =>
          if debug && IsQuitKey(key) then Trace([name], QuitPressed)
          else Then([name], Loop(labels, debug, frames[1..]))
  }

  /** One turn of the loop, unfolded. */
  lemma LoopStep(labels: seq<string>, debug: bool, frames: seq<Read>)
    requires frames != []
    ensures frames[0].Dropped? ==> Loop(labels, debug, frames) == Loop(labels, debug, frames[1..])
    ensures frames[0].Captured? && Classify(labels, frames[0].scores).Err? ==>
      Loop(labels, debug, frames) == Trace([], Aborted(Classify(labels, frames[0].scores).error))
    ensures frames[0].Captured? && Classify(labels, frames[0].scores).Ok? ==>
      Loop(labels, debug, frames) ==
        var name := Classify(labels, frames[0].scores).value;
        if debug && IsQuitKey(frames[0].key) then Trace([name], QuitPressed)
        else Then([name], Loop(labels, debug, frames[1..]))
  {
  }

  /** Reports printed in two stretches. */
  lemma ThenThen(a: seq<string>, b: seq<string>, t: Trace)
    ensures Then(a, Then(b, t)) == Then(a + b, t)
  {
    assert a + (b + t.reports) == (a + b) + t.reports;
  }

  /** `main(debug)`: nothing at all happens when the camera does not open. */
  function Run(cameraOpened: bool, labels: seq<string>, debug: bool, frames: seq<Read>): (r: Trace)
    ensures r.exit == CameraUnavailable <==> !cameraOpened
    ensures !cameraOpened ==> r.reports == []
  {
    if cameraOpened then
      LoopNeverCameraUnavailable(labels, debug, frames);
      Loop(labels, debug, frames)
    else Trace([], CameraUnavailable)
  }

  /** The score vectors of the successful frames, in order. */
  function Successes(frames: seq<Read>): seq<seq<real>>
    decreases |frames|
  {
    if frames == [] then []
    else (if frames[0].Captured? then [frames[0].scores] else []) + Successes(frames[1..])
  }

  /** The loop never reports camera failure; that is decided before it. */
  lemma {:induction false} LoopNeverCameraUnavailable(labels: seq<string>, debug: bool, frames: seq<Read>)
    ensures Loop(labels, debug, frames).exit != CameraUnavailable
    decreases |frames|
  {
    if frames != [] {
      LoopNeverCameraUnavailable(labels, debug, frames[1..]);
    }
  }

  /** At most one label is printed per read, and the loop ends on 'q' only in
      debug mode, only after some successful read carried the 'q' key code,
      and with that read's label as the last one reported and dispatched. */
  lemma {:induction false} LoopReportBounds(labels: seq<string>, debug: bool, frames: seq<Read>)
    ensures |Loop(labels, debug, frames).reports| <= |frames|
    ensures Loop(labels, debug, frames).exit == QuitPressed ==>
      var reports := Loop(labels, debug, frames).reports;
      debug && reports != [] &&
      exists i :: 0 <= i < |frames| && frames[i].Captured? && IsQuitKey(frames[i].key) &&
        Classify(labels, frames[i].scores) == Ok(reports[|reports| - 1])
    decreases |frames|
  {
    if frames != [] {
      var t, tail := Loop(labels, debug, frames), Loop(labels, debug, frames[1..]);
      LoopReportBounds(labels, debug, frames[1..]);
      if t.exit == QuitPressed {
        if frames[0].Captured? && Classify(labels, frames[0].scores).Ok? && debug && IsQuitKey(frames[0].key) {
          assert t.reports == [Classify(labels, frames[0].scores).value];
        } else {
          assert tail.exit == QuitPressed;
          var j :| 0 <= j < |frames[1..]| && frames[1..][j].Captured? && IsQuitKey(frames[1..][j].key) &&
            Classify(labels, frames[1..][j].scores) == Ok(tail.reports[|tail.reports| - 1]);
          assert t.reports[|t.reports| - 1] == tail.reports[|tail.reports| - 1];
          assert frames[j + 1] == frames[1..][j];
        }
      }
    }
  }

  /** Running the loop over `a + b` is running it over `a` and, if it is
      still running, continuing over `b`: once the loop has ended (quit key
      or exception) no later read is looked at. */
  lemma {:induction false} LoopAppend(labels: seq<string>, debug: bool, a: seq<Read>, b: seq<Read>)
    ensures Loop(labels, debug, a + b) ==
      if Loop(labels, debug, a).exit == StillRunning
      then Then(Loop(labels, debug, a).reports, Loop(labels, debug, b))
      else Loop(labels, debug, a)
    decreases |a|
  {
    if a == [] {
      assert a + b == b;
    } else {
      assert (a + b)[0] == a[0];
      assert (a + b)[1..] == a[1..] + b;
      LoopAppend(labels, debug, a[1..], b);
      var tb := Loop(labels, debug, b);
      var tail := Loop(labels, debug, a[1..]);
      if a[0].Captured? && Classify(labels, a[0].scores).Ok? && !(debug && IsQuitKey(a[0].key)) {
        var name := Classify(labels, a[0].scores).value;
        if tail.exit == StillRunning {
          assert [name] + (tail.reports + tb.reports) == ([name] + tail.reports) + tb.reports;
        }
      }
    }
  }

  /** A failed read, wherever it falls, leaves the run exactly as if it had
      not happened: no prediction, no report, no `pick_bin`. */
  lemma DroppedReadSkipped(labels: seq<string>, debug: bool, a: seq<Read>, b: seq<Read>)
    ensures Loop(labels, debug, a + [Dropped] + b) == Loop(labels, debug, a + b)
  {
    assert a + [Dropped] + b == a + ([Dropped] + b);
    LoopAppend(labels, debug, a, [Dropped] + b);
    LoopAppend(labels, debug, a, b);
    assert ([Dropped] + b)[1..] == b;
  }

  /** Every report is the label of the corresponding successful read, in
      order: the i-th label printed and dispatched is `LABELS[argmax]` of the
      i-th frame that was read successfully. */
  lemma {:induction false} ReportsAreClassifiedSuccesses(labels: seq<string>, debug: bool, frames: seq<Read>)
    ensures |Loop(labels, debug, frames).reports| <= |Successes(frames)|
    ensures forall i :: 0 <= i < |Loop(labels, debug, frames).reports| ==>
      Classify(labels, Successes(frames)[i]) == Ok(Loop(labels, debug, frames).reports[i])
    decreases |frames|
  {
    if frames != [] {
      ReportsAreClassifiedSuccesses(labels, debug, frames[1..]);
      var t, tail := Loop(labels, debug, frames), Loop(labels, debug, frames[1..]);
      if frames[0].Captured? {
        var name := Classify(labels, frames[0].scores);
        assert Successes(frames) == [frames[0].scores] + Successes(frames[1..]);
        if name.Ok? && !(debug && IsQuitKey(frames[0].key)) {
          assert t.reports == [name.value] + tail.reports;
          forall i | 0 <= i < |t.reports|
            ensures Classify(labels, Successes(frames)[i]) == Ok(t.reports[i])
          {
            if i > 0 {
              assert t.reports[i] == tail.reports[i - 1];
            }
          }
        }
      } else {
        assert Successes(frames) == Successes(frames[1..]);
      }
    }
  }

  /** When no frame faults and no quit is taken, every successful read is
      reported and dispatched, and the loop is still running afterwards. */
  lemma {:induction false} EverySuccessDispatched(labels: seq<string>, debug: bool, frames: seq<Read>)
    requires forall i :: 0 <= i < |frames| && frames[i].Captured? ==>
      Classify(labels, frames[i].scores).Ok? && !(debug && IsQuitKey(frames[i].key))
    ensures Loop(labels, debug, frames).exit == StillRunning
    ensures |Loop(labels, debug, frames).reports| == |Successes(frames)|
    ensures forall i :: 0 <= i < |Successes(frames)| ==>
      Classify(labels, Successes(frames)[i]) == Ok(Loop(labels, debug, frames).reports[i])
    decreases |frames|
  {
    if frames != [] {
      assert forall i :: 0 <= i < |frames[1..]| ==> frames[1..][i] == frames[i + 1];
      EverySuccessDispatched(labels, debug, frames[1..]);
      ReportsAreClassifiedSuccesses(labels, debug, frames);
      if frames[0].Captured? {
        assert Successes(frames) == [frames[0].scores] + Successes(frames[1..]);
      } else {
        assert Successes(frames) == Successes(frames[1..]);
      }
    }
  }

  /** Without the debug flag the loop never ends by a key press. */
  lemma {:induction false} NonDebugNeverQuits(labels: seq<string>, frames: seq<Read>)
    ensures Loop(labels, false, frames).exit != QuitPressed
    decreases |frames|
  {
    if frames != [] {
      NonDebugNeverQuits(labels, frames[1..]);
    }
  }

  /** In debug mode, a frame after which 'q' is pressed is still reported and
      dispatched, and then the loop ends; a frame whose label index is out of
      range ends the loop with IndexError before anything is reported. */
  lemma LoopEndings(labels: seq<string>, scores: seq<real>, key: int, rest: seq<Read>)
    requires scores != []
    ensures Argmax(scores) < |labels| && IsQuitKey(key) ==>
      Loop(labels, true, [Captured(scores, key)] + rest) == Trace([labels[Argmax(scores)]], QuitPressed)
    ensures Argmax(scores) >= |labels| ==>
      Loop(labels, true, [Captured(scores, key)] + rest) == Trace([], Aborted(IndexError)) &&
      Loop(labels, false, [Captured(scores, key)] + rest) == Trace([], Aborted(IndexError))
  {
  }

  /** Frame dropped once, then classified as index 2 of the four standard
      labels: the loop reports "compost" once and opens and closes the
      compost lid (pin 22) once. */
  lemma CompostScenario(scores: seq<real>, key: int)
    requires IsFirstMax(scores, 2)
    ensures Run(true, ["trash", "recycle", "compost", "electronics"], false,
                [Dropped, Captured(scores, key)]) == Trace(["compost"], StillRunning)
    ensures Dispatch(["compost"]) == [ToMax(22), ToMin(22)]
  {
    var labels := ["trash", "recycle", "compost", "electronics"];
    FirstMaxIsArgmax(scores, 2);
    assert Classify(labels, scores) == Ok("compost");
    assert [Dropped, Captured(scores, key)][1..] == [Captured(scores, key)];
    assert [Captured(scores, key)][1..] == [];
    assert Loop(labels, false, [Captured(scores, key)]) == Then(["compost"], Trace([], StillRunning));
    assert ["compost"] + [] == ["compost"];
  }

  /** `main(debug)` over the given camera outcome and reads. The camera is
      released by the `finally` once the loop has been left, by 'q' or by an
      exception; a run still looping after the last read has not released it. */
  method MainLoop(debug: bool, cameraOpened: bool, labels: seq<string>, frames: seq<Read>, bank: ServoBank)
    returns (t: Trace, released: bool)
    modifies bank
    ensures t == Run(cameraOpened, labels, debug, frames)
    ensures released <==> cameraOpened && t.exit != StillRunning
    ensures bank.log == old(bank.log) + Dispatch(t.reports)
  {
    if !cameraOpened {
      return Trace([], CameraUnavailable), false;
    }
    var reports: seq<string> := [];
    var exit := StillRunning;
    var i := 0;
    while i < |frames|
      invariant 0 <= i <= |frames|
      invariant exit == StillRunning
      invariant Loop(labels, debug, frames) == Then(reports, Loop(labels, debug, frames[i..]))
      invariant bank.log == old(bank.log) + Dispatch(reports)
    {
      ghost var rest := frames[i..];
      ghost var before := reports;
      LoopStep(labels, debug, rest);
      assert rest[0] == frames[i] && rest[1..] == frames[i + 1..];
      var read := frames[i];
      i := i + 1;
      if read.Dropped? {
        continue;
      }
      var predicted := Classify(labels, read.scores);
      if predicted.Err? {
        exit := Aborted(predicted.error);
        ThenThen(reports, [], Trace([], exit));
        assert Loop(labels, debug, frames) == Trace(reports, exit);
        break;
      }
      var clsName := predicted.value;
      reports := reports + [clsName];
      DispatchSnoc(before, clsName);
      bank.PickBin(clsName);
      assert bank.log == old(bank.log) + Dispatch(reports) by {
        assert bank.log == (old(bank.log) + Dispatch(before)) + PickBinCommands(clsName);
      }
      if debug && IsQuitKey(read.key) {
        exit := QuitPressed;
        ThenThen(before, [clsName], Trace([], exit));
        assert Loop(labels, debug, frames) == Trace(reports, exit);
        break;
      }
      ThenThen(before, [clsName], Loop(labels, debug, frames[i..]));
    }
    if exit == StillRunning {
      assert frames[i..] == [];
      ThenThen(reports, [], Trace([], exit));
    }
    assert Loop(labels, debug, frames) == Trace(reports, exit);
    t := Trace(reports, exit);
    released := exit != StillRunning;
  }
}
