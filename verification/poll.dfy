/**
 One step of the status poll: a single read of the session's status stream
 is classified into the pair the poll closure returns, and the one-shot latch
 recording that the interactive handler was started is updated. The helper
 that repeats the step and sleeps between attempts is not part of this model,
 so the returned flag is reproduced as it is and not interpreted.
 */
module Poll {
  import opened Common

  /** Lifecycle tag of a status; only the terminal tag is told apart. */
  datatype TraceStatus = Done | Other(code: int)

  /** A status snapshot: bytes captured so far and the lifecycle tag. */
  datatype Status = Status(bytesCaptured: int, status: TraceStatus)

  /** One read of the status stream: the status (absent when nil) and the error (absent when nil). */
  datatype EventRead = EventRead(status: Option<Status>, err: Option<Error>)

  /** The pair the poll closure in `traceVerb.Run` returns, with its first result named `retry` as in the Go code. */
  datatype StepResult = StepResult(retry: bool, err: Option<Error>)

  /** The returned pair, the latch after the step, and whether this step started the handler. */
  datatype Step = Step(result: StepResult, installed: bool, spawned: bool)

  /** A read that delivered a status with bytes captured. */
  predicate Positive(ev: EventRead)
  {
    ev.err.None? && ev.status.Some? && ev.status.value.bytesCaptured > 0
  }

  /**
   Checks, in order: end of stream, any other error, no status, bytes captured
   (starts the handler once), the terminal tag.
   */
  function PollStep(installed: bool, ev: EventRead): (s: Step)
    ensures ev.err == Some(EndOfStream) ==> s.result == StepResult(true, None)
    ensures s.result.err.Some? <==> ev.err.Some? && ev.err != Some(EndOfStream)
    ensures s.result.err.Some? ==> s.result.err == ev.err && s.result.retry
    ensures !s.result.retry <==> ev.err.None? && ev.status.Some? && ev.status.value.status != Done
    ensures s.installed <==> installed || Positive(ev)
    ensures s.spawned <==> !installed && s.installed
  {
    match ev.err
    case Some(e) => Step(StepResult(true, if e == EndOfStream then None else Some(e)), installed, false)
    case None =>
      match ev.status
      case None => Step(StepResult(true, None), installed, false)
      case Some(st) =>
        var spawn := st.bytesCaptured > 0 && !installed;
        var installed' := installed || spawn;
        if st.status == Done then Step(StepResult(true, None), installed', spawn)
        else Step(StepResult(false, None), installed', spawn)
  }

  /** The latch after the closure has been applied to every read of `evs`, in order. */
  function LatchAfter(installed: bool, evs: seq<EventRead>): bool
    decreases |evs|
  {
    if |evs| == 0 then installed
    else PollStep(LatchAfter(installed, evs[..|evs| - 1]), evs[|evs| - 1]).installed
  }

  /** The step the closure takes on read `k` of `evs`. */
  function StepAt(installed: bool, evs: seq<EventRead>, k: int): Step
    requires 0 <= k < |evs|
  {
    PollStep(LatchAfter(installed, evs[..k]), evs[k])
  }

  /** How many of the steps over `evs` started the handler. */
  function Spawns(installed: bool, evs: seq<EventRead>): nat
    decreases |evs|
  {
    if |evs| == 0 then 0
    else Spawns(installed, evs[..|evs| - 1]) + (if StepAt(installed, evs, |evs| - 1).spawned then 1 else 0)
  }

  /** The latch is set after a sequence of reads exactly when it was set before or some read showed bytes. */
  lemma {:induction false} LatchSetIff(installed: bool, evs: seq<EventRead>)
    ensures LatchAfter(installed, evs) <==> installed || exists k :: 0 <= k < |evs| && Positive(evs[k])
    decreases |evs|
  {
    if |evs| > 0 {
      var n := |evs| - 1;
      var prefix := evs[..n];
      LatchSetIff(installed, prefix);
      assert forall k :: 0 <= k < n ==> prefix[k] == evs[k];
    }
  }

  /** Once set, the latch stays set, whatever is read afterwards. */
  lemma LatchNeverResets(installed: bool, evs: seq<EventRead>, k: int)
    requires 0 <= k <= |evs|
    ensures LatchAfter(installed, evs[..k]) ==> LatchAfter(installed, evs)
  {
    LatchSetIff(installed, evs[..k]);
    LatchSetIff(installed, evs);
    if LatchAfter(installed, evs[..k]) && !installed {
      var j :| 0 <= j < k && Positive(evs[..k][j]);
      assert evs[..k][j] == evs[j];
    }
  }

  /** The handler is started at most once, and from a clear latch exactly when some read shows bytes. */
  lemma {:induction false} SpawnAtMostOnce(installed: bool, evs: seq<EventRead>)
    ensures Spawns(installed, evs) == if !installed && LatchAfter(installed, evs) then 1 else 0
    ensures Spawns(installed, evs) <= 1
    decreases |evs|
  {
    if |evs| > 0 {
      var n := |evs| - 1;
      SpawnAtMostOnce(installed, evs[..n]);
      LatchSetIff(installed, evs[..n]);
      assert StepAt(installed, evs, n) == PollStep(LatchAfter(installed, evs[..n]), evs[n]);
    }
  }

  /** From a clear latch, the handler is started exactly when some read shows bytes. */
  lemma SpawnIffBytes(evs: seq<EventRead>)
    ensures Spawns(false, evs) == 1 <==> exists k :: 0 <= k < |evs| && Positive(evs[k])
    ensures Spawns(false, evs) == 0 <==> forall k :: 0 <= k < |evs| ==> !Positive(evs[k])
  {
    SpawnAtMostOnce(false, evs);
    LatchSetIff(false, evs);
  }

  /** Read `k` starts the handler exactly when it is the first read that shows bytes. */
  lemma SpawnAtFirstPositive(evs: seq<EventRead>, k: int)
    requires 0 <= k < |evs|
    ensures StepAt(false, evs, k).spawned <==> Positive(evs[k]) && forall j :: 0 <= j < k ==> !Positive(evs[j])
  {
    LatchSetIff(false, evs[..k]);
    assert forall j :: 0 <= j < k ==> evs[..k][j] == evs[j];
  }

  /**
   The stream nil, (0 bytes, running), (5 bytes, running), (9 bytes, done):
   the closure returns (true, nil), (false, nil), (false, nil), (true, nil),
   and starts the handler on the third read only.
   */
  lemma ScriptedStream()
    ensures var evs := [EventRead(None, None), EventRead(Some(Status(0, Other(1))), None),
                        EventRead(Some(Status(5, Other(1))), None), EventRead(Some(Status(9, Done)), None)];
            && StepAt(false, evs, 0) == Step(StepResult(true, None), false, false)
            && StepAt(false, evs, 1) == Step(StepResult(false, None), false, false)
            && StepAt(false, evs, 2) == Step(StepResult(false, None), true, true)
            && StepAt(false, evs, 3) == Step(StepResult(true, None), true, false)
            && Spawns(false, evs) == 1
  {
    var evs := [EventRead(None, None), EventRead(Some(Status(0, Other(1))), None),
                EventRead(Some(Status(5, Other(1))), None), EventRead(Some(Status(9, Done)), None)];
    assert evs[..0] == [];
    assert evs[..1][..0] == [];
    assert evs[..2][..1] == evs[..1];
    assert evs[..3][..2] == evs[..2];
    assert evs[..4] == evs;
    assert evs[..4][..3] == evs[..3];
  }
}
