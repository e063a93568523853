// Histories that show why the hypotheses of the main results are needed.
module FlushScenarios {
  import opened Commons
  import opened FlushRuns
  import opened FlushFlow
  import opened FlushHistories
  import opened RetryProofs

  // A property of states that the start has and that every possible step keeps. The scenarios below
  // are walks inside an arbitrary such property, so in particular inside the reachable states.
  ghost predicate Closed(P: (Flow, nat) -> bool) {
    && P(START, 0)
    && forall f: Flow, e: Event, now: nat :: P(f, now) && Possible(f, e, now) ==> P(Step(f, e, now), now + 1)
  }

  lemma {:induction false} Move(P: (Flow, nat) -> bool, f: Flow, now: nat, e: Event) returns (g: Flow)
    requires Closed(P) && P(f, now) && Possible(f, e, now)
    ensures g == Step(f, e, now) && P(g, now + 1)
  {
    g := Step(f, e, now);
  }

  // Some history ends in state f, before time `now`.
  ghost predicate Reachable(f: Flow, now: nat) {
    exists h :: After(h) == Some(f) && Clock(h) <= now
  }

  lemma {:induction false} ReachableIsClosed()
    ensures Closed(Reachable)
  {
    assert After([]) == Some(START);
    forall f: Flow, e: Event, now: nat | Reachable(f, now) && Possible(f, e, now)
      ensures Reachable(Step(f, e, now), now + 1)
    {
      var h :| After(h) == Some(f) && Clock(h) <= now;
      AfterOneMore(h, Timed(e, now));
      assert Clock(h + [Timed(e, now)]) == now + 1;
    }
  }

  function OneRun(r: Run): Slots {
    INITIAL.(runs := [r], active := Some(0), epoch := 2)
  }

  // A caller without a listener has opened a run and the worker is in its first pass.
  const OPENED := START.(slots := OneRun(NewRun(2, true)), launching := [0], activated := [0])
  const FIRST_PASS := OPENED.(launching := [], submitted := [0], worker := InPass(0), began := 3)

  lemma {:induction false} BeginPass(P: (Flow, nat) -> bool)
    requires Closed(P)
    ensures P(FIRST_PASS, 4)
  {
    var f := Move(P, START, 0, Flush(true, false));
    assert f.slots.runs == [NewRun(2, true)];
    assert f == OPENED;
    f := Move(P, f, 1, Submit);
    f := Move(P, f, 2, Take);
    f := Move(P, f, 3, LoopHead);
  }

  // ---------- A cancelled run can report success to a listener that came too late ----------

  const LATE_RUN := Run(2, true, false, true, [0], Failed)
  const JOINED := FIRST_PASS.(slots := OneRun(LATE_RUN), joinedAt := [4])
  const CANCELLED := JOINED.(
    slots := OneRun(LATE_RUN.(outcome := Drained, cancelled := true)).(epoch := 3),
    worker := GotOutcome(0), seen := 4, cancels := 1)
  const LATE := CANCELLED.(
    slots := CANCELLED.slots.(active := None), worker := Notifying(0, [], true, None), last := Some(0),
    calls := [Call(0, true, Some(0), 3, 4)])

  lemma {:induction false} CancelAfterDrained(P: (Flow, nat) -> bool)
    requires Closed(P)
    ensures P(CANCELLED, 7)
  {
    BeginPass(P);
    var f := Move(P, FIRST_PASS, 4, Flush(true, true));
    assert f.slots.runs[0].listeners == [0];
    assert f.slots.runs == [LATE_RUN];
    assert f == JOINED;
    f := Move(P, f, 5, PassReturns(Drained, 4));
    f := Move(P, f, 6, CancelAll);
    assert f.slots.runs == CANCELLED.slots.runs;
    assert f == CANCELLED;
  }

  // The listener joined after the pass began, the pass found the outbox empty, and a cancellation
  // came before the worker looked at the drain request: it is told `true` all the same.
  lemma {:induction false} CancelledRunReportsSuccess()
    ensures Reachable(LATE, 10)
    ensures LATE.calls[0].ok && LATE.calls[0].began < LATE.joinedAt[LATE.calls[0].listener]
  {
    ReachableIsClosed();
    TellLate(Reachable);
  }

  lemma {:induction false} TellLate(P: (Flow, nat) -> bool)
    requires Closed(P)
    ensures P(LATE, 10)
  {
    CancelAfterDrained(P);
    var f := Move(P, CANCELLED, 7, Decide(false));
    f := Move(P, f, 8, FinallyBlock);
    assert f.worker.todo[1..] == [];
    f := Move(P, f, 9, TellOne);
    assert f.calls == LATE.calls;
    assert f == LATE;
  }

  // ---------- Without calm, a failure can leave no retry armed ----------

  // A second cancellation of the same run moves the epoch past the run that waits behind it.
  const WAITING := FIRST_PASS.(
    slots := Slots([NewRun(2, true).(cancelled := true), NewRun(3, true)], Some(0), Some(1), 4, [], None), cancels := 2)
  const SECOND_PASS := WAITING.(
    slots := Slots([WAITING.slots.runs[0].(outcome := Cancelled), NewRun(3, true)], Some(1), None, 4, [], None),
    worker := InPass(1), activated := [0, 1], submitted := [0, 1], last := Some(0), began := 12)
  const STRANDED := SECOND_PASS.(
    slots := SECOND_PASS.slots.(active := None), worker := Idle, last := Some(1))

  lemma {:induction false} CancelTwice(P: (Flow, nat) -> bool)
    requires Closed(P)
    ensures P(WAITING, 7)
  {
    BeginPass(P);
    var f := Move(P, FIRST_PASS, 4, CancelRun(0));
    f := Move(P, f, 5, Flush(true, false));
    assert f.slots.runs == WAITING.slots.runs;
    f := Move(P, f, 6, CancelRun(0));
    assert f.slots.runs == WAITING.slots.runs;
    assert f == WAITING;
  }

  const HANDED_OVER := SECOND_PASS.(worker := Notifying(0, [], false, Some(1)), submitted := [0], began := WAITING.began)

  lemma {:induction false} LeaveWaiting(P: (Flow, nat) -> bool)
    requires Closed(P)
    ensures P(HANDED_OVER, 10)
  {
    CancelTwice(P);
    var f := Move(P, WAITING, 7, PassReturns(Cancelled, 0));
    assert f.slots.runs == SECOND_PASS.slots.runs;
    f := Move(P, f, 8, Decide(false));
    f := Move(P, f, 9, FinallyBlock);
    assert f == HANDED_OVER;
  }

  lemma {:induction false} RunWaiting(P: (Flow, nat) -> bool)
    requires Closed(P)
    ensures P(SECOND_PASS, 13)
  {
    LeaveWaiting(P);
    var f := Move(P, HANDED_OVER, 10, EndRun);
    f := Move(P, f, 11, Take);
    f := Move(P, f, 12, LoopHead);
    assert f == SECOND_PASS;
  }

  lemma {:induction false} FailWaiting(P: (Flow, nat) -> bool)
    requires Closed(P)
    ensures P(STRANDED, 17)
  {
    RunWaiting(P);
    var f := Move(P, SECOND_PASS, 13, PassReturns(Failed, 0));
    assert f.slots.runs == SECOND_PASS.slots.runs;
    f := Move(P, f, 14, Decide(true));
    f := Move(P, f, 15, FinallyBlock);
    f := Move(P, f, 16, EndRun);
    assert f == STRANDED;
  }

  lemma {:induction false} SecondCancelLosesRetry()
    ensures Reachable(STRANDED, 17)
    ensures STRANDED.early == 0 && Quiescent(STRANDED) && IdleAfterFailure(STRANDED) && !Armed(STRANDED.slots)
  {
    ReachableIsClosed();
    FailWaiting(Reachable);
  }

  // A retry that fires while its run has not yet left the active slot joins that run and is lost.
  const FAILING := FIRST_PASS.(
    slots := FIRST_PASS.slots.(timers := [Timer(2, Waiting, false)], slot := Some(0)), worker := Leaving(0, None))
  const FIRED := FAILING.(
    slots := Slots([NewRun(2, true).(drainRequested := true)], Some(0), None, 2, [Timer(2, Left, false)], None),
    early := 1)
  const UNARMED := FIRED.(
    slots := FIRED.slots.(active := None, timers := [Timer(2, Ended, false)]), worker := Idle, last := Some(0))

  lemma {:induction false} FailFirst(P: (Flow, nat) -> bool)
    requires Closed(P)
    ensures P(FAILING, 6)
  {
    BeginPass(P);
    var f := Move(P, FIRST_PASS, 4, PassReturns(Failed, 0));
    assert f.slots.runs == FIRST_PASS.slots.runs;
    f := Move(P, f, 5, Decide(true));
    assert f == FAILING;
  }

  lemma {:induction false} FireEarly(P: (Flow, nat) -> bool)
    requires Closed(P)
    ensures P(FIRED, 8)
  {
    FailFirst(P);
    var f := Move(P, FAILING, 6, Fire(0));
    assert f.slots.timers == [Timer(2, Firing, false)];
    f := Move(P, f, 7, Retry(0));
    assert f.slots.timers == FIRED.slots.timers;
    assert f.slots.runs == FIRED.slots.runs;
    assert f == FIRED;
  }

  lemma {:induction false} LeaveFired(P: (Flow, nat) -> bool)
    requires Closed(P)
    ensures P(UNARMED.(worker := Notifying(0, [], false, None)), 10)
  {
    FireEarly(P);
    var f := Move(P, FIRED, 8, EndTask(0));
    assert f.slots.timers == UNARMED.slots.timers;
    f := Move(P, f, 9, FinallyBlock);
  }

  lemma {:induction false} FinishUnarmed(P: (Flow, nat) -> bool)
    requires Closed(P)
    ensures P(UNARMED, 11)
  {
    LeaveFired(P);
    var f := Move(P, UNARMED.(worker := Notifying(0, [], false, None)), 10, EndRun);
  }

  lemma {:induction false} EarlyFireLosesRetry()
    ensures Reachable(UNARMED, 11)
    ensures UNARMED.cancels == 0 && Quiescent(UNARMED) && IdleAfterFailure(UNARMED) && !Armed(UNARMED.slots)
  {
    ReachableIsClosed();
    FinishUnarmed(Reachable);
  }

  // One targeted cancellation is enough: the retry that the cancelled run had armed is stale but not
  // done, and the retry of the run that waited behind it is merged into it.
  const STALE_TIMER := FIRST_PASS.(
    slots := Slots([NewRun(2, true).(cancelled := true), NewRun(3, true)], Some(0), Some(1), 3,
                   [Timer(2, Waiting, false)], Some(0)),
    worker := GotOutcome(0), cancels := 1)
  const SECOND_RUN := STALE_TIMER.(
    slots := STALE_TIMER.slots.(active := Some(1), pending := None),
    worker := InPass(1), activated := [0, 1], submitted := [0, 1], last := Some(0), began := 11)
  const MERGED := SECOND_RUN.(
    slots := SECOND_RUN.slots.(active := None), worker := Idle, last := Some(1))

  lemma {:induction false} CancelAfterFailure(P: (Flow, nat) -> bool)
    requires Closed(P)
    ensures P(STALE_TIMER, 7)
  {
    BeginPass(P);
    var f := Move(P, FIRST_PASS, 4, PassReturns(Failed, 0));
    assert f.slots.runs == FIRST_PASS.slots.runs && f.slots.timers == [Timer(2, Waiting, false)];
    f := Move(P, f, 5, CancelRun(0));
    f := Move(P, f, 6, Flush(true, false));
    assert f.slots.runs == STALE_TIMER.slots.runs;
    assert f == STALE_TIMER;
  }

  lemma {:induction false} HandOverStale(P: (Flow, nat) -> bool)
    requires Closed(P)
    ensures P(SECOND_RUN.(worker := Notifying(0, [], false, Some(1)), submitted := [0], began := 3), 9)
  {
    CancelAfterFailure(P);
    var f := Move(P, STALE_TIMER, 7, Decide(true));
    f := Move(P, f, 8, FinallyBlock);
    assert f.activated == [0, 1] && f.slots.runs == SECOND_RUN.slots.runs;
    assert f == SECOND_RUN.(worker := Notifying(0, [], false, Some(1)), submitted := [0], began := 3);
  }

  lemma {:induction false} BeginSecond(P: (Flow, nat) -> bool)
    requires Closed(P)
    ensures P(SECOND_RUN, 12)
  {
    HandOverStale(P);
    var f := SECOND_RUN.(worker := Notifying(0, [], false, Some(1)), submitted := [0], began := 3);
    f := Move(P, f, 9, EndRun);
    f := Move(P, f, 10, Take);
    f := Move(P, f, 11, LoopHead);
    assert f == SECOND_RUN;
  }

  lemma {:induction false} MergeSecond(P: (Flow, nat) -> bool)
    requires Closed(P)
    ensures P(MERGED, 16)
  {
    BeginSecond(P);
    var f := Move(P, SECOND_RUN, 12, PassReturns(Failed, 0));
    assert f.slots.runs == SECOND_RUN.slots.runs;
    f := Move(P, f, 13, Decide(true));
    f := Move(P, f, 14, FinallyBlock);
    f := Move(P, f, 15, EndRun);
    assert f == MERGED;
  }

  lemma {:induction false} OneCancelLosesRetry()
    ensures Reachable(MERGED, 16)
    ensures MERGED.cancels == 1 && MERGED.early == 0 && !MERGED.slots.runs[1].cancelled
    ensures Quiescent(MERGED) && IdleAfterFailure(MERGED) && !Armed(MERGED.slots)
  {
    ReachableIsClosed();
    MergeSecond(Reachable);
  }
}
