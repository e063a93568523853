// A listener that is told `true` by a run nobody cancelled registered before the run's last pass
// began, and that pass found the outbox empty.
module FreshnessProofs {
  import opened Commons
  import opened FlushRuns
  import opened FlushFlow
  import opened FlushFlowProofs
  import opened ListenerProofs

  predicate Before(joinedAt: seq<nat>, ls: seq<Listener>, t: nat) {
    forall i :: 0 <= i < |ls| ==> ls[i] < |joinedAt| && joinedAt[ls[i]] < t
  }

  predicate AllRegistered(f: Flow, now: nat) {
    && (forall l :: 0 <= l < |f.joinedAt| ==> f.joinedAt[l] < now)
    && (forall r :: 0 <= r < |f.slots.runs| ==> Before(f.joinedAt, f.slots.runs[r].listeners, now))
  }

  // In a pass of an uncancelled run every listener registered before the pass, unless a drain was
  // requested since.
  predicate PassInv(f: Flow) {
    (f.worker.InPass? || f.worker.GotOutcome?) && f.worker.run < |f.slots.runs| ==>
      var run := f.slots.runs[f.worker.run];
      && (run.cancelled || run.drainRequested || Before(f.joinedAt, run.listeners, f.began))
      && (f.worker.GotOutcome? && run.outcome == Drained ==> f.began <= f.seen)
  }

  predicate LeavingInv(f: Flow) {
    match f.worker
    case Leaving(r, _) =>
      r < |f.slots.runs| && f.slots.runs[r].outcome == Drained && !f.slots.runs[r].cancelled ==>
        f.slots.active != Some(r) && f.began <= f.seen && Before(f.joinedAt, f.slots.runs[r].listeners, f.began)
    case Notifying(r, todo, ok, _) =>
      r < |f.slots.runs| && ok && !f.slots.runs[r].cancelled ==>
        f.began <= f.seen && Before(f.joinedAt, todo, f.began)
    case _ => true
  }

  predicate CallFresh(f: Flow, c: Call) {
    c.ok ==>
      && c.run.Some? && c.run.value < |f.slots.runs|
      && (f.slots.runs[c.run.value].cancelled ||
          (c.listener < |f.joinedAt| && f.joinedAt[c.listener] < c.began <= c.seen))
  }

  predicate CallsFresh(f: Flow) {
    forall i :: 0 <= i < |f.calls| ==> CallFresh(f, f.calls[i])
  }

  predicate FreshInv(f: Flow, now: nat) {
    AllRegistered(f, now) && PassInv(f) && LeavingInv(f) && CallsFresh(f)
  }

  // No run but `except` changes, apart from being cancelled.
  predicate OthersKept(s: Slots, s': Slots, except: Option<nat>) {
    && |s'.runs| >= |s.runs|
    && forall i :: 0 <= i < |s.runs| && except != Some(i) ==>
         s'.runs[i] == s.runs[i] || s'.runs[i] == s.runs[i].(cancelled := true)
  }

  lemma {:induction false} CallsKept(f: Flow, g: Flow)
    requires CallsFresh(f) && g.calls == f.calls && f.joinedAt <= g.joinedAt
    requires |g.slots.runs| >= |f.slots.runs|
    requires forall i :: 0 <= i < |f.slots.runs| && f.slots.runs[i].cancelled ==> g.slots.runs[i].cancelled
    ensures CallsFresh(g)
  {
    forall i | 0 <= i < |g.calls|
      ensures CallFresh(g, g.calls[i])
    {
      assert CallFresh(f, f.calls[i]);
    }
  }

  // A step that touches neither the worker's run nor any listener, except by cancelling runs.
  lemma {:induction false} FreshQuiet(f: Flow, g: Flow, now: nat)
    requires FreshInv(f, now) && OthersKept(f.slots, g.slots, None) && |g.slots.runs| == |f.slots.runs|
    requires g.worker == f.worker && g.slots.active == f.slots.active
    requires g.calls == f.calls && g.joinedAt == f.joinedAt && g.began == f.began && g.seen == f.seen
    ensures FreshInv(g, now + 1)
  {
    CallsKept(f, g);
  }

  // What the lock block of flushInternalStart does to the contents of runs.
  predicate ContentEffect(s: Slots, r: Started) {
    && OthersKept(s, r.slots, if r.status == StaleEpoch then None else Some(r.run))
    && (r.status == StaleEpoch ==> |r.slots.runs| == |s.runs|)
    && (r.status == AlreadyRunning ==> |r.slots.runs| == |s.runs| && r.run < |s.runs| && r.slots.runs[r.run].drainRequested)
    && (r.status != StaleEpoch ==> |s.runs| <= |r.slots.runs| <= |s.runs| + 1 && r.run < |r.slots.runs|)
    && (|r.slots.runs| == |s.runs| + 1 ==> r.run == |s.runs|)
    && (r.status != StaleEpoch && r.run < |s.runs| ==>
          && r.slots.runs[r.run].cancelled == s.runs[r.run].cancelled
          && r.slots.runs[r.run].outcome == s.runs[r.run].outcome)
  }

  lemma {:induction false} EnteredContent(s: Slots, force: bool, l: Option<Listener>, explicit: bool)
    requires s.WellFormed()
    ensures ContentEffect(s, Entered(s, force, l, explicit))
  {
  }

  lemma {:induction false} StartContent(s: Slots, force: bool, l: Option<Listener>, expected: Option<nat>)
    requires s.WellFormed()
    ensures ContentEffect(s, Start(s, force, l, expected))
  {
    if expected.None? || expected.value == s.epoch {
      EnteredContent(if expected.Some? then s.(slot := None) else s, force, l, expected.None?);
    }
  }

  lemma {:induction false} RegisteredStarted(f: Flow, g: Flow, r: Started, x: Option<Listener>, now: nat)
    requires AllRegistered(f, now)
    requires JoinEffect(f.slots, r, x) && g.slots == r.slots
    requires if x.Some? then x.value == |f.joinedAt| && g.joinedAt == f.joinedAt + [now] else g.joinedAt == f.joinedAt
    requires |r.slots.runs| > |f.slots.runs| ==> r.run == |f.slots.runs| == |r.slots.runs| - 1
    requires r.status == StaleEpoch ==> |r.slots.runs| == |f.slots.runs|
    ensures AllRegistered(g, now + 1)
  {
    forall i | 0 <= i < |g.slots.runs|
      ensures Before(g.joinedAt, g.slots.runs[i].listeners, now + 1)
    {
      if i < |f.slots.runs| {
        assert Before(f.joinedAt, f.slots.runs[i].listeners, now);
      }
    }
  }

  lemma {:induction false} PassStarted(f: Flow, g: Flow, r: Started, x: Option<Listener>)
    requires LaunchInv(f) && PassInv(f) && LeavingInv(f)
    requires JoinEffect(f.slots, r, x) && ContentEffect(f.slots, r)
    requires f.joinedAt <= g.joinedAt
    requires g.slots == r.slots && g.worker == f.worker && g.began == f.began && g.seen == f.seen
    ensures PassInv(g)
  {
    if f.worker.InPass? || f.worker.GotOutcome? {
      assert Executing(f) == f.slots.active == Some(f.worker.run);
    }
  }

  lemma {:induction false} LeavingStarted(f: Flow, g: Flow, r: Started, x: Option<Listener>)
    requires LaunchInv(f) && LeavingInv(f)
    requires JoinEffect(f.slots, r, x) && ContentEffect(f.slots, r)
    requires f.joinedAt <= g.joinedAt
    requires g.slots == r.slots && g.worker == f.worker && g.began == f.began && g.seen == f.seen
    ensures LeavingInv(g)
  {
    if f.worker.Leaving? && f.slots.active != Some(f.worker.run) {
      assert f.worker.run < Newest(f) && (r.status.StaleEpoch? || r.run != f.worker.run);
    }
  }

  lemma {:induction false} FreshStarted(f: Flow, g: Flow, r: Started, x: Option<Listener>, now: nat)
    requires LaunchInv(f) && FreshInv(f, now)
    requires JoinEffect(f.slots, r, x) && ContentEffect(f.slots, r)
    requires if x.Some? then x.value == |f.joinedAt| && g.joinedAt == f.joinedAt + [now] else g.joinedAt == f.joinedAt
    requires g.slots == r.slots && g.worker == f.worker && g.calls == f.calls && g.began == f.began && g.seen == f.seen
    ensures FreshInv(g, now + 1)
  {
    RegisteredStarted(f, g, r, x, now);
    CancelledKept(f.slots, r);
    CallsKept(f, g);
    PassStarted(f, g, r, x);
    LeavingStarted(f, g, r, x);
  }

  lemma {:induction false} CancelledKept(s: Slots, r: Started)
    requires ContentEffect(s, r)
    ensures |r.slots.runs| >= |s.runs|
    ensures forall i :: 0 <= i < |s.runs| && s.runs[i].cancelled ==> r.slots.runs[i].cancelled
  {
  }

  lemma {:induction false} FreshFlush(f: Flow, force: bool, listens: bool, now: nat)
    requires LaunchInv(f) && FreshInv(f, now)
    ensures FreshInv(Flushed(f, force, listens, now), now + 1)
  {
    var x := if listens then Some(|f.joinedAt|) else None;
    var r := Start(f.slots, force, x, None);
    FlushJoins(f.slots, force, x);
    StartContent(f.slots, force, x, None);
    FreshStarted(f, Flushed(f, force, listens, now), r, x, now);
  }

  lemma {:induction false} FreshRetry(f: Flow, t: nat, now: nat)
    requires LaunchInv(f) && FreshInv(f, now) && t < |f.slots.timers|
    ensures FreshInv(Retried(f, t), now + 1)
  {
    var r := RetryStart(f.slots, t);
    RetryJoins(f.slots, t);
    StartContent(SetPhase(f.slots, t, Left), true, None, Some(f.slots.timers[t].epoch));
    FreshStarted(f, Retried(f, t), r, None, now);
  }

  lemma {:induction false} FreshCancel(f: Flow, target: Option<nat>, now: nat)
    requires LaunchInv(f) && FreshInv(f, now)
    ensures FreshInv(CancelledBy(f, target), now + 1)
  {
    CancelMovesListeners(f.slots, target);
    FreshQuiet(f, CancelledBy(f, target), now);
  }

  // The worker's own steps change its run at most in outcome or by withdrawing the drain request.
  lemma {:induction false} FreshWorker(f: Flow, g: Flow, now: nat)
    requires LaunchInv(f) && FreshInv(f, now)
    requires |g.slots.runs| == |f.slots.runs|
    requires SameListeners(f.slots, g.slots)
    requires forall i :: 0 <= i < |f.slots.runs| ==> g.slots.runs[i].cancelled == f.slots.runs[i].cancelled
    requires g.calls == f.calls && g.joinedAt == f.joinedAt
    requires PassInv(g) && LeavingInv(g)
    ensures FreshInv(g, now + 1)
  {
    CallsKept(f, g);
    forall i | 0 <= i < |g.slots.runs|
      ensures Before(g.joinedAt, g.slots.runs[i].listeners, now + 1)
    {
      assert Before(f.joinedAt, f.slots.runs[i].listeners, now);
    }
  }

  lemma {:induction false} FreshLoopHead(f: Flow, now: nat)
    requires LaunchInv(f) && FreshInv(f, now) && Enabled(f, LoopHead)
    ensures FreshInv(Step(f, LoopHead, now), now + 1)
  {
    assert Before(f.joinedAt, f.slots.runs[f.worker.run].listeners, now);
    FreshWorker(f, Step(f, LoopHead, now), now);
  }

  lemma {:induction false} FreshPass(f: Flow, e: Event, now: nat)
    requires LaunchInv(f) && FreshInv(f, now) && Enabled(f, e)
    requires e.PassThrows? || (e.PassReturns? && (e.outcome == Drained ==> f.began <= e.seen))
    ensures FreshInv(Step(f, e, now), now + 1)
  {
    FreshWorker(f, Step(f, e, now), now);
  }

  lemma {:induction false} FreshDecide(f: Flow, recent: bool, now: nat)
    requires LaunchInv(f) && FreshInv(f, now) && Enabled(f, Decide(recent))
    ensures FreshInv(Decided(f, recent), now + 1)
  {
    var g := Decided(f, recent);
    assert f.slots.active == Some(f.worker.run) by {
      assert Executing(f).Some?;
    }
    if g.worker.Leaving? && f.slots.runs[f.worker.run].outcome == Drained {
      assert f.slots.pending != f.slots.active;
    }
    FreshWorker(f, g, now);
  }

  lemma {:induction false} FreshFinally(f: Flow, now: nat)
    requires LaunchInv(f) && FreshInv(f, now) && Enabled(f, FinallyBlock)
    ensures FreshInv(Finished(f), now + 1)
  {
    FreshWorker(f, Finished(f), now);
  }

  lemma {:induction false} FreshTold(f: Flow, g: Flow, c: Call, now: nat)
    requires FreshInv(f, now) && CallFresh(g, c) && LeavingInv(g)
    requires g.slots == f.slots && f.joinedAt <= g.joinedAt <= f.joinedAt + [now]
    requires g.calls == f.calls + [c] && g.began == f.began && g.seen == f.seen
    requires PassInv(f) ==> PassInv(g)
    ensures FreshInv(g, now + 1)
  {
    forall i | 0 <= i < |g.calls|
      ensures CallFresh(g, g.calls[i])
    {
      if i < |f.calls| {
        assert CallFresh(f, f.calls[i]);
      }
    }
    forall i | 0 <= i < |g.slots.runs|
      ensures Before(g.joinedAt, g.slots.runs[i].listeners, now + 1)
    {
      assert Before(f.joinedAt, f.slots.runs[i].listeners, now);
    }
  }

  lemma {:induction false} FreshTells(f: Flow, e: Event, now: nat)
    requires LaunchInv(f) && FreshInv(f, now) && Enabled(f, e)
    requires e.Skip? || e.TellOwed? || e.TellOne?
    ensures FreshInv(Step(f, e, now), now + 1)
  {
    var g := Step(f, e, now);
    if g.calls == f.calls {
      FreshWorker(f, g, now);
    } else {
      FreshTold(f, g, g.calls[|f.calls|], now);
    }
  }

  lemma {:induction false} FreshStep(f: Flow, e: Event, now: nat)
    requires LaunchInv(f) && FreshInv(f, now) && Enabled(f, e)
    requires e.PassReturns? && e.outcome == Drained ==> f.began <= e.seen
    ensures FreshInv(Step(f, e, now), now + 1)
  {
    match e
    case Skip(_) => FreshTells(f, e, now);
    case TellOwed(_) => FreshTells(f, e, now);
    case TellOne => FreshTells(f, e, now);
    case Flush(force, listens) => FreshFlush(f, force, listens, now);
    case Retry(t) => FreshRetry(f, t, now);
    case CancelAll => FreshCancel(f, None, now);
    case CancelRun(r) => FreshCancel(f, Some(r), now);
    case LoopHead => FreshLoopHead(f, now);
    case PassReturns(_, _) => FreshPass(f, e, now);
    case PassThrows => FreshPass(f, e, now);
    case Decide(recent) => FreshDecide(f, recent, now);
    case FinallyBlock => FreshFinally(f, now);
    case _ => FreshWorker(f, Step(f, e, now), now);
  }

  // Nothing takes a cancellation back.
  predicate CancelledKeeps(s: Slots, s': Slots) {
    |s.runs| <= |s'.runs| && forall r :: 0 <= r < |s.runs| && s.runs[r].cancelled ==> s'.runs[r].cancelled
  }

  lemma {:induction false} CancelledSticks(f: Flow, e: Event, now: nat)
    requires Enabled(f, e)
    ensures CancelledKeeps(f.slots, Step(f, e, now).slots)
  {
    match e
    case Flush(_, _) => StartSticks(f, e, now);
    case Retry(_) => StartSticks(f, e, now);
    case CancelAll => CancelSticks(f, e, now);
    case CancelRun(_) => CancelSticks(f, e, now);
    case PassReturns(_, _) => WorkerSticks(f, e, now);
    case PassThrows => WorkerSticks(f, e, now);
    case Decide(_) => WorkerSticks(f, e, now);
    case FinallyBlock => WorkerSticks(f, e, now);
    case _ => OtherSticks(f, e, now);
  }

  lemma {:induction false} StartSticks(f: Flow, e: Event, now: nat)
    requires Enabled(f, e) && (e.Flush? || e.Retry?)
    ensures CancelledKeeps(f.slots, Step(f, e, now).slots)
  {
    if e.Flush? {
      StartContent(f.slots, e.force, if e.listens then Some(|f.joinedAt|) else None, None);
    } else {
      StartContent(SetPhase(f.slots, e.timer, Left), true, None, Some(f.slots.timers[e.timer].epoch));
    }
  }

  lemma {:induction false} CancelSticks(f: Flow, e: Event, now: nat)
    requires Enabled(f, e) && (e.CancelAll? || e.CancelRun?)
    ensures CancelledKeeps(f.slots, Step(f, e, now).slots)
  {
    CancelHasEffect(f.slots, if e.CancelAll? then None else Some(e.run));
  }

  lemma {:induction false} OtherSticks(f: Flow, e: Event, now: nat)
    requires Enabled(f, e)
    requires e.Skip? || e.Fire? || e.EndTask? || e.TellOwed? || e.Submit? || e.Take? || e.LoopHead? || e.TellOne? || e.EndRun?
    ensures CancelledKeeps(f.slots, Step(f, e, now).slots)
  {
  }

  lemma {:induction false} WorkerSticks(f: Flow, e: Event, now: nat)
    requires Enabled(f, e) && (e.PassReturns? || e.PassThrows? || e.Decide? || e.FinallyBlock?)
    ensures CancelledKeeps(f.slots, Step(f, e, now).slots)
  {
    if !e.FinallyBlock? {
      assert ScheduleRetry(f.slots, f.worker.run).runs == f.slots.runs;
    }
  }
}
