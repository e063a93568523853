// What every success that is told means, from a cancelled run too, and exactly which listeners it does
// not cover.
module SuccessProofs {
  import opened Commons
  import opened FlushRuns
  import opened FlushFlow
  import opened FlushFlowProofs
  import opened FlushHistories

  // ---------- Every success follows a drained pass ----------

  predicate HasDrained(s: Slots, r: nat) {
    r < |s.runs| && s.runs[r].outcome == Drained
  }

  // Runs that no pass has worked on yet are not drained, and where the worker knows its run to be
  // drained, its last pass has seen the outbox empty.
  predicate DrainedInv(f: Flow) {
    && (f.slots.active.Some? && Executing(f).None? ==> !HasDrained(f.slots, f.slots.active.value))
    && (f.slots.pending.Some? ==> !HasDrained(f.slots, f.slots.pending.value))
    && match f.worker
       case InPass(_) => 0 < f.began
       case AtLoop(r) => HasDrained(f.slots, r) ==> 0 < f.began <= f.seen
       case GotOutcome(r) => HasDrained(f.slots, r) ==> 0 < f.began <= f.seen
       case Leaving(r, _) => HasDrained(f.slots, r) ==> 0 < f.began <= f.seen
       case Notifying(_, _, ok, _) => ok ==> 0 < f.began <= f.seen
       case _ => true
  }

  predicate CallsDrained(f: Flow) {
    forall i :: 0 <= i < |f.calls| && f.calls[i].ok ==> f.calls[i].run.Some? && 0 < f.calls[i].began <= f.calls[i].seen
  }

  // Starting a run or joining one gives no run an outcome.
  ghost predicate NoNewDrained(s: Slots, s': Slots) {
    forall r :: HasDrained(s', r) ==> HasDrained(s, r)
  }

  lemma {:induction false} StartedDrained(f: Flow, g: Flow, r: Started)
    requires LaunchInv(f) && DrainedInv(f) && StartEffect(f.slots, r) && NoNewDrained(f.slots, r.slots)
    requires g.worker == f.worker && g.slots == r.slots && g.began == f.began && g.seen == f.seen
    ensures DrainedInv(g)
  {
  }

  lemma {:induction false} EnteredOutcomes(s: Slots, force: bool, l: Option<Listener>, explicit: bool)
    requires s.WellFormed()
    ensures NoNewDrained(s, Entered(s, force, l, explicit).slots)
  {
  }

  lemma {:induction false} StartOutcomes(s: Slots, force: bool, l: Option<Listener>, expected: Option<nat>)
    requires s.WellFormed()
    ensures NoNewDrained(s, Start(s, force, l, expected).slots)
  {
    if expected.None? || expected.value == s.epoch {
      EnteredOutcomes(if expected.Some? then s.(slot := None) else s, force, l, expected.None?);
    }
  }

  lemma {:induction false} DrainedFlush(f: Flow, force: bool, listens: bool, now: nat)
    requires LaunchInv(f) && DrainedInv(f)
    ensures DrainedInv(Flushed(f, force, listens, now))
  {
    var l := if listens then Some(|f.joinedAt|) else None;
    StartHasEffect(f.slots, force, l, None);
    StartOutcomes(f.slots, force, l, None);
    StartedDrained(f, Flushed(f, force, listens, now), Start(f.slots, force, l, None));
  }

  lemma {:induction false} DrainedRetry(f: Flow, t: nat)
    requires LaunchInv(f) && DrainedInv(f) && t < |f.slots.timers|
    ensures DrainedInv(Retried(f, t))
  {
    RetryHasEffect(f.slots, t);
    StartOutcomes(SetPhase(f.slots, t, Left), true, None, Some(f.slots.timers[t].epoch));
    StartedDrained(f, Retried(f, t), RetryStart(f.slots, t));
  }

  lemma {:induction false} DrainedCancel(f: Flow, target: Option<nat>)
    requires LaunchInv(f) && DrainedInv(f)
    ensures DrainedInv(CancelledBy(f, target))
  {
    CancelHasEffect(f.slots, target);
    assert NoNewDrained(f.slots, Cancel(f.slots, target).slots);
  }

  lemma {:induction false} DrainedPass(f: Flow, e: Event, now: nat)
    requires LaunchInv(f) && DrainedInv(f) && Possible(f, e, now) && (e.PassReturns? || e.PassThrows?)
    ensures DrainedInv(Step(f, e, now))
  {
    assert Executing(f) == f.slots.active == Some(f.worker.run);
    SteadyRetry(f.slots, f.worker.run);
    assert ScheduleRetry(f.slots, f.worker.run).runs == f.slots.runs;
  }

  lemma {:induction false} DrainedDecide(f: Flow, recent: bool)
    requires LaunchInv(f) && DrainedInv(f) && Enabled(f, Decide(recent))
    ensures DrainedInv(Decided(f, recent))
  {
    assert Executing(f) == f.slots.active == Some(f.worker.run);
    assert ScheduleRetry(f.slots, f.worker.run).runs == f.slots.runs;
  }

  lemma {:induction false} DrainedWorker(f: Flow, e: Event, now: nat)
    requires LaunchInv(f) && DrainedInv(f) && Enabled(f, e) && (e.LoopHead? ==> 0 < now)
    requires e.Take? || e.LoopHead? || e.FinallyBlock? || e.TellOne? || e.EndRun? || e.Submit?
    ensures DrainedInv(Step(f, e, now))
  {
    assert Executing(f).Some? ==> Executing(f) == f.slots.active;
  }

  lemma {:induction false} DrainedQuiet(f: Flow, e: Event, now: nat)
    requires DrainedInv(f) && Enabled(f, e) && (e.Skip? || e.Fire? || e.EndTask? || e.TellOwed?)
    ensures DrainedInv(Step(f, e, now))
  {
  }

  lemma {:induction false} DrainedStep(f: Flow, e: Event, now: nat)
    requires LaunchInv(f) && DrainedInv(f) && Possible(f, e, now) && (e.LoopHead? ==> 0 < now)
    ensures DrainedInv(Step(f, e, now))
  {
    match e
    case Flush(force, listens) => DrainedFlush(f, force, listens, now);
    case Retry(t) => DrainedRetry(f, t);
    case CancelAll => DrainedCancel(f, None);
    case CancelRun(r) => DrainedCancel(f, Some(r));
    case PassReturns(_, _) => DrainedPass(f, e, now);
    case PassThrows => DrainedPass(f, e, now);
    case Decide(recent) => DrainedDecide(f, recent);
    case Skip(_) => DrainedQuiet(f, e, now);
    case Fire(_) => DrainedQuiet(f, e, now);
    case EndTask(_) => DrainedQuiet(f, e, now);
    case TellOwed(_) => DrainedQuiet(f, e, now);
    case _ => DrainedWorker(f, e, now);
  }

  // What a step adds to the calls: at most one, from the run that is telling its listeners, or `false`.
  lemma {:induction false} CallsStep(f: Flow, e: Event, now: nat)
    requires Enabled(f, e)
    ensures var g := Step(f, e, now);
            || g.calls == f.calls
            || (exists c :: g.calls == f.calls + [c] &&
                 if e.TellOne? then c == Call(f.worker.todo[0], f.worker.ok, Some(f.worker.run), f.began, f.seen)
                 else
                   && c.run.None? && !c.ok
                   && (e.Skip? || e.TellOwed?)
                   && c.listener == (if e.TellOwed? then f.owed[e.i] else |f.joinedAt|))
  {
    match e
    case TellOne => assert Step(f, e, now).calls ==
      f.calls + [Call(f.worker.todo[0], f.worker.ok, Some(f.worker.run), f.began, f.seen)];
    case TellOwed(i) => assert Step(f, e, now).calls == f.calls + [Call(f.owed[i], false, None, f.began, f.seen)];
    case Skip(listens) =>
      assert listens ==> Step(f, e, now).calls == f.calls + [Call(|f.joinedAt|, false, None, f.began, f.seen)];
    case _ =>
  }

  lemma {:induction false} CallsDrainedStep(f: Flow, e: Event, now: nat)
    requires DrainedInv(f) && CallsDrained(f) && Enabled(f, e)
    ensures CallsDrained(Step(f, e, now))
  {
    CallsStep(f, e, now);
  }

  lemma {:induction false} DrainedHistory(h: seq<Timed>)
    requires After(h).Some?
    ensures DrainedInv(After(h).value) && CallsDrained(After(h).value)
  {
    if h != [] {
      DrainedHistory(h[..|h| - 1]);
      var f, e, now := LastStep(h);
      DrainedStep(f, e, now);
      CallsDrainedStep(f, e, now);
    }
  }
}
