// What every step of the flush-run protocol keeps.
module FlushFlowProofs {
  import opened Commons
  import opened FlushRuns
  import opened FlushFlow

  // ---------- launches ----------

  function List(o: Option<nat>): seq<nat> {
    if o.Some? then [o.value] else []
  }

  // The run the worker is executing and has not yet handed over.
  function Executing(f: Flow): Option<nat> {
    match f.worker
    case AtLoop(r) => Some(r)
    case InPass(r) => Some(r)
    case GotOutcome(r) => Some(r)
    case Leaving(r, _) => if f.slots.active == Some(r) then Some(r) else None
    case _ => None
  }

  // The run the worker handed the active slot to and will submit when it is done.
  function Promised(f: Flow): Option<nat> {
    match f.worker
    case Leaving(_, next) => next
    case Notifying(_, _, _, next) => next
    case _ => None
  }

  predicate Increasing(s: seq<nat>) {
    forall i, j :: 0 <= i < j < |s| ==> s[i] < s[j]
  }

  // A bound above every run that has ever been active.
  function Newest(f: Flow): nat {
    if f.activated == [] then 0 else f.activated[|f.activated| - 1] + 1
  }

  // The order in which runs are created and take the active slot.
  predicate OrderInv(f: Flow) {
    && f.slots.WellFormed()
    && Increasing(f.activated)
    && Newest(f) <= |f.slots.runs|
    && (f.slots.active.Some? ==> f.slots.active.value + 1 == Newest(f))
    && (f.slots.pending.Some? ==>
          && f.slots.ActiveCancelled()
          && !f.slots.runs[f.slots.pending.value].cancelled
          && Newest(f) <= f.slots.pending.value)
    && (f.worker.Leaving? ==> f.worker.run < Newest(f))
    && (f.worker.Notifying? ==> f.worker.run < Newest(f) && f.slots.active != Some(f.worker.run))
  }

  // The duty to execute the active run is in exactly one place: with the caller that opened it, in
  // the executor's queue, promised by the worker, or being carried out by it.
  predicate DutyInv(f: Flow) {
    var a, p, x := List(f.slots.active), List(Promised(f)), List(Executing(f));
    && |f.launching| + |f.queue| + |p| + |x| == |a|
    && (f.launching != [] ==> f.launching == a)
    && (f.queue != [] ==> f.queue == a)
    && (p != [] ==> p == a)
    && (x != [] ==> x == a)
  }

  // Runs are submitted to the executor once each, in the order they become active.
  predicate SubmitInv(f: Flow) {
    f.activated == f.submitted + f.launching + List(Promised(f))
  }

  predicate LaunchInv(f: Flow) {
    OrderInv(f) && DutyInv(f) && SubmitInv(f)
  }

  // A change of the slots that no run notices: no run changes place or is cancelled.
  predicate Steady(s: Slots, s': Slots) {
    && s.WellFormed() && s'.WellFormed()
    && s'.active == s.active && s'.pending == s.pending
    && |s'.runs| >= |s.runs|
    && forall i :: 0 <= i < |s.runs| ==> s'.runs[i].cancelled == s.runs[i].cancelled
  }

  // What the lock block of flushInternalStart does to the places of runs.
  predicate StartEffect(s: Slots, r: Started) {
    var s' := r.slots;
    && s.WellFormed() && s'.WellFormed()
    && match r.status
       case StaleEpoch => Steady(s, s')
       case AlreadyRunning => Steady(s, s')
       case QueuedBehindCancelled =>
         && s.ActiveCancelled() && s'.active == s.active
         && (if s.pending.Some? then Steady(s, s')
             else
               && s'.pending == Some(|s.runs|) && |s'.runs| == |s.runs| + 1
               && !s'.runs[|s.runs|].cancelled
               && s'.runs[s.active.value].cancelled)
       case FlushStarted =>
         && s.active.None? && s'.active == Some(|s.runs|) && r.run == |s.runs| == |s'.runs| - 1
         && s'.pending == s.pending
  }

  lemma {:induction false} EnteredHasEffect(s: Slots, force: bool, l: Option<Listener>, explicit: bool)
    requires s.WellFormed()
    ensures StartEffect(s, Entered(s, force, l, explicit))
  {
    if s.active.Some? && s.ActiveCancelled() {
      assert Queued(s, force, l).runs[s.active.value].cancelled;
    }
  }

  lemma {:induction false} StartHasEffect(s: Slots, force: bool, l: Option<Listener>, expected: Option<nat>)
    requires s.WellFormed()
    ensures StartEffect(s, Start(s, force, l, expected))
  {
    if expected.None? || expected.value == s.epoch {
      EnteredHasEffect(if expected.Some? then s.(slot := None) else s, force, l, expected.None?);
    }
  }

  // A start touches the run the caller joins, if any, and no other.
  predicate KeepsRuns(s: Slots, force: bool, l: Option<Listener>, r: Started) {
    && s.epoch <= r.slots.epoch && |s.runs| <= |r.slots.runs|
    && forall i :: 0 <= i < |s.runs| ==>
         || r.slots.runs[i] == s.runs[i]
         || (i == r.run && r.status == QueuedBehindCancelled && r.slots.runs[i] == Joined(s.runs[i], l, force))
         || (i == r.run && r.status == AlreadyRunning
             && r.slots.runs[i] == Joined(s.runs[i], l, force).(drainRequested := true))
  }

  lemma {:induction false} EnteredKeepsRuns(s: Slots, force: bool, l: Option<Listener>, explicit: bool)
    requires s.WellFormed()
    ensures KeepsRuns(s, force, l, Entered(s, force, l, explicit))
  {
    if s.ActiveCancelled() {
      QueuedKeepsRuns(s, force, l);
    }
  }

  // What the lock block of flushInternalStart does to the runs there are: it touches the one the caller
  // joins, if any, and never turns the epoch back.
  lemma {:induction false} StartKeepsRuns(s: Slots, force: bool, l: Option<Listener>, expected: Option<nat>)
    requires s.WellFormed()
    ensures KeepsRuns(s, force, l, Start(s, force, l, expected))
  {
    if expected.None? || expected.value == s.epoch {
      EnteredKeepsRuns(if expected.Some? then s.(slot := None) else s, force, l, expected.None?);
    }
  }

  lemma {:induction false} QueuedKeepsRuns(s: Slots, force: bool, l: Option<Listener>)
    requires s.WellFormed() && s.active.Some?
    ensures var s' := Queued(s, force, l);
            && s'.epoch == s.epoch && |s.runs| <= |s'.runs|
            && forall i :: 0 <= i < |s.runs| ==>
                 s'.runs[i] == if s.pending == Some(i) then Joined(s.runs[i], l, force) else s.runs[i]
  {
  }

  lemma {:induction false} LaunchSteady(f: Flow, g: Flow)
    requires LaunchInv(f) && Steady(f.slots, g.slots)
    requires g.launching == f.launching && g.queue == f.queue && g.activated == f.activated
    requires g.submitted == f.submitted && List(Executing(g)) == List(Executing(f)) && Promised(g) == Promised(f)
    requires g.worker.Leaving? || g.worker.Notifying? ==>
               g.worker.run < Newest(f) && (g.worker.Notifying? ==> g.slots.active != Some(g.worker.run))
    ensures LaunchInv(g)
  {
  }

  lemma {:induction false} LaunchQueuedBehind(f: Flow, r: Started)
    requires LaunchInv(f) && StartEffect(f.slots, r) && r.status.QueuedBehindCancelled?
    ensures LaunchInv(f.(slots := r.slots))
  {
    var g := f.(slots := r.slots);
    if f.slots.pending.Some? {
      LaunchSteady(f, g);
    } else {
      assert OrderInv(g);
    }
  }

  lemma {:induction false} LaunchOpened(f: Flow, r: Started)
    requires LaunchInv(f) && StartEffect(f.slots, r) && r.status.FlushStarted?
    ensures LaunchInv(Launched(f, r))
  {
    var g := Launched(f, r);
    assert f.launching == [] && Promised(f).None? && Executing(f).None?;
    assert SubmitInv(g);
    assert DutyInv(g);
    OrderOpened(f, g, r);
  }

  lemma {:induction false} OrderOpened(f: Flow, g: Flow, r: Started)
    requires OrderInv(f) && StartEffect(f.slots, r) && r.status.FlushStarted?
    requires g.slots == r.slots && g.worker == f.worker && g.activated == f.activated + [r.run]
    ensures OrderInv(g)
  {
  }

  lemma {:induction false} LaunchStarted(f: Flow, r: Started)
    requires LaunchInv(f) && StartEffect(f.slots, r)
    ensures LaunchInv(Launched(f, r))
  {
    match r.status
    case StaleEpoch => LaunchSteady(f, f.(slots := r.slots));
    case AlreadyRunning => LaunchSteady(f, f.(slots := r.slots));
    case QueuedBehindCancelled => LaunchQueuedBehind(f, r);
    case FlushStarted => LaunchOpened(f, r);
  }

  lemma {:induction false} LaunchFlush(f: Flow, force: bool, listens: bool, now: nat)
    requires LaunchInv(f)
    ensures LaunchInv(Flushed(f, force, listens, now))
  {
    var l := if listens then Some(|f.joinedAt|) else None;
    StartHasEffect(f.slots, force, l, None);
    LaunchStarted(Register(f, listens, now), Start(f.slots, force, l, None));
  }

  lemma {:induction false} LaunchPhase(f: Flow, t: nat, phase: Phase)
    requires LaunchInv(f) && t < |f.slots.timers|
    ensures LaunchInv(f.(slots := SetPhase(f.slots, t, phase)))
  {
    LaunchSteady(f, f.(slots := SetPhase(f.slots, t, phase)));
  }

  lemma {:induction false} LaunchRetry(f: Flow, t: nat)
    requires LaunchInv(f) && t < |f.slots.timers|
    ensures LaunchInv(Retried(f, t))
  {
    var r := RetryStart(f.slots, t);
    RetryHasEffect(f.slots, t);
    LaunchStarted(f.(early := Retried(f, t).early), r);
  }

  lemma {:induction false} RetryHasEffect(s: Slots, t: nat)
    requires s.WellFormed() && t < |s.timers|
    ensures StartEffect(s, RetryStart(s, t))
  {
    var s' := SetPhase(s, t, Left);
    StartHasEffect(s', true, None, Some(s.timers[t].epoch));
  }

  // What the lock block of requestCancelFlush does to the places of runs.
  predicate CancelEffect(s: Slots, s': Slots) {
    && s.WellFormed() && s'.WellFormed()
    && s'.active == s.active && |s'.runs| == |s.runs|
    && (forall i :: 0 <= i < |s.runs| && s.runs[i].cancelled ==> s'.runs[i].cancelled)
    && (s'.pending.Some? ==>
          s'.pending == s.pending && s'.runs[s.pending.value].cancelled == s.runs[s.pending.value].cancelled)
  }

  lemma {:induction false} CancelHasEffect(s: Slots, target: Option<nat>)
    requires s.WellFormed()
    ensures CancelEffect(s, Cancel(s, target).slots)
  {
  }

  lemma {:induction false} LaunchCancel(f: Flow, target: Option<nat>)
    requires LaunchInv(f)
    ensures LaunchInv(CancelledBy(f, target))
  {
    CancelHasEffect(f.slots, target);
    LaunchAfterCancel(f, CancelledBy(f, target));
  }

  lemma {:induction false} LaunchAfterCancel(f: Flow, g: Flow)
    requires LaunchInv(f) && CancelEffect(f.slots, g.slots)
    requires g.launching == f.launching && g.queue == f.queue && g.activated == f.activated
    requires g.submitted == f.submitted && g.worker == f.worker
    ensures LaunchInv(g)
  {
  }

  lemma {:induction false} LaunchHandOver(f: Flow, g: Flow, r: nat, next: Option<nat>)
    requires LaunchInv(f) && Executing(f) == Some(r) == f.slots.active
    requires g.slots == HandOver(f.slots) && next == f.slots.pending
    requires g.launching == f.launching && g.queue == f.queue && g.submitted == f.submitted
    requires g.activated == f.activated + List(next)
    requires g.worker.Leaving? || g.worker.Notifying?
    requires g.worker.run == r && g.worker.next == next
    ensures LaunchInv(g)
  {
    assert Promised(f).None?;
  }

  lemma {:induction false} SteadyRetry(s: Slots, r: nat)
    requires s.WellFormed() && r < |s.runs|
    ensures Steady(s, ScheduleRetry(s, r))
  {
  }

  lemma {:induction false} LaunchPass(f: Flow, e: Event, now: nat)
    requires LaunchInv(f) && Enabled(f, e)
    requires e.PassReturns? || e.PassThrows?
    ensures LaunchInv(Step(f, e, now))
  {
    var r := f.worker.run;
    SteadyRetry(f.slots, r);
    SteadyRetry(WithOutcome(f.slots, r, Failed), r);
    LaunchSteady(f, Step(f, e, now));
  }

  lemma {:induction false} LaunchDecide(f: Flow, recent: bool)
    requires LaunchInv(f) && Enabled(f, Decide(recent))
    ensures LaunchInv(Decided(f, recent))
  {
    var g, r := Decided(f, recent), f.worker.run;
    if f.slots.runs[r].outcome == Drained && !AfterDrained(f.slots, r).again {
      LaunchHandOver(f, g, r, f.slots.pending);
    } else {
      SteadyRetry(f.slots, r);
      LaunchSteady(f, g);
    }
  }

  lemma {:induction false} LaunchFinally(f: Flow)
    requires LaunchInv(f) && Enabled(f, FinallyBlock)
    ensures LaunchInv(Finished(f))
  {
    if f.slots.active == Some(f.worker.run) {
      LaunchHandOver(f, Finished(f), f.worker.run, f.slots.pending);
    } else {
      LaunchSteady(f, Finished(f));
    }
  }

  lemma {:induction false} LaunchSubmit(f: Flow, now: nat)
    requires LaunchInv(f) && Enabled(f, Submit)
    ensures LaunchInv(Step(f, Submit, now))
  {
    var g := Step(f, Submit, now);
    assert g.submitted + g.launching == f.submitted + f.launching;
  }

  lemma {:induction false} LaunchTake(f: Flow, now: nat)
    requires LaunchInv(f) && Enabled(f, Take)
    ensures LaunchInv(Step(f, Take, now))
  {
  }

  lemma {:induction false} LaunchEnd(f: Flow, now: nat)
    requires LaunchInv(f) && Enabled(f, EndRun)
    ensures LaunchInv(Step(f, EndRun, now))
  {
    if f.worker.next.None? {
      LaunchSteady(f, Step(f, EndRun, now));
    } else {
      LaunchPromised(f, f.worker.next.value);
    }
  }

  // The worker keeps its promise.
  lemma {:induction false} LaunchPromised(f: Flow, next: nat)
    requires LaunchInv(f) && f.worker.Notifying? && f.worker.next == Some(next)
    ensures LaunchInv(f.(worker := Idle, queue := f.queue + [next], submitted := f.submitted + [next]))
  {
    var g := f.(worker := Idle, queue := f.queue + [next], submitted := f.submitted + [next]);
    assert List(Promised(f)) == [next] == List(f.slots.active) && f.launching == [] && f.queue == [];
    assert g.queue == [next] && List(Promised(g)) == [] && List(Executing(g)) == [];
    assert OrderInv(g) && DutyInv(g);
    assert f.submitted + [] + [next] == g.submitted + [] + [];
  }

  lemma {:induction false} LaunchWorker(f: Flow, e: Event, now: nat)
    requires LaunchInv(f) && Enabled(f, e) && (e.LoopHead? || e.TellOne?)
    ensures LaunchInv(Step(f, e, now))
  {
    LaunchSteady(f, Step(f, e, now));
  }

  lemma {:induction false} LaunchStep(f: Flow, e: Event, now: nat)
    requires LaunchInv(f) && Enabled(f, e)
    ensures LaunchInv(Step(f, e, now))
  {
    match e
    case Skip(_) => LaunchSteady(f, Step(f, e, now));
    case Flush(force, listens) => LaunchFlush(f, force, listens, now);
    case Fire(t) => LaunchPhase(f, t, Firing);
    case Retry(t) => LaunchRetry(f, t);
    case EndTask(t) => LaunchPhase(f, t, Ended);
    case CancelAll => LaunchCancel(f, None);
    case CancelRun(r) => LaunchCancel(f, Some(r));
    case TellOwed(_) => LaunchSteady(f, Step(f, e, now));
    case PassReturns(o, seen) => LaunchPass(f, e, now);
    case PassThrows => LaunchPass(f, e, now);
    case Decide(recent) => LaunchDecide(f, recent);
    case FinallyBlock => LaunchFinally(f);
    case Submit => LaunchSubmit(f, now);
    case Take => LaunchTake(f, now);
    case EndRun => LaunchEnd(f, now);
    case LoopHead => LaunchWorker(f, e, now);
    case TellOne => LaunchWorker(f, e, now);
  }
}
