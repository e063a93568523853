// Whole histories of the flush-run protocol, and what holds in every state they reach.
module FlushHistories {
  import opened Commons
  import opened FlushRuns
  import opened FlushFlow
  import opened FlushFlowProofs
  import opened ListenerProofs
  import opened FreshnessProofs

  // An event and the time at which it happens.
  datatype Timed = Timed(event: Event, at: nat)

  // A DRAINED pass saw the outbox empty during the pass.
  predicate Possible(f: Flow, e: Event, now: nat) {
    Enabled(f, e) && (e.PassReturns? && e.outcome == Drained ==> f.began <= e.seen < now)
  }

  function Clock(h: seq<Timed>): nat {
    if h == [] then 0 else h[|h| - 1].at + 1
  }

  // The state after a history, None if the history is impossible. Times increase.
  function After(h: seq<Timed>): Option<Flow> {
    if h == [] then Some(START)
    else
      var before, step := After(h[..|h| - 1]), h[|h| - 1];
      if before.Some? && Clock(h[..|h| - 1]) <= step.at && Possible(before.value, step.event, step.at)
      then Some(Step(before.value, step.event, step.at))
      else None
  }

  lemma {:induction false} AfterOneMore(h: seq<Timed>, t: Timed)
    requires After(h).Some? && Clock(h) <= t.at && Possible(After(h).value, t.event, t.at)
    ensures After(h + [t]) == Some(Step(After(h).value, t.event, t.at)) && Clock(h + [t]) == t.at + 1
  {
    assert (h + [t])[..|h|] == h;
  }

  // Later is fine too.
  lemma {:induction false} FreshLater(f: Flow, now: nat, later: nat)
    requires FreshInv(f, now) && now <= later
    ensures FreshInv(f, later)
  {
    forall r | 0 <= r < |f.slots.runs|
      ensures Before(f.joinedAt, f.slots.runs[r].listeners, later)
    {
      assert Before(f.joinedAt, f.slots.runs[r].listeners, now);
    }
  }

  lemma {:induction false} Invariants(h: seq<Timed>, l: Listener)
    requires After(h).Some?
    ensures LaunchInv(After(h).value) && ListenerInv(After(h).value, l) && FreshInv(After(h).value, Clock(h))
  {
    if h != [] {
      var before, step := h[..|h| - 1], h[|h| - 1];
      var f := After(before).value;
      Invariants(before, l);
      LaunchStep(f, step.event, step.at);
      ListenerStep(f, step.event, step.at, l);
      FreshLater(f, Clock(before), step.at);
      FreshStep(f, step.event, step.at);
    }
  }

  // Both sides of the last step of a history.
  lemma {:induction false} LastStep(h: seq<Timed>) returns (f: Flow, e: Event, now: nat)
    requires After(h).Some? && h != []
    ensures After(h[..|h| - 1]) == Some(f) && h[|h| - 1] == Timed(e, now)
    ensures Clock(h[..|h| - 1]) <= now && Clock(h) == now + 1 && (!f.worker.Idle? ==> 0 < now)
    ensures Possible(f, e, now) && After(h) == Some(Step(f, e, now))
    ensures LaunchInv(f) && FreshInv(f, now)
  {
    var before := h[..|h| - 1];
    f, e, now := After(before).value, h[|h| - 1].event, h[|h| - 1].at;
    Invariants(before, 0);
    FreshLater(f, Clock(before), now);
  }

  // A listener is told at most once, whatever happens.
  lemma {:induction false} ToldAtMostOnce(h: seq<Timed>, l: Listener)
    requires After(h).Some?
    ensures Told(After(h).value.calls, l) <= 1
    ensures Told(After(h).value.calls, l) == 1 ==> l < |After(h).value.joinedAt|
  {
    Invariants(h, l);
  }

  // Nobody is about to do anything but start something new.
  predicate Quiescent(f: Flow) {
    f.worker.Idle? && f.launching == [] && f.queue == [] && f.owed == []
  }

  // When everything has come to rest, every registered listener was told exactly once.
  lemma {:induction false} RestMeansAllTold(h: seq<Timed>, l: Listener)
    requires After(h).Some? && Quiescent(After(h).value)
    ensures After(h).value.slots.active.None? && After(h).value.slots.pending.None?
    ensures Told(After(h).value.calls, l) == if l < |After(h).value.joinedAt| then 1 else 0
  {
    Invariants(h, l);
  }

  // Runs are submitted to the executor once each, in the order in which they become active; the only
  // run that can be active without having been submitted is the latest.
  predicate LaunchOrder(f: Flow) {
    && f.slots.WellFormed()
    && Increasing(f.activated)
    && f.submitted <= f.activated
    && (f.activated == f.submitted ||
        (f.slots.active.Some? && f.activated == f.submitted + [f.slots.active.value]))
    && (f.slots.pending.Some? ==> f.slots.ActiveCancelled())
  }

  lemma {:induction false} LaunchedOnce(h: seq<Timed>)
    requires After(h).Some?
    ensures LaunchOrder(After(h).value)
  {
    Invariants(h, 0);
    var f := After(h).value;
    var rest := f.launching + List(Promised(f));
    assert f.activated == f.submitted + rest;
    assert rest == [] || rest == List(f.slots.active);
  }

  // The move of whoever is obliged to move next; flushInternal is taken to fail.
  function NextMove(f: Flow): Event {
    if f.owed != [] then TellOwed(0)
    else if f.launching != [] then Submit
    else match f.worker
      case Idle => Take
      case AtLoop(_) => LoopHead
      case InPass(_) => PassReturns(Failed, 0)
      case GotOutcome(_) => Decide(true)
      case Leaving(_, _) => FinallyBlock
      case Notifying(_, todo, _, _) => if todo != [] then TellOne else EndRun
  }

  function RunCost(s: Slots, run: Option<nat>): nat {
    if run.Some? && run.value < |s.runs| then
      |s.runs[run.value].listeners| + (if s.runs[run.value].drainRequested then 3 else 0) + 10
    else 0
  }

  function WorkerCost(f: Flow): int {
    match f.worker
    case Idle => 0
    case AtLoop(_) => -2
    case InPass(_) => -3
    case GotOutcome(_) => -4
    case Leaving(r, _) => if f.slots.active == Some(r) then -5 else RunCost(f.slots, Some(r)) - 5
    case Notifying(_, todo, _, _) => |todo| + 1
  }

  // How far the system is from rest if no caller, canceller or timer comes in between.
  function ToRest(f: Flow): int {
    |f.owed| + RunCost(f.slots, f.slots.active) + RunCost(f.slots, f.slots.pending) - |f.queue| + WorkerCost(f)
  }

  lemma {:induction false} MoveTake(f: Flow, now: nat)
    requires LaunchInv(f) && Enabled(f, Take)
    ensures ToRest(Step(f, Take, now)) < ToRest(f)
  {
  }

  lemma {:induction false} MoveLoopHead(f: Flow, now: nat)
    requires LaunchInv(f) && Enabled(f, LoopHead)
    ensures ToRest(Step(f, LoopHead, now)) < ToRest(f)
  {
    assert Executing(f) == f.slots.active;
  }

  lemma {:induction false} MovePass(f: Flow, e: Event, now: nat)
    requires LaunchInv(f) && Enabled(f, e) && (e.PassReturns? || e.PassThrows?)
    ensures ToRest(Step(f, e, now)) < ToRest(f)
  {
    assert Executing(f) == f.slots.active;
    assert ScheduleRetry(f.slots, f.worker.run).runs == f.slots.runs;
  }

  lemma {:induction false} MoveNotifying(f: Flow, e: Event, now: nat)
    requires LaunchInv(f) && Enabled(f, e) && (e.TellOne? || e.EndRun?)
    ensures ToRest(Step(f, e, now)) < ToRest(f)
  {
  }

  lemma {:induction false} MovePossible(f: Flow, now: nat)
    requires LaunchInv(f) && !Quiescent(f)
    ensures Possible(f, NextMove(f), now)
  {
  }

  // The run starts over after a failed pass, because the failure lies some time back.
  predicate PassAgain(f: Flow, e: Event) {
    && e == Decide(false) && f.worker.GotOutcome? && f.worker.run < |f.slots.runs|
    && f.slots.runs[f.worker.run].outcome == Failed
  }

  // After a pass the run makes another one if the pass failed and the last failure lies some time back, or
  // if it drained the outbox, a caller has joined since and nobody has cancelled the run. Otherwise it ends.
  lemma {:induction false} AnotherPass(h: seq<Timed>, f: Flow, recent: bool, now: nat)
    requires After(h) == Some(f) && Possible(f, Decide(recent), now)
    ensures var r := f.worker.run;
            var run := f.slots.runs[r];
            var again := PassAgain(f, Decide(recent)) || (run.outcome == Drained && run.drainRequested && !run.cancelled);
            var g := Step(f, Decide(recent), now);
            if again then g.worker == AtLoop(r) && g.slots.active == Some(r) else g.worker.Leaving? && g.worker.run == r
  {
    Invariants(h, 0);
    assert Executing(f) == f.slots.active;
  }

  lemma {:induction false} MoveDrained(f: Flow, e: Event, now: nat)
    requires LaunchInv(f) && Enabled(f, e) && e.Decide? && f.slots.runs[f.worker.run].outcome == Drained
    ensures ToRest(Step(f, e, now)) < ToRest(f)
  {
    assert Executing(f) == f.slots.active;
  }

  lemma {:induction false} MoveDecide(f: Flow, e: Event, now: nat)
    requires LaunchInv(f) && Enabled(f, e) && e.Decide? && !PassAgain(f, e)
    ensures ToRest(Step(f, e, now)) < ToRest(f)
  {
    if f.slots.runs[f.worker.run].outcome == Drained {
      MoveDrained(f, e, now);
    } else {
      assert Executing(f) == f.slots.active;
      assert ScheduleRetry(f.slots, f.worker.run).runs == f.slots.runs;
    }
  }

  lemma {:induction false} MoveFinally(f: Flow, now: nat)
    requires LaunchInv(f) && Enabled(f, FinallyBlock)
    ensures ToRest(Step(f, FinallyBlock, now)) < ToRest(f)
  {
  }

  predicate Internal(e: Event) {
    !e.Skip? && !e.Flush? && !e.Fire? && !e.Retry? && !e.EndTask? && !e.CancelAll? && !e.CancelRun?
  }

  // Every step that no caller, canceller or timer takes brings the system closer to rest, unless it
  // starts a failed pass again.
  lemma {:induction false} InternalLowers(f: Flow, e: Event, now: nat)
    requires LaunchInv(f) && Enabled(f, e) && Internal(e) && !PassAgain(f, e)
    ensures ToRest(Step(f, e, now)) < ToRest(f)
  {
    match e
    case Take => MoveTake(f, now);
    case LoopHead => MoveLoopHead(f, now);
    case PassReturns(_, _) => MovePass(f, e, now);
    case PassThrows => MovePass(f, e, now);
    case Decide(_) => MoveDecide(f, e, now);
    case FinallyBlock => MoveFinally(f, now);
    case TellOne => MoveNotifying(f, e, now);
    case EndRun => MoveNotifying(f, e, now);
    case _ =>
  }

  // Unless everything is at rest somebody can move, and moving brings the system closer to rest.
  lemma {:induction false} NeverStuck(f: Flow, now: nat)
    requires LaunchInv(f) && !Quiescent(f)
    ensures Possible(f, NextMove(f), now) && ToRest(Step(f, NextMove(f), now)) < ToRest(f)
  {
    MovePossible(f, now);
    InternalLowers(f, NextMove(f), now);
  }

  lemma {:induction false} ToRestBounded(f: Flow)
    requires LaunchInv(f)
    ensures ToRest(f) >= 0
  {
  }

  // No step comes from a caller, a canceller or a timer.
  predicate Undisturbed(h: seq<Timed>) {
    forall i :: 0 <= i < |h| ==> Internal(h[i].event)
  }

  lemma {:induction false} MoveOnce(f: Flow, now: nat) returns (e: Event, f': Flow)
    requires LaunchInv(f) && !Quiescent(f)
    ensures Internal(e) && Possible(f, e, now) && f' == Step(f, e, now)
    ensures 0 <= ToRest(f') < ToRest(f)
  {
    NeverStuck(f, now);
    e := NextMove(f);
    f' := Step(f, e, now);
    LaunchStep(f, e, now);
    ToRestBounded(f');
  }

  lemma {:induction false} OneMove(h: seq<Timed>) returns (t: Timed)
    requires After(h).Some? && !Quiescent(After(h).value)
    ensures Internal(t.event) && After(h + [t]).Some?
    ensures 0 <= ToRest(After(h + [t]).value) < ToRest(After(h).value)
  {
    Invariants(h, 0);
    var e, f' := MoveOnce(After(h).value, Clock(h));
    t := Timed(e, Clock(h));
    AfterOneMore(h, t);
  }

  lemma {:induction false} ConcatAssociative<T>(a: seq<T>, b: seq<T>, c: seq<T>)
    ensures a + (b + c) == a + b + c
  {
  }

  // From every reachable state the system can come to rest on its own, within ToRest steps.
  lemma {:induction false} RestReachable(h: seq<Timed>) returns (more: seq<Timed>)
    requires After(h).Some?
    ensures Undisturbed(more) && After(h + more).Some? && Quiescent(After(h + more).value)
    ensures |more| <= ToRest(After(h).value)
    decreases if After(h).Some? then ToRest(After(h).value) else 0
  {
    if Quiescent(After(h).value) {
      Invariants(h, 0);
      ToRestBounded(After(h).value);
      more := [];
      assert h + more == h;
    } else {
      var t := OneMove(h);
      var rest := RestReachable(h + [t]);
      more := [t] + rest;
      ConcatAssociative(h, [t], rest);
    }
  }

  // From step t on, nobody disturbs.
  predicate LeftAlone(h: seq<Timed>, t: nat) {
    |h| <= t || (LeftAlone(h[..|h| - 1], t) && Internal(h[|h| - 1].event))
  }

  // How often from step t on a failed pass was started again.
  function Again(h: seq<Timed>, t: nat): nat {
    if |h| <= t then 0
    else
      var before, e := h[..|h| - 1], h[|h| - 1].event;
      Again(before, t) + if After(before).Some? && PassAgain(After(before).value, e) then 1 else 0
  }

  // Whatever happens in whatever order, left alone the system makes at most ToRest steps, and three more
  // for each time it starts a failed pass again. By NeverStuck it stops only at rest.
  lemma {:induction false} ComesToRest(h: seq<Timed>, t: nat)
    requires After(h).Some? && t <= |h| && LeftAlone(h, t)
    ensures After(h[..t]).Some?
    ensures 0 <= ToRest(After(h).value) <= ToRest(After(h[..t]).value) + 3 * Again(h, t) - (|h| - t)
  {
    Invariants(h, 0);
    ToRestBounded(After(h).value);
    if t == |h| {
      assert h[..t] == h;
    } else {
      var before := h[..|h| - 1];
      ComesToRest(before, t);
      assert before[..t] == h[..t];
      var f, e, now := LastStep(h);
      if !PassAgain(f, e) {
        InternalLowers(f, e, now);
      }
    }
  }

  // No lost flush, as far as the protocol goes: success reported by a run that nobody cancelled means
  // that the run's last pass began after the listener registered and ended with an empty outbox.
  lemma {:induction false} SuccessIsFresh(h: seq<Timed>, i: nat)
    requires After(h).Some? && i < |After(h).value.calls| && After(h).value.calls[i].ok
    ensures var f := After(h).value;
            var c := f.calls[i];
            && c.run.Some? && c.run.value < |f.slots.runs| && c.listener < |f.joinedAt|
            && (!f.slots.runs[c.run.value].cancelled ==> f.joinedAt[c.listener] < c.began <= c.seen)
  {
    Invariants(h, After(h).value.calls[i].listener);
    var f := After(h).value;
    assert CallFresh(f, f.calls[i]);
    ToldIfCalled(f.calls, i);
  }

  lemma {:induction false} ToldIfCalled(cs: seq<Call>, i: nat)
    requires i < |cs|
    ensures Told(cs, cs[i].listener) >= 1
  {
    if i < |cs| - 1 {
      ToldIfCalled(cs[..|cs| - 1], i);
    }
  }
}
