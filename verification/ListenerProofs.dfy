// Every registered listener is in exactly one place: waiting in the active or the pending run, with
// the worker that is finishing its run, owed a `false` by a canceller, or told.
module ListenerProofs {
  import opened Commons
  import opened FlushRuns
  import opened FlushFlow
  import opened FlushFlowProofs

  function Occ(s: seq<Listener>, l: Listener): nat {
    if s == [] then 0 else (if s[0] == l then 1 else 0) + Occ(s[1..], l)
  }

  lemma {:induction false} OccConcat(s: seq<Listener>, t: seq<Listener>, l: Listener)
    ensures Occ(s + t, l) == Occ(s, l) + Occ(t, l)
  {
    if s == [] {
      assert s + t == t;
    } else {
      assert (s + t)[1..] == s[1..] + t;
      OccConcat(s[1..], t, l);
    }
  }

  lemma {:induction false} OccRemove(s: seq<Listener>, i: nat, l: Listener)
    requires i < |s|
    ensures Occ(s, l) == Occ(s[..i] + s[i + 1..], l) + (if s[i] == l then 1 else 0)
  {
    assert s == s[..i] + ([s[i]] + s[i + 1..]);
    OccConcat(s[..i], [s[i]] + s[i + 1..], l);
    OccConcat(s[..i], s[i + 1..], l);
  }

  function Told(cs: seq<Call>, l: Listener): nat {
    if cs == [] then 0
    else Told(cs[..|cs| - 1], l) + (if cs[|cs| - 1].listener == l then 1 else 0)
  }

  lemma {:induction false} ToldOneMore(cs: seq<Call>, c: Call, l: Listener)
    ensures Told(cs + [c], l) == Told(cs, l) + (if c.listener == l then 1 else 0)
  {
    assert (cs + [c])[..|cs|] == cs;
  }

  function InRun(s: Slots, run: Option<nat>, l: Listener): nat {
    if run.Some? && run.value < |s.runs| then Occ(s.runs[run.value].listeners, l) else 0
  }

  function WithWorker(f: Flow, l: Listener): nat {
    match f.worker
    case Leaving(r, _) => if f.slots.active == Some(r) then 0 else InRun(f.slots, Some(r), l)
    case Notifying(_, todo, _, _) => Occ(todo, l)
    case _ => 0
  }

  function Places(f: Flow, l: Listener): nat {
    Told(f.calls, l) + Occ(f.owed, l) + InRun(f.slots, f.slots.active, l) +
    InRun(f.slots, f.slots.pending, l) + WithWorker(f, l)
  }

  predicate ListenerInv(f: Flow, l: Listener) {
    Places(f, l) == if l < |f.joinedAt| then 1 else 0
  }

  // No run gains or loses a listener.
  predicate SameListeners(s: Slots, s': Slots) {
    && |s'.runs| >= |s.runs|
    && forall i :: 0 <= i < |s.runs| ==> s'.runs[i].listeners == s.runs[i].listeners
  }

  predicate JoinEffect(s: Slots, r: Started, l: Option<Listener>) {
    var s' := r.slots;
    && s'.WellFormed() && |s'.runs| >= |s.runs|
    && (r.status.StaleEpoch? ==> SameListeners(s, s') && s'.active == s.active && s'.pending == s.pending && l.None?)
    && (r.status.AlreadyRunning? ==> s.active == Some(r.run) == s'.active && s'.pending == s.pending)
    && (r.status.QueuedBehindCancelled? ==>
          s.active.Some? && s'.active == s.active && s'.pending == Some(r.run) && (s.pending.Some? ==> s.pending == s'.pending))
    && (r.status.FlushStarted? ==> s.active.None? && s'.active == Some(r.run) && s'.pending == s.pending)
    && (!r.status.StaleEpoch? ==>
          && r.run < |s'.runs|
          && (forall i :: 0 <= i < |s.runs| && i != r.run ==> s'.runs[i].listeners == s.runs[i].listeners)
          && s'.runs[r.run].listeners ==
             (if r.run < |s.runs| then s.runs[r.run].listeners else []) + (if l.Some? then [l.value] else []))
    && (r.run >= |s.runs| ==> r.status.FlushStarted? || s.pending.None?)
    && (r.status.FlushStarted? || (r.status.QueuedBehindCancelled? && s.pending.None?) ==> r.run == |s.runs|)
  }

  lemma {:induction false} EnteredJoins(s: Slots, force: bool, l: Option<Listener>, explicit: bool)
    requires s.WellFormed()
    ensures JoinEffect(s, Entered(s, force, l, explicit), l)
  {
  }

  lemma {:induction false} FlushJoins(s: Slots, force: bool, l: Option<Listener>)
    requires s.WellFormed()
    ensures JoinEffect(s, Start(s, force, l, None), l)
  {
    EnteredJoins(s, force, l, true);
  }

  lemma {:induction false} RetryJoins(s: Slots, t: nat)
    requires s.WellFormed() && t < |s.timers|
    ensures JoinEffect(s, RetryStart(s, t), None)
  {
    if s.timers[t].epoch == s.epoch {
      EnteredJoins(SetPhase(s, t, Left).(slot := None), true, None, false);
    }
  }

  // The run that the worker is leaving is not joined any more.
  lemma {:induction false} WorkerKeepsListeners(f: Flow, r: Started, x: Option<Listener>, l: Listener)
    requires LaunchInv(f) && JoinEffect(f.slots, r, x) && r.status != StaleEpoch
    ensures WithWorker(Launched(f, r), l) == WithWorker(f, l)
  {
    assert f.worker.Leaving? && f.slots.active != Some(f.worker.run) ==> f.worker.run != r.run;
  }

  lemma {:induction false} RunsGainListener(s: Slots, r: Started, x: Option<Listener>, l: Listener)
    requires s.WellFormed() && JoinEffect(s, r, x) && r.status != StaleEpoch
    ensures InRun(r.slots, r.slots.active, l) + InRun(r.slots, r.slots.pending, l)
         == InRun(s, s.active, l) + InRun(s, s.pending, l) + (if x == Some(l) then 1 else 0)
  {
    var before := if r.run < |s.runs| then s.runs[r.run].listeners else [];
    OccConcat(before, if x.Some? then [x.value] else [], l);
  }

  // Joining adds the one listener and disturbs no other.
  lemma {:induction false} PlacesStarted(f: Flow, r: Started, x: Option<Listener>, l: Listener)
    requires LaunchInv(f) && JoinEffect(f.slots, r, x)
    ensures Places(Launched(f, r), l) == Places(f, l) + (if x == Some(l) then 1 else 0)
  {
    if r.status != StaleEpoch {
      WorkerKeepsListeners(f, r, x, l);
      RunsGainListener(f.slots, r, x, l);
    }
  }

  lemma {:induction false} ListenerFlush(f: Flow, force: bool, listens: bool, now: nat, l: Listener)
    requires LaunchInv(f) && ListenerInv(f, l)
    ensures ListenerInv(Flushed(f, force, listens, now), l)
  {
    var x := if listens then Some(|f.joinedAt|) else None;
    var f' := Register(f, listens, now);
    FlushJoins(f.slots, force, x);
    PlacesStarted(f', Start(f.slots, force, x, None), x, l);
    assert Places(f', l) == Places(f, l);
  }

  lemma {:induction false} ListenerRetry(f: Flow, t: nat, l: Listener)
    requires LaunchInv(f) && ListenerInv(f, l) && t < |f.slots.timers|
    ensures ListenerInv(Retried(f, t), l)
  {
    var f' := f.(early := Retried(f, t).early);
    RetryJoins(f.slots, t);
    PlacesStarted(f', RetryStart(f.slots, t), None, l);
    assert Places(f', l) == Places(f, l);
  }

  // Nothing a listener can notice.
  lemma {:induction false} ListenerQuiet(f: Flow, g: Flow, l: Listener)
    requires f.slots.WellFormed() && g.slots.WellFormed()
    requires ListenerInv(f, l) && SameListeners(f.slots, g.slots)
    requires g.slots.active == f.slots.active && g.slots.pending == f.slots.pending
    requires g.calls == f.calls && g.owed == f.owed && g.joinedAt == f.joinedAt
    requires WithWorker(g, l) == WithWorker(f, l)
    ensures ListenerInv(g, l)
  {
  }

  lemma {:induction false} ListenerCancel(f: Flow, target: Option<nat>, l: Listener)
    requires LaunchInv(f) && ListenerInv(f, l)
    ensures ListenerInv(CancelledBy(f, target), l)
  {
    var r := Cancel(f.slots, target);
    var g := CancelledBy(f, target);
    CancelMovesListeners(f.slots, target);
    OccConcat(f.owed, r.notify, l);
    assert WithWorker(g, l) == WithWorker(f, l);
    assert InRun(g.slots, g.slots.active, l) == InRun(f.slots, f.slots.active, l);
    assert InRun(g.slots, g.slots.pending, l) + Occ(r.notify, l) == InRun(f.slots, f.slots.pending, l);
  }

  lemma {:induction false} CancelMovesListeners(s: Slots, target: Option<nat>)
    requires s.WellFormed()
    ensures var r := Cancel(s, target);
            && r.slots.WellFormed() && SameListeners(s, r.slots) && |r.slots.runs| == |s.runs|
            && r.slots.active == s.active
            && (if r.slots.pending == s.pending then r.notify == []
                else r.slots.pending.None? && s.pending.Some? && r.notify == s.runs[s.pending.value].listeners)
  {
  }

  lemma {:induction false} ListenerHandOver(f: Flow, g: Flow, l: Listener)
    requires LaunchInv(f) && LaunchInv(g) && ListenerInv(f, l)
    requires f.slots.active.Some? && Executing(f) == f.slots.active
    requires g.slots == HandOver(f.slots)
    requires g.calls == f.calls && g.owed == f.owed && g.joinedAt == f.joinedAt
    requires g.worker.Leaving? || g.worker.Notifying?
    requires g.worker.run == f.slots.active.value
    requires g.worker.Notifying? ==> g.worker.todo == f.slots.runs[f.slots.active.value].listeners
    ensures ListenerInv(g, l)
  {
    assert g.slots.active != f.slots.active;
    assert WithWorker(f, l) == 0;
    assert WithWorker(g, l) == InRun(f.slots, f.slots.active, l);
  }

  lemma {:induction false} ListenerPass(f: Flow, e: Event, now: nat, l: Listener)
    requires LaunchInv(f) && ListenerInv(f, l) && Enabled(f, e)
    requires e.PassReturns? || e.PassThrows?
    ensures ListenerInv(Step(f, e, now), l)
  {
    var g := Step(f, e, now);
    LaunchPass(f, e, now);
    ListenerQuiet(f, g, l);
  }

  lemma {:induction false} ListenerDecide(f: Flow, recent: bool, l: Listener)
    requires LaunchInv(f) && ListenerInv(f, l) && Enabled(f, Decide(recent))
    ensures ListenerInv(Decided(f, recent), l)
  {
    var g, r := Decided(f, recent), f.worker.run;
    LaunchDecide(f, recent);
    if f.slots.runs[r].outcome == Drained && !AfterDrained(f.slots, r).again {
      ListenerHandOver(f, g, l);
    } else {
      ListenerDecideQuiet(f, recent, l);
    }
  }

  lemma {:induction false} ListenerDecideQuiet(f: Flow, recent: bool, l: Listener)
    requires LaunchInv(f) && ListenerInv(f, l) && Enabled(f, Decide(recent)) && LaunchInv(Decided(f, recent))
    requires f.slots.runs[f.worker.run].outcome == Drained ==> AfterDrained(f.slots, f.worker.run).again
    ensures ListenerInv(Decided(f, recent), l)
  {
    assert Executing(f) == f.slots.active == Some(f.worker.run);
    ListenerQuiet(f, Decided(f, recent), l);
  }

  lemma {:induction false} ListenerFinally(f: Flow, l: Listener)
    requires LaunchInv(f) && ListenerInv(f, l) && Enabled(f, FinallyBlock)
    ensures ListenerInv(Finished(f), l)
  {
    LaunchFinally(f);
    if f.slots.active == Some(f.worker.run) {
      ListenerHandOver(f, Finished(f), l);
    } else {
      ListenerQuiet(f, Finished(f), l);
    }
  }

  lemma {:induction false} ListenerSkip(f: Flow, listens: bool, now: nat, l: Listener)
    requires f.slots.WellFormed() && ListenerInv(f, l)
    ensures ListenerInv(Skipped(f, listens, now), l)
  {
    var g := Skipped(f, listens, now);
    ToldOneMore(f.calls, Call(|f.joinedAt|, false, None, f.began, f.seen), l);
    assert Places(g, l) == Places(f, l) + if listens && l == |f.joinedAt| then 1 else 0;
  }

  // One listener moves from a place where it waits to the told ones.
  lemma {:induction false} ListenerMoved(f: Flow, g: Flow, l: Listener, told: nat)
    requires ListenerInv(f, l)
    requires g.slots == f.slots && g.joinedAt == f.joinedAt
    requires Told(g.calls, l) == Told(f.calls, l) + told
    requires Occ(g.owed, l) + WithWorker(g, l) + told == Occ(f.owed, l) + WithWorker(f, l)
    ensures ListenerInv(g, l)
  {
  }

  lemma {:induction false} ListenerTellOwed(f: Flow, i: nat, now: nat, l: Listener)
    requires ListenerInv(f, l) && Enabled(f, TellOwed(i))
    ensures ListenerInv(Step(f, TellOwed(i), now), l)
  {
    OccRemove(f.owed, i, l);
    ToldOneMore(f.calls, Call(f.owed[i], false, None, f.began, f.seen), l);
    ListenerMoved(f, Step(f, TellOwed(i), now), l, if f.owed[i] == l then 1 else 0);
  }

  lemma {:induction false} ListenerTellOne(f: Flow, now: nat, l: Listener)
    requires ListenerInv(f, l) && Enabled(f, TellOne)
    ensures ListenerInv(Step(f, TellOne, now), l)
  {
    var w := f.worker;
    ToldOneMore(f.calls, Call(w.todo[0], w.ok, Some(w.run), f.began, f.seen), l);
    ListenerMoved(f, Step(f, TellOne, now), l, if w.todo[0] == l then 1 else 0);
  }

  lemma {:induction false} ListenerStep(f: Flow, e: Event, now: nat, l: Listener)
    requires LaunchInv(f) && ListenerInv(f, l) && Enabled(f, e)
    ensures ListenerInv(Step(f, e, now), l)
  {
    if e.Skip? || e.Flush? || e.Retry? || e.CancelAll? || e.CancelRun? {
      ListenerCaller(f, e, now, l);
    } else if e.TellOwed? || e.TellOne? {
      ListenerTells(f, e, now, l);
    } else if e.PassReturns? || e.PassThrows? {
      ListenerPass(f, e, now, l);
    } else if e.Decide? || e.FinallyBlock? || e.LoopHead? {
      ListenerWorker(f, e, now, l);
    } else {
      ListenerQuiet(f, Step(f, e, now), l);
    }
  }

  lemma {:induction false} ListenerCaller(f: Flow, e: Event, now: nat, l: Listener)
    requires LaunchInv(f) && ListenerInv(f, l) && Enabled(f, e)
    requires e.Skip? || e.Flush? || e.Retry? || e.CancelAll? || e.CancelRun?
    ensures ListenerInv(Step(f, e, now), l)
  {
    match e
    case Skip(listens) => ListenerSkip(f, listens, now, l);
    case Flush(force, listens) => ListenerFlush(f, force, listens, now, l);
    case Retry(t) => ListenerRetry(f, t, l);
    case CancelAll => ListenerCancel(f, None, l);
    case CancelRun(r) => ListenerCancel(f, Some(r), l);
  }

  lemma {:induction false} ListenerTells(f: Flow, e: Event, now: nat, l: Listener)
    requires LaunchInv(f) && ListenerInv(f, l) && Enabled(f, e) && (e.TellOwed? || e.TellOne?)
    ensures ListenerInv(Step(f, e, now), l)
  {
    if e.TellOwed? {
      ListenerTellOwed(f, e.i, now, l);
    } else {
      ListenerTellOne(f, now, l);
    }
  }

  lemma {:induction false} ListenerWorker(f: Flow, e: Event, now: nat, l: Listener)
    requires LaunchInv(f) && ListenerInv(f, l) && Enabled(f, e) && (e.Decide? || e.FinallyBlock? || e.LoopHead?)
    ensures ListenerInv(Step(f, e, now), l)
  {
    match e
    case Decide(recent) => ListenerDecide(f, recent, l);
    case FinallyBlock => ListenerFinally(f, l);
    case LoopHead => ListenerLoopHead(f, now, l);
  }

  lemma {:induction false} ListenerLoopHead(f: Flow, now: nat, l: Listener)
    requires LaunchInv(f) && ListenerInv(f, l) && Enabled(f, LoopHead)
    ensures ListenerInv(Step(f, LoopHead, now), l)
  {
    assert Executing(f) == f.slots.active;
    ListenerQuiet(f, Step(f, LoopHead, now), l);
  }
}
