// Which answer a listener gets: success if and only if the last pass of its run returned DRAINED. What
// the last pass returned is read off the history, not off the run.
module AnswerProofs {
  import opened Commons
  import opened FlushRuns
  import opened FlushFlow
  import opened FlushFlowProofs
  import opened ListenerProofs
  import opened FreshnessProofs
  import opened FlushHistories
  import Success = SuccessProofs

  // In state f, event e ends a pass of run r.
  predicate EndsPass(f: Flow, e: Event, r: nat) {
    f.worker == InPass(r) && (e.PassReturns? || e.PassThrows?)
  }

  predicate ReturnsDrained(e: Event) {
    e.PassReturns? && e.outcome == Drained
  }

  // The last pass of run r that ended in a history returned DRAINED.
  predicate LastDrained(h: seq<Timed>, r: nat) {
    h != [] &&
    var before, e := h[..|h| - 1], h[|h| - 1].event;
    if After(before).Some? && EndsPass(After(before).value, e, r) then ReturnsDrained(e)
    else LastDrained(before, r)
  }

  predicate EndsPassAt(h: seq<Timed>, r: nat, k: nat) {
    k < |h| && After(h[..k]).Some? && EndsPass(After(h[..k]).value, h[k].event, r)
  }

  // Event k ends the last pass of run r in h.
  predicate EndsLastPass(h: seq<Timed>, r: nat, k: nat) {
    EndsPassAt(h, r, k) && forall m :: k < m < |h| ==> !EndsPassAt(h, r, m)
  }

  lemma {:induction false} EndsEarlier(h: seq<Timed>, r: nat, k: nat)
    requires h != [] && k < |h| - 1
    ensures EndsPassAt(h[..|h| - 1], r, k) == EndsPassAt(h, r, k)
  {
    assert h[..|h| - 1][..k] == h[..k];
  }

  lemma {:induction false} EndsLater(h: seq<Timed>, r: nat, k: nat)
    requires h != [] && !EndsPassAt(h, r, |h| - 1)
    ensures EndsLastPass(h[..|h| - 1], r, k) == EndsLastPass(h, r, k)
  {
    var before := h[..|h| - 1];
    forall m: nat | m < |before|
      ensures EndsPassAt(before, r, m) == EndsPassAt(h, r, m)
    {
      EndsEarlier(h, r, m);
    }
  }

  ghost predicate LastPassDrained(h: seq<Timed>, r: nat) {
    exists k: nat :: EndsLastPass(h, r, k) && ReturnsDrained(h[k].event)
  }

  lemma {:induction false} LastDrainedIs(h: seq<Timed>, r: nat)
    ensures LastDrained(h, r) <==> LastPassDrained(h, r)
  {
    if h != [] {
      var before, n := h[..|h| - 1], |h| - 1;
      if EndsPassAt(h, r, n) {
        assert EndsLastPass(h, r, n);
      } else {
        LastDrainedIs(before, r);
        forall k: nat
          ensures EndsLastPass(before, r, k) == EndsLastPass(h, r, k)
        {
          EndsLater(h, r, k);
        }
        SameLastPass(before, h, r);
      }
    }
  }

  lemma {:induction false} SameLastPass(before: seq<Timed>, h: seq<Timed>, r: nat)
    requires before <= h && forall k: nat :: EndsLastPass(before, r, k) == EndsLastPass(h, r, k)
    ensures LastPassDrained(before, r) == LastPassDrained(h, r)
  {
    if LastPassDrained(before, r) {
      var k: nat :| EndsLastPass(before, r, k) && ReturnsDrained(before[k].event);
      assert EndsLastPass(h, r, k) && h[k] == before[k];
    }
    if LastPassDrained(h, r) {
      var k: nat :| EndsLastPass(h, r, k) && ReturnsDrained(h[k].event);
      assert EndsLastPass(before, r, k) && h[k] == before[k];
    }
  }

  // ---------- The run knows what its last pass returned ----------

  // Run r has been active and will not be again.
  predicate Retired(f: Flow, r: nat) {
    r < Newest(f) && f.slots.active != Some(r)
  }

  // d says whether the last pass of run r returned DRAINED.
  predicate RunKnows(f: Flow, r: nat, d: bool) {
    && Success.HasDrained(f.slots, r) == d
    && (d ==> r in f.activated)
    && (f.worker.Notifying? && f.worker.run == r ==> f.worker.ok == d)
  }

  predicate CallsKnow(f: Flow, r: nat, d: bool) {
    forall c :: 0 <= c < |f.calls| && f.calls[c].run == Some(r) ==> Retired(f, r) && f.calls[c].ok == d
  }

  predicate SameOutcomes(s: Slots, s': Slots) {
    && |s.runs| <= |s'.runs|
    && (forall r :: 0 <= r < |s.runs| ==> s'.runs[r].outcome == s.runs[r].outcome)
    && (forall r :: |s.runs| <= r < |s'.runs| ==> s'.runs[r].outcome == Failed)
  }

  lemma {:induction false} EnteredOutcomes(s: Slots, force: bool, l: Option<Listener>, explicit: bool)
    requires s.WellFormed()
    ensures SameOutcomes(s, Entered(s, force, l, explicit).slots)
  {
  }

  lemma {:induction false} StartOutcomes(s: Slots, force: bool, l: Option<Listener>, expected: Option<nat>)
    requires s.WellFormed()
    ensures SameOutcomes(s, Start(s, force, l, expected).slots)
  {
    if expected.None? || expected.value == s.epoch {
      EnteredOutcomes(if expected.Some? then s.(slot := None) else s, force, l, expected.None?);
    }
  }

  lemma {:induction false} CancelOutcomes(s: Slots, target: Option<nat>)
    requires s.WellFormed()
    ensures SameOutcomes(s, Cancel(s, target).slots)
  {
  }

  // Runs only ever enter the list of activated ones at its end.
  lemma {:induction false} KnowsKept(f: Flow, g: Flow, r: nat, d: bool)
    requires RunKnows(f, r, d) && SameOutcomes(f.slots, g.slots) && f.activated <= g.activated
    requires g.worker.Notifying? && g.worker.run == r ==> g.worker.ok == d
    ensures RunKnows(g, r, d)
  {
  }

  lemma {:induction false} KnowsCaller(f: Flow, e: Event, now: nat, r: nat, d: bool)
    requires Enabled(f, e) && RunKnows(f, r, d)
    requires e.Flush? || e.Retry? || e.CancelAll? || e.CancelRun?
    ensures RunKnows(Step(f, e, now), r, d)
  {
    match e
    case Flush(force, listens) =>
      StartOutcomes(f.slots, force, if listens then Some(|f.joinedAt|) else None, None);
      KnowsKept(f, Step(f, e, now), r, d);
    case Retry(t) =>
      StartOutcomes(SetPhase(f.slots, t, Left), true, None, Some(f.slots.timers[t].epoch));
      KnowsKept(f, Step(f, e, now), r, d);
    case CancelAll =>
      CancelOutcomes(f.slots, None);
      KnowsKept(f, Step(f, e, now), r, d);
    case CancelRun(x) =>
      CancelOutcomes(f.slots, Some(x));
      KnowsKept(f, Step(f, e, now), r, d);
  }

  lemma {:induction false} ActiveActivated(f: Flow)
    requires OrderInv(f) && f.slots.active.Some?
    ensures f.slots.active.value in f.activated
  {
    assert f.activated[|f.activated| - 1] == f.slots.active.value;
  }

  lemma {:induction false} KnowsPass(f: Flow, e: Event, now: nat, r: nat, d: bool)
    requires LaunchInv(f) && Enabled(f, e) && RunKnows(f, r, d) && (e.PassReturns? || e.PassThrows?)
    ensures RunKnows(Step(f, e, now), r, if EndsPass(f, e, r) then ReturnsDrained(e) else d)
  {
    assert Executing(f) == f.slots.active == Some(f.worker.run);
    ActiveActivated(f);
    assert ScheduleRetry(f.slots, f.worker.run).runs == f.slots.runs;
  }

  lemma {:induction false} KnowsDecide(f: Flow, recent: bool, r: nat, d: bool)
    requires Enabled(f, Decide(recent)) && RunKnows(f, r, d)
    ensures RunKnows(Decided(f, recent), r, d)
  {
    assert ScheduleRetry(f.slots, f.worker.run).runs == f.slots.runs;
    KnowsKept(f, Decided(f, recent), r, d);
  }

  lemma {:induction false} KnowsWorker(f: Flow, e: Event, now: nat, r: nat, d: bool)
    requires Enabled(f, e) && RunKnows(f, r, d)
    requires e.Take? || e.LoopHead? || e.FinallyBlock? || e.TellOne? || e.EndRun? || e.Submit?
    ensures RunKnows(Step(f, e, now), r, d)
  {
    KnowsKept(f, Step(f, e, now), r, d);
  }

  lemma {:induction false} KnowsStep(f: Flow, e: Event, now: nat, r: nat, d: bool)
    requires LaunchInv(f) && Enabled(f, e) && RunKnows(f, r, d)
    ensures RunKnows(Step(f, e, now), r, if EndsPass(f, e, r) then ReturnsDrained(e) else d)
  {
    match e
    case Flush(_, _) => KnowsCaller(f, e, now, r, d);
    case Retry(_) => KnowsCaller(f, e, now, r, d);
    case CancelAll => KnowsCaller(f, e, now, r, d);
    case CancelRun(_) => KnowsCaller(f, e, now, r, d);
    case PassReturns(_, _) => KnowsPass(f, e, now, r, d);
    case PassThrows => KnowsPass(f, e, now, r, d);
    case Decide(recent) => KnowsDecide(f, recent, r, d);
    case Skip(_) => KnowsKept(f, Step(f, e, now), r, d);
    case Fire(_) => KnowsKept(f, Step(f, e, now), r, d);
    case EndTask(_) => KnowsKept(f, Step(f, e, now), r, d);
    case TellOwed(_) => KnowsKept(f, Step(f, e, now), r, d);
    case _ => KnowsWorker(f, e, now, r, d);
  }

  // ---------- A run that has told its listeners makes no further pass ----------

  // The places of runs after a step: a run that becomes active was pending or is new.
  predicate Moves(f: Flow, g: Flow) {
    && |f.slots.runs| <= |g.slots.runs| && f.activated <= g.activated
    && (forall x :: x in g.activated ==> x in f.activated || f.slots.pending == Some(x) || x >= |f.slots.runs|)
    && (g.slots.active.Some? ==>
          g.slots.active == f.slots.active || g.slots.active == f.slots.pending || g.slots.active.value >= |f.slots.runs|)
    && (g.slots.pending.Some? ==> g.slots.pending == f.slots.pending || g.slots.pending.value >= |f.slots.runs|)
  }

  lemma {:induction false} StartMoves(f: Flow, r: Started)
    requires LaunchInv(f) && StartEffect(f.slots, r)
    ensures Moves(f, Launched(f, r))
  {
  }

  lemma {:induction false} FlushMoves(f: Flow, force: bool, listens: bool, now: nat)
    requires LaunchInv(f)
    ensures Moves(f, Flushed(f, force, listens, now))
  {
    var l := if listens then Some(|f.joinedAt|) else None;
    StartHasEffect(f.slots, force, l, None);
    StartMoves(Register(f, listens, now), Start(f.slots, force, l, None));
  }

  lemma {:induction false} RetryMoves(f: Flow, t: nat)
    requires LaunchInv(f) && t < |f.slots.timers|
    ensures Moves(f, Retried(f, t))
  {
    RetryHasEffect(f.slots, t);
    StartMoves(f.(early := Retried(f, t).early), RetryStart(f.slots, t));
  }

  lemma {:induction false} CancelMoves(f: Flow, target: Option<nat>)
    requires LaunchInv(f)
    ensures Moves(f, CancelledBy(f, target))
  {
    CancelHasEffect(f.slots, target);
  }

  lemma {:induction false} PassMoves(f: Flow, e: Event, now: nat)
    requires LaunchInv(f) && Enabled(f, e) && (e.PassReturns? || e.PassThrows?)
    ensures Moves(f, Step(f, e, now))
  {
    SteadyRetry(f.slots, f.worker.run);
    SteadyRetry(WithOutcome(f.slots, f.worker.run, Failed), f.worker.run);
  }

  lemma {:induction false} DecideMoves(f: Flow, recent: bool)
    requires LaunchInv(f) && Enabled(f, Decide(recent))
    ensures Moves(f, Decided(f, recent))
  {
    SteadyRetry(f.slots, f.worker.run);
  }

  lemma {:induction false} StepMoves(f: Flow, e: Event, now: nat)
    requires LaunchInv(f) && Enabled(f, e)
    ensures Moves(f, Step(f, e, now))
  {
    match e
    case Flush(force, listens) => FlushMoves(f, force, listens, now);
    case Retry(t) => RetryMoves(f, t);
    case CancelAll => CancelMoves(f, None);
    case CancelRun(x) => CancelMoves(f, Some(x));
    case PassReturns(_, _) => PassMoves(f, e, now);
    case PassThrows => PassMoves(f, e, now);
    case Decide(recent) => DecideMoves(f, recent);
    case _ =>
  }

  lemma {:induction false} NewestGrows(f: Flow, g: Flow)
    requires f.activated <= g.activated && Increasing(g.activated)
    ensures Newest(f) <= Newest(g)
  {
  }

  lemma {:induction false} RetiredStays(f: Flow, e: Event, now: nat, r: nat)
    requires LaunchInv(f) && Enabled(f, e) && Retired(f, r)
    ensures Retired(Step(f, e, now), r) && !EndsPass(f, e, r)
  {
    StepMoves(f, e, now);
    LaunchStep(f, e, now);
    NewestGrows(f, Step(f, e, now));
    assert f.worker == InPass(r) ==> Executing(f) == f.slots.active;
  }

  lemma {:induction false} CallsKnowStep(f: Flow, e: Event, now: nat, r: nat, d: bool)
    requires LaunchInv(f) && Enabled(f, e) && RunKnows(f, r, d) && CallsKnow(f, r, d)
    ensures CallsKnow(Step(f, e, now), r, if EndsPass(f, e, r) then ReturnsDrained(e) else d)
  {
    var g := Step(f, e, now);
    Success.CallsStep(f, e, now);
    if Retired(f, r) {
      RetiredStays(f, e, now, r);
    } else if e.TellOne? {
      assert f.worker.run != r;
    }
  }

  lemma {:induction false} AnswerHistory(h: seq<Timed>, r: nat)
    requires After(h).Some?
    ensures RunKnows(After(h).value, r, LastDrained(h, r)) && CallsKnow(After(h).value, r, LastDrained(h, r))
  {
    if h != [] {
      var before := h[..|h| - 1];
      AnswerHistory(before, r);
      var f, e, now := LastStep(h);
      KnowsStep(f, e, now, r, LastDrained(before, r));
      CallsKnowStep(f, e, now, r, LastDrained(before, r));
    }
  }

  // Whatever is told in the name of a run is what the run's last pass came back with.
  lemma {:induction false} AnswerIsLastPass(h: seq<Timed>, i: nat)
    requires After(h).Some? && i < |After(h).value.calls| && After(h).value.calls[i].run.Some?
    ensures var c := After(h).value.calls[i];
            c.ok <==> LastPassDrained(h, c.run.value)
  {
    var r := After(h).value.calls[i].run.value;
    AnswerHistory(h, r);
    LastDrainedIs(h, r);
  }

  // ---------- The run a listener joined ----------

  // Run r was dropped before it ever became active.
  predicate Dropped(f: Flow, r: nat) {
    r < |f.slots.runs| && f.slots.active != Some(r) && f.slots.pending != Some(r) && r !in f.activated
  }

  predicate ToldFor(f: Flow, l: Listener, r: nat) {
    forall c :: 0 <= c < |f.calls| && f.calls[c].listener == l ==>
      f.calls[c].run == Some(r) || (f.calls[c].run.None? && !f.calls[c].ok && Dropped(f, r))
  }

  // Listener l waits with run r and with no other.
  predicate OnlyIn(s: Slots, l: Listener, r: nat) {
    r < |s.runs| && forall i :: 0 <= i < |s.runs| && i != r ==> l !in s.runs[i].listeners
  }

  predicate JoinedTo(f: Flow, l: Listener, r: nat) {
    && l < |f.joinedAt|
    && OnlyIn(f.slots, l, r)
    && (f.worker.Notifying? && l in f.worker.todo ==> f.worker.run == r)
    && (l in f.owed ==> Dropped(f, r))
    && ToldFor(f, l, r)
  }

  // ---- joining ----

  lemma {:induction false} EnteredOnlyIn(s: Slots, force: bool, x: Option<Listener>, explicit: bool, l: Listener, r: nat)
    requires s.WellFormed() && OnlyIn(s, l, r) && x != Some(l)
    ensures OnlyIn(Entered(s, force, x, explicit).slots, l, r)
  {
  }

  lemma {:induction false} StartOnlyIn(s: Slots, force: bool, x: Option<Listener>, expected: Option<nat>, l: Listener,
                                       r: nat)
    requires s.WellFormed() && OnlyIn(s, l, r) && x != Some(l)
    ensures OnlyIn(Start(s, force, x, expected).slots, l, r)
  {
    if expected.None? || expected.value == s.epoch {
      EnteredOnlyIn(if expected.Some? then s.(slot := None) else s, force, x, expected.None?, l, r);
    }
  }

  lemma {:induction false} SameOnlyIn(s: Slots, s': Slots, l: Listener, r: nat)
    requires SameListeners(s, s') && |s'.runs| == |s.runs| && OnlyIn(s, l, r)
    ensures OnlyIn(s', l, r)
  {
  }

  lemma {:induction false} StepOnlyIn(f: Flow, e: Event, now: nat, l: Listener, r: nat)
    requires Enabled(f, e) && OnlyIn(f.slots, l, r) && l < |f.joinedAt|
    ensures OnlyIn(Step(f, e, now).slots, l, r)
  {
    match e
    case Flush(force, listens) =>
      StartOnlyIn(f.slots, force, if listens then Some(|f.joinedAt|) else None, None, l, r);
    case Retry(t) => StartOnlyIn(SetPhase(f.slots, t, Left), true, None, Some(f.slots.timers[t].epoch), l, r);
    case CancelAll =>
      CancelMovesListeners(f.slots, None);
      SameOnlyIn(f.slots, Step(f, e, now).slots, l, r);
    case CancelRun(x) =>
      CancelMovesListeners(f.slots, Some(x));
      SameOnlyIn(f.slots, Step(f, e, now).slots, l, r);
    case _ => OtherOnlyIn(f, e, now, l, r);
  }

  lemma {:induction false} OtherOnlyIn(f: Flow, e: Event, now: nat, l: Listener, r: nat)
    requires Enabled(f, e) && OnlyIn(f.slots, l, r)
    requires !e.Flush? && !e.Retry? && !e.CancelAll? && !e.CancelRun?
    ensures OnlyIn(Step(f, e, now).slots, l, r)
  {
    SameOnlyIn(f.slots, Step(f, e, now).slots, l, r);
  }

  // A canceller owes an answer only to listeners of the run it dropped.
  lemma {:induction false} OwedDropped(f: Flow, target: Option<nat>, l: Listener, r: nat)
    requires LaunchInv(f) && JoinedTo(f, l, r)
    ensures l in CancelledBy(f, target).owed ==> Dropped(CancelledBy(f, target), r)
  {
    CancelMovesListeners(f.slots, target);
    CancelHasEffect(f.slots, target);
  }

  lemma {:induction false} ToldStep(f: Flow, e: Event, now: nat, l: Listener, r: nat)
    requires LaunchInv(f) && Enabled(f, e) && JoinedTo(f, l, r)
    ensures ToldFor(Step(f, e, now), l, r)
  {
    StepMoves(f, e, now);
    Success.CallsStep(f, e, now);
  }

  lemma {:induction false} JoinedStep(f: Flow, e: Event, now: nat, l: Listener, r: nat)
    requires LaunchInv(f) && Enabled(f, e) && JoinedTo(f, l, r)
    ensures JoinedTo(Step(f, e, now), l, r)
  {
    StepOnlyIn(f, e, now, l, r);
    ToldStep(f, e, now, l, r);
    TodoStep(f, e, now, l, r);
    OwedStep(f, e, now, l, r);
    MoreRegistered(f, e, now);
  }

  lemma {:induction false} MoreRegistered(f: Flow, e: Event, now: nat)
    requires Enabled(f, e)
    ensures |f.joinedAt| <= |Step(f, e, now).joinedAt|
  {
  }

  // The listeners that the worker has still to tell.
  lemma {:induction false} TodoStep(f: Flow, e: Event, now: nat, l: Listener, r: nat)
    requires Enabled(f, e) && OnlyIn(f.slots, l, r) && (f.worker.Notifying? && l in f.worker.todo ==> f.worker.run == r)
    ensures var w := Step(f, e, now).worker; w.Notifying? && l in w.todo ==> w.run == r
  {
  }

  lemma {:induction false} DroppedStays(f: Flow, g: Flow, r: nat)
    requires Dropped(f, r) && Moves(f, g)
    ensures Dropped(g, r)
  {
  }

  // The listeners that a canceller has still to tell.
  lemma {:induction false} OwedStep(f: Flow, e: Event, now: nat, l: Listener, r: nat)
    requires LaunchInv(f) && Enabled(f, e) && JoinedTo(f, l, r)
    ensures l in Step(f, e, now).owed ==> Dropped(Step(f, e, now), r)
  {
    match e
    case CancelAll => OwedDropped(f, None, l, r);
    case CancelRun(x) => OwedDropped(f, Some(x), l, r);
    case _ =>
      OwedFewer(f, e, now);
      if l in Step(f, e, now).owed {
        StepMoves(f, e, now);
        DroppedStays(f, Step(f, e, now), r);
      }
  }

  lemma {:induction false} OwedFewer(f: Flow, e: Event, now: nat)
    requires Enabled(f, e) && !e.CancelAll? && !e.CancelRun?
    ensures forall l :: l in Step(f, e, now).owed ==> l in f.owed
  {
  }

  // A caller that registers with a flush joins the run that Start names.
  lemma {:induction false} JoinsRun(f: Flow, force: bool, now: nat)
    requires LaunchInv(f) && FreshInv(f, now) && ListenerInv(f, |f.joinedAt|)
    ensures JoinedTo(Flushed(f, force, true, now), |f.joinedAt|, Start(f.slots, force, Some(|f.joinedAt|), None).run)
  {
    var l := |f.joinedAt|;
    var g := Flushed(f, force, true, now);
    NotAnywhere(f, now, l);
    EnteredOnlyJoins(f.slots, force, l);
    assert forall c :: 0 <= c < |g.calls| ==> g.calls[c] == f.calls[c];
  }

  lemma {:induction false} EnteredOnlyJoins(s: Slots, force: bool, l: Listener)
    requires s.WellFormed() && forall i :: 0 <= i < |s.runs| ==> l !in s.runs[i].listeners
    ensures OnlyIn(Start(s, force, Some(l), None).slots, l, Start(s, force, Some(l), None).run)
  {
  }

  lemma {:induction false} NotThere(s: seq<Listener>, l: Listener)
    requires Occ(s, l) == 0
    ensures l !in s
  {
    if s != [] {
      NotThere(s[1..], l);
    }
  }

  lemma {:induction false} NotAnywhere(f: Flow, now: nat, l: Listener)
    requires FreshInv(f, now) && ListenerInv(f, l) && |f.joinedAt| <= l
    ensures forall i :: 0 <= i < |f.slots.runs| ==> l !in f.slots.runs[i].listeners
    ensures l !in f.owed && (f.worker.Notifying? ==> l !in f.worker.todo)
    ensures forall c :: 0 <= c < |f.calls| ==> f.calls[c].listener != l
  {
    forall i | 0 <= i < |f.slots.runs|
      ensures l !in f.slots.runs[i].listeners
    {
      assert Before(f.joinedAt, f.slots.runs[i].listeners, now);
    }
    NotThere(f.owed, l);
    if f.worker.Notifying? {
      NotThere(f.worker.todo, l);
    }
    forall c | 0 <= c < |f.calls|
      ensures f.calls[c].listener != l
    {
      if f.calls[c].listener == l {
        ToldIfCalled(f.calls, c);
      }
    }
  }

  // Event s registers a listener with a flush.
  predicate Joins(h: seq<Timed>, s: nat) {
    s < |h| && h[s].event.Flush? && h[s].event.listens && After(h[..s]).Some?
  }

  function JoinedRun(h: seq<Timed>, s: nat): nat
    requires Joins(h, s)
  {
    var f := After(h[..s]).value;
    if f.slots.WellFormed() then Start(f.slots, h[s].event.force, Some(|f.joinedAt|), None).run else 0
  }

  lemma {:induction false} JoinedHistory(h: seq<Timed>, s: nat)
    requires After(h).Some? && Joins(h, s)
    ensures JoinedTo(After(h).value, |After(h[..s]).value.joinedAt|, JoinedRun(h, s))
  {
    var before := h[..|h| - 1];
    Invariants(h[..s], |After(h[..s]).value.joinedAt|);
    var f, e, now := LastStep(h);
    if s == |h| - 1 {
      assert before == h[..s];
      JoinsRun(f, e.force, now);
    } else {
      assert before[..s] == h[..s] && before[s] == h[s];
      JoinedHistory(before, s);
      JoinedStep(f, e, now, |After(h[..s]).value.joinedAt|, JoinedRun(h, s));
    }
  }

  // A listener is told success if and only if the last pass of the run it joined returned DRAINED.
  lemma {:induction false} AnswerOfJoinedRun(h: seq<Timed>, s: nat, i: nat)
    requires After(h).Some? && Joins(h, s)
    requires i < |After(h).value.calls| && After(h).value.calls[i].listener == |After(h[..s]).value.joinedAt|
    ensures After(h).value.calls[i].ok <==> LastPassDrained(h, JoinedRun(h, s))
  {
    JoinedHistory(h, s);
    AnswerHistory(h, JoinedRun(h, s));
    LastDrainedIs(h, JoinedRun(h, s));
  }
}
