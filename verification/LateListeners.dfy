// Exactly which listeners a success does not cover: those that joined when the last pass had begun
// already, and whose run was cancelled before the worker came back to the head of its loop.
module LateListeners {
  import opened Commons
  import opened FlushRuns
  import opened FlushFlow
  import opened FlushFlowProofs
  import opened ListenerProofs
  import opened FreshnessProofs
  import opened FlushHistories
  import opened SuccessProofs

  // What a history says of run r and time j: when r last began a pass, when r was cancelled, and when
  // the worker first came to the head of the loop for r after j.
  datatype Marks = Marks(begin: Option<nat>, cancel: Option<nat>, head: Option<nat>)

  predicate IsCancelled(f: Flow, r: nat) {
    r < |f.slots.runs| && f.slots.runs[r].cancelled
  }

  // while (!currentRun.cancelled), for run r
  predicate AtHead(f: Flow, e: Event, r: nat) {
    e.LoopHead? && f.worker == AtLoop(r)
  }

  function Marked(m: Marks, f: Flow, e: Event, now: nat, g: Flow, r: nat, j: nat): Marks {
    Marks(
      if AtHead(f, e, r) && !IsCancelled(f, r) then Some(now) else m.begin,
      if m.cancel.None? && IsCancelled(g, r) then Some(now) else m.cancel,
      if m.head.None? && AtHead(f, e, r) && j < now then Some(now) else m.head)
  }

  function MarksOf(h: seq<Timed>, r: nat, j: nat): Marks {
    if h == [] || After(h[..|h| - 1]).None? || After(h).None? then Marks(None, None, None)
    else
      var step := h[|h| - 1];
      Marked(MarksOf(h[..|h| - 1], r, j), After(h[..|h| - 1]).value, step.event, step.at, After(h).value, r, j)
  }

  // How the marks are related.
  predicate TimesInv(f: Flow, m: Marks, now: nat, r: nat, j: nat) {
    && (m.cancel.Some? <==> IsCancelled(f, r))
    && (m.begin.Some? ==> m.begin.value < now) && (m.cancel.Some? ==> m.cancel.value < now)
    && (m.head.Some? ==> j < m.head.value < now)
    && (m.begin.Some? && m.cancel.Some? ==> m.begin.value < m.cancel.value)
    && (m.head.Some? && (m.cancel.Some? ==> m.head.value <= m.cancel.value) ==>
          m.begin.Some? && m.head.value <= m.begin.value)
    && (m.begin.Some? && j < m.begin.value ==> m.head.Some? && m.head.value <= m.begin.value)
  }

  lemma {:induction false} TimesStep(f: Flow, e: Event, g: Flow, m: Marks, now: nat, r: nat, j: nat)
    requires TimesInv(f, m, now, r, j)
    requires IsCancelled(f, r) ==> IsCancelled(g, r)
    requires e.LoopHead? ==> (IsCancelled(g, r) <==> IsCancelled(f, r))
    ensures TimesInv(g, Marked(m, f, e, now, g, r, j), now + 1, r, j)
  {
  }

  // Whoever is told by run r is one of its listeners, and run r is over then.
  predicate Past(f: Flow, r: nat) {
    r < Newest(f) && f.slots.active != Some(r)
  }

  predicate Listens(f: Flow, r: nat, l: Listener) {
    r < |f.slots.runs| && l in f.slots.runs[r].listeners
  }

  predicate ToldInv(f: Flow, r: nat) {
    && f.slots.WellFormed()
    && (f.worker.Notifying? && f.worker.run == r ==> forall l :: l in f.worker.todo ==> Listens(f, r, l))
    && (forall i :: 0 <= i < |f.calls| && f.calls[i].run == Some(r) ==> Past(f, r) && Listens(f, r, f.calls[i].listener))
  }

  // Whoever listens to run r registered before r was cancelled.
  predicate InTimeInv(f: Flow, m: Marks, r: nat, l: Listener) {
    Listens(f, r, l) && m.cancel.Some? ==> l < |f.joinedAt| && f.joinedAt[l] < m.cancel.value
  }

  // `began` is when the run at work began its last pass, as far as it matters.
  predicate WorkerBegan(f: Flow, begin: Option<nat>, r: nat) {
    match f.worker
    case InPass(x) => x == r ==> begin == Some(f.began)
    case GotOutcome(x) => x == r ==> begin == Some(f.began)
    case AtLoop(x) => x == r && HasDrained(f.slots, r) ==> begin == Some(f.began)
    case Leaving(x, _) => x == r && HasDrained(f.slots, r) ==> begin == Some(f.began)
    case Notifying(x, _, ok, _) => x == r && ok ==> begin == Some(f.began)
    case Idle => true
  }

  predicate CallsBegan(f: Flow, begin: Option<nat>, r: nat) {
    forall i :: 0 <= i < |f.calls| && f.calls[i].ok && f.calls[i].run == Some(r) ==> begin == Some(f.calls[i].began)
  }

  // ---------- Steps ----------

  lemma {:induction false} HeadOnlyActive(f: Flow, e: Event, r: nat)
    requires LaunchInv(f) && AtHead(f, e, r)
    ensures f.slots.active == Some(r) && !Past(f, r)
  {
    assert Executing(f) == Some(r);
  }

  lemma {:induction false} PastStays(f: Flow, g: Flow, r: nat)
    requires LaunchInv(f) && LaunchInv(g) && Past(f, r) && RunsFollow(f, g)
    ensures Past(g, r)
  {
    if g.activated != f.activated {
      NewestGrows(f.activated, g.activated);
    }
  }

  lemma {:induction false} NewestGrows(a: seq<nat>, b: seq<nat>)
    requires a <= b && a != b && Increasing(b)
    ensures a != [] ==> a[|a| - 1] < b[|b| - 1]
  {
    assert a != [] ==> b[|a| - 1] == a[|a| - 1];
  }

  lemma {:induction false} ActivatedGrows(f: Flow, e: Event, now: nat)
    requires Enabled(f, e)
    ensures RunsFollow(f, Step(f, e, now))
  {
  }

  // A run that takes the active slot is recorded as activated.
  predicate RunsFollow(f: Flow, g: Flow) {
    f.activated <= g.activated &&
    (g.activated == f.activated ==> g.slots.active == f.slots.active || g.slots.active.None?)
  }

  // Listeners of a run stay.
  predicate ListenersKeep(s: Slots, s': Slots) {
    |s.runs| <= |s'.runs| && forall r, l :: 0 <= r < |s.runs| && l in s.runs[r].listeners ==> l in s'.runs[r].listeners
  }

  lemma {:induction false} JoinKeeps(s: Slots, r: Started, l: Option<Listener>)
    requires JoinEffect(s, r, l)
    ensures ListenersKeep(s, r.slots)
  {
  }

  lemma {:induction false} StepKeepsListeners(f: Flow, e: Event, now: nat)
    requires Enabled(f, e)
    ensures ListenersKeep(f.slots, Step(f, e, now).slots)
  {
    match e
    case Flush(force, listens) =>
      var l := if listens then Some(|f.joinedAt|) else None;
      FlushJoins(f.slots, force, l);
      JoinKeeps(f.slots, Start(f.slots, force, l, None), l);
    case Retry(t) =>
      RetryJoins(f.slots, t);
      JoinKeeps(f.slots, RetryStart(f.slots, t), None);
    case CancelAll => CancelMovesListeners(f.slots, None);
    case CancelRun(r) => CancelMovesListeners(f.slots, Some(r));
    case _ =>
  }

  // A call in the name of a run is made by the worker that is telling its listeners.
  predicate NewCalls(f: Flow, g: Flow) {
    && f.calls <= g.calls
    && forall i :: |f.calls| <= i < |g.calls| && g.calls[i].run.Some? ==>
         && f.worker.Notifying? && f.worker.todo != [] && g.slots == f.slots && g.activated == f.activated
         && g.calls[i] == Call(f.worker.todo[0], f.worker.ok, Some(f.worker.run), f.began, f.seen)
  }

  lemma {:induction false} StepCalls(f: Flow, e: Event, now: nat)
    requires Enabled(f, e)
    ensures NewCalls(f, Step(f, e, now))
  {
  }

  lemma {:induction false} ToldCalls(f: Flow, g: Flow, r: nat)
    requires LaunchInv(f) && LaunchInv(g) && ToldInv(f, r) && NewCalls(f, g)
    requires ListenersKeep(f.slots, g.slots) && RunsFollow(f, g)
    ensures forall i :: 0 <= i < |g.calls| && g.calls[i].run == Some(r) ==> Past(g, r) && Listens(g, r, g.calls[i].listener)
  {
    forall i | 0 <= i < |g.calls| && g.calls[i].run == Some(r)
      ensures Past(g, r) && Listens(g, r, g.calls[i].listener)
    {
      if i < |f.calls| {
        assert g.calls[i] == f.calls[i];
        PastStays(f, g, r);
      } else {
        assert f.worker.todo[0] in f.worker.todo;
      }
    }
  }

  lemma {:induction false} ToldTodo(f: Flow, e: Event, now: nat, r: nat)
    requires ToldInv(f, r) && Enabled(f, e) && ListenersKeep(f.slots, Step(f, e, now).slots)
    ensures var g := Step(f, e, now);
            g.worker.Notifying? && g.worker.run == r ==> forall l :: l in g.worker.todo ==> Listens(g, r, l)
  {
    var g := Step(f, e, now);
    if g.worker.Notifying? && g.worker.run == r {
      if e.FinallyBlock? {
        assert g.worker.todo == f.slots.runs[r].listeners && g.slots.runs == f.slots.runs;
      } else {
        assert f.worker.Notifying? && f.worker.run == r;
        assert forall l :: l in g.worker.todo ==> l in f.worker.todo;
        assert forall l :: l in f.worker.todo ==> Listens(f, r, l);
      }
    }
  }

  lemma {:induction false} ToldStep(f: Flow, e: Event, now: nat, r: nat)
    requires LaunchInv(f) && ToldInv(f, r) && Enabled(f, e)
    ensures ToldInv(Step(f, e, now), r)
  {
    LaunchStep(f, e, now);
    ActivatedGrows(f, e, now);
    StepKeepsListeners(f, e, now);
    StepCalls(f, e, now);
    ToldCalls(f, Step(f, e, now), r);
    ToldTodo(f, e, now, r);
  }

  lemma {:induction false} EnteredUncancelled(s: Slots, force: bool, l: Option<Listener>, explicit: bool)
    requires s.WellFormed() && (s.pending.Some? ==> !s.runs[s.pending.value].cancelled)
    ensures var r := Entered(s, force, l, explicit);
            r.run < |r.slots.runs| && !r.slots.runs[r.run].cancelled
  {
  }

  // A start gives a listener to the run it returns and to no other.
  lemma {:induction false} JoinedOne(s: Slots, r: Started, x: Option<Listener>, run: nat, l: Listener)
    requires JoinEffect(s, r, x) && ContentEffect(s, r) && run < |r.slots.runs| && l in r.slots.runs[run].listeners
    requires run < |s.runs| ==> l !in s.runs[run].listeners
    ensures !r.status.StaleEpoch? && run == r.run
  {
  }

  lemma {:induction false} NewByFlush(f: Flow, force: bool, listens: bool, now: nat, r: nat, l: Listener)
    requires LaunchInv(f) && !Listens(f, r, l) && Listens(Flushed(f, force, listens, now), r, l)
    ensures !IsCancelled(Flushed(f, force, listens, now), r)
  {
    var x := if listens then Some(|f.joinedAt|) else None;
    FlushJoins(f.slots, force, x);
    StartContent(f.slots, force, x, None);
    EnteredUncancelled(f.slots, force, x, true);
    JoinedOne(f.slots, Start(f.slots, force, x, None), x, r, l);
  }

  lemma {:induction false} RetryJoinsNobody(f: Flow, t: nat, r: nat, l: Listener)
    requires LaunchInv(f) && t < |f.slots.timers| && Listens(Retried(f, t), r, l)
    ensures Listens(f, r, l)
  {
    RetryJoins(f.slots, t);
    StartContent(SetPhase(f.slots, t, Left), true, None, Some(f.slots.timers[t].epoch));
  }

  lemma {:induction false} NewByOthers(f: Flow, e: Event, now: nat, r: nat, l: Listener)
    requires Enabled(f, e) && !e.Flush? && !e.Retry? && !Listens(f, r, l)
    ensures !Listens(Step(f, e, now), r, l)
  {
    match e
    case CancelAll => CancelMovesListeners(f.slots, None);
    case CancelRun(x) => CancelMovesListeners(f.slots, Some(x));
    case _ =>
  }

  // Nobody joins a cancelled run.
  lemma {:induction false} NewListener(f: Flow, e: Event, now: nat, r: nat, l: Listener)
    requires LaunchInv(f) && Enabled(f, e)
    requires Listens(Step(f, e, now), r, l) && !Listens(f, r, l)
    ensures !IsCancelled(Step(f, e, now), r)
  {
    match e
    case Flush(force, listens) => NewByFlush(f, force, listens, now, r, l);
    case Retry(t) => RetryJoinsNobody(f, t, r, l);
    case _ => NewByOthers(f, e, now, r, l);
  }

  lemma {:induction false} InTimeStep(f: Flow, e: Event, m: Marks, now: nat, r: nat, l: Listener, j: nat)
    requires LaunchInv(f) && AllRegistered(f, now) && Enabled(f, e)
    requires TimesInv(f, m, now, r, j) && InTimeInv(f, m, r, l)
    ensures InTimeInv(Step(f, e, now), Marked(m, f, e, now, Step(f, e, now), r, j), r, l)
  {
    var g := Step(f, e, now);
    CancelledSticks(f, e, now);
    JoinedAtGrows(f, e, now);
    if Listens(g, r, l) && !Listens(f, r, l) {
      NewListener(f, e, now, r, l);
    } else if Listens(f, r, l) {
      RegisteredBefore(f, r, l, now);
    }
  }

  lemma {:induction false} RegisteredBefore(f: Flow, r: nat, l: Listener, now: nat)
    requires AllRegistered(f, now) && Listens(f, r, l)
    ensures l < |f.joinedAt| && f.joinedAt[l] < now
  {
    assert Before(f.joinedAt, f.slots.runs[r].listeners, now);
    var i :| 0 <= i < |f.slots.runs[r].listeners| && f.slots.runs[r].listeners[i] == l;
  }

  lemma {:induction false} JoinedAtGrows(f: Flow, e: Event, now: nat)
    requires Enabled(f, e)
    ensures f.joinedAt <= Step(f, e, now).joinedAt
  {
  }

  // ---------- When the last pass began ----------

  // When run r last began a pass, after one more step.
  function NextBegin(begin: Option<nat>, f: Flow, e: Event, now: nat, r: nat): Option<nat> {
    if AtHead(f, e, r) && !IsCancelled(f, r) then Some(now) else begin
  }

  lemma {:induction false} BeganCalls(f: Flow, e: Event, now: nat, begin: Option<nat>, r: nat)
    requires LaunchInv(f) && ToldInv(f, r) && WorkerBegan(f, begin, r) && CallsBegan(f, begin, r) && Enabled(f, e)
    ensures CallsBegan(Step(f, e, now), NextBegin(begin, f, e, now, r), r)
  {
    var g := Step(f, e, now);
    StepCalls(f, e, now);
    if AtHead(f, e, r) {
      HeadOnlyActive(f, e, r);
      assert g.calls == f.calls;
    } else {
      CallsBeganMore(f, g, begin, r);
    }
  }

  lemma {:induction false} CallsBeganMore(f: Flow, g: Flow, begin: Option<nat>, r: nat)
    requires WorkerBegan(f, begin, r) && CallsBegan(f, begin, r) && NewCalls(f, g)
    ensures CallsBegan(g, begin, r)
  {
    forall i | 0 <= i < |g.calls| && g.calls[i].ok && g.calls[i].run == Some(r)
      ensures begin == Some(g.calls[i].began)
    {
      if i < |f.calls| {
        assert g.calls[i] == f.calls[i];
      }
    }
  }

  // Callers, cancellers and timers.
  lemma {:induction false} BeganCallers(f: Flow, g: Flow, begin: Option<nat>, r: nat)
    requires WorkerBegan(f, begin, r) && NoNewDrained(f.slots, g.slots)
    requires g.worker == f.worker && g.began == f.began
    ensures WorkerBegan(g, begin, r)
  {
  }

  lemma {:induction false} BeganPass(f: Flow, e: Event, now: nat, begin: Option<nat>, r: nat)
    requires LaunchInv(f) && WorkerBegan(f, begin, r) && Enabled(f, e)
    requires e.PassReturns? || e.PassThrows? || e.LoopHead?
    ensures WorkerBegan(Step(f, e, now), NextBegin(begin, f, e, now, r), r)
  {
    assert ScheduleRetry(f.slots, f.worker.run).runs == f.slots.runs;
  }

  lemma {:induction false} BeganDecide(f: Flow, recent: bool, begin: Option<nat>, r: nat)
    requires LaunchInv(f) && WorkerBegan(f, begin, r) && Enabled(f, Decide(recent))
    ensures WorkerBegan(Decided(f, recent), begin, r)
  {
    assert ScheduleRetry(f.slots, f.worker.run).runs == f.slots.runs;
  }

  lemma {:induction false} BeganEnds(f: Flow, e: Event, now: nat, begin: Option<nat>, r: nat)
    requires LaunchInv(f) && DrainedInv(f) && WorkerBegan(f, begin, r) && Enabled(f, e)
    requires e.Submit? || e.Take? || e.FinallyBlock? || e.TellOne? || e.EndRun?
    ensures WorkerBegan(Step(f, e, now), begin, r)
  {
    assert e.Take? ==> f.slots.active == Some(f.queue[0]) && Executing(f).None?;
  }

  lemma {:induction false} OthersDrainNothing(f: Flow, e: Event, now: nat)
    requires Enabled(f, e)
    requires e.Flush? || e.Retry? || e.CancelAll? || e.CancelRun? || e.Skip? || e.Fire? || e.EndTask? || e.TellOwed?
    ensures var g := Step(f, e, now);
            NoNewDrained(f.slots, g.slots) && g.worker == f.worker && g.began == f.began
  {
    match e
    case Flush(force, listens) => StartOutcomes(f.slots, force, if listens then Some(|f.joinedAt|) else None, None);
    case Retry(t) => StartOutcomes(SetPhase(f.slots, t, Left), true, None, Some(f.slots.timers[t].epoch));
    case CancelAll => CancelOutcomes(f.slots, None);
    case CancelRun(r) => CancelOutcomes(f.slots, Some(r));
    case _ =>
  }

  lemma {:induction false} CancelOutcomes(s: Slots, target: Option<nat>)
    requires s.WellFormed()
    ensures NoNewDrained(s, Cancel(s, target).slots)
  {
  }

  lemma {:induction false} BeganWorker(f: Flow, e: Event, now: nat, begin: Option<nat>, r: nat)
    requires LaunchInv(f) && DrainedInv(f) && WorkerBegan(f, begin, r) && Enabled(f, e)
    ensures WorkerBegan(Step(f, e, now), NextBegin(begin, f, e, now, r), r)
  {
    if e.PassReturns? || e.PassThrows? || e.LoopHead? {
      BeganPass(f, e, now, begin, r);
    } else if e.Decide? {
      BeganDecide(f, e.recent, begin, r);
    } else if e.Submit? || e.Take? || e.FinallyBlock? || e.TellOne? || e.EndRun? {
      BeganEnds(f, e, now, begin, r);
    } else {
      OthersDrainNothing(f, e, now);
      BeganCallers(f, Step(f, e, now), begin, r);
    }
  }

  // ---------- Histories ----------

  predicate LateInv(f: Flow, m: Marks, now: nat, r: nat, l: Listener, j: nat) {
    && TimesInv(f, m, now, r, j) && InTimeInv(f, m, r, l)
    && ToldInv(f, r) && WorkerBegan(f, m.begin, r) && CallsBegan(f, m.begin, r)
  }

  lemma {:induction false} LateStep(f: Flow, e: Event, m: Marks, now: nat, r: nat, l: Listener, j: nat)
    requires LaunchInv(f) && DrainedInv(f) && AllRegistered(f, now) && Enabled(f, e)
    requires LateInv(f, m, now, r, l, j)
    ensures LateInv(Step(f, e, now), Marked(m, f, e, now, Step(f, e, now), r, j), now + 1, r, l, j)
  {
    var g := Step(f, e, now);
    CancelledSticks(f, e, now);
    TimesStep(f, e, g, m, now, r, j);
    InTimeStep(f, e, m, now, r, l, j);
    ToldStep(f, e, now, r);
    BeganWorker(f, e, now, m.begin, r);
    BeganCalls(f, e, now, m.begin, r);
    assert Marked(m, f, e, now, g, r, j).begin == NextBegin(m.begin, f, e, now, r);
  }

  lemma {:induction false} LateLater(f: Flow, m: Marks, now: nat, later: nat, r: nat, l: Listener, j: nat)
    requires LateInv(f, m, now, r, l, j) && now <= later
    ensures LateInv(f, m, later, r, l, j)
  {
  }

  lemma {:induction false} LateHistory(h: seq<Timed>, r: nat, l: Listener, j: nat)
    requires After(h).Some?
    ensures LateInv(After(h).value, MarksOf(h, r, j), Clock(h), r, l, j)
  {
    if h != [] {
      var before := h[..|h| - 1];
      var f, e, now := LastStep(h);
      DrainedHistory(before);
      LateHistory(before, r, l, j);
      LateLater(f, MarksOf(before, r, j), Clock(before), now, r, l, j);
      LateStep(f, e, MarksOf(before, r, j), now, r, l, j);
    }
  }

  // Run r was cancelled after time j, and before the worker came to the head of the loop for r again.
  predicate CutShort(m: Marks, j: nat) {
    m.cancel.Some? && j < m.cancel.value && (m.head.Some? ==> m.cancel.value < m.head.value)
  }

  // A success always follows a drained pass of its run. It covers a listener that joined before that
  // pass began; and it does not exactly if the run was cancelled after the listener had joined and before
  // the worker came back to the head of the loop.
  lemma {:induction false} UncoveredExactly(h: seq<Timed>, i: nat)
    requires After(h).Some? && i < |After(h).value.calls| && After(h).value.calls[i].ok
    ensures var f := After(h).value;
            var c := f.calls[i];
            && c.run.Some? && c.listener < |f.joinedAt| && 0 < c.began <= c.seen
            && (f.joinedAt[c.listener] >= c.began <==>
                  CutShort(MarksOf(h, c.run.value, f.joinedAt[c.listener]), f.joinedAt[c.listener]))
  {
    var f := After(h).value;
    var c := f.calls[i];
    SuccessIsFresh(h, i);
    DrainedHistory(h);
    var j := f.joinedAt[c.listener];
    LateHistory(h, c.run.value, c.listener, j);
    Uncovered(f, MarksOf(h, c.run.value, j), Clock(h), i, j);
  }

  lemma {:induction false} Uncovered(f: Flow, m: Marks, now: nat, i: nat, j: nat)
    requires i < |f.calls| && f.calls[i].ok && f.calls[i].run.Some? && f.calls[i].listener < |f.joinedAt|
    requires j == f.joinedAt[f.calls[i].listener]
    requires LateInv(f, m, now, f.calls[i].run.value, f.calls[i].listener, j)
    requires !IsCancelled(f, f.calls[i].run.value) ==> j < f.calls[i].began
    ensures j >= f.calls[i].began <==> CutShort(m, j)
  {
    assert m.begin == Some(f.calls[i].began);
    assert Listens(f, f.calls[i].run.value, f.calls[i].listener);
  }
}
