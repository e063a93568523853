// The main results about the native delivery pipeline.
module DeliveryResults {
  import opened Commons
  import opened Outbox
  import FlushRuns
  import F = FlushFlow
  import FlushHistories
  import ListenerProofs
  import FreshnessProofs
  import P = FlushPass
  import BatchReader
  import Fifo = FifoProofs
  import Quarantine = QuarantineProofs
  import Coverage = CoverageProofs
  import Bound = FlushBound
  import Late = LateListeners
  import opened Delivery
  import opened DeliveryProofs

  // ---------- Events ----------

  // Every event ever handed to the pipeline is in the outbox, or was in a body answered 2xx, or was
  // quarantined, or never got into the outbox, or was cut off by the cap, unless it was displaced, which
  // only happens to an event whose id another one bears.
  lemma {:induction false} NoSilentLoss(h: seq<Event>, w: World, c: Capture)
    requires After(h) == Some(w) && c in w.box.captured
    ensures Coverage.AccountedFor(w.box, c) || c in w.box.displaced
    ensures Coverage.OwnsId(w.box.captured, c) ==> c !in w.box.displaced && Coverage.AccountedFor(w.box, c)
  {
    BoxHistory(h, w, c);
  }

  // Displacing happens: any two different events with one id can be captured such that the first
  // vanishes, because the second replaces its row. Nothing counts it.
  lemma {:induction false} SharedIdLoses(c: Capture, d: Capture) returns (h: seq<Event>)
    requires c != d && c.id == d.id
    ensures Possible(h) && c in After(h).value.box.captured && !Coverage.AccountedFor(After(h).value.box, c)
    ensures After(h).value.box.displaced == [c] && After(h).value.box.tables.dropped == 0
  {
    h := TwoAppends(c, d);
    Replaced(c, d);
  }

  lemma {:induction false} TwoAppends(c: Capture, d: Capture) returns (h: seq<Event>)
    ensures After(h) == Some(START.(box := P.Appending(P.Appending(P.EMPTY_BOX, c, NoFault, 0), d, NoFault, 1)))
  {
    AppendNext([], START, c);
    h := [] + [Work(P.Appended(c, NoFault))];
    AppendNext(h, START.(box := P.Appending(P.EMPTY_BOX, c, NoFault, 0)), d);
    h := h + [Work(P.Appended(d, NoFault))];
  }

  lemma {:induction false} AppendNext(h: seq<Event>, w: World, c: Capture)
    requires After(h) == Some(w)
    ensures After(h + [Work(P.Appended(c, NoFault))]) ==
            Some(w.(box := P.Appending(w.box, c, NoFault, |h|)))
  {
    StepAppended(w, c, |h|);
    OneMore(h, w, Work(P.Appended(c, NoFault)));
  }

  lemma {:induction false} StepAppended(w: World, c: Capture, now: nat)
    ensures Enabled(w, Work(P.Appended(c, NoFault)))
    ensures Step(w, Work(P.Appended(c, NoFault)), now) == w.(box := P.Appending(w.box, c, NoFault, now))
  {
  }

  lemma {:induction false} OneMore(h: seq<Event>, w: World, e: Event)
    requires After(h) == Some(w) && Enabled(w, e)
    ensures After(h + [e]) == Some(Step(w, e, |h|))
  {
    assert (h + [e])[..|h|] == h;
  }

  lemma {:induction false} Replaced(c: Capture, d: Capture)
    requires c != d && c.id == d.id
    ensures var b := P.Appending(P.Appending(P.EMPTY_BOX, c, NoFault, 0), d, NoFault, 1);
            && b.captured == [c, d] && !Coverage.AccountedFor(b, c)
            && b.displaced == [c] && b.tables.dropped == 0
  {
    var b := P.Appending(P.EMPTY_BOX, c, NoFault, 0);
    assert Inserted(EMPTY, c, 0) == [Row(0, 0, c)];
    assert b.tables.rows == [Row(0, 0, c)] && b.lost == [];
    assert b.tables.rows[..0] == [];
    assert Without(b.tables.rows, {d.id}) == [];
    assert Inserted(b.tables, d, 1) == [Row(1, 1, d)];
    assert P.Appending(b, d, NoFault, 1).lost == [];
    assert P.Displaced([], {d.id}, [d]) == [];
    assert P.Displaced(b.tables.rows, {d.id}, [d]) == [c];
  }

  lemma {:induction false} OutboxBounded(h: seq<Event>)
    requires Possible(h)
    ensures |After(h).value.box.tables.rows| <= MAX_OUTBOX_EVENTS
  {
    if h != [] {
      OutboxBounded(h[..|h| - 1]);
      var w, e := After(h[..|h| - 1]).value, h[|h| - 1];
      var p := PassEvent(w, e);
      if p.Some? {
        RowsBounded(w.box, w.pass, p.value, Cancelled(w), |h| - 1);
      }
    }
  }

  lemma {:induction false} DeletedBounded(b: P.Box, p: P.Pass, e: P.Event, cancelled: bool, now: nat)
    requires P.Enabled(p, e, cancelled) && (e.Isolate? || e.Purge? || e.Reject?)
    ensures |P.Step(b, p, e, cancelled, now).box.tables.rows| <= |b.tables.rows|
  {
    match e
    case Isolate(_) => Bound.WithoutShorter(b.tables.rows, {p.bad[0].row.capture.id});
    case Purge(_) => Bound.WithoutShorter(b.tables.rows, P.Ids(p.batch));
    case Reject(_) => Bound.WithoutShorter(b.tables.rows, {p.row.capture.id});
  }

  lemma {:induction false} RowsBounded(b: P.Box, p: P.Pass, e: P.Event, cancelled: bool, now: nat)
    requires P.Enabled(p, e, cancelled) && |b.tables.rows| <= MAX_OUTBOX_EVENTS
    ensures |P.Step(b, p, e, cancelled, now).box.tables.rows| <= MAX_OUTBOX_EVENTS
  {
    match e
    case Appended(c, fault) => AppendBounded(b, p, c, fault, cancelled, now);
    case Isolate(_) => DeletedBounded(b, p, e, cancelled, now);
    case Purge(_) => DeletedBounded(b, p, e, cancelled, now);
    case Reject(_) => DeletedBounded(b, p, e, cancelled, now);
    case _ => OthersBounded(b, p, e, cancelled, now);
  }

  lemma {:induction false} AppendBounded(b: P.Box, p: P.Pass, c: Capture, fault: Fault, cancelled: bool, now: nat)
    requires |b.tables.rows| <= MAX_OUTBOX_EVENTS
    ensures |P.Step(b, p, P.Appended(c, fault), cancelled, now).box.tables.rows| <= MAX_OUTBOX_EVENTS
  {
  }

  lemma {:induction false} OthersBounded(b: P.Box, p: P.Pass, e: P.Event, cancelled: bool, now: nat)
    requires P.Enabled(p, e, cancelled) && !e.Appended? && !e.Isolate? && !e.Purge? && !e.Reject?
    ensures P.Step(b, p, e, cancelled, now).box.tables.rows == b.tables.rows
  {
  }

  // No two rows of the outbox share an id, so the bound on batch reads applies to every pass.
  lemma {:induction false} RowIdsUnique(h: seq<Event>)
    requires Possible(h)
    ensures Bound.UniqueIds(After(h).value.box.tables.rows)
  {
    if h != [] {
      RowIdsUnique(h[..|h| - 1]);
      var w, e := After(h[..|h| - 1]).value, h[|h| - 1];
      var p := PassEvent(w, e);
      if p.Some? {
        StepKeepsIdsUnique(w.box, w.pass, p.value, Cancelled(w), |h| - 1);
      }
    }
  }

  lemma {:induction false} InsertedUnique(t: Tables, c: Capture, now: nat)
    requires Bound.UniqueIds(t.rows)
    ensures Bound.UniqueIds(Last(Inserted(t, c, now), MAX_OUTBOX_EVENTS))
  {
    var kept := Without(t.rows, {c.id});
    Bound.WithoutUnique(t.rows, {c.id});
    assert forall i :: 0 <= i < |kept| ==> kept[i] in kept;
    assert Bound.UniqueIds(Inserted(t, c, now));
  }

  lemma {:induction false} StepKeepsIdsUnique(b: P.Box, p: P.Pass, e: P.Event, cancelled: bool, now: nat)
    requires P.Enabled(p, e, cancelled) && Bound.UniqueIds(b.tables.rows)
    ensures Bound.UniqueIds(P.Step(b, p, e, cancelled, now).box.tables.rows)
  {
    match e
    case Appended(c, fault) => if fault.NoFault? { InsertedUnique(b.tables, c, now); }
    case Isolate(_) => Bound.WithoutUnique(b.tables.rows, {p.bad[0].row.capture.id});
    case Purge(_) => Bound.WithoutUnique(b.tables.rows, P.Ids(p.batch));
    case Reject(_) => Bound.WithoutUnique(b.tables.rows, {p.row.capture.id});
    case _ => OthersBounded(b, p, e, cancelled, now);
  }

  // First acknowledgements happen in strictly increasing outbox order.
  lemma {:induction false} AcknowledgedInOrder(h: seq<Event>, w: World)
    requires After(h) == Some(w)
    ensures Sorted(Fifo.FirstAcks(w.box.bodies))
  {
    BoxHistory(h, w, Capture("", Garbage("")));
  }

  // Whatever was quarantined had a reason of its own.
  lemma {:induction false} QuarantineSound(h: seq<Event>, w: World, i: nat)
    requires After(h) == Some(w) && i < |w.box.isolated|
    ensures Quarantine.Justified(w.box.posts, w.box.isolated[i])
  {
    BoxHistory(h, w, Capture("", Garbage("")));
  }

  // ---------- Listeners ----------

  // The times at which a batch cursor was opened on an empty outbox.
  function SawNext(saw: set<nat>, w: World, e: Event, now: nat): set<nat> {
    if e == Work(P.Read(true)) && w.box.tables.rows == [] then saw + {now} else saw
  }

  function Saw(h: seq<Event>): set<nat> {
    if h == [] || !Possible(h[..|h| - 1]) then {}
    else SawNext(Saw(h[..|h| - 1]), After(h[..|h| - 1]).value, h[|h| - 1], |h| - 1)
  }

  // Event t is the opening of a batch cursor that found the outbox empty.
  predicate SawEmpty(h: seq<Event>, t: nat) {
    t < |h| && Possible(h[..t]) && h[t] == Work(P.Read(true)) && At(h, t).box.tables.rows == []
  }

  lemma {:induction false} SawMeans(h: seq<Event>, t: nat)
    requires Possible(h) && t in Saw(h)
    ensures SawEmpty(h, t)
  {
    var before := h[..|h| - 1];
    if t in Saw(before) {
      SawMeans(before, t);
      assert before[..t] == h[..t];
    } else {
      assert h[..t] == before;
    }
  }

  // What the states inside a pass know about an empty outbox.
  predicate PassEmpty(saw: set<nat>, p: P.Pass, cancelled: bool) {
    match p
    case Reading(_, max) => max > 0
    case Window(_, max, rows, at) => max > 0 && (rows == [] ==> at in saw)
    case Isolating(_, max, _, bad, _, _) => max > 0 && bad != []
    case Returned(_, max, batch, pruned, error, at) =>
      max > 0 && (batch == [] && pruned == 0 && !error && !cancelled ==> at in saw)
    case Sending(_, max, batch, _, _, _, _) => max > 0 && batch != []
    case Settling(_, max, batch, _, _, _) => max > 0 && batch != []
    case Rejecting(_, max, _, _) => max > 0
    case Over(outcome, at) => outcome == FlushRuns.Drained ==> at in saw
    case _ => true
  }

  predicate SeenEmpty(saw: set<nat>, seen: nat) {
    seen != 0 ==> seen in saw
  }

  predicate EmptyInv(w: World, saw: set<nat>) {
    && PassEmpty(saw, w.pass, Cancelled(w))
    && SeenEmpty(saw, w.flow.seen)
    && forall i :: 0 <= i < |w.flow.calls| ==> SeenEmpty(saw, w.flow.calls[i].seen)
  }

  lemma {:induction false} ReadEmpty(saw: set<nat>, b: P.Box, p: P.Pass, ready: bool, cancelled: bool, now: nat)
    requires P.Enabled(p, P.Read(ready), cancelled) && PassEmpty(saw, p, cancelled)
    ensures PassEmpty(if ready && b.tables.rows == [] then saw + {now} else saw,
                      P.Step(b, p, P.Read(ready), cancelled, now).pass, cancelled)
  {
  }

  lemma {:induction false} ScannedEmpty(saw: set<nat>, b: P.Box, p: P.Pass, k: nat, cancelled: bool, now: nat)
    requires P.Enabled(p, P.Scanned(k), cancelled) && PassEmpty(saw, p, cancelled)
    ensures PassEmpty(saw, P.Step(b, p, P.Scanned(k), cancelled, now).pass, cancelled)
  {
    var s := BatchReader.ScanRows(p.rows[..k]);
    if s.batch == [] && s.bad == [] {
      BatchReader.EmptyScanMeansEmptyWindow(p.rows[..k]);
    }
  }

  lemma {:induction false} WorkEmpty(saw: set<nat>, b: P.Box, p: P.Pass, e: P.Event, cancelled: bool, now: nat)
    requires P.Enabled(p, e, cancelled) && PassEmpty(saw, p, cancelled)
    requires !e.Read? && !e.Scanned?
    ensures PassEmpty(saw, P.Step(b, p, e, cancelled, now).pass, cancelled)
  {
  }

  lemma {:induction false} PassWorks(w: World, saw: set<nat>, p: P.Event, now: nat)
    requires PassEmpty(saw, w.pass, Cancelled(w)) && Enabled(w, Work(p))
    ensures PassEmpty(SawNext(saw, w, Work(p), now), P.Step(w.box, w.pass, p, Cancelled(w), now).pass, Cancelled(w))
  {
    if p.Read? {
      ReadEmpty(saw, w.box, w.pass, p.ready, Cancelled(w), now);
    } else if p.Scanned? {
      ScannedEmpty(saw, w.box, w.pass, p.k, Cancelled(w), now);
    } else {
      WorkEmpty(saw, w.box, w.pass, p, Cancelled(w), now);
    }
  }

  lemma {:induction false} WorkStep(w: World, p: P.Event, now: nat)
    requires Enabled(w, Work(p))
    ensures var r := P.Step(w.box, w.pass, p, Cancelled(w), now); Step(w, Work(p), now) == World(w.flow, r.box, r.pass)
  {
  }

  lemma {:induction false} PassWaits(w: World, saw: set<nat>, f: F.Event, now: nat)
    requires PassEmpty(saw, w.pass, Cancelled(w)) && LinkInv(w, now) && Enabled(w, Protocol(f))
    ensures PassEmpty(saw, w.pass, Cancelled(Step(w, Protocol(f), now)))
  {
    ProtocolKeepsPass(w.flow, f, now);
    FreshnessProofs.CancelledSticks(w.flow, f, now);
  }

  lemma {:induction false} PassStep(w: World, saw: set<nat>, e: Event, now: nat)
    requires PassEmpty(saw, w.pass, Cancelled(w)) && LinkInv(w, now) && Enabled(w, e)
    ensures PassEmpty(SawNext(saw, w, e, now), Step(w, e, now).pass, Cancelled(Step(w, e, now)))
  {
    match e
    case Work(p) =>
      WorkStep(w, p, now);
      PassWorks(w, saw, p, now);
    case Protocol(f) => PassWaits(w, saw, f, now);
    case _ =>
  }

  lemma {:induction false} FlowSeen(f: F.Flow, e: F.Event, now: nat)
    requires F.Enabled(f, e)
    ensures var g := F.Step(f, e, now);
            && (g.seen == f.seen || (e.PassReturns? && e.outcome == FlushRuns.Drained && g.seen == e.seen))
            && |f.calls| <= |g.calls|
            && (forall i :: 0 <= i < |f.calls| ==> g.calls[i] == f.calls[i])
            && (forall i :: |f.calls| <= i < |g.calls| ==> g.calls[i].seen == f.seen)
  {
  }

  lemma {:induction false} EmptyStep(w: World, saw: set<nat>, e: Event, now: nat)
    requires EmptyInv(w, saw) && LinkInv(w, now) && Enabled(w, e)
    ensures EmptyInv(Step(w, e, now), SawNext(saw, w, e, now))
  {
    PassStep(w, saw, e, now);
    if FlowEvent(w, e).Some? {
      FlowSeen(w.flow, FlowEvent(w, e).value, now);
    }
  }

  lemma {:induction false} EmptyHistory(h: seq<Event>)
    requires Possible(h)
    ensures EmptyInv(After(h).value, Saw(h))
  {
    if h != [] {
      EmptyHistory(h[..|h| - 1]);
      Projects(h[..|h| - 1]);
      EmptyStep(After(h[..|h| - 1]).value, Saw(h[..|h| - 1]), h[|h| - 1], |h| - 1);
    }
  }

  // ---------- Rows remember when they were committed ----------

  lemma {:induction false} RowsBorn(b: P.Box, p: P.Pass, e: P.Event, cancelled: bool, now: nat, r: Row)
    requires P.Enabled(p, e, cancelled) && r in P.Step(b, p, e, cancelled, now).box.tables.rows
    ensures r in b.tables.rows || (r.born == now && e == P.Appended(r.capture, NoFault))
  {
    if e.Appended? && e.fault == NoFault {
      assert r in Inserted(b.tables, e.c, now);
    }
  }

  lemma {:induction false} LastStepRows(h: seq<Event>, r: Row)
    requires Possible(h) && h != [] && r in After(h).value.box.tables.rows
    ensures r in After(h[..|h| - 1]).value.box.tables.rows ||
            (r.born == |h| - 1 && h[|h| - 1] == Work(P.Appended(r.capture, NoFault)))
  {
    StepRows(After(h[..|h| - 1]).value, h[|h| - 1], |h| - 1, r);
  }

  lemma {:induction false} StepRows(w: World, e: Event, now: nat, r: Row)
    requires Enabled(w, e) && r in Step(w, e, now).box.tables.rows
    ensures r in w.box.tables.rows || (r.born == now && e == Work(P.Appended(r.capture, NoFault)))
  {
    if PassEvent(w, e).Some? {
      RowsBorn(w.box, w.pass, PassEvent(w, e).value, Cancelled(w), now, r);
    }
  }

  // A row in the outbox was committed by the append event at its time of birth.
  lemma {:induction false} BornWhenAppended(h: seq<Event>, r: Row)
    requires Possible(h) && r in After(h).value.box.tables.rows
    ensures r.born < |h| && h[r.born] == Work(P.Appended(r.capture, NoFault))
  {
    LastStepRows(h, r);
    if r in After(h[..|h| - 1]).value.box.tables.rows {
      BornWhenAppended(h[..|h| - 1], r);
    }
  }

  // After the outbox was seen empty it only holds younger rows.
  lemma {:induction false} YoungerThanEmpty(h: seq<Event>, t: nat, r: Row)
    requires Possible(h) && SawEmpty(h, t) && r in After(h).value.box.tables.rows
    ensures t < r.born
  {
    var before := h[..|h| - 1];
    LastStepRows(h, r);
    if t < |h| - 1 && r in After(before).value.box.tables.rows {
      assert before[..t] == h[..t];
      YoungerThanEmpty(before, t, r);
    }
  }

  // When the listener of call i registered.
  function JoinTime(f: F.Flow, i: nat): nat
    requires i < |f.calls|
  {
    var l := f.calls[i].listener;
    if l < |f.joinedAt| then f.joinedAt[l] else 0
  }

  // The run of call i was cancelled after its listener had joined, and before the worker came back to
  // the head of the loop for it.
  predicate CutShort(h: seq<Event>, f: F.Flow, i: nat)
    requires i < |f.calls|
  {
    f.calls[i].run.Some? && Late.CutShort(Late.MarksOf(Project(h), f.calls[i].run.value, JoinTime(f, i)), JoinTime(f, i))
  }

  // No lost flush. Whenever a listener is told `true`, by a cancelled run too, the run's last pass had
  // opened a cursor that found the outbox empty, and whatever is in the outbox now was committed after
  // that. That pass began after the listener had joined, unless the run was cut short; in particular if
  // the run was never cancelled.
  lemma {:induction false} NoLostFlush(h: seq<Event>, w: World, i: nat)
    requires After(h) == Some(w) && i < |w.flow.calls| && w.flow.calls[i].ok
    ensures var c := w.flow.calls[i];
            && c.run.Some? && c.run.value < |w.flow.slots.runs| && c.listener < |w.flow.joinedAt|
            && c.began <= c.seen && SawEmpty(h, c.seen)
            && (forall r :: r in w.box.tables.rows ==> c.seen < r.born)
            && (JoinTime(w.flow, i) >= c.began <==> CutShort(h, w.flow, i))
            && (!w.flow.slots.runs[c.run.value].cancelled ==> JoinTime(w.flow, i) < c.began)
  {
    var c := w.flow.calls[i];
    Projects(h);
    FlushHistories.SuccessIsFresh(Project(h), i);
    Late.UncoveredExactly(Project(h), i);
    EmptySeen(h, w, i);
    forall r | r in w.box.tables.rows
      ensures c.seen < r.born
    {
      YoungerThanEmpty(h, c.seen, r);
    }
  }

  lemma {:induction false} EmptySeen(h: seq<Event>, w: World, i: nat)
    requires After(h) == Some(w) && i < |w.flow.calls| && 0 < w.flow.calls[i].seen
    ensures SawEmpty(h, w.flow.calls[i].seen)
  {
    EmptyHistory(h);
    SawMeans(h, w.flow.calls[i].seen);
  }

  // Whatever the outcome, a listener is told at most once; when everything is at rest, exactly once.
  // Listeners do not survive a restart: these are the ones registered since.
  lemma {:induction false} ListenersToldOnce(h: seq<Event>, w: World, l: FlushRuns.Listener)
    requires After(h) == Some(w)
    ensures ListenerProofs.Told(w.flow.calls, l) <= 1
    ensures FlushHistories.Quiescent(w.flow) ==>
              ListenerProofs.Told(w.flow.calls, l) == (if l < |w.flow.joinedAt| then 1 else 0)
  {
    Projects(h);
    FlushHistories.ToldAtMostOnce(Project(h), l);
    if FlushHistories.Quiescent(w.flow) {
      FlushHistories.RestMeansAllTold(Project(h), l);
    }
  }

  // ---------- What success means for the events captured before ----------

  lemma {:induction false} CapturedBefore(h: seq<Event>, i: nat)
    requires Possible(h) && i <= |h|
    ensures Possible(h[..i]) && At(h, i).box.captured <= After(h).value.box.captured
  {
    if i == |h| {
      assert h[..i] == h;
    } else {
      var before := h[..|h| - 1];
      CapturedBefore(before, i);
      assert before[..i] == h[..i];
      var w, e := After(before).value, h[|h| - 1];
      if PassEvent(w, e).Some? {
        CapturesGrow(w.box, w.pass, PassEvent(w, e).value, Cancelled(w), |h| - 1);
      }
    }
  }

  lemma {:induction false} CapturedNext(h: seq<Event>, k: nat, c: Capture)
    requires Possible(h) && k < |h| && h[k] == Work(P.Appended(c, NoFault))
    ensures Possible(h[..k + 1]) && c in At(h, k + 1).box.captured
  {
    StepAt(h, k);
    StepAppended(At(h, k), c, k);
  }

  lemma {:induction false} StillCaptured(h: seq<Event>, t: nat, c: Capture)
    requires Possible(h) && t <= |h| && Possible(h[..t]) && c in At(h, t).box.captured
    ensures c in After(h).value.box.captured
  {
    CapturedBefore(h, t);
  }

  lemma {:induction false} CapturedEarlier(h: seq<Event>, t: nat, k: nat, c: Capture)
    requires Possible(h) && k < t <= |h| && h[k] == Work(P.Appended(c, NoFault))
    ensures Possible(h[..t]) && c in At(h, t).box.captured && c in After(h).value.box.captured
  {
    PrefixPossible(h, t);
    CapturedNext(h[..t], k, c);
    StillCaptured(h[..t], k + 1, c);
    StillCaptured(h, t, c);
  }

  // Settled for good: delivered, quarantined or lost, or displaced if another event bears its id.
  predicate Done(b: P.Box, c: Capture) {
    && (Coverage.Settled(b, c) || c in b.displaced)
    && (Coverage.OwnsId(b.captured, c) ==> Coverage.Settled(b, c))
  }

  lemma {:induction false} SettledForGood(h: seq<Event>, w: World, t: nat, c: Capture)
    requires After(h) == Some(w) && t <= |h| && Possible(h[..t])
    requires var b := At(h, t).box; Coverage.Settled(b, c) || c in b.displaced
    ensures Coverage.Settled(w.box, c) || c in w.box.displaced
  {
    if t == |h| {
      assert h[..t] == h;
    } else {
      var before, e := h[..|h| - 1], h[|h| - 1];
      assert before[..t] == h[..t];
      var v := After(before).value;
      SettledForGood(before, v, t, c);
      if PassEvent(v, e).Some? {
        Coverage.SettledSticks(v.box, v.pass, PassEvent(v, e).value, Cancelled(v), |h| - 1, c);
      }
    }
  }

  // An event captured before the outbox was empty is settled.
  lemma {:induction false} SettledOnceEmpty(h: seq<Event>, w: World, t: nat, k: nat, c: Capture)
    requires After(h) == Some(w) && SawEmpty(h, t) && k < t && h[k] == Work(P.Appended(c, NoFault))
    ensures Done(w.box, c)
  {
    CapturedEarlier(h, t, k, c);
    NoSilentLoss(h[..t], At(h, t), c);
    SettledForGood(h, w, t, c);
    NoSilentLoss(h, w, c);
  }

  // The promise of a success, told by whatever run: every event committed before the outbox was seen
  // empty, so in particular before the run's last pass began, is settled.
  lemma {:induction false} SuccessSettles(h: seq<Event>, w: World, i: nat, k: nat, c: Capture)
    requires After(h) == Some(w) && i < |w.flow.calls| && w.flow.calls[i].ok
    requires k < w.flow.calls[i].seen && k < |h| && h[k] == Work(P.Appended(c, NoFault))
    ensures Done(w.box, c)
  {
    NoLostFlush(h, w, i);
    SettledOnceEmpty(h, w, w.flow.calls[i].seen, k, c);
  }

  // What the listener may rely on: unless its run was cut short, every event committed before it
  // registered is settled.
  lemma {:induction false} SuccessMeansDelivered(h: seq<Event>, w: World, i: nat, k: nat, c: Capture)
    requires After(h) == Some(w) && i < |w.flow.calls| && w.flow.calls[i].ok && !CutShort(h, w.flow, i)
    requires k < JoinTime(w.flow, i) && k < |h| && h[k] == Work(P.Appended(c, NoFault))
    ensures Done(w.box, c)
  {
    NoLostFlush(h, w, i);
    SuccessSettles(h, w, i, k, c);
  }
}
