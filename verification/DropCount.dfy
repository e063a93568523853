// What the count of dropped events says about the events really gone.
module DropCount {
  import opened Commons
  import opened Outbox
  import P = FlushPass
  import Coverage = CoverageProofs
  import opened Delivery
  import opened DeliveryProofs
  import opened DeliveryResults

  // The tables and the history as the process found them when it last started.
  function AtStart(h: seq<Event>): P.Box {
    if h == [] || !Possible(h[..|h| - 1]) then P.EMPTY_BOX
    else if h[|h| - 1].Die? then Restarted(After(h[..|h| - 1]).value).box
    else AtStart(h[..|h| - 1])
  }

  // Since then, an append has failed at its commit on a full outbox.
  predicate PrunedInVain(h: seq<Event>) {
    h != [] && !h[|h| - 1].Die? && Possible(h[..|h| - 1]) &&
    (var before, e := h[..|h| - 1], h[|h| - 1];
     PrunedInVain(before) || (e.Work? && Coverage.PrunesInVain(After(before).value.box.tables, e.p)))
  }

  // How many rows such appends have counted.
  function Overcounted(h: seq<Event>): nat {
    if h == [] || h[|h| - 1].Die? || !Possible(h[..|h| - 1]) then 0
    else
      var before, e := h[..|h| - 1], h[|h| - 1];
      Overcounted(before) + if e.Work? then Coverage.Overcount(After(before).value.box.tables, e.p, |h| - 1) else 0
  }

  // How many events a list has gained since the process started.
  function Since(now: seq<Capture>, start: seq<Capture>): int {
    |now| - |start|
  }

  predicate CountInv(h: seq<Event>, b: P.Box) {
    var s := AtStart(h);
    && s.lost <= b.lost && s.displaced <= b.displaced
    && b.tables.dropped == Since(b.lost, s.lost) + Overcounted(h)
    && (Overcounted(h) > 0 <==> PrunedInVain(h))
  }

  lemma {:induction false} CountHistory(h: seq<Event>, w: World)
    requires After(h) == Some(w)
    ensures CountInv(h, w.box)
  {
    if h != [] && !h[|h| - 1].Die? {
      var before, e := h[..|h| - 1], h[|h| - 1];
      var v := After(before).value;
      CountHistory(before, v);
      WorkCounts(v, e, |h| - 1);
    }
  }

  lemma {:induction false} WorkCounts(v: World, e: Event, now: nat)
    requires Enabled(v, e) && !e.Die?
    ensures var b, b' := v.box, Step(v, e, now).box;
            && b'.tables.dropped - b.tables.dropped ==
               |b'.lost| - |b.lost| + (if e.Work? then Coverage.Overcount(b.tables, e.p, now) else 0)
            && b.lost <= b'.lost && b.displaced <= b'.displaced
  {
    if PassEvent(v, e).Some? {
      Coverage.CountStep(v.box, v.pass, PassEvent(v, e).value, Cancelled(v), now);
    }
  }

  // What droppedEventsCount says. It exceeds the number of events lost since the process started by exactly
  // the rows pruned in commits that failed; so it is that number if and only if no append has failed at its
  // commit on a full outbox since. It never counts the displaced ones, and it is the number of all events
  // lost ever if and only if the surplus makes up for those lost before the process started.
  lemma {:induction false} CountExactly(h: seq<Event>, w: World)
    requires After(h) == Some(w)
    ensures var b, s := w.box, AtStart(h);
            && b.tables.dropped == Since(b.lost, s.lost) + Overcounted(h)
            && (b.tables.dropped == Since(b.lost, s.lost) <==> !PrunedInVain(h))
            && (b.tables.dropped == Since(b.lost, s.lost) + Since(b.displaced, s.displaced) <==>
                Overcounted(h) == Since(b.displaced, s.displaced))
            && (b.tables.dropped == |b.lost| <==> Overcounted(h) == |s.lost|)
  {
    CountHistory(h, w);
  }

  // If no two different events share an id, nothing is displaced, so the count is the number of events gone
  // since the process started if and only if no append has failed at its commit on a full outbox since.
  lemma {:induction false} CountOfGone(h: seq<Event>, w: World)
    requires After(h) == Some(w) && forall c :: c in w.box.captured ==> Coverage.OwnsId(w.box.captured, c)
    ensures w.box.displaced == []
    ensures w.box.tables.dropped == Since(w.box.lost, AtStart(h).lost) <==> !PrunedInVain(h)
  {
    CountHistory(h, w);
    if w.box.displaced != [] {
      BoxHistory(h, w, w.box.displaced[0]);
    }
  }

  // ---------- Where the count is wrong ----------

  // Any event at all can be lost and, after a restart, not counted.
  lemma {:induction false} RestartForgets(c: Capture) returns (h: seq<Event>)
    ensures Possible(h) && After(h).value.box.lost == [c] && After(h).value.box.tables.dropped == 0
  {
    OneMore([], START, Work(P.Rejected(c)));
    h := [] + [Work(P.Rejected(c))];
    var w := After(h).value;
    assert w == START.(box := P.Refused(P.EMPTY_BOX, c));
    OneMore(h, w, Die);
    h := h + [Die];
  }

  // On any full outbox an append that fails at its commit loses one event and counts two.
  lemma {:induction false} FailedCommitCountsTwo(h: seq<Event>, w: World, c: Capture) returns (g: seq<Event>, w': World)
    requires After(h) == Some(w) && |w.box.tables.rows| == MAX_OUTBOX_EVENTS
    requires forall r :: r in w.box.tables.rows ==> r.capture.id != c.id
    ensures g == h + [Work(P.Appended(c, AtCommit))] && After(g) == Some(w')
    ensures w'.box.tables.rows == w.box.tables.rows && w'.box.lost == w.box.lost + [c]
    ensures w'.box.displaced == w.box.displaced && w'.box.tables.dropped == w.box.tables.dropped + 2
  {
    var e := Work(P.Appended(c, AtCommit));
    WithoutOthers(w.box.tables.rows, {c.id});
    OneMore(h, w, e);
    g, w' := h + [e], Step(w, e, |h|);
  }

  lemma {:induction false} WithoutOthers(rows: seq<Row>, ids: set<string>)
    requires forall r :: r in rows ==> r.capture.id !in ids
    ensures Without(rows, ids) == rows
  {
    if rows != [] {
      WithoutOthers(rows[..|rows| - 1], ids);
    }
  }

  function Nth(n: nat): Capture {
    Capture(seq(n, _ => 'x'), Garbage(""))
  }

  function Filling(n: nat): seq<Event> {
    if n == 0 then [] else Filling(n - 1) + [Work(P.Appended(Nth(n - 1), NoFault))]
  }

  // The outbox holds the first n events, and nothing has gone wrong.
  predicate Filled(b: P.Box, n: nat) {
    && |b.tables.rows| == n && (forall i :: 0 <= i < n ==> b.tables.rows[i].capture == Nth(i))
    && b.lost == [] && b.displaced == [] && b.tables.dropped == 0
  }

  lemma {:induction false} FillingFills(n: nat) returns (w: World)
    requires n <= MAX_OUTBOX_EVENTS
    ensures After(Filling(n)) == Some(w) && Filled(w.box, n)
  {
    if n == 0 {
      w := START;
    } else {
      var v := FillingFills(n - 1);
      AppendNext(Filling(n - 1), v, Nth(n - 1));
      w := After(Filling(n)).value;
      FilledNext(v.box, n - 1, |Filling(n - 1)|);
    }
  }

  lemma {:induction false} FilledNext(b: P.Box, n: nat, now: nat)
    requires Filled(b, n) && n < MAX_OUTBOX_EVENTS
    ensures Filled(P.Appending(b, Nth(n), NoFault, now), n + 1)
  {
    var c, rows := Nth(n), b.tables.rows;
    NthIsNew(b, n);
    WithoutOthers(rows, {c.id});
    assert Inserted(b.tables, c, now) == rows + [Row(b.tables.nextNum, now, c)];
    NoneDisplaced(rows, c);
  }

  lemma {:induction false} NthIsNew(b: P.Box, n: nat)
    requires Filled(b, n)
    ensures forall r :: r in b.tables.rows ==> r.capture.id != Nth(n).id
  {
    forall r | r in b.tables.rows
      ensures r.capture.id != Nth(n).id
    {
      var i :| 0 <= i < n && b.tables.rows[i] == r;
      assert |Nth(i).id| == i && |Nth(n).id| == n;
    }
  }

  lemma {:induction false} NoneDisplaced(rows: seq<Row>, c: Capture)
    requires forall r :: r in rows ==> r.capture.id != c.id
    ensures P.Displaced(rows, {c.id}, [c]) == []
  {
    if rows != [] {
      NoneDisplaced(rows[..|rows| - 1], c);
      assert rows[|rows| - 1] in rows;
    }
  }

  // The surplus is reached without any restart: n events that fill the outbox, and one more whose commit
  // fails. One event is lost, and the count is 2.
  lemma {:induction false} OvercountReached(n: nat) returns (h: seq<Event>, w: World)
    requires n == MAX_OUTBOX_EVENTS
    ensures After(h) == Some(w) && Die !in h
    ensures |w.box.tables.rows| == n && w.box.lost == [Nth(n)] && w.box.displaced == []
    ensures w.box.tables.dropped == 2
  {
    var v := FillingFills(n);
    NthIsNew(v.box, n);
    NobodyDies(n);
    h, w := FailedCommitCountsTwo(Filling(n), v, Nth(n));
  }

  lemma {:induction false} NobodyDies(n: nat)
    ensures Die !in Filling(n)
  {
    if n > 0 {
      NobodyDies(n - 1);
    }
  }
}
