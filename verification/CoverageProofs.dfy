// No captured event disappears silently.
module CoverageProofs {
  import opened Commons
  import opened Outbox
  import opened BatchReader
  import opened FlushPass

  // No other event bears the id of c. Rows are replaced and deleted by id.
  predicate OwnsId(cs: seq<Capture>, c: Capture) {
    forall d :: d in cs && d.id == c.id ==> d == c
  }

  predicate InOutbox(b: Box, c: Capture) {
    exists r :: r in b.tables.rows && r.capture == c
  }

  predicate Acknowledged(b: Box, c: Capture) {
    exists body :: body in b.bodies && c in Captures(body)
  }

  predicate Quarantined(b: Box, c: Capture) {
    exists x :: x in b.isolated && x.row.capture == c
  }

  // What has become of an event that is not waiting: it was in a body answered 2xx, or quarantined, or it
  // never got into the outbox or was cut off by the cap.
  predicate Settled(b: Box, c: Capture) {
    Acknowledged(b, c) || Quarantined(b, c) || c in b.lost
  }

  // Where an event can be. It can be in several of these places, since the cap also cuts off rows that are
  // being sent.
  predicate AccountedFor(b: Box, c: Capture) {
    InOutbox(b, c) || Settled(b, c)
  }

  predicate AllKnown(b: Box, rows: seq<Row>) {
    forall r :: r in rows ==> r.capture in b.captured
  }

  predicate PassKnown(b: Box, p: Pass) {
    match p
    case Window(_, _, w, _) => AllKnown(b, w)
    case Isolating(_, _, batch, bad, _, _) => AllKnown(b, batch) && forall x :: x in bad ==> x.row.capture in b.captured
    case Returned(_, _, batch, _, _, _) => AllKnown(b, batch)
    case Sending(_, _, batch, _, _, _, _) => AllKnown(b, batch)
    case Settling(_, _, batch, _, _, _) => AllKnown(b, batch)
    case Purging(_, batch) => AllKnown(b, batch) && batch in b.bodies
    case Rejecting(_, _, row, _) => row.capture in b.captured
    case _ => true
  }

  predicate Covered(b: Box, c: Capture) {
    c in b.captured ==> AccountedFor(b, c) || c in b.displaced
  }

  // Only an event whose id another one bears, too, is ever displaced.
  predicate OthersDisplace(b: Box) {
    forall x :: x in b.displaced ==> x in b.captured && !OwnsId(b.captured, x)
  }

  predicate CoverInv(b: Box, p: Pass, c: Capture) {
    AllKnown(b, b.tables.rows) && PassKnown(b, p) && OthersDisplace(b) && Covered(b, c)
  }

  // A new event takes its place, and pushes others out only into the list of lost or displaced events.
  lemma {:induction false} CoverAppended(b: Box, p: Pass, e: Capture, fault: Fault, now: nat, c: Capture)
    requires CoverInv(b, p, c)
    ensures CoverInv(Appending(b, e, fault, now), p, c)
  {
    var b' := Appending(b, e, fault, now);
    AppendDisplaces(b, e, fault, now);
    assert forall r :: r in Inserted(b.tables, e, now) ==> r.capture in b'.captured;
    if fault.NoFault? && (c == e || InOutbox(b, c)) {
      AppendCovers(b, e, now, c);
    }
  }

  lemma {:induction false} AppendDisplaces(b: Box, e: Capture, fault: Fault, now: nat)
    requires OthersDisplace(b) && AllKnown(b, b.tables.rows)
    ensures OthersDisplace(Appending(b, e, fault, now))
  {
    var b' := Appending(b, e, fault, now);
    assert e in b'.captured && forall d :: d in b.captured ==> d in b'.captured;
  }

  lemma {:induction false} AppendCovers(b: Box, e: Capture, now: nat, c: Capture)
    requires c == e || InOutbox(b, c)
    ensures var b' := Appending(b, e, NoFault, now); InOutbox(b', c) || c in b'.lost || c in b'.displaced
  {
    var inserted := Inserted(b.tables, e, now);
    if c == e || c.id != e.id {
      InsertedHolds(b, e, now, c);
      var r :| r in inserted && r.capture == c;
      SplitCap(inserted, r);
      if r in Pruned(b.tables, e, now) {
        var i :| 0 <= i < |Pruned(b.tables, e, now)| && Pruned(b.tables, e, now)[i] == r;
        assert Captures(Pruned(b.tables, e, now))[i] == c;
      }
    }
  }

  lemma {:induction false} InsertedHolds(b: Box, e: Capture, now: nat, c: Capture)
    requires c == e || (InOutbox(b, c) && c.id != e.id)
    ensures exists r :: r in Inserted(b.tables, e, now) && r.capture == c
  {
    assert Row(b.tables.nextNum, now, e) in Inserted(b.tables, e, now);
    if c != e {
      var r :| r in b.tables.rows && r.capture == c;
      assert r in Inserted(b.tables, e, now);
    }
  }

  lemma {:induction false} SplitCap<T>(rows: seq<T>, r: T)
    requires r in rows
    ensures r in Oldest(rows, MAX_OUTBOX_EVENTS) || r in Last(rows, MAX_OUTBOX_EVENTS)
  {
    assert Oldest(rows, MAX_OUTBOX_EVENTS) + Last(rows, MAX_OUTBOX_EVENTS) == rows;
  }

  // Deleting rows by id is fine if those that are meant are settled.
  lemma {:induction false} CoverDeleted(b: Box, b': Box, p: Pass, q: Pass, ids: set<string>, meant: seq<Capture>,
                                        c: Capture)
    requires CoverInv(b, p, c) && PassKnown(b', q)
    requires b'.tables.rows == Without(b.tables.rows, ids)
    requires b'.displaced == b.displaced + Displaced(b.tables.rows, ids, meant)
    requires b'.captured == b.captured && b'.bodies == b.bodies && b'.lost == b.lost && b.isolated <= b'.isolated
    requires forall id :: id in ids ==> exists m :: m in meant && m.id == id && m in b.captured
    requires c in meant ==> Settled(b', c)
    ensures CoverInv(b', q, c)
  {
    forall x | x in Displaced(b.tables.rows, ids, meant)
      ensures x in b.captured && !OwnsId(b.captured, x)
    {
      var m :| m in meant && m.id == x.id && m in b.captured;
    }
    if InOutbox(b, c) {
      var r :| r in b.tables.rows && r.capture == c;
      assert c.id !in ids ==> r in b'.tables.rows;
    } else if Quarantined(b, c) {
      var x :| x in b.isolated && x.row.capture == c;
      assert x in b'.isolated;
    }
  }

  lemma {:induction false} CoverIsolated(b: Box, p: Pass, q: Pass, row: Row, reason: Reason, ok: bool, c: Capture)
    requires CoverInv(b, p, c) && row.capture in b.captured
    requires PassKnown(b, q) && !q.Purging?
    ensures CoverInv(Isolation(b, row, reason, ok), q, c)
  {
    var b' := Isolation(b, row, reason, ok);
    if ok {
      assert b'.isolated[|b.isolated|].row == row;
      assert row.capture in [row.capture];
      CoverDeleted(b, b', p, q, {row.capture.id}, [row.capture], c);
    } else {
      assert b' == b;
    }
  }

  lemma {:induction false} CoverPurged(b: Box, p: Pass, q: Pass, ok: bool, c: Capture)
    requires CoverInv(b, p, c) && p.Purging?
    requires q.Over? || q.Reading?
    ensures CoverInv(Purged(b, p.batch, ok), q, c)
  {
    var b' := Purged(b, p.batch, ok);
    if ok {
      BatchMeant(b, p.batch);
      CoverDeleted(b, b', p, q, Ids(p.batch), Captures(p.batch), c);
    }
  }

  lemma {:induction false} BatchMeant(b: Box, batch: seq<Row>)
    requires AllKnown(b, batch)
    ensures forall id :: id in Ids(batch) ==> exists m :: m in Captures(batch) && m.id == id && m in b.captured
  {
    forall id | id in Ids(batch)
      ensures exists m :: m in Captures(batch) && m.id == id && m in b.captured
    {
      var s :| s in batch && s.capture.id == id;
      var i :| 0 <= i < |batch| && batch[i] == s;
      assert Captures(batch)[i] == s.capture;
    }
  }

  lemma {:induction false} CoverAnswered(b: Box, p: Pass, a: Answer, cancelled: bool, now: nat, c: Capture)
    requires CoverInv(b, p, c) && Enabled(p, Answered(a), cancelled)
    ensures var r := Step(b, p, Answered(a), cancelled, now); CoverInv(r.box, r.pass, c)
  {
    var r := Step(b, p, Answered(a), cancelled, now);
    if Acknowledged(b, c) {
      var body :| body in b.bodies && c in Captures(body);
      assert body in r.box.bodies;
    }
  }

  // Steps that only move the worker.
  lemma {:induction false} CoverMoved(b: Box, p: Pass, q: Pass, c: Capture)
    requires CoverInv(b, p, c) && PassKnown(b, q)
    ensures CoverInv(b, q, c)
  {
  }

  lemma {:induction false} CoverScanned(b: Box, p: Pass, k: nat, cancelled: bool, now: nat, c: Capture)
    requires CoverInv(b, p, c) && Enabled(p, Scanned(k), cancelled)
    ensures var r := Step(b, p, Scanned(k), cancelled, now); CoverInv(r.box, r.pass, c)
  {
    var m := ReadIsPrefix(p.rows[..k]);
    assert forall r :: r in p.rows[..k][..m] ==> r in p.rows;
    CoverMoved(b, p, Step(b, p, Scanned(k), cancelled, now).pass, c);
  }

  lemma {:induction false} CoverRefused(b: Box, p: Pass, e: Capture, c: Capture)
    requires CoverInv(b, p, c)
    ensures CoverInv(Refused(b, e), p, c)
  {
  }

  lemma {:induction false} CoverStep(b: Box, p: Pass, e: Event, cancelled: bool, now: nat, c: Capture)
    requires CoverInv(b, p, c) && Enabled(p, e, cancelled)
    ensures var r := Step(b, p, e, cancelled, now); CoverInv(r.box, r.pass, c)
  {
    var r := Step(b, p, e, cancelled, now);
    match e
    case Rejected(x) => CoverRefused(b, p, x, c);
    case Appended(x, fault) => CoverAppended(b, p, x, fault, now, c);
    case Scanned(k) => CoverScanned(b, p, k, cancelled, now, c);
    case Isolate(ok) => CoverIsolated(b, p, r.pass, p.bad[0].row, p.bad[0].reason, ok, c);
    case Answered(a) => CoverAnswered(b, p, a, cancelled, now, c);
    case Purge(ok) => CoverPurged(b, p, r.pass, ok, c);
    case Reject(ok) => CoverIsolated(b, p, r.pass, p.row, p.reason, ok, c);
    case _ => CoverMoved(b, p, r.pass, c);
  }

  // What is settled or displaced stays so.
  lemma {:induction false} SettledSticks(b: Box, p: Pass, e: Event, cancelled: bool, now: nat, c: Capture)
    requires Enabled(p, e, cancelled) && (Settled(b, c) || c in b.displaced)
    ensures var b' := Step(b, p, e, cancelled, now).box; Settled(b', c) || c in b'.displaced
  {
    var b' := Step(b, p, e, cancelled, now).box;
    assert b.bodies <= b'.bodies && b.isolated <= b'.isolated && b.lost <= b'.lost && b.displaced <= b'.displaced;
    if Acknowledged(b, c) {
      var body :| body in b.bodies && c in Captures(body);
      assert body in b'.bodies;
    } else if Quarantined(b, c) {
      var x :| x in b.isolated && x.row.capture == c;
      assert x in b'.isolated;
    }
  }

  // ---------- The count of dropped events ----------

  // The append fails at its commit, after it has pruned rows of a full outbox and counted them: they are
  // back, and the count stays.
  predicate PrunesInVain(t: Tables, e: Event) {
    e.Appended? && e.fault.AtCommit? && |Without(t.rows, {e.c.id})| >= MAX_OUTBOX_EVENTS
  }

  // How many rows a step counts as dropped that are still there.
  function Overcount(t: Tables, e: Event, now: nat): (n: nat)
    ensures n > 0 <==> PrunesInVain(t, e)
  {
    if e.Appended? && e.fault.AtCommit? then |Pruned(t, e.c, now)| else 0
  }

  // What a step adds to the count is what it loses and what it overcounts.
  lemma {:induction false} CountStep(b: Box, p: Pass, e: Event, cancelled: bool, now: nat)
    requires Enabled(p, e, cancelled)
    ensures var b' := Step(b, p, e, cancelled, now).box;
            && b'.tables.dropped - b.tables.dropped == |b'.lost| - |b.lost| + Overcount(b.tables, e, now)
            && b.lost <= b'.lost && b.displaced <= b'.displaced
  {
  }
}
