// Events are first acknowledged in outbox order.
module FifoProofs {
  import opened Commons
  import opened Outbox
  import opened BatchReader
  import opened FlushPass

  // The rows of a body that no earlier body acknowledged.
  function Fresh(body: seq<Row>, seen: seq<Row>): (f: seq<Row>)
    ensures forall x :: x in f <==> x in body && x !in seen
  {
    if body == [] then []
    else
      var rest, last := Fresh(body[..|body| - 1], seen), body[|body| - 1];
      if last in seen then rest else rest + [last]
  }

  // All acknowledged rows, in the order of their first acknowledgement.
  function FirstAcks(bodies: seq<seq<Row>>): seq<Row> {
    if bodies == [] then []
    else
      var before := FirstAcks(bodies[..|bodies| - 1]);
      before + Fresh(bodies[|bodies| - 1], before)
  }

  predicate Below(rows: seq<Row>, n: nat) {
    forall r :: r in rows ==> r.num < n
  }

  // Whatever is at or before the end of `part` is in `part`.
  predicate Covers(rows: seq<Row>, part: seq<Row>) {
    part != [] ==> forall r :: r in rows && r.num <= part[|part| - 1].num ==> r in part
  }

  predicate OutboxInv(t: Tables, acked: seq<Row>) {
    && Sorted(t.rows) && Below(t.rows, t.nextNum)
    && Sorted(acked) && Below(acked, t.nextNum) && Covers(t.rows, acked)
  }

  // A stretch of rows taken from the outbox some time ago.
  predicate Taken(t: Tables, acked: seq<Row>, part: seq<Row>) {
    Sorted(part) && Below(part, t.nextNum) && Covers(part, acked)
  }

  // Whatever is at or before the end of the batch is in the batch or waits for quarantine.
  predicate CoversBut(rows: seq<Row>, batch: seq<Row>, bad: seq<Bad>) {
    batch != [] ==>
      forall r :: r in rows && r.num <= batch[|batch| - 1].num ==> r in batch || (exists x :: x in bad && x.row == r)
  }

  predicate PassInv(t: Tables, acked: seq<Row>, p: Pass) {
    match p
    case Off => true
    case Reading(_, _) => true
    case Window(_, _, w, _) => Taken(t, acked, w) && Covers(t.rows, w)
    case Isolating(_, _, batch, bad, _, _) => Taken(t, acked, batch) && CoversBut(t.rows, batch, bad)
    case Returned(_, _, batch, _, error, _) => Taken(t, acked, batch) && (!error ==> Covers(t.rows, batch))
    case Sending(_, _, batch, _, _, _, _) => Taken(t, acked, batch) && Covers(t.rows, batch)
    case Settling(_, _, batch, _, _, _) => true
    case Purging(_, batch) => true
    case Rejecting(_, _, _, _) => true
    case Over(_, _) => true
  }

  predicate FifoInv(b: Box, p: Pass) {
    OutboxInv(b.tables, FirstAcks(b.bodies)) && PassInv(b.tables, FirstAcks(b.bodies), p)
  }

  // The outbox loses rows, and gains rows only at its end.
  predicate Aged(t: Tables, t': Tables) {
    && t.nextNum <= t'.nextNum
    && Sorted(t'.rows) && Below(t'.rows, t'.nextNum)
    && forall r :: r in t'.rows ==> r in t.rows || r.num >= t.nextNum
  }

  lemma {:induction false} FifoAged(b: Box, b': Box, p: Pass)
    requires FifoInv(b, p) && Aged(b.tables, b'.tables) && b'.bodies == b.bodies
    ensures FifoInv(b', p)
  {
    assert FirstAcks(b'.bodies) == FirstAcks(b.bodies);
    PassAged(b.tables, b'.tables, FirstAcks(b.bodies), p);
  }

  lemma {:induction false} PassAged(t: Tables, t': Tables, acked: seq<Row>, p: Pass)
    requires OutboxInv(t, acked) && PassInv(t, acked, p) && Aged(t, t')
    ensures OutboxInv(t', acked) && PassInv(t', acked, p)
  {
  }

  lemma {:induction false} LastSorted(rows: seq<Row>, n: nat)
    requires Sorted(rows)
    ensures Sorted(Last(rows, n)) && forall r :: r in Last(rows, n) ==> r in rows
  {
  }

  lemma {:induction false} AppendAges(t: Tables, c: Capture, fault: Fault, now: nat)
    requires Sorted(t.rows) && Below(t.rows, t.nextNum)
    ensures Aged(t, Append(t, c, fault, now))
  {
    if fault.NoFault? {
      InsertedSorted(t, c, now);
      LastSorted(Inserted(t, c, now), MAX_OUTBOX_EVENTS);
    }
  }

  lemma {:induction false} InsertedSorted(t: Tables, c: Capture, now: nat)
    requires Sorted(t.rows) && Below(t.rows, t.nextNum)
    ensures Sorted(Inserted(t, c, now)) && Below(Inserted(t, c, now), t.nextNum + 1)
    ensures forall r :: r in Inserted(t, c, now) ==> r in t.rows || r.num == t.nextNum
  {
    var kept := Without(t.rows, {c.id});
    WithoutSorted(t.rows, {c.id});
    assert forall i :: 0 <= i < |kept| ==> kept[i] in kept;
  }

  lemma {:induction false} DeleteAges(t: Tables, ids: set<string>)
    requires Sorted(t.rows) && Below(t.rows, t.nextNum)
    ensures Aged(t, t.(rows := Without(t.rows, ids)))
  {
    WithoutSorted(t.rows, ids);
  }

  // ---------- Reading ----------

  lemma {:induction false} GoodSorted(rows: seq<Row>)
    requires Sorted(rows)
    ensures Sorted(GoodOf(rows))
  {
    if rows != [] {
      GoodSorted(rows[..|rows| - 1]);
      var rest := GoodOf(rows[..|rows| - 1]);
      assert forall i :: 0 <= i < |rest| ==> rest[i] in rest;
    }
  }

  lemma {:induction false} ReadWindow(t: Tables, acked: seq<Row>, k: nat)
    requires OutboxInv(t, acked) && k <= |t.rows|
    ensures Taken(t, acked, t.rows[..k]) && Covers(t.rows, t.rows[..k])
  {
    var w := t.rows[..k];
    forall r | w != [] && r in t.rows && r.num <= w[k - 1].num
      ensures r in w
    {
      var i :| 0 <= i < |t.rows| && t.rows[i] == r;
      assert i < k;
      assert w[i] == r;
    }
  }

  // In a sorted window, whatever is not after a member of a prefix is in the prefix.
  lemma {:induction false} InPrefix(w: seq<Row>, m: nat, last: Row, r: Row)
    requires Sorted(w) && m <= |w| && last in w[..m] && r in w && r.num <= last.num
    ensures r in w[..m]
  {
    var j :| 0 <= j < m && w[j] == last;
    var i :| 0 <= i < |w| && w[i] == r;
    assert i <= j;
    assert w[..m][i] == r;
  }

  // Taking the good and the bad rows of a prefix leaves nothing behind before the last good row.
  lemma {:induction false} SelectWindow(rows: seq<Row>, w: seq<Row>, m: nat)
    requires Sorted(w) && Covers(rows, w) && m <= |w|
    ensures CoversBut(rows, GoodOf(w[..m]), BadOf(w[..m]))
  {
    var batch, bad := GoodOf(w[..m]), BadOf(w[..m]);
    forall r | batch != [] && r in rows && r.num <= batch[|batch| - 1].num
      ensures r in batch || (exists x :: x in bad && x.row == r)
    {
      var last := batch[|batch| - 1];
      assert last in batch && last in w;
      assert r in w by {
        assert last.num <= w[|w| - 1].num;
      }
      InPrefix(w, m, last, r);
      if !Sendable(r) {
        assert Bad(r, Defect(r)) in bad;
      }
    }
  }

  lemma {:induction false} ScanWindow(t: Tables, acked: seq<Row>, w: seq<Row>, k: nat)
    requires Taken(t, acked, w) && Covers(t.rows, w) && k <= |w|
    ensures var s := ScanRows(w[..k]); Taken(t, acked, s.batch) && CoversBut(t.rows, s.batch, s.bad)
  {
    var m := ReadIsPrefix(w[..k]);
    assert w[..k][..m] == w[..m];
    SelectWindow(t.rows, w, m);
    GoodSorted(w[..m]);
    assert forall r :: r in w[..m] ==> r in w;
  }

  // ---------- Acknowledging ----------

  lemma {:induction false} FreshSorted(body: seq<Row>, seen: seq<Row>)
    requires Sorted(body)
    ensures Sorted(Fresh(body, seen))
  {
    if body != [] {
      FreshSorted(body[..|body| - 1], seen);
      var rest := Fresh(body[..|body| - 1], seen);
      assert forall i :: 0 <= i < |rest| ==> rest[i] in rest;
    }
  }

  lemma {:induction false} AckedInOrder(t: Tables, acked: seq<Row>, batch: seq<Row>)
    requires OutboxInv(t, acked) && Taken(t, acked, batch) && Covers(t.rows, batch)
    ensures OutboxInv(t, acked + Fresh(batch, acked))
  {
    AckedSorted(acked, Fresh(batch, acked), batch);
    AckedCovers(t, acked, batch);
  }

  lemma {:induction false} AckedSorted(acked: seq<Row>, added: seq<Row>, batch: seq<Row>)
    requires Sorted(acked) && Sorted(batch) && Covers(batch, acked) && added == Fresh(batch, acked)
    ensures Sorted(acked + added)
  {
    FreshSorted(batch, acked);
    var all := acked + added;
    forall i, j | 0 <= i < j < |all|
      ensures all[i].num < all[j].num
    {
      if i < |acked| <= j {
        assert all[j] in added && all[i].num <= acked[|acked| - 1].num;
      }
    }
  }

  lemma {:induction false} AckedCovers(t: Tables, acked: seq<Row>, batch: seq<Row>)
    requires OutboxInv(t, acked) && Taken(t, acked, batch) && Covers(t.rows, batch)
    ensures Below(acked + Fresh(batch, acked), t.nextNum) && Covers(t.rows, acked + Fresh(batch, acked))
  {
    var added := Fresh(batch, acked);
    var all := acked + added;
    assert forall x :: x in all <==> x in acked || x in added;
    forall r | all != [] && r in t.rows && r.num <= all[|all| - 1].num
      ensures r in all
    {
      if added != [] {
        assert all[|all| - 1] in batch;
      }
    }
  }

  // ---------- Every step ----------

  lemma {:induction false} FifoIsolate(b: Box, p: Pass, ok: bool, now: nat)
    requires FifoInv(b, p) && p.Isolating? && p.bad != []
    ensures var r := Step(b, p, Isolate(ok), false, now); FifoInv(r.box, r.pass)
  {
    var r := Step(b, p, Isolate(ok), false, now);
    if ok {
      var id := p.bad[0].row.capture.id;
      DeleteAges(b.tables, {id});
      FifoAged(b, r.box, p);
      BadDone(r.box.tables.rows, p.batch, p.bad);
    }
  }

  lemma {:induction false} BadDone(rows: seq<Row>, batch: seq<Row>, bad: seq<Bad>)
    requires bad != [] && CoversBut(rows, batch, bad) && bad[0].row !in rows
    ensures CoversBut(rows, batch, bad[1..])
    ensures |bad| == 1 ==> Covers(rows, batch)
  {
    assert forall x :: x in bad ==> x == bad[0] || x in bad[1..];
  }

  lemma {:induction false} FifoAnswered(b: Box, p: Pass, a: Answer, cancelled: bool, now: nat)
    requires FifoInv(b, p) && Enabled(p, Answered(a), cancelled)
    ensures var r := Step(b, p, Answered(a), cancelled, now); FifoInv(r.box, r.pass)
  {
    if Accepted(a) {
      var bodies := b.bodies + [p.batch];
      assert bodies[..|b.bodies|] == b.bodies;
      AckedInOrder(b.tables, FirstAcks(b.bodies), p.batch);
    }
  }

  lemma {:induction false} FifoScanned(b: Box, p: Pass, k: nat, cancelled: bool, now: nat)
    requires FifoInv(b, p) && Enabled(p, Scanned(k), cancelled)
    ensures var r := Step(b, p, Scanned(k), cancelled, now); FifoInv(r.box, r.pass)
  {
    ScanWindow(b.tables, FirstAcks(b.bodies), p.rows, k);
  }

  lemma {:induction false} FifoStep(b: Box, p: Pass, e: Event, cancelled: bool, now: nat)
    requires FifoInv(b, p) && Enabled(p, e, cancelled)
    ensures var r := Step(b, p, e, cancelled, now); FifoInv(r.box, r.pass)
  {
    var r := Step(b, p, e, cancelled, now);
    match e
    case Rejected(_) => FifoAged(b, r.box, p);
    case Appended(c, fault) => FifoAppended(b, p, c, fault, now);
    case Read(ready) => FifoRead(b, p, ready, cancelled, now);
    case Scanned(k) => FifoScanned(b, p, k, cancelled, now);
    case Isolate(ok) => FifoIsolate(b, p, ok, now);
    case Answered(a) => FifoAnswered(b, p, a, cancelled, now);
    case Purge(ok) => FifoDeleted(b, p, e, cancelled, now);
    case Reject(ok) => FifoDeleted(b, p, e, cancelled, now);
    case _ => FifoMoved(b, p, e, cancelled, now);
  }

  lemma {:induction false} FifoAppended(b: Box, p: Pass, c: Capture, fault: Fault, now: nat)
    requires FifoInv(b, p)
    ensures FifoInv(Appending(b, c, fault, now), p)
  {
    AppendAges(b.tables, c, fault, now);
    FifoAged(b, Appending(b, c, fault, now), p);
  }

  lemma {:induction false} FifoRead(b: Box, p: Pass, ready: bool, cancelled: bool, now: nat)
    requires FifoInv(b, p) && Enabled(p, Read(ready), cancelled)
    ensures var r := Step(b, p, Read(ready), cancelled, now); FifoInv(r.box, r.pass)
  {
    ReadWindow(b.tables, FirstAcks(b.bodies), Min(p.max, |b.tables.rows|));
  }

  lemma {:induction false} FifoDeleted(b: Box, p: Pass, e: Event, cancelled: bool, now: nat)
    requires FifoInv(b, p) && Enabled(p, e, cancelled) && (e.Purge? || e.Reject?)
    ensures var r := Step(b, p, e, cancelled, now); FifoInv(r.box, r.pass)
  {
    DeleteAges(b.tables, if e.Purge? then Ids(p.batch) else {p.row.capture.id});
    FifoAged(b, Step(b, p, e, cancelled, now).box, Off);
  }

  // Steps that only move the worker on with the batch it has.
  lemma {:induction false} FifoMoved(b: Box, p: Pass, e: Event, cancelled: bool, now: nat)
    requires FifoInv(b, p) && Enabled(p, e, cancelled) && (e.Begin? || e.Inspect? || e.Target? || e.Settle?)
    ensures var r := Step(b, p, e, cancelled, now); FifoInv(r.box, r.pass)
  {
    assert Step(b, p, e, cancelled, now).box == b;
  }

  lemma {:induction false} FirstAcksAreTheAcknowledged(bodies: seq<seq<Row>>, r: Row)
    ensures r in FirstAcks(bodies) <==> exists b :: b in bodies && r in b
  {
    if bodies != [] {
      FirstAcksAreTheAcknowledged(bodies[..|bodies| - 1], r);
      assert forall b :: b in bodies <==> b in bodies[..|bodies| - 1] || b == bodies[|bodies| - 1];
    }
  }
}
