// What becomes of the rows that a flushInternal finds, if nothing is captured meanwhile.
module FlushCoverage {
  import opened Commons
  import opened Outbox
  import opened BatchReader
  import opened FlushPass
  import opened FlushBound

  // Since the start the row was in a body answered 2xx.
  predicate DeliveredSince(start: Box, b: Box, r: Row) {
    exists k :: |start.bodies| <= k < |b.bodies| && r in b.bodies[k]
  }

  predicate IsolatedSince(start: Box, b: Box, r: Row) {
    exists k :: |start.isolated| <= k < |b.isolated| && b.isolated[k].row == r
  }

  predicate SettledSince(start: Box, b: Box, r: Row) {
    DeliveredSince(start, b, r) || IsolatedSince(start, b, r)
  }

  // The outbox loses only rows that are settled, and a batch comes from the outbox.
  predicate RowsInv(start: Box, b: Box, p: Pass) {
    && start.bodies <= b.bodies && start.isolated <= b.isolated
    && AllIn(b.tables.rows, start.tables.rows)
    && (forall r :: r in start.tables.rows && r !in b.tables.rows ==> SettledSince(start, b, r))
    && match p
       case Window(_, _, rows, _) => AllIn(rows, start.tables.rows)
       case Isolating(_, _, batch, bad, _, _) =>
         AllIn(batch, start.tables.rows) && forall x :: x in bad ==> x.row in start.tables.rows
       case Returned(_, _, batch, _, _, _) => AllIn(batch, start.tables.rows)
       case Sending(_, _, batch, _, _, _, _) => AllIn(batch, start.tables.rows)
       case Settling(_, _, batch, _, _, _) => AllIn(batch, start.tables.rows)
       case Purging(_, batch) =>
         AllIn(batch, start.tables.rows) && |start.bodies| < |b.bodies| && b.bodies[|b.bodies| - 1] == batch
       case Rejecting(_, _, row, _) => row in start.tables.rows
       case _ => true
  }

  lemma {:induction false} SettledMore(start: Box, b: Box, b': Box, r: Row)
    requires b.bodies <= b'.bodies && b.isolated <= b'.isolated && SettledSince(start, b, r)
    ensures SettledSince(start, b', r)
  {
    if DeliveredSince(start, b, r) {
      var k :| |start.bodies| <= k < |b.bodies| && r in b.bodies[k];
      assert b'.bodies[k] == b.bodies[k];
    } else {
      var k :| |start.isolated| <= k < |b.isolated| && b.isolated[k].row == r;
      assert b'.isolated[k] == b.isolated[k];
    }
  }

  // Rows that a step settles may go, and no others do.
  predicate OutboxKept(start: Box, b: Box, b': Box) {
    && b.bodies <= b'.bodies && b.isolated <= b'.isolated
    && AllIn(b'.tables.rows, b.tables.rows)
    && forall r :: r in b.tables.rows && r !in b'.tables.rows ==> SettledSince(start, b', r)
  }

  lemma {:induction false} RowsKept(start: Box, b: Box, p: Pass, b': Box)
    requires RowsInv(start, b, p) && OutboxKept(start, b, b')
    ensures RowsInv(start, b', Off)
  {
    forall r | r in start.tables.rows && r !in b'.tables.rows
      ensures SettledSince(start, b', r)
    {
      if r !in b.tables.rows {
        SettledMore(start, b, b', r);
      }
    }
  }

  lemma {:induction false} IsolationKeeps(start: Box, b: Box, row: Row, reason: Reason, ok: bool, b': Box)
    requires UniqueIds(start.tables.rows) && AllIn(b.tables.rows, start.tables.rows) && row in start.tables.rows
    requires start.isolated <= b.isolated && b' == Isolation(b, row, reason, ok)
    ensures OutboxKept(start, b, b')
  {
    forall r | r in b.tables.rows && r !in b'.tables.rows
      ensures SettledSince(start, b', r)
    {
      UniqueInside(start.tables.rows, r, row);
      assert b'.isolated[|b.isolated|].row == r;
    }
  }

  lemma {:induction false} PurgeKeeps(start: Box, b: Box, batch: seq<Row>, ok: bool, b': Box)
    requires UniqueIds(start.tables.rows) && AllIn(b.tables.rows, start.tables.rows) && AllIn(batch, start.tables.rows)
    requires |start.bodies| < |b.bodies| && b.bodies[|b.bodies| - 1] == batch && b' == Purged(b, batch, ok)
    ensures OutboxKept(start, b, b')
  {
    forall r | r in b.tables.rows && r !in b'.tables.rows
      ensures SettledSince(start, b', r)
    {
      var x :| x in batch && x.capture.id == r.capture.id;
      UniqueInside(start.tables.rows, r, x);
      assert r in b'.bodies[|b.bodies| - 1];
    }
  }

  lemma {:induction false} ScanKeeps(start: Box, b: Box, p: Pass, k: nat, cancelled: bool, now: nat)
    requires RowsInv(start, b, p) && Enabled(p, Scanned(k), cancelled)
    ensures var r := Step(b, p, Scanned(k), cancelled, now); RowsInv(start, r.box, r.pass)
  {
    var m := ReadIsPrefix(p.rows[..k]);
    assert forall r :: r in p.rows[..k][..m] ==> r in p.rows;
  }

  lemma {:induction false} RemovalKeeps(start: Box, b: Box, p: Pass, e: Event, cancelled: bool, now: nat)
    requires RowsInv(start, b, p) && Enabled(p, e, cancelled) && UniqueIds(start.tables.rows)
    requires e.Isolate? || e.Purge? || e.Reject?
    ensures var r := Step(b, p, e, cancelled, now); RowsInv(start, r.box, r.pass)
  {
    var b' := Step(b, p, e, cancelled, now).box;
    match e
    case Isolate(ok) =>
      assert p.bad[0] in p.bad && forall x :: x in p.bad[1..] ==> x in p.bad;
      IsolationKeeps(start, b, p.bad[0].row, p.bad[0].reason, ok, b');
      RowsKept(start, b, p, b');
    case Reject(ok) =>
      IsolationKeeps(start, b, p.row, p.reason, ok, b');
      RowsKept(start, b, p, b');
    case Purge(ok) =>
      PurgeKeeps(start, b, p.batch, ok, b');
      RowsKept(start, b, p, b');
  }

  lemma {:induction false} AnswerKeeps(start: Box, b: Box, p: Pass, e: Event, cancelled: bool, now: nat)
    requires RowsInv(start, b, p) && Enabled(p, e, cancelled) && e.Answered?
    ensures var r := Step(b, p, e, cancelled, now); RowsInv(start, r.box, r.pass)
  {
    RowsKept(start, b, p, Step(b, p, e, cancelled, now).box);
  }

  lemma {:induction false} RowsStep(start: Box, b: Box, p: Pass, e: Event, cancelled: bool, now: nat)
    requires RowsInv(start, b, p) && Enabled(p, e, cancelled) && Undisturbed(e) && UniqueIds(start.tables.rows)
    ensures var r := Step(b, p, e, cancelled, now); RowsInv(start, r.box, r.pass)
  {
    match e
    case Scanned(k) => ScanKeeps(start, b, p, k, cancelled, now);
    case Isolate(_) => RemovalKeeps(start, b, p, e, cancelled, now);
    case Purge(_) => RemovalKeeps(start, b, p, e, cancelled, now);
    case Reject(_) => RemovalKeeps(start, b, p, e, cancelled, now);
    case Answered(_) => AnswerKeeps(start, b, p, e, cancelled, now);
    case _ =>
  }

  lemma {:induction false} RowsWorked(start: Box, es: seq<Event>, now: nat, since: Option<nat>, r: Both)
    requires Worked(start, es, now, since) == Some(r) && UniqueIds(start.tables.rows)
    ensures RowsInv(start, r.box, r.pass)
  {
    if es != [] {
      var front := es[..|es| - 1];
      var before := Worked(start, front, now, since).value;
      RowsWorked(start, front, now, since, before);
      RowsStep(start, before.box, before.pass, es[|es| - 1], CancelledBy(since, |front|), TimeAfter(now, front));
    }
  }

  // Every row found at the start is still in the outbox, or was in a body answered 2xx since, or was
  // quarantined since.
  lemma {:induction false} SettledOrThere(start: Box, es: seq<Event>, now: nat, since: Option<nat>, r: Row)
    requires Worked(start, es, now, since).Some? && UniqueIds(start.tables.rows) && r in start.tables.rows
    ensures var b := Worked(start, es, now, since).value.box;
            r in b.tables.rows || SettledSince(start, b, r)
  {
    RowsWorked(start, es, now, since, Worked(start, es, now, since).value);
  }
}
