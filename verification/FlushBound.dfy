// A flushInternal during which nothing is captured makes at most 6n + 1 batch reads on an outbox of n rows,
// cancelled or not.
module FlushBound {
  import opened Outbox
  import opened BatchReader
  import opened FlushPass
  import opened Commons
  import opened FlushRuns

  // How often a window can be halved.
  function Halvings(max: nat): nat {
    if max < 2 then 0 else 1 + Halvings(max / 2)
  }

  lemma {:induction false} HalvingsGrow(a: nat, b: nat)
    requires a <= b
    ensures Halvings(a) <= Halvings(b)
    decreases b
  {
    if b >= 2 && a >= 2 {
      HalvingsGrow(a / 2, b / 2);
    }
  }

  // Enough reads for n rows, starting with a window that can be halved `halvings` times.
  function ReadsFor(n: nat, halvings: nat): nat {
    if n == 0 then 1 else 6 * n - 4 + halvings
  }

  predicate UniqueIds(rows: seq<Row>) {
    forall i, j :: 0 <= i < j < |rows| ==> rows[i].capture.id != rows[j].capture.id
  }

  predicate AllIn(part: seq<Row>, rows: seq<Row>) {
    forall r :: r in part ==> r in rows
  }

  // The batch is still in the outbox, and a row found bad before anything was isolated is too. Only a
  // cancelled run can come back without rows from an outbox that has some.
  predicate BoundInv(t: Tables, p: Pass, cancelled: bool) {
    && UniqueIds(t.rows)
    && match p
       case Reading(_, max) => 0 < max
       case Window(_, max, w, _) => 0 < max && AllIn(w, t.rows) && |w| <= max && (w == [] ==> t.rows == [])
       case Isolating(_, max, batch, bad, pruned, _) =>
         && 0 < max && bad != [] && AllIn(batch, t.rows) && |batch| <= max
         && (pruned == 0 ==> bad[0].row in t.rows)
         && (forall x :: x in bad ==> x.row !in batch)
         && (forall x, r :: x in bad && r in batch ==> x.row.capture.id != r.capture.id)
       case Returned(_, max, batch, pruned, error, _) =>
         && 0 < max && AllIn(batch, t.rows) && |batch| <= max
         && (batch == [] && pruned == 0 && !error && !cancelled ==> t.rows == [])
       case Sending(_, max, batch, _, _, _, _) => 0 < max && AllIn(batch, t.rows) && 0 < |batch| <= max
       case Settling(_, max, batch, _, _, _) => 0 < max && AllIn(batch, t.rows) && 0 < |batch| <= max
       case Purging(_, batch) => AllIn(batch, t.rows) && 0 < |batch|
       case Rejecting(_, max, row, _) => 0 < max && row in t.rows
       case Over(outcome, _) => outcome == Drained ==> t.rows == []
       case _ => true
  }

  // An upper bound on the reads still to come.
  function ReadsLeft(t: Tables, p: Pass): int {
    var n := |t.rows|;
    match p
    case Off => ReadsFor(n, 5)
    case Reading(_, max) => ReadsFor(n, Halvings(max))
    case Window(_, max, _, _) => ReadsFor(n, Halvings(max)) - 1
    case Isolating(_, max, _, _, pruned, _) =>
      if pruned > 0 then ReadsFor(n, Halvings(max)) else ReadsFor(n, Halvings(max)) - 1
    case Returned(_, max, _, pruned, _, _) =>
      if pruned > 0 then ReadsFor(n, Halvings(max)) else ReadsFor(n, Halvings(max)) - 1
    case Sending(_, max, _, _, _, _, _) => ReadsFor(n, Halvings(max)) - 1
    case Settling(_, max, _, _, _, _) => ReadsFor(n, Halvings(max)) - 1
    case Purging(_, _) => 6 * n - 5
    case Rejecting(_, max, _, _) => ReadsFor(n, Halvings(max)) - 1
    case Over(_, _) => 0
  }

  lemma {:induction false} WithoutUnique(rows: seq<Row>, ids: set<string>)
    requires UniqueIds(rows)
    ensures UniqueIds(Without(rows, ids))
  {
    if rows != [] {
      WithoutUnique(rows[..|rows| - 1], ids);
      var rest := Without(rows[..|rows| - 1], ids);
      forall i | 0 <= i < |rest|
        ensures rest[i].capture.id != rows[|rows| - 1].capture.id
      {
        assert rest[i] in rest;
      }
    }
  }

  // Deleting an id that is there shortens the outbox.
  lemma {:induction false} WithoutShorter(rows: seq<Row>, ids: set<string>)
    ensures |Without(rows, ids)| <= |rows|
    ensures (exists r :: r in rows && r.capture.id in ids) ==> |Without(rows, ids)| < |rows|
  {
    if rows != [] {
      var init, last := rows[..|rows| - 1], rows[|rows| - 1];
      WithoutShorter(init, ids);
      assert forall r :: r in rows ==> r in init || r == last;
    }
  }

  lemma {:induction false} FewerReads(n: nat, n': nat, halvings: nat)
    requires n' < n
    ensures ReadsFor(n', halvings) + 1 <= ReadsFor(n, halvings)
    ensures ReadsFor(n', 5) <= 6 * n - 5 <= ReadsFor(n, halvings) - 1
  {
  }

  lemma {:induction false} UniqueInside(rows: seq<Row>, a: Row, b: Row)
    requires UniqueIds(rows) && a in rows && b in rows && a.capture.id == b.capture.id
    ensures a == b
  {
    var i :| 0 <= i < |rows| && rows[i] == a;
    var j :| 0 <= j < |rows| && rows[j] == b;
  }

  // ---------- Every undisturbed step ----------

  predicate Undisturbed(e: Event) {
    !e.Rejected? && !e.Appended?
  }

  // Finding the run cancelled at the head of the loop is not a read.
  function Cost(e: Event, cancelled: bool): nat {
    if e.Read? && !cancelled then 1 else 0
  }

  // What a scan takes from a window of the outbox.
  lemma {:induction false} ScannedIn(rows: seq<Row>, w: seq<Row>, k: nat)
    requires UniqueIds(rows) && AllIn(w, rows) && k <= |w|
    ensures var s := ScanRows(w[..k]);
            && AllIn(s.batch, rows) && |s.batch| <= k
            && (forall x :: x in s.bad ==> x.row in rows && x.row !in s.batch)
            && (forall x, r :: x in s.bad && r in s.batch ==> x.row.capture.id != r.capture.id)
            && (s.batch == [] && s.bad == [] ==> k == 0)
  {
    var s := ScanRows(w[..k]);
    var m := ReadIsPrefix(w[..k]);
    assert forall r :: r in w[..k][..m] ==> r in w;
    forall x, r | x in s.bad && r in s.batch
      ensures x.row.capture.id != r.capture.id
    {
      if x.row.capture.id == r.capture.id {
        UniqueInside(rows, x.row, r);
      }
    }
    if s.batch == [] && s.bad == [] {
      EmptyScanMeansEmptyWindow(w[..k]);
    }
  }

  lemma {:induction false} BoundScanned(b: Box, p: Pass, k: nat, cancelled: bool, now: nat)
    requires Enabled(p, Scanned(k), cancelled) && BoundInv(b.tables, p, cancelled)
    ensures var r := Step(b, p, Scanned(k), cancelled, now);
            BoundInv(r.box.tables, r.pass, cancelled) && ReadsLeft(r.box.tables, r.pass) <= ReadsLeft(b.tables, p)
  {
    ScannedIn(b.tables.rows, p.rows, k);
    var s := ScanRows(p.rows[..k]);
    if s.bad != [] {
      assert s.bad[0] in s.bad;
    }
  }

  lemma {:induction false} BoundIsolate(b: Box, p: Pass, ok: bool, cancelled: bool, now: nat)
    requires Enabled(p, Isolate(ok), cancelled) && BoundInv(b.tables, p, cancelled)
    ensures var r := Step(b, p, Isolate(ok), cancelled, now);
            BoundInv(r.box.tables, r.pass, cancelled) && ReadsLeft(r.box.tables, r.pass) <= ReadsLeft(b.tables, p)
  {
    if ok {
      var ids := {p.bad[0].row.capture.id};
      var n, n' := |b.tables.rows|, |Without(b.tables.rows, ids)|;
      WithoutUnique(b.tables.rows, ids);
      WithoutShorter(b.tables.rows, ids);
      if p.pruned == 0 {
        FewerReads(n, n', Halvings(p.max));
      } else if n' < n {
        FewerReads(n, n', Halvings(p.max));
      }
      assert p.bad[0] in p.bad;
      assert forall x :: x in p.bad[1..] ==> x in p.bad;
    }
  }

  lemma {:induction false} BoundHalf(n: nat, batch: seq<Row>, max: nat)
    requires 1 < |batch| <= max && 0 < n
    ensures 0 < Half(batch) && ReadsFor(n, Halvings(Half(batch))) + 1 <= ReadsFor(n, Halvings(max))
  {
    HalvingsGrow(|batch| / 2, max / 2);
  }

  lemma {:induction false} NonEmptyIn(batch: seq<Row>, rows: seq<Row>)
    requires AllIn(batch, rows) && batch != []
    ensures 0 < |rows|
  {
    assert batch[0] in batch;
  }

  lemma {:induction false} BoundSettle(b: Box, p: Pass, cancelled: bool, now: nat)
    requires p.Settling? && BoundInv(b.tables, p, cancelled)
    ensures var q := Settled(p, cancelled, now);
            BoundInv(b.tables, q, cancelled) && ReadsLeft(b.tables, q) <= ReadsLeft(b.tables, p)
  {
    NonEmptyIn(p.batch, b.tables.rows);
    if 1 < |p.batch| {
      BoundHalf(|b.tables.rows|, p.batch, p.max);
    } else {
      assert p.batch[0] in p.batch;
    }
  }

  lemma {:induction false} BoundInspect(b: Box, p: Pass, cancelled: bool)
    requires p.Returned? && BoundInv(b.tables, p, cancelled)
    ensures var q := Inspected(p, cancelled);
            BoundInv(b.tables, q, cancelled) && ReadsLeft(b.tables, q) <= ReadsLeft(b.tables, p)
  {
    if p.batch != [] {
      NonEmptyIn(p.batch, b.tables.rows);
      if 1 < |p.batch| {
        BoundHalf(|b.tables.rows|, p.batch, p.max);
      }
    }
  }

  lemma {:induction false} BoundRemoval(b: Box, p: Pass, e: Event, cancelled: bool, now: nat)
    requires Enabled(p, e, cancelled) && BoundInv(b.tables, p, cancelled) && (e.Purge? || e.Reject?)
    ensures var r := Step(b, p, e, cancelled, now);
            BoundInv(r.box.tables, r.pass, cancelled) && ReadsLeft(r.box.tables, r.pass) <= ReadsLeft(b.tables, p)
  {
    if e.Purge? {
      NonEmptyIn(p.batch, b.tables.rows);
    }
    if e.ok {
      var ids := if e.Purge? then Ids(p.batch) else {p.row.capture.id};
      var gone := if e.Purge? then p.batch[0] else p.row;
      assert gone in b.tables.rows && gone.capture.id in ids;
      WithoutUnique(b.tables.rows, ids);
      WithoutShorter(b.tables.rows, ids);
      FewerReads(|b.tables.rows|, |Without(b.tables.rows, ids)|, if e.Purge? then 5 else Halvings(p.max));
      assert Halvings(BATCH_SIZE) == 5;
    }
  }

  lemma {:induction false} BoundStep(b: Box, p: Pass, e: Event, cancelled: bool, now: nat)
    requires Enabled(p, e, cancelled) && Undisturbed(e) && BoundInv(b.tables, p, cancelled)
    ensures var r := Step(b, p, e, cancelled, now);
            && BoundInv(r.box.tables, r.pass, cancelled)
            && ReadsLeft(r.box.tables, r.pass) + Cost(e, cancelled) <= ReadsLeft(b.tables, p)
  {
    match e
    case Begin(n) => assert Halvings(BATCH_SIZE) == 5;
    case Read(ready) =>
    case Scanned(k) => BoundScanned(b, p, k, cancelled, now);
    case Isolate(ok) => BoundIsolate(b, p, ok, cancelled, now);
    case Inspect => BoundInspect(b, p, cancelled);
    case Target =>
    case Answered(a) => NonEmptyIn(p.batch, b.tables.rows);
    case Settle => BoundSettle(b, p, cancelled, now);
    case Purge(ok) => BoundRemoval(b, p, e, cancelled, now);
    case Reject(ok) => BoundRemoval(b, p, e, cancelled, now);
  }

  // ---------- Whole passes ----------

  // Whether a run that is cancelled at a certain step, if at all, is cancelled at step i.
  predicate CancelledBy(since: Option<nat>, i: nat) {
    since.Some? && since.value <= i
  }

  // One more step of a pass, if it is possible.
  function Next(r: Option<Both>, e: Event, cancelled: bool, now: nat): Option<Both> {
    if r.Some? && Undisturbed(e) && Enabled(r.value.pass, e, cancelled)
    then Some(Step(r.value.box, r.value.pass, e, cancelled, now))
    else None
  }

  // The state after the steps of a pass during which nothing is captured, None if they are impossible.
  function Worked(b: Box, es: seq<Event>, now: nat, since: Option<nat>): Option<Both> {
    if es == [] then Some(Both(b, Off))
    else
      var front := es[..|es| - 1];
      Next(Worked(b, front, now, since), es[|es| - 1], CancelledBy(since, |front|), TimeAfter(now, front))
  }

  // The time after the steps of a pass that began at time `now`.
  function TimeAfter(now: nat, es: seq<Event>): nat {
    now + |es|
  }

  function Reads(es: seq<Event>, since: Option<nat>): nat {
    if es == [] then 0 else Reads(es[..|es| - 1], since) + Cost(es[|es| - 1], CancelledBy(since, |es| - 1))
  }

  lemma {:induction false} WorkedOneMore(b: Box, es: seq<Event>, now: nat, since: Option<nat>, e: Event,
                                         cancelled: bool, at: nat)
    requires cancelled == CancelledBy(since, |es|) && at == TimeAfter(now, es)
    ensures Worked(b, es + [e], now, since) == Next(Worked(b, es, now, since), e, cancelled, at)
  {
    var es' := es + [e];
    assert es'[..|es'| - 1] == es && es'[|es'| - 1] == e && |es'| - 1 == |es|;
  }

  lemma {:induction false} ReadsOneMore(es: seq<Event>, since: Option<nat>, e: Event)
    ensures Reads(es + [e], since) == Reads(es, since) + Cost(e, CancelledBy(since, |es|))
  {
    assert (es + [e])[..|es|] == es;
  }

  // A cancellation takes nothing from what is known.
  lemma {:induction false} BoundLater(t: Tables, p: Pass, before: bool, now: bool)
    requires BoundInv(t, p, before) && (before ==> now)
    ensures BoundInv(t, p, now)
  {
  }

  lemma {:induction false} BoundNext(r: Both, r': Both, e: Event, cancelled: bool, later: bool, now: nat)
    requires Next(Some(r), e, cancelled, now) == Some(r') && (cancelled ==> later)
    requires BoundInv(r.box.tables, r.pass, cancelled)
    ensures BoundInv(r'.box.tables, r'.pass, later)
    ensures ReadsLeft(r'.box.tables, r'.pass) + Cost(e, cancelled) <= ReadsLeft(r.box.tables, r.pass)
  {
    BoundStep(r.box, r.pass, e, cancelled, now);
    BoundLater(r'.box.tables, r'.pass, cancelled, later);
  }

  // The reads so far and those to come are paid for by n rows.
  predicate Accounted(n: nat, r: Both, spent: nat, cancelled: bool) {
    BoundInv(r.box.tables, r.pass, cancelled) && spent + ReadsLeft(r.box.tables, r.pass) <= ReadsFor(n, 5)
  }

  lemma {:induction false} AccountedNext(n: nat, r: Both, r': Both, spent: nat, e: Event, cancelled: bool,
                                         later: bool, now: nat)
    requires Next(Some(r), e, cancelled, now) == Some(r') && Accounted(n, r, spent, cancelled) && (cancelled ==> later)
    ensures Accounted(n, r', spent + Cost(e, cancelled), later)
  {
    BoundNext(r, r', e, cancelled, later, now);
  }

  lemma {:induction false} AccountedOneMore(n: nat, es: seq<Event>, since: Option<nat>, e: Event, r: Both, r': Both,
                                            cancelled: bool, at: nat)
    requires cancelled == CancelledBy(since, |es|) && Next(Some(r), e, cancelled, at) == Some(r')
    requires Accounted(n, r, Reads(es, since), cancelled)
    ensures Accounted(n, r', Reads(es + [e], since), CancelledBy(since, |es| + 1))
  {
    ReadsOneMore(es, since, e);
    AccountedNext(n, r, r', Reads(es, since), e, cancelled, CancelledBy(since, |es| + 1), at);
  }

  lemma {:induction false} ReadsAccounted(b: Box, es: seq<Event>, now: nat, since: Option<nat>)
    requires Worked(b, es, now, since).Some? && UniqueIds(b.tables.rows)
    ensures Accounted(|b.tables.rows|, Worked(b, es, now, since).value, Reads(es, since), CancelledBy(since, |es|))
  {
    if es == [] {
      assert Worked(b, es, now, since) == Some(Both(b, Off));
    } else {
      var front, e := es[..|es| - 1], es[|es| - 1];
      assert es == front + [e];
      ReadsAccounted(b, front, now, since);
      var r, r' := Worked(b, front, now, since).value, Worked(b, es, now, since).value;
      var cancelled, at := CancelledBy(since, |front|), TimeAfter(now, front);
      WorkedOneMore(b, front, now, since, e, cancelled, at);
      AccountedOneMore(|b.tables.rows|, front, since, e, r, r', cancelled, at);
    }
  }

  lemma {:induction false} NeverNegative(t: Tables, p: Pass, cancelled: bool)
    requires BoundInv(t, p, cancelled)
    ensures ReadsLeft(t, p) >= 0
  {
    if p.Purging? {
      NonEmptyIn(p.batch, t.rows);
    }
  }

  // Whatever the targets answer, whichever transactions fail, and whenever the run is cancelled.
  lemma {:induction false} AtMostSixReadsPerRow(b: Box, es: seq<Event>, now: nat, since: Option<nat>)
    requires Worked(b, es, now, since).Some? && UniqueIds(b.tables.rows)
    ensures Reads(es, since) <= 6 * |b.tables.rows| + 1
  {
    ReadsAccounted(b, es, now, since);
    var r := Worked(b, es, now, since).value;
    NeverNegative(r.box.tables, r.pass, CancelledBy(since, |es|));
  }
}
