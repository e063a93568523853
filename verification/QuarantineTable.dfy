// What the quarantine table holds, over all histories of the pipeline.
module QuarantineTable {
  import opened Commons
  import opened Outbox
  import opened BatchReader
  import opened FlushPass
  import Quarantine = QuarantineProofs
  import D = Delivery

  // ---------- The rows that should be there ----------

  // Corrupt and incomplete events are kept as they were found, the others as they were or would be sent.
  function Kept(x: Isolated): string {
    if x.reason == CorruptJson || x.reason == MissingFields || x.row.capture.payload.Garbage? then x.row.capture.payload.raw
    else x.row.capture.payload.text
  }

  // The row for the event that was isolated as number k.
  function RowFor(xs: seq<Isolated>, k: nat): QuarantineRow
    requires k < |xs|
  {
    QuarantineRow(k, xs[k].row.capture.id, Kept(xs[k]), xs[k].reason)
  }

  // A later isolated event bears the same id.
  predicate Superseded(xs: seq<Isolated>, k: nat)
    requires k < |xs|
  {
    exists j :: k < j < |xs| && xs[j].row.capture.id == xs[k].row.capture.id
  }

  // From number k on, the latest isolated event of each id, in order.
  function Latest(xs: seq<Isolated>, k: nat): seq<QuarantineRow>
    requires k <= |xs|
    decreases |xs| - k
  {
    if k == |xs| then []
    else if Superseded(xs, k) then Latest(xs, k + 1)
    else [RowFor(xs, k)] + Latest(xs, k + 1)
  }

  predicate InStep(b: Box) {
    && b.tables.nextQuarantineNum == |b.isolated|
    && b.tables.quarantine == Last(Latest(b.isolated, 0), MAX_QUARANTINE_EVENTS)
  }

  // ---------- One more isolated event ----------

  lemma {:induction false} WithoutConcat(p: seq<QuarantineRow>, q: seq<QuarantineRow>, id: string)
    ensures WithoutQuarantined(p + q, id) == WithoutQuarantined(p, id) + WithoutQuarantined(q, id)
  {
    if q == [] {
      assert p + q == p;
    } else {
      assert (p + q)[..|p + q| - 1] == p + q[..|q| - 1];
      WithoutConcat(p, q[..|q| - 1], id);
    }
  }

  lemma {:induction false} WithoutSingle(x: QuarantineRow, id: string)
    ensures WithoutQuarantined([x], id) == if x.id == id then [] else [x]
  {
    assert [x][..0] == [];
  }

  lemma {:induction false} SupersededNow(xs: seq<Isolated>, x: Isolated, k: nat)
    requires k < |xs|
    ensures Superseded(xs + [x], k) <==> Superseded(xs, k) || x.row.capture.id == xs[k].row.capture.id
    ensures RowFor(xs + [x], k) == RowFor(xs, k)
  {
    var ys := xs + [x];
    if Superseded(xs, k) {
      var j :| k < j < |xs| && xs[j].row.capture.id == xs[k].row.capture.id;
      assert ys[j] == xs[j];
    }
    if x.row.capture.id == xs[k].row.capture.id {
      assert ys[|xs|] == x;
    }
  }

  lemma {:induction false} PrependWithout(row: QuarantineRow, rest: seq<QuarantineRow>, id: string,
                                          x: QuarantineRow, rest': seq<QuarantineRow>)
    requires rest' == WithoutQuarantined(rest, id) + [x]
    ensures (if row.id == id then rest' else [row] + rest') == WithoutQuarantined([row] + rest, id) + [x]
  {
    WithoutConcat([row], rest, id);
    WithoutSingle(row, id);
  }

  lemma {:induction false} LatestOneMore(xs: seq<Isolated>, x: Isolated, k: nat)
    requires k <= |xs|
    ensures Latest(xs + [x], k) == WithoutQuarantined(Latest(xs, k), x.row.capture.id) + [RowFor(xs + [x], |xs|)]
    decreases |xs| - k
  {
    var ys, id := xs + [x], x.row.capture.id;
    if k == |xs| {
      assert Latest(ys, k + 1) == [] && !Superseded(ys, k);
    } else {
      LatestOneMore(xs, x, k + 1);
      SupersededNow(xs, x, k);
      PrependWithout(RowFor(xs, k), Latest(xs, k + 1), id, RowFor(ys, |xs|), Latest(ys, k + 1));
      assert Superseded(xs, k) && xs[k].row.capture.id == id ==> Latest(xs, k) == Latest(xs, k + 1);
    }
  }

  // Every id occurs once, and the numbers increase.
  predicate Distinct(q: seq<QuarantineRow>) {
    forall i, j :: 0 <= i < j < |q| ==> q[i].id != q[j].id && q[i].num < q[j].num
  }

  lemma {:induction false} LatestFrom(xs: seq<Isolated>, k: nat)
    requires k <= |xs|
    ensures Distinct(Latest(xs, k))
    ensures forall q :: q in Latest(xs, k) ==> k <= q.num < |xs| && q == RowFor(xs, q.num) && !Superseded(xs, q.num)
    decreases |xs| - k
  {
    if k < |xs| {
      LatestFrom(xs, k + 1);
      if !Superseded(xs, k) {
        FirstOfLatest(xs, k);
      }
    }
  }

  lemma {:induction false} FirstOfLatest(xs: seq<Isolated>, k: nat)
    requires k < |xs| && !Superseded(xs, k)
    requires Distinct(Latest(xs, k + 1))
    requires forall q :: q in Latest(xs, k + 1) ==> k < q.num < |xs| && q == RowFor(xs, q.num)
    ensures Distinct([RowFor(xs, k)] + Latest(xs, k + 1))
  {
    var rest := Latest(xs, k + 1);
    forall i | 0 <= i < |rest|
      ensures k < rest[i].num && rest[i].id != xs[k].row.capture.id
    {
      assert rest[i] in rest;
    }
  }

  lemma {:induction false} WithoutLength(q: seq<QuarantineRow>, id: string)
    requires Distinct(q)
    ensures |q| - 1 <= |WithoutQuarantined(q, id)|
    ensures (forall x :: x in q ==> x.id != id) ==> |WithoutQuarantined(q, id)| == |q|
  {
    if q != [] {
      var init, last := q[..|q| - 1], q[|q| - 1];
      WithoutLength(init, id);
      if last.id == id {
        forall x | x in init
          ensures x.id != id
        {
        }
      }
    }
  }

  // Only the last n of a table that holds no id twice matter for its last n after a replacement.
  lemma {:induction false} LastMatter(early: seq<QuarantineRow>, late: seq<QuarantineRow>, x: QuarantineRow, n: nat)
    requires Distinct(late) && |late| == n
    ensures Last(WithoutQuarantined(late, x.id) + [x], n) == Last(WithoutQuarantined(early + late, x.id) + [x], n)
  {
    WithoutConcat(early, late, x.id);
    WithoutLength(late, x.id);
    LastOfConcat(WithoutQuarantined(early, x.id), WithoutQuarantined(late, x.id), x, n);
  }

  lemma {:induction false} LastOfConcat<T>(a: seq<T>, b: seq<T>, x: T, n: nat)
    requires n <= |b| + 1
    ensures Last(b + [x], n) == Last((a + b) + [x], n)
  {
    var end := b + [x];
    assert (a + b) + [x] == a + end;
    LastOfEnd(a, end, n);
  }

  lemma {:induction false} LastOfEnd<T>(a: seq<T>, b: seq<T>, n: nat)
    requires n <= |b|
    ensures Last(b, n) == Last(a + b, n)
  {
  }

  // Cutting the table before the replacement makes no difference.
  lemma {:induction false} CutBefore(q: seq<QuarantineRow>, x: QuarantineRow, n: nat)
    requires Distinct(q)
    ensures Last(WithoutQuarantined(Last(q, n), x.id) + [x], n) == Last(WithoutQuarantined(q, x.id) + [x], n)
  {
    if |q| > n {
      assert q == q[..|q| - n] + Last(q, n);
      LastMatter(q[..|q| - n], Last(q, n), x, n);
    }
  }

  lemma {:induction false} IsolationInStep(b: Box, row: Row, reason: Reason, ok: bool)
    requires InStep(b) && Kept(Isolated(row, reason, |b.posts|)) == Stored(row)
    ensures InStep(Isolation(b, row, reason, ok))
  {
    if ok {
      var x := Isolated(row, reason, |b.posts|);
      LatestOneMore(b.isolated, x, 0);
      LatestFrom(b.isolated, 0);
      CutBefore(Latest(b.isolated, 0), RowFor(b.isolated + [x], |b.isolated|), MAX_QUARANTINE_EVENTS);
    }
  }

  // ---------- What is stored ----------

  predicate AllSendable(batch: seq<Row>) {
    forall r :: r in batch ==> Sendable(r)
  }

  predicate PassSendable(p: Pass) {
    match p
    case Isolating(_, _, batch, bad, _, _) => AllSendable(batch) && Quarantine.BadFound(bad)
    case Returned(_, _, batch, _, _, _) => AllSendable(batch)
    case Sending(_, _, batch, _, _, _, _) => AllSendable(batch)
    case Settling(_, _, batch, _, _, _) => AllSendable(batch)
    case Rejecting(_, _, row, reason) => Sendable(row) && (reason == TooLargeEverywhere || reason == InvalidEverywhere)
    case _ => true
  }

  lemma {:induction false} SendableStep(b: Box, p: Pass, e: Event, cancelled: bool, now: nat)
    requires PassSendable(p) && Enabled(p, e, cancelled)
    ensures PassSendable(Step(b, p, e, cancelled, now).pass)
  {
    match e
    case Scanned(k) => var m := ReadIsPrefix(p.rows[..k]);
    case _ =>
  }

  lemma {:induction false} InStepStep(b: Box, p: Pass, e: Event, cancelled: bool, now: nat)
    requires InStep(b) && PassSendable(p) && Enabled(p, e, cancelled)
    ensures InStep(Step(b, p, e, cancelled, now).box)
  {
    match e
    case Isolate(ok) => IsolationInStep(b, p.bad[0].row, p.bad[0].reason, ok);
    case Reject(ok) => IsolationInStep(b, p.row, p.reason, ok);
    case _ =>
  }

  // ---------- Over all histories ----------

  lemma {:induction false} TableHistory(h: seq<D.Event>, w: D.World)
    requires D.After(h) == Some(w)
    ensures InStep(w.box) && PassSendable(w.pass)
  {
    if h != [] {
      var v, e := D.After(h[..|h| - 1]).value, h[|h| - 1];
      TableHistory(h[..|h| - 1], v);
      var p := D.PassEvent(v, e);
      if p.Some? {
        SendableStep(v.box, v.pass, p.value, D.Cancelled(v), |h| - 1);
        InStepStep(v.box, v.pass, p.value, D.Cancelled(v), |h| - 1);
      }
    }
  }

  // The quarantine table holds the newest MAX_QUARANTINE_EVENTS isolated events, the latest of each id, in
  // the order of isolation, each with its reason and its text.
  lemma {:induction false} TableIsLatest(h: seq<D.Event>, w: D.World)
    requires D.After(h) == Some(w)
    ensures w.box.tables.quarantine == Last(Latest(w.box.isolated, 0), MAX_QUARANTINE_EVENTS)
    ensures Distinct(w.box.tables.quarantine)
  {
    TableHistory(h, w);
    LatestFrom(w.box.isolated, 0);
  }

  function IdsFrom(xs: seq<Isolated>, k: nat): set<string>
    requires k <= |xs|
  {
    set j | k <= j < |xs| :: xs[j].row.capture.id
  }

  lemma {:induction false} LatestCounts(xs: seq<Isolated>, k: nat)
    requires k <= |xs|
    ensures |Latest(xs, k)| == |IdsFrom(xs, k)|
    decreases |xs| - k
  {
    if k < |xs| {
      LatestCounts(xs, k + 1);
      var id := xs[k].row.capture.id;
      assert IdsFrom(xs, k) == IdsFrom(xs, k + 1) + {id};
      assert id in IdsFrom(xs, k + 1) <==> Superseded(xs, k);
    }
  }

  lemma {:induction false} LatestTail(xs: seq<Isolated>, k: nat) returns (before: seq<QuarantineRow>)
    requires k <= |xs|
    ensures Latest(xs, 0) == before + Latest(xs, k)
    ensures forall q :: q in before ==> q.num < k
  {
    if k == 0 {
      before := [];
    } else {
      before := LatestTail(xs, k - 1);
      if !Superseded(xs, k - 1) {
        before := before + [RowFor(xs, k - 1)];
      }
    }
  }

  lemma {:induction false} InLast<T>(a: seq<T>, x: T, b: seq<T>, n: nat)
    requires x !in a && x !in b
    ensures x in Last(a + ([x] + b), n) <==> |b| < n
  {
    var s := a + ([x] + b);
    assert s[|a|] == x;
    if |b| < n {
      assert |a| >= |s| - |Last(s, n)|;
      assert Last(s, n)[|a| - (|s| - |Last(s, n)|)] == x;
    }
  }

  // Where the row of number k is among the latest, if it is.
  lemma {:induction false} AmongLatest(xs: seq<Isolated>, k: nat) returns (before: seq<QuarantineRow>)
    requires k < |xs| && !Superseded(xs, k)
    ensures Latest(xs, 0) == before + ([RowFor(xs, k)] + Latest(xs, k + 1))
    ensures RowFor(xs, k) !in before && RowFor(xs, k) !in Latest(xs, k + 1)
  {
    LatestFrom(xs, k + 1);
    before := LatestTail(xs, k);
  }

  // An isolated event is in the quarantine table exactly as long as no later one bears its id and fewer
  // than MAX_QUARANTINE_EVENTS distinct ids were isolated after it.
  lemma {:induction false} KeptExactly(h: seq<D.Event>, w: D.World, k: nat)
    requires D.After(h) == Some(w) && k < |w.box.isolated|
    ensures RowFor(w.box.isolated, k) in w.box.tables.quarantine <==>
            !Superseded(w.box.isolated, k) && |IdsFrom(w.box.isolated, k + 1)| < MAX_QUARANTINE_EVENTS
  {
    TableIsLatest(h, w);
    LatestKept(w.box.isolated, k, MAX_QUARANTINE_EVENTS);
  }

  lemma {:induction false} LatestKept(xs: seq<Isolated>, k: nat, n: nat)
    requires k < |xs|
    ensures RowFor(xs, k) in Last(Latest(xs, 0), n) <==> !Superseded(xs, k) && |IdsFrom(xs, k + 1)| < n
  {
    LatestFrom(xs, 0);
    if Superseded(xs, k) {
      assert RowFor(xs, k) !in Latest(xs, 0);
    } else {
      LatestCounts(xs, k + 1);
      var before := AmongLatest(xs, k);
      InLast(before, RowFor(xs, k), Latest(xs, k + 1), n);
    }
  }
}
