// One call of flushInternal as a sequence of atomic steps, with captures arriving in between.
module FlushPass {
  import opened Outbox
  import opened BatchReader
  import FlushRuns

  const BATCH_SIZE := 50

  // What a target answers: a status code, or an exception of any kind.
  datatype Answer = Http(code: int) | NoAnswer

  predicate Accepted(a: Answer) {
    a.Http? && 200 <= a.code < 300
  }

  predicate TooLarge(a: Answer) {
    a == Http(413)
  }

  predicate Invalid(a: Answer) {
    a == Http(400) || a == Http(422)
  }

  // The history of requests: a body, which of how many targets it went to, and the answer.
  datatype Post = Post(body: seq<Row>, target: nat, of: nat, answer: Answer)

  // A quarantined row, and how many requests had been made by then.
  datatype Isolated = Isolated(row: Row, reason: Reason, after: nat)

  // The tables and the history: events handed to appendEvent or rejected before, in order; those that
  // never got into the outbox or were cut off by the cap; those whose row was replaced or deleted in the
  // name of another event with the same id; bodies answered 2xx, requests, and quarantined rows.
  datatype Box = Box(
    tables: Tables,
    captured: seq<Capture>,
    lost: seq<Capture>,
    displaced: seq<Capture>,
    bodies: seq<seq<Row>>,
    posts: seq<Post>,
    isolated: seq<Isolated>)

  const EMPTY_BOX := Box(EMPTY, [], [], [], [], [], [])

  // Where the worker is in flushInternal. `n` is the number of targets, `max` is maxBatchCount.
  datatype Pass =
    | Off
    | Reading(n: nat, max: nat)                                        // while (!run.cancelled)
    | Window(n: nat, max: nat, rows: seq<Row>, at: nat)                 // cursor open since time `at`
    | Isolating(n: nat, max: nat, batch: seq<Row>, bad: seq<Bad>, pruned: nat, at: nat)
    | Returned(n: nat, max: nat, batch: seq<Row>, pruned: nat, error: bool, at: nat)
    | Sending(n: nat, max: nat, batch: seq<Row>, i: nat, large: nat, invalid: nat, waiting: bool)
    | Settling(n: nat, max: nat, batch: seq<Row>, large: nat, invalid: nat, interrupted: bool)
    | Purging(n: nat, batch: seq<Row>)
    | Rejecting(n: nat, max: nat, row: Row, reason: Reason)
    | Over(outcome: FlushRuns.Outcome, at: nat)

  datatype Event =
    | Rejected(c: Capture)                 // the disk executor is saturated, or building the event fails
    | Appended(c: Capture, fault: Fault)   // one run of appendEvent
    | Begin(n: nat)                        // flushInternal reads its targets
    | Read(ready: bool)                    // readBatch opens its cursor
    | Scanned(k: nat)                      // the cursor loop ends after k rows
    | Isolate(ok: bool)                    // one quarantine transaction of readBatch
    | Inspect                              // flushInternal looks at the batch
    | Target                               // if (run.cancelled) before a target
    | Answered(answer: Answer)
    | Settle
    | Purge(ok: bool)
    | Reject(ok: bool)                     // quarantine of a rejected single event

  function Min(a: nat, b: nat): nat {
    if a < b then a else b
  }

  predicate Enabled(p: Pass, e: Event, cancelled: bool) {
    match e
    case Rejected(_) => true
    case Appended(_, _) => true
    case Begin(_) => p.Off?
    case Read(_) => p.Reading?
    // A cancellation can cut the loop short.
    case Scanned(k) => p.Window? && (k == |p.rows| || (k < |p.rows| && cancelled))
    case Isolate(_) => p.Isolating? && p.bad != []
    case Inspect => p.Returned?
    case Target => p.Sending? && !p.waiting && p.i < p.n
    case Answered(_) => p.Sending? && p.waiting && p.i < p.n
    case Settle => p.Settling?
    case Purge(_) => p.Purging?
    case Reject(_) => p.Rejecting?
  }

  // ---------- Captures ----------

  function Refused(b: Box, c: Capture): Box {
    b.(captured := b.captured + [c], lost := b.lost + [c], tables := b.tables.(dropped := b.tables.dropped + 1))
  }

  function Captures(rows: seq<Row>): (cs: seq<Capture>)
    ensures |cs| == |rows|
    ensures forall i :: 0 <= i < |rows| ==> cs[i] == rows[i].capture
  {
    seq(|rows|, i requires 0 <= i < |rows| => rows[i].capture)
  }

  // What an append loses. If its commit fails, the rows it pruned are back.
  function Lost(t: Tables, c: Capture, fault: Fault, now: nat): seq<Capture> {
    if fault.NoFault? then Captures(Pruned(t, c, now)) else [c]
  }

  // The events whose rows go with a deletion by id, other than those that are meant.
  function Displaced(rows: seq<Row>, ids: set<string>, meant: seq<Capture>): (cs: seq<Capture>)
    ensures forall c :: c in cs <==> c.id in ids && c !in meant && exists r :: r in rows && r.capture == c
  {
    if rows == [] then []
    else
      var before, c := Displaced(rows[..|rows| - 1], ids, meant), rows[|rows| - 1].capture;
      assert forall r :: r in rows <==> r in rows[..|rows| - 1] || r == rows[|rows| - 1];
      if c.id in ids && c !in meant then before + [c] else before
  }

  function Appending(b: Box, c: Capture, fault: Fault, now: nat): Box {
    b.(captured := b.captured + [c],
       lost := b.lost + Lost(b.tables, c, fault, now),
       displaced := b.displaced + if fault.NoFault? then Displaced(b.tables.rows, {c.id}, [c]) else [],
       tables := Append(b.tables, c, fault, now))
  }

  // ---------- The pass ----------

  function Ids(rows: seq<Row>): set<string> {
    set r | r in rows :: r.capture.id
  }

  function Isolation(b: Box, row: Row, reason: Reason, ok: bool): Box {
    var b1 := b.(tables := Quarantine(b.tables, row.capture.id, Stored(row), reason, ok));
    if ok then
      b1.(isolated := b.isolated + [Isolated(row, reason, |b.posts|)],
          displaced := b.displaced + Displaced(b.tables.rows, {row.capture.id}, [row.capture]))
    else b1
  }

  function Purged(b: Box, batch: seq<Row>, ok: bool): Box {
    b.(tables := Outbox.Purge(b.tables, Ids(batch), ok),
       displaced := b.displaced + if ok then Displaced(b.tables.rows, Ids(batch), Captures(batch)) else [])
  }

  // The decision after readBatch; a body that came out too long would shrink the window.
  function Inspected(p: Pass, cancelled: bool): Pass
    requires p.Returned?
  {
    if cancelled then Over(FlushRuns.Cancelled, p.at)
    else if p.error then Over(FlushRuns.Failed, p.at)
    else if p.batch == [] then
      if p.pruned > 0 then Reading(p.n, p.max) else Over(FlushRuns.Drained, p.at)
    else if |Body(p.batch)| > MAX_BATCH_BYTES && |p.batch| > 1 then Reading(p.n, Half(p.batch))
    else Sending(p.n, p.max, p.batch, 0, 0, 0, false)
  }

  function Half(batch: seq<Row>): nat {
    if |batch| / 2 < 1 then 1 else |batch| / 2
  }

  function AfterAnswer(p: Pass, a: Answer): Pass
    requires p.Sending?
  {
    if Accepted(a) then Purging(p.n, p.batch)
    else
      var large := if TooLarge(a) then p.large + 1 else p.large;
      var invalid := if Invalid(a) then p.invalid + 1 else p.invalid;
      if p.i + 1 < p.n then p.(i := p.i + 1, large := large, invalid := invalid, waiting := false)
      else Settling(p.n, p.max, p.batch, large, invalid, false)
  }

  // The decision after no target accepted the batch.
  function Settled(p: Pass, cancelled: bool, now: nat): Pass
    requires p.Settling?
  {
    if p.interrupted || cancelled then Over(FlushRuns.Cancelled, now)
    else if p.large > 0 && |p.batch| > 1 then Reading(p.n, Half(p.batch))
    else if p.invalid > 0 && p.invalid == p.n && |p.batch| > 1 then Reading(p.n, Half(p.batch))
    else if p.large > 0 && p.large == p.n && |p.batch| == 1 then
      Rejecting(p.n, p.max, p.batch[0], TooLargeEverywhere)
    else if p.invalid > 0 && p.invalid == p.n && |p.batch| == 1 then
      Rejecting(p.n, p.max, p.batch[0], InvalidEverywhere)
    else Over(FlushRuns.Failed, now)
  }

  datatype Both = Both(box: Box, pass: Pass)

  function Step(b: Box, p: Pass, e: Event, cancelled: bool, now: nat): Both
    requires Enabled(p, e, cancelled)
  {
    match e
    case Rejected(c) => Both(Refused(b, c), p)
    case Appended(c, fault) => Both(Appending(b, c, fault, now), p)
    case Begin(n) =>
      Both(b, if n == 0 then Over(FlushRuns.Unconfigured, now) else Reading(n, BATCH_SIZE))
    case Read(ready) =>
      Both(b, if cancelled then Over(FlushRuns.Cancelled, now)
              else if !ready then Returned(p.n, p.max, [], 0, true, now)
              else Window(p.n, p.max, b.tables.rows[..Min(p.max, |b.tables.rows|)], now))
    case Scanned(k) =>
      var s := ScanRows(p.rows[..k]);
      Both(b, if s.bad == [] then Returned(p.n, p.max, s.batch, 0, false, p.at)
              else Isolating(p.n, p.max, s.batch, s.bad, 0, p.at))
    case Isolate(ok) =>
      Both(Isolation(b, p.bad[0].row, p.bad[0].reason, ok),
           if !ok then Returned(p.n, p.max, p.batch, p.pruned, true, p.at)
           else if |p.bad| == 1 then Returned(p.n, p.max, p.batch, p.pruned + 1, false, p.at)
           else p.(bad := p.bad[1..], pruned := p.pruned + 1))
    case Inspect => Both(b, Inspected(p, cancelled))
    case Target =>
      Both(b, if cancelled then Settling(p.n, p.max, p.batch, p.large, p.invalid, true) else p.(waiting := true))
    case Answered(a) =>
      var b1 := b.(posts := b.posts + [Post(p.batch, p.i, p.n, a)]);
      Both(if Accepted(a) then b1.(bodies := b.bodies + [p.batch]) else b1, AfterAnswer(p, a))
    case Settle => Both(b, Settled(p, cancelled, now))
    case Purge(ok) =>
      Both(Purged(b, p.batch, ok),
           if !ok then Over(FlushRuns.Failed, now)
           else if cancelled then Over(FlushRuns.Cancelled, now)
           else Reading(p.n, BATCH_SIZE))
    case Reject(ok) =>
      Both(Isolation(b, p.row, p.reason, ok),
           if !ok then Over(FlushRuns.Failed, now) else Reading(p.n, p.max))
  }
}
