// readBatch: which rows of a window go into the next request, which go to quarantine, and how long
// the request body is.
module BatchReader {
  import opened Outbox

  const MAX_BATCH_BYTES := 256 * 1024

  const HEAD := "{\"events\":["
  const TAIL := "]}"

  datatype Bad = Bad(row: Row, reason: Reason)

  datatype Scan = Scan(batch: seq<Row>, bad: seq<Bad>, total: nat)

  // Fits a request on its own, with all required fields.
  predicate Sendable(r: Row) {
    r.capture.payload.Json? && r.capture.payload.complete && |r.capture.payload.text| + 13 <= MAX_BATCH_BYTES
  }

  function Defect(r: Row): Reason {
    match r.capture.payload
    case Garbage(_) => CorruptJson
    case Json(_, complete, _) => if complete then Oversized else MissingFields
  }

  function Size(r: Row): nat {
    match r.capture.payload case Garbage(_) => 0 case Json(_, _, text) => |text|
  }

  // What quarantine keeps of a row: what it serializes to, or the text it holds if it is of no use.
  function Stored(r: Row): string {
    match r.capture.payload case Garbage(raw) => raw case Json(raw, complete, text) => if complete then text else raw
  }

  // One more row would make the body too long.
  predicate Overflows(s: Scan, r: Row) {
    Sendable(r) && s.batch != [] && s.total + Size(r) + 13 + |s.batch| > MAX_BATCH_BYTES
  }

  function ScanOne(s: Scan, r: Row): Scan {
    if !Sendable(r) then s.(bad := s.bad + [Bad(r, Defect(r))])
    else Scan(s.batch + [r], s.bad, s.total + Size(r))
  }

  // The cursor loop of readBatch over `rows`, continuing from what was collected before.
  function ScanFrom(rows: seq<Row>, s: Scan): Scan
    decreases |rows|
  {
    if rows == [] || Overflows(s, rows[0]) then s
    else ScanFrom(rows[1..], ScanOne(s, rows[0]))
  }

  const NOTHING := Scan([], [], 0)

  function ScanRows(rows: seq<Row>): Scan {
    ScanFrom(rows, NOTHING)
  }

  // How many of n rows the loop gets to see if it finds the run cancelled before row i when `cancelled(i)`.
  function Cut(n: nat, cancelled: nat -> bool): (k: nat)
    ensures k <= n && (k < n ==> cancelled(k))
    ensures forall i: nat :: i < k ==> !cancelled(i)
  {
    if n == 0 then 0
    else
      var k := Cut(n - 1, cancelled);
      if k == n - 1 && !cancelled(k) then n else k
  }

  // The same loop, with its local variables and its check for cancellation.
  method ReadBatch(rows: seq<Row>, cancelled: nat -> bool)
    returns (batch: seq<Row>, toQuarantine: seq<Bad>, totalPayloadBytes: nat)
    ensures Scan(batch, toQuarantine, totalPayloadBytes) == ScanRows(rows[..Cut(|rows|, cancelled)])
  {
    ghost var seen := rows[..Cut(|rows|, cancelled)];
    batch, toQuarantine, totalPayloadBytes := [], [], 0;
    var i := 0;
    while i < |rows| && !cancelled(i)
      invariant 0 <= i <= |seen|
      invariant ScanRows(seen) == ScanFrom(seen[i..], Scan(batch, toQuarantine, totalPayloadBytes))
    {
      var row := rows[i];
      assert i < |seen| && seen[i..][1..] == seen[i + 1..] && seen[i..][0] == row;
      i := i + 1;
      if row.capture.payload.Garbage? {
        toQuarantine := toQuarantine + [Bad(row, CorruptJson)];
        continue;
      }
      if !row.capture.payload.complete {
        toQuarantine := toQuarantine + [Bad(row, MissingFields)];
        continue;
      }
      var length := |row.capture.payload.text|;
      var envelopeOverhead := 13 + |batch|;
      var projectedTotal := totalPayloadBytes + length + envelopeOverhead;
      if length + 13 > MAX_BATCH_BYTES {
        toQuarantine := toQuarantine + [Bad(row, Oversized)];
        continue;
      }
      if batch != [] && projectedTotal > MAX_BATCH_BYTES {
        return;
      }
      batch := batch + [row];
      totalPayloadBytes := totalPayloadBytes + length;
    }
  }

  // ---------- What the loop selects ----------

  function GoodOf(rows: seq<Row>): (g: seq<Row>)
    ensures forall x :: x in g <==> x in rows && Sendable(x)
  {
    if rows == [] then []
    else
      var rest, last := GoodOf(rows[..|rows| - 1]), rows[|rows| - 1];
      if Sendable(last) then rest + [last] else rest
  }

  function BadOf(rows: seq<Row>): (b: seq<Bad>)
    ensures forall x :: x in b <==> x.row in rows && !Sendable(x.row) && x.reason == Defect(x.row)
  {
    if rows == [] then []
    else
      var rest, last := BadOf(rows[..|rows| - 1]), rows[|rows| - 1];
      if !Sendable(last) then rest + [Bad(last, Defect(last))] else rest
  }

  function Total(rows: seq<Row>): nat {
    if rows == [] then 0 else Total(rows[..|rows| - 1]) + Size(rows[|rows| - 1])
  }

  lemma {:induction false} SplitSizes(rows: seq<Row>)
    ensures |GoodOf(rows)| + |BadOf(rows)| == |rows|
  {
    if rows != [] {
      SplitSizes(rows[..|rows| - 1]);
    }
  }

  // The state of the loop before row i.
  predicate ScannedTo(rows: seq<Row>, i: nat, s: Scan) {
    && i <= |rows|
    && s.batch == GoodOf(rows[..i]) && s.bad == BadOf(rows[..i]) && s.total == Total(s.batch)
    && (s.batch != [] ==> s.total + 12 + |s.batch| <= MAX_BATCH_BYTES)
  }

  // The rows taken are exactly a prefix of the window: its sendable rows are the batch, the others go
  // to quarantine. The loop stops before a row only if that row would make the body too long.
  predicate TakesPrefix(rows: seq<Row>, m: nat, s: Scan) {
    ScannedTo(rows, m, s) && (m < |rows| ==> Overflows(s, rows[m]))
  }

  lemma {:induction false} ScannedOneMore(rows: seq<Row>, i: nat, s: Scan)
    requires i < |rows| && ScannedTo(rows, i, s)
    requires !Overflows(s, rows[i])
    ensures ScannedTo(rows, i + 1, ScanOne(s, rows[i]))
  {
    assert rows[..i + 1][..i] == rows[..i];
    var batch := s.batch + [rows[i]];
    assert batch[..|s.batch|] == s.batch;
  }

  lemma {:induction false} ScanFromPrefix(rows: seq<Row>, i: nat, s: Scan) returns (m: nat)
    requires ScannedTo(rows, i, s)
    ensures TakesPrefix(rows, m, ScanFrom(rows[i..], s))
    decreases |rows| - i
  {
    m := i;
    if i < |rows| {
      assert rows[i..][1..] == rows[i + 1..];
      if !Overflows(s, rows[i]) {
        ScannedOneMore(rows, i, s);
        m := ScanFromPrefix(rows, i + 1, ScanOne(s, rows[i]));
      }
    }
  }

  lemma {:induction false} ReadIsPrefix(rows: seq<Row>) returns (m: nat)
    ensures TakesPrefix(rows, m, ScanRows(rows))
    ensures m == |ScanRows(rows).batch| + |ScanRows(rows).bad|
  {
    assert rows[0..] == rows && rows[..0] == [];
    m := ScanFromPrefix(rows, 0, NOTHING);
    SplitSizes(rows[..m]);
  }

  // Nothing is read only if there is nothing to read.
  lemma {:induction false} EmptyScanMeansEmptyWindow(rows: seq<Row>)
    requires ScanRows(rows).batch == [] && ScanRows(rows).bad == []
    ensures rows == []
  {
    var m := ReadIsPrefix(rows);
  }

  // ---------- The body ----------

  function Text(r: Row): string {
    match r.capture.payload case Garbage(_) => "" case Json(_, _, text) => text
  }

  function Joined(batch: seq<Row>): string {
    if batch == [] then ""
    else if |batch| == 1 then Text(batch[0])
    else Joined(batch[..|batch| - 1]) + "," + Text(batch[|batch| - 1])
  }

  function Body(batch: seq<Row>): string {
    HEAD + Joined(batch) + TAIL
  }

  // The StringBuilder loop of flushInternal.
  method BuildBody(batch: seq<Row>) returns (body: string)
    ensures body == Body(batch)
  {
    var joined := "";
    var i := 0;
    while i < |batch|
      invariant 0 <= i <= |batch|
      invariant joined == Joined(batch[..i])
    {
      assert batch[..i + 1][..i] == batch[..i];
      if i > 0 {
        joined := joined + ",";
      }
      joined := joined + Text(batch[i]);
      i := i + 1;
    }
    assert batch[..i] == batch;
    body := HEAD + joined + TAIL;
  }

  // A comma goes between any two neighbours, and they stay in order.
  lemma {:induction false} JoinedParts(a: seq<Row>, b: seq<Row>)
    ensures a != [] && b != [] ==> Joined(a + b) == Joined(a) + "," + Joined(b)
    ensures |a| == 1 ==> Joined(a) == Text(a[0])
  {
    if a != [] && b != [] {
      assert (a + b)[..|a + b| - 1] == a + b[..|b| - 1];
      if |b| > 1 {
        JoinedParts(a, b[..|b| - 1]);
      } else {
        assert a + b[..0] == a;
      }
    }
  }

  lemma {:induction false} JoinedLength(batch: seq<Row>)
    ensures |Joined(batch)| == Total(batch) + (if batch == [] then 0 else |batch| - 1)
  {
    if |batch| > 1 {
      JoinedLength(batch[..|batch| - 1]);
    } else if |batch| == 1 {
      assert batch[..0] == [];
    }
  }

  // The running total plus the envelope is the length of the posted body, which therefore never
  // exceeds MAX_BATCH_BYTES.
  lemma {:induction false} BodyFits(rows: seq<Row>)
    requires ScanRows(rows).batch != []
    ensures var s := ScanRows(rows);
            |Body(s.batch)| == s.total + 13 + (|s.batch| - 1) <= MAX_BATCH_BYTES
  {
    var m := ReadIsPrefix(rows);
    JoinedLength(ScanRows(rows).batch);
  }

  // A row fits a request exactly if the body with it alone does, and the loop leaves a row for the next
  // batch exactly if the body with it would be too long.
  lemma {:induction false} LeavesNoRoom(rows: seq<Row>, r: Row)
    ensures Sendable(r) <==>
            r.capture.payload.Json? && r.capture.payload.complete && |Body([r])| <= MAX_BATCH_BYTES
    ensures var s := ScanRows(rows);
            Sendable(r) && s.batch != [] ==> (Overflows(s, r) <==> |Body(s.batch + [r])| > MAX_BATCH_BYTES)
  {
    var m := ReadIsPrefix(rows);
    var batch := ScanRows(rows).batch;
    JoinedLength([r]);
    JoinedLength(batch + [r]);
    assert [r][..0] == [] && (batch + [r])[..|batch|] == batch;
  }
}
