// The SQLite outbox and quarantine tables of NativeTelemetrySync. A transaction is one atomic step
// that either happens or fails.
module Outbox {
  import opened Commons

  const MAX_OUTBOX_EVENTS := 500
  const MAX_QUARANTINE_EVENTS := 100

  // A payload as readBatch sees it: the text in the row, which does not parse, or parses to a JSON object
  // that has or has not the required fields and serializes to `text`, one char per UTF-8 byte.
  datatype Payload = Garbage(raw: string) | Json(raw: string, complete: bool, text: string)

  // An event handed to appendEvent.
  datatype Capture = Capture(id: string, payload: Payload)

  // A row of the outbox: its autoincrement number, when it was committed, and what it holds.
  datatype Row = Row(num: nat, born: nat, capture: Capture)

  datatype Reason = CorruptJson | MissingFields | Oversized | TooLargeEverywhere | InvalidEverywhere

  datatype QuarantineRow = QuarantineRow(num: nat, id: string, payload: string, reason: Reason)

  // `dropped` is droppedEventsCount.
  datatype Tables = Tables(
    rows: seq<Row>,
    nextNum: nat,
    quarantine: seq<QuarantineRow>,
    nextQuarantineNum: nat,
    dropped: nat)

  const EMPTY := Tables([], 0, [], 0, 0)

  predicate Sorted(rows: seq<Row>) {
    forall i, j :: 0 <= i < j < |rows| ==> rows[i].num < rows[j].num
  }

  // DELETE ... WHERE id IN (ids)
  function Without(rows: seq<Row>, ids: set<string>): (r: seq<Row>)
    ensures forall x :: x in r <==> x in rows && x.capture.id !in ids
  {
    if rows == [] then []
    else
      var rest := Without(rows[..|rows| - 1], ids);
      var x := rows[|rows| - 1];
      if x.capture.id in ids then rest else rest + [x]
  }

  lemma {:induction false} WithoutSorted(rows: seq<Row>, ids: set<string>)
    requires Sorted(rows)
    ensures Sorted(Without(rows, ids))
  {
    if rows != [] {
      WithoutSorted(rows[..|rows| - 1], ids);
    }
  }

  // DELETE ... WHERE seq NOT IN (SELECT seq ... ORDER BY seq DESC LIMIT n), on rows in seq order, leaves
  // Last(rows, n) and removes these.
  function Oldest<T>(rows: seq<T>, n: nat): (r: seq<T>)
    ensures r + Last(rows, n) == rows
  {
    rows[..|rows| - |Last(rows, n)|]
  }

  // How a transaction of appendEvent can go wrong: the database is not ready or the insert fails, or
  // the commit fails after the pruned rows were counted.
  datatype Fault = NoFault | Early | AtCommit

  // The rows after INSERT OR REPLACE, before the retention cap.
  function Inserted(t: Tables, c: Capture, now: nat): seq<Row> {
    Without(t.rows, {c.id}) + [Row(t.nextNum, now, c)]
  }

  // The rows that the retention cap removes.
  function Pruned(t: Tables, c: Capture, now: nat): seq<Row> {
    Oldest(Inserted(t, c, now), MAX_OUTBOX_EVENTS)
  }

  function Append(t: Tables, c: Capture, fault: Fault, now: nat): Tables {
    match fault
    case NoFault =>
      t.(rows := Last(Inserted(t, c, now), MAX_OUTBOX_EVENTS), nextNum := t.nextNum + 1,
         dropped := t.dropped + |Pruned(t, c, now)|)
    case Early => t.(dropped := t.dropped + 1)
    case AtCommit => t.(dropped := t.dropped + |Pruned(t, c, now)| + 1)
  }

  function Purge(t: Tables, ids: set<string>, ok: bool): Tables {
    if ok then t.(rows := Without(t.rows, ids)) else t
  }

  function WithoutQuarantined(q: seq<QuarantineRow>, id: string): seq<QuarantineRow> {
    if q == [] then []
    else
      var rest := WithoutQuarantined(q[..|q| - 1], id);
      if q[|q| - 1].id == id then rest else rest + [q[|q| - 1]]
  }

  function Quarantine(t: Tables, id: string, payload: string, reason: Reason, ok: bool): Tables {
    if ok then
      t.(rows := Without(t.rows, {id}),
         quarantine := Last(WithoutQuarantined(t.quarantine, id) +
                              [QuarantineRow(t.nextQuarantineNum, id, payload, reason)],
                            MAX_QUARANTINE_EVENTS),
         nextQuarantineNum := t.nextQuarantineNum + 1)
    else t
  }

  // The retention cap holds after every committed append, whatever the outbox held before.
  lemma {:induction false} CapAfterAppend(t: Tables, c: Capture, now: nat)
    ensures |Append(t, c, NoFault, now).rows| <= MAX_OUTBOX_EVENTS
    ensures exists r :: r in Append(t, c, NoFault, now).rows && r.capture == c && r.num == t.nextNum
  {
    var inserted := Inserted(t, c, now);
    var rows := Last(inserted, MAX_OUTBOX_EVENTS);
    assert rows[|rows| - 1] == inserted[|inserted| - 1];
  }

  // String.trim
  function Trimmed(s: string): (t: string)
    ensures t != "" ==> t[0] > ' ' && t[|t| - 1] > ' '
    ensures t == "" <==> forall i :: 0 <= i < |s| ==> s[i] <= ' '
  {
    if s == "" then ""
    else if s[0] <= ' ' then Trimmed(s[1..])
    else if s[|s| - 1] <= ' ' then Trimmed(s[..|s| - 1])
    else s
  }

  // t is s without blanks at its ends, from i to j.
  predicate Middle(s: string, t: string, i: nat, j: nat) {
    && i <= j <= |s| && t == s[i..j]
    && (forall k :: 0 <= k < i ==> s[k] <= ' ') && (forall k :: j <= k < |s| ==> s[k] <= ' ')
  }

  lemma {:induction false} MiddleOfRest(s: string, rest: string, t: string, i: nat, j: nat, i': nat, j': nat)
    requires s != "" && s[0] <= ' ' && rest == s[1..] && Middle(rest, t, i, j) && i' == i + 1 && j' == j + 1
    ensures Middle(s, t, i', j')
  {
    assert rest[i..j] == s[i'..j'];
    assert forall k :: 1 <= k < |s| ==> s[k] == rest[k - 1];
  }

  // String.trim cuts off blanks at the ends and nothing else.
  lemma {:induction false} TrimmedMiddle(s: string) returns (i: nat, j: nat)
    ensures Middle(s, Trimmed(s), i, j)
  {
    if s == "" {
      i, j := 0, 0;
    } else if s[0] <= ' ' {
      var rest := s[1..];
      var a, b := TrimmedMiddle(rest);
      i, j := a + 1, b + 1;
      MiddleOfRest(s, rest, Trimmed(rest), a, b, i, j);
    } else if s[|s| - 1] <= ' ' {
      var front := s[..|s| - 1];
      i, j := TrimmedMiddle(front);
      assert front[i..j] == s[i..j];
    } else {
      i, j := 0, |s|;
    }
  }

  // The event under its trimmed id or, if that is blank, under the random one, which goes into the text, too.
  function Named(rawId: string, payload: string -> Payload, uuid: string): (c: Capture)
    ensures uuid != "" ==> c.id != ""
    ensures if forall i :: 0 <= i < |rawId| ==> rawId[i] <= ' ' then c == Capture(uuid, payload(uuid))
            else c == Capture(Trimmed(rawId), payload(rawId))
  {
    if Trimmed(rawId) == "" then Capture(uuid, payload(uuid)) else Capture(Trimmed(rawId), payload(rawId))
  }

  class OutboxDb {
    var rows: seq<Row>
    var nextNum: nat
    var quarantine: seq<QuarantineRow>
    var nextQuarantineNum: nat
    var dropped: nat

    function State(): Tables
      reads this
    {
      Tables(rows, nextNum, quarantine, nextQuarantineNum, dropped)
    }

    constructor ()
      ensures State() == EMPTY
    {
      rows, nextNum, quarantine, nextQuarantineNum, dropped := [], 0, [], 0, 0;
    }

    // `payload` is the text of the event as a function of the id it holds, and `uuid` the random id that an
    // event without one gets.
    method AppendEvent(rawId: string, payload: string -> Payload, uuid: string, fault: Fault, now: nat)
      modifies this
      ensures State() == Append(old(State()), Named(rawId, payload, uuid), fault, now)
    {
      var event := Named(rawId, payload, uuid);
      if fault == Early {
        dropped := dropped + 1;
        return;
      }
      var inserted := Without(rows, {event.id}) + [Row(nextNum, now, event)];
      if |inserted| > MAX_OUTBOX_EVENTS {
        var pruned := |inserted| - MAX_OUTBOX_EVENTS;
        inserted := inserted[pruned..];
        dropped := dropped + pruned;
      }
      if fault == AtCommit {
        dropped := dropped + 1;
        return;
      }
      rows, nextNum := inserted, nextNum + 1;
    }

    method QuarantineAndRemoveEvent(id: string, payload: string, reason: Reason, committed: bool) returns (ok: bool)
      modifies this
      ensures ok == committed && State() == Quarantine(old(State()), id, payload, reason, ok)
    {
      if !committed {
        return false;
      }
      quarantine := WithoutQuarantined(quarantine, id) + [QuarantineRow(nextQuarantineNum, id, payload, reason)];
      nextQuarantineNum := nextQuarantineNum + 1;
      rows := Without(rows, {id});
      if |quarantine| > MAX_QUARANTINE_EVENTS {
        quarantine := quarantine[|quarantine| - MAX_QUARANTINE_EVENTS..];
      }
      return true;
    }

    method PurgeSentEventsById(sentIds: seq<string>, committed: bool) returns (ok: bool)
      modifies this
      ensures ok == (committed || sentIds == [])
      ensures State() == Purge(old(State()), (set id | id in sentIds), ok)
    {
      if sentIds == [] {
        assert Without(rows, {}) == rows by { WithoutNothing(rows); }
        assert (set id | id in sentIds) == {};
        return true;
      }
      if !committed {
        return false;
      }
      rows := Without(rows, (set id | id in sentIds));
      return true;
    }
  }

  lemma {:induction false} WithoutNothing(rows: seq<Row>)
    ensures Without(rows, {}) == rows
  {
    if rows != [] {
      WithoutNothing(rows[..|rows| - 1]);
    }
  }
}
