// From the phone to the log: the bodies that the native pipeline gets acknowledged, as the reports that the
// proxy receives.
module EndToEnd {
  import opened Commons
  import opened Outbox
  import BatchReader
  import P = FlushPass
  import Fifo = FifoProofs
  import Coverage = CoverageProofs
  import R = UsageReport
  import opened Delivery
  import opened DeliveryProofs
  import opened DeliveryResults

  // The events of a report; `wire` is the event that a payload is parsed to, which has the id of the capture.
  function Report(rows: seq<Row>, wire: Capture -> R.Event): (es: seq<R.Event>)
    ensures |es| == |rows| && forall i :: 0 <= i < |rows| ==> es[i] == wire(rows[i].capture)
  {
    seq(|rows|, i requires 0 <= i < |rows| => wire(rows[i].capture))
  }

  function ReportsOf(bodies: seq<seq<Row>>, wire: Capture -> R.Event): (bs: seq<seq<R.Event>>)
    ensures |bs| == |bodies| && forall i :: 0 <= i < |bodies| ==> bs[i] == Report(bodies[i], wire)
  {
    seq(|bodies|, i requires 0 <= i < |bodies| => Report(bodies[i], wire))
  }

  ghost predicate KeepsIds(wire: Capture -> R.Event) {
    forall c :: wire(c).id == c.id
  }

  // ---------- Every body is a report the proxy takes ----------

  predicate GoodSize(rows: seq<Row>) {
    0 < |rows| <= P.BATCH_SIZE
  }

  predicate PassSize(p: P.Pass) {
    match p
    case Reading(_, max) => 0 < max <= P.BATCH_SIZE
    case Window(_, max, rows, _) => 0 < max <= P.BATCH_SIZE && |rows| <= max
    case Isolating(_, max, batch, _, _, _) => 0 < max <= P.BATCH_SIZE && |batch| <= max
    case Returned(_, max, batch, _, _, _) => 0 < max <= P.BATCH_SIZE && |batch| <= max
    case Sending(_, max, batch, _, _, _, _) => 0 < max <= P.BATCH_SIZE && GoodSize(batch)
    case Settling(_, max, batch, _, _, _) => 0 < max <= P.BATCH_SIZE && GoodSize(batch)
    case Rejecting(_, max, _, _) => 0 < max <= P.BATCH_SIZE
    case _ => true
  }

  predicate SizeInv(b: P.Box, p: P.Pass) {
    PassSize(p) && forall body :: body in b.bodies ==> GoodSize(body)
  }

  lemma {:induction false} SizeStep(b: P.Box, p: P.Pass, e: P.Event, cancelled: bool, now: nat)
    requires SizeInv(b, p) && P.Enabled(p, e, cancelled)
    ensures var r := P.Step(b, p, e, cancelled, now); SizeInv(r.box, r.pass)
  {
    if e.Scanned? {
      ScanSize(p.rows[..e.k]);
    }
  }

  lemma {:induction false} ScanSize(rows: seq<Row>)
    ensures |BatchReader.ScanRows(rows).batch| <= |rows|
  {
    var m := BatchReader.ReadIsPrefix(rows);
    BatchReader.SplitSizes(rows[..m]);
  }

  lemma {:induction false} SizeHistory(h: seq<Event>, w: World)
    requires After(h) == Some(w)
    ensures SizeInv(w.box, w.pass)
  {
    if h != [] {
      var v, e := After(h[..|h| - 1]).value, h[|h| - 1];
      SizeHistory(h[..|h| - 1], v);
      if PassEvent(v, e).Some? {
        SizeStep(v.box, v.pass, PassEvent(v, e).value, Cancelled(v), |h| - 1);
      }
    }
  }

  // ---------- Nothing acknowledged is missing from the log ----------

  lemma {:induction false} ReportedLogged(p: R.Proxy, reports: seq<seq<R.Event>>, batch: seq<R.Event>, e: R.Event)
    requires R.InStep(p) && batch in reports && R.GoodBatch(batch) && e in batch
    ensures R.Fingerprint(e) in R.Fingerprints(R.Reports(p, reports).log)
  {
    var front, last := reports[..|reports| - 1], reports[|reports| - 1];
    var q := R.Reports(p, front);
    R.ReportsInStep(p, front);
    if batch == last {
      R.AllLogged(q, batch, e);
    } else {
      ReportedLogged(p, front, batch, e);
      R.LoggedLater(q.log, R.Reports(p, reports).log, R.Fingerprint(e));
    }
  }

  // Whatever else the proxy receives in between, and in whatever order: every acknowledged event has its
  // fingerprint in the log.
  lemma {:induction false} AcknowledgedLogged(h: seq<Event>, w: World, wire: Capture -> R.Event, p: R.Proxy,
                                              reports: seq<seq<R.Event>>, c: Capture)
    requires After(h) == Some(w) && Coverage.Acknowledged(w.box, c)
    requires R.InStep(p) && forall body :: body in w.box.bodies ==> Report(body, wire) in reports
    ensures R.Fingerprint(wire(c)) in R.Fingerprints(R.Reports(p, reports).log)
  {
    SizeHistory(h, w);
    var body :| body in w.box.bodies && c in P.Captures(body);
    var i :| 0 <= i < |body| && P.Captures(body)[i] == c;
    assert Report(body, wire)[i] == wire(c);
    ReportedLogged(p, reports, Report(body, wire), wire(c));
  }

  // ---------- Nothing is logged twice ----------

  // The ids are there and differ.
  predicate WellNamed(rows: seq<Row>) {
    && (forall i :: 0 <= i < |rows| ==> rows[i].capture.id != "")
    && (forall i, j :: 0 <= i < j < |rows| ==> rows[i].capture.id != rows[j].capture.id)
  }

  predicate NewTo(log: seq<R.Event>, rows: seq<Row>, wire: Capture -> R.Event) {
    forall r :: r in rows ==> R.Fingerprint(wire(r.capture)) !in R.Fingerprints(log)
  }

  // The fingerprint of a row that is named differently from all reported ones is new.
  lemma {:induction false} NewPrint(log: seq<R.Event>, rows: seq<Row>, r: Row, wire: Capture -> R.Event)
    requires KeepsIds(wire) && WellNamed(rows + [r]) && R.Fingerprint(wire(r.capture)) !in R.Fingerprints(log)
    ensures R.Fingerprint(wire(r.capture)) !in R.Fingerprints(log + Report(rows, wire))
  {
    var all := log + Report(rows, wire);
    assert (rows + [r])[|rows|] == r;
    forall i | 0 <= i < |all|
      ensures R.Fingerprints(all)[i] != R.Fingerprint(wire(r.capture))
    {
      if i < |log| {
        assert R.Fingerprints(log)[i] == R.Fingerprint(log[i]);
      } else {
        var x := rows[i - |log|];
        assert (rows + [r])[i - |log|] == x;
        R.FingerprintById(wire(x.capture), wire(r.capture));
      }
    }
  }

  lemma {:induction false} OldPrint(log: seq<R.Event>, rows: seq<Row>, r: Row, wire: Capture -> R.Event)
    requires r in rows
    ensures R.Fingerprint(wire(r.capture)) in R.Fingerprints(log + Report(rows, wire))
  {
    var i :| 0 <= i < |rows| && rows[i] == r;
    var all := log + Report(rows, wire);
    assert R.Fingerprints(all)[|log| + i] == R.Fingerprint(wire(r.capture));
  }

  lemma {:induction false} ReportMore(rows: seq<Row>, r: Row, wire: Capture -> R.Event)
    ensures Report(rows + [r], wire) == Report(rows, wire) + [wire(r.capture)]
  {
  }

  // From a body the proxy takes exactly the rows that no earlier body held.
  predicate Takes(log: seq<R.Event>, before: seq<Row>, body: seq<Row>, wire: Capture -> R.Event) {
    var new' := Fifo.Fresh(body, before);
    R.Sift(R.Fingerprints(log + Report(before, wire)), Report(body, wire)) ==
    R.Sifted(R.Fingerprints(log + Report(before + new', wire)), Report(new', wire))
  }

  lemma {:induction false} AllButLast(rows: seq<Row>) returns (front: seq<Row>, r: Row)
    requires rows != []
    ensures front == rows[..|rows| - 1] && r == rows[|rows| - 1] && rows == front + [r]
  {
    front, r := rows[..|rows| - 1], rows[|rows| - 1];
  }

  lemma {:induction false} SiftBody(log: seq<R.Event>, before: seq<Row>, body: seq<Row>, wire: Capture -> R.Event)
    requires KeepsIds(wire) && WellNamed(before + Fifo.Fresh(body, before)) && NewTo(log, body, wire)
    requires |log| + |before| + |Fifo.Fresh(body, before)| <= R.MAX_SEEN_USAGE_EVENTS
    ensures Takes(log, before, body, wire)
  {
    if body == [] {
      assert before + [] == before;
    } else {
      var front, r := AllButLast(body);
      var rest := Fifo.Fresh(front, before);
      FreshFront(body, before);
      SiftBody(log, before, front, wire);
      TakesMore(log, before, front, r, rest, wire);
    }
  }

  lemma {:induction false} TakesMore(log: seq<R.Event>, before: seq<Row>, front: seq<Row>, r: Row, rest: seq<Row>,
                                     wire: Capture -> R.Event)
    requires KeepsIds(wire) && Takes(log, before, front, wire) && rest == Fifo.Fresh(front, before)
    requires Fifo.Fresh(front + [r], before) == if r in before then rest else rest + [r]
    requires WellNamed(before + Fifo.Fresh(front + [r], before))
    requires R.Fingerprint(wire(r.capture)) !in R.Fingerprints(log)
    requires |log| + |before| + |Fifo.Fresh(front + [r], before)| <= R.MAX_SEEN_USAGE_EVENTS
    ensures Takes(log, before, front + [r], wire)
  {
    var rows := before + rest;
    if r in before {
      OldPrint(log, rows, r, wire);
    } else {
      assert rows + [r] == before + (rest + [r]);
      NewPrint(log, rows, r, wire);
    }
    var more := if r in before then rest else rest + [r];
    TakesRow(R.Fingerprints(log + Report(before, wire)), front, r, log, rows, rest, before + more, more, wire);
  }

  lemma {:induction false} TakesRow(seen: seq<string>, front: seq<Row>, r: Row, log: seq<R.Event>, rows: seq<Row>,
                                    rest: seq<Row>,
                                    rows': seq<Row>, more: seq<Row>, wire: Capture -> R.Event)
    requires R.Sift(seen, Report(front, wire)) == R.Sifted(R.Fingerprints(log + Report(rows, wire)), Report(rest, wire))
    requires |log| + |rows'| <= R.MAX_SEEN_USAGE_EVENTS
    requires if R.Fingerprint(wire(r.capture)) in R.Fingerprints(log + Report(rows, wire)) then rows' == rows && more == rest
             else rows' == rows + [r] && more == rest + [r]
    ensures R.Sift(seen, Report(front + [r], wire)) == R.Sifted(R.Fingerprints(log + Report(rows', wire)), Report(more, wire))
  {
    var e := wire(r.capture);
    ReportMore(front, r, wire);
    ReportMore(rows, r, wire);
    ReportMore(rest, r, wire);
    LogMoreOne(log, rows, r, wire);
    TakeOne(seen, Report(front, wire), e, log + Report(rows, wire), Report(rest, wire));
  }

  lemma {:induction false} LogMoreOne(log: seq<R.Event>, rows: seq<Row>, r: Row, wire: Capture -> R.Event)
    ensures log + Report(rows + [r], wire) == log + Report(rows, wire) + [wire(r.capture)]
  {
    ReportMore(rows, r, wire);
  }

  lemma {:induction false} TakeOne(seen: seq<string>, events: seq<R.Event>, e: R.Event, log: seq<R.Event>,
                                   taken: seq<R.Event>)
    requires R.Sift(seen, events) == R.Sifted(R.Fingerprints(log), taken)
    requires R.Fingerprint(e) !in R.Fingerprints(log) ==> |log| < R.MAX_SEEN_USAGE_EVENTS
    ensures R.Sift(seen, events + [e]) ==
            if R.Fingerprint(e) in R.Fingerprints(log) then R.Sifted(R.Fingerprints(log), taken)
            else R.Sifted(R.Fingerprints(log + [e]), taken + [e])
  {
    R.SiftLast(seen, events, e);
    R.FingerprintsConcat(log, [e]);
  }

  lemma {:induction false} FreshFront(body: seq<Row>, before: seq<Row>)
    requires body != [] && WellNamed(before + Fifo.Fresh(body, before))
    ensures var front, r := body[..|body| - 1], body[|body| - 1];
            && WellNamed(before + Fifo.Fresh(front, before))
            && Fifo.Fresh(body, before) == if r in before then Fifo.Fresh(front, before) else Fifo.Fresh(front, before) + [r]
  {
    var a, b := before + Fifo.Fresh(body[..|body| - 1], before), before + Fifo.Fresh(body, before);
    assert a <= b;
    assert forall i :: 0 <= i < |a| ==> a[i] == b[i];
  }

  // A proxy that has the reports of the phone only, and knows none of its events yet, logs each acknowledged
  // row once, in the order of first acknowledgement: what is sent again adds nothing.
  lemma {:induction false} LoggedOnce(p: R.Proxy, bodies: seq<seq<Row>>, wire: Capture -> R.Event)
    requires p.seen == R.Fingerprints(p.log) && KeepsIds(wire)
    requires forall body :: body in bodies ==> GoodSize(body) && NewTo(p.log, body, wire)
    requires WellNamed(Fifo.FirstAcks(bodies)) && |p.log| + |Fifo.FirstAcks(bodies)| <= R.MAX_SEEN_USAGE_EVENTS
    ensures var log := p.log + Report(Fifo.FirstAcks(bodies), wire);
            R.Reports(p, ReportsOf(bodies, wire)) == R.Proxy(R.Fingerprints(log), log)
  {
    if bodies == [] {
      assert p.log + Report([], wire) == p.log;
    } else {
      var front, body := bodies[..|bodies| - 1], bodies[|bodies| - 1];
      var before := Fifo.FirstAcks(front);
      var all := Fifo.FirstAcks(bodies);
      assert forall i :: 0 <= i < |before| ==> before[i] == all[i];
      LoggedOnce(p, front, wire);
      SiftBody(p.log, before, body, wire);
      assert ReportsOf(bodies, wire)[..|bodies| - 1] == ReportsOf(front, wire);
      LoggedMore(p, ReportsOf(bodies, wire), before, body, wire);
    }
  }

  lemma {:induction false} LoggedMore(p: R.Proxy, reports: seq<seq<R.Event>>, before: seq<Row>, body: seq<Row>,
                                      wire: Capture -> R.Event)
    requires reports != [] && reports[|reports| - 1] == Report(body, wire) && GoodSize(body)
    requires var log := p.log + Report(before, wire);
             R.Reports(p, reports[..|reports| - 1]) == R.Proxy(R.Fingerprints(log), log)
    requires Takes(p.log, before, body, wire)
    ensures var log := p.log + Report(before + Fifo.Fresh(body, before), wire);
            R.Reports(p, reports) == R.Proxy(R.Fingerprints(log), log)
  {
    ReportsLast(p, reports);
    LogMore(p.log, before, Fifo.Fresh(body, before), wire);
  }

  lemma {:induction false} ReportsLast(p: R.Proxy, reports: seq<seq<R.Event>>)
    requires reports != [] && R.GoodBatch(reports[|reports| - 1])
    ensures var q := R.Reports(p, reports[..|reports| - 1]);
            var s := R.Sift(q.seen, reports[|reports| - 1]);
            R.Reports(p, reports) == R.Proxy(s.seen, q.log + s.accepted)
  {
  }

  lemma {:induction false} LogMore(log: seq<R.Event>, a: seq<Row>, b: seq<Row>, wire: Capture -> R.Event)
    ensures log + Report(a, wire) + Report(b, wire) == log + Report(a + b, wire)
  {
  }

  // ---------- Rows are numbered commits ----------

  // The events whose append committed, in order.
  function Committed(h: seq<Event>): seq<Capture> {
    if h == [] then []
    else
      var before, e := Committed(h[..|h| - 1]), h[|h| - 1];
      if e.Work? && e.p.Appended? && e.p.fault.NoFault? then before + [e.p.c] else before
  }

  predicate Numbered(rows: seq<Row>, cs: seq<Capture>) {
    forall r :: r in rows ==> r.num < |cs| && cs[r.num] == r.capture
  }

  predicate PassNumbered(p: P.Pass, cs: seq<Capture>) {
    match p
    case Window(_, _, rows, _) => Numbered(rows, cs)
    case Isolating(_, _, batch, _, _, _) => Numbered(batch, cs)
    case Returned(_, _, batch, _, _, _) => Numbered(batch, cs)
    case Sending(_, _, batch, _, _, _, _) => Numbered(batch, cs)
    case _ => true
  }

  predicate NumberInv(b: P.Box, p: P.Pass, cs: seq<Capture>) {
    && b.tables.nextNum == |cs| && Numbered(b.tables.rows, cs) && PassNumbered(p, cs)
    && forall body :: body in b.bodies ==> Numbered(body, cs)
  }

  lemma {:induction false} NumberAppend(b: P.Box, p: P.Pass, c: Capture, now: nat, cs: seq<Capture>)
    requires NumberInv(b, p, cs)
    ensures NumberInv(P.Appending(b, c, NoFault, now), p, cs + [c])
  {
    NumberedMore(b.tables.rows, cs, c);
    assert forall r :: r in Inserted(b.tables, c, now) ==> r in b.tables.rows || r == Row(|cs|, now, c);
    forall body | body in b.bodies
      ensures Numbered(body, cs + [c])
    {
      NumberedMore(body, cs, c);
    }
    if p.Window? {
      NumberedMore(p.rows, cs, c);
    } else if p.Isolating? || p.Returned? || p.Sending? {
      NumberedMore(p.batch, cs, c);
    }
    assert PassNumbered(p, cs + [c]);
  }

  lemma {:induction false} NumberedMore(rows: seq<Row>, cs: seq<Capture>, c: Capture)
    requires Numbered(rows, cs)
    ensures Numbered(rows, cs + [c])
  {
  }

  lemma {:induction false} NumberStep(b: P.Box, p: P.Pass, e: P.Event, cancelled: bool, now: nat, cs: seq<Capture>)
    requires NumberInv(b, p, cs) && P.Enabled(p, e, cancelled) && !(e.Appended? && e.fault.NoFault?)
    ensures var r := P.Step(b, p, e, cancelled, now); NumberInv(r.box, r.pass, cs)
  {
    if e.Scanned? {
      ScanTakes(p.rows[..e.k]);
    }
  }

  lemma {:induction false} ScanTakes(rows: seq<Row>)
    ensures forall r :: r in BatchReader.ScanRows(rows).batch ==> r in rows
  {
    var m := BatchReader.ReadIsPrefix(rows);
    assert forall r :: r in rows[..m] ==> r in rows;
  }

  lemma {:induction false} NumberHistory(h: seq<Event>, w: World)
    requires After(h) == Some(w)
    ensures NumberInv(w.box, w.pass, Committed(h))
  {
    if h != [] {
      var v, e := After(h[..|h| - 1]).value, h[|h| - 1];
      NumberHistory(h[..|h| - 1], v);
      if e.Work? && e.p.Appended? && e.p.fault.NoFault? {
        NumberAppend(v.box, v.pass, e.p.c, |h| - 1, Committed(h[..|h| - 1]));
      } else if PassEvent(v, e).Some? {
        NumberStep(v.box, v.pass, PassEvent(v, e).value, Cancelled(v), |h| - 1, Committed(h));
      }
    }
  }

  predicate DistinctIds(cs: seq<Capture>) {
    (forall i :: 0 <= i < |cs| ==> cs[i].id != "") && (forall i, j :: 0 <= i < j < |cs| ==> cs[i].id != cs[j].id)
  }

  lemma {:induction false} NumberedApart(rows: seq<Row>, cs: seq<Capture>)
    requires Sorted(rows) && Numbered(rows, cs) && DistinctIds(cs)
    ensures WellNamed(rows)
  {
    forall i | 0 <= i < |rows|
      ensures rows[i].num < |cs| && cs[rows[i].num] == rows[i].capture
    {
      assert rows[i] in rows;
    }
  }

  lemma {:induction false} AcksNumbered(bodies: seq<seq<Row>>, cs: seq<Capture>)
    requires forall body :: body in bodies ==> Numbered(body, cs)
    ensures Numbered(Fifo.FirstAcks(bodies), cs)
  {
    forall r | r in Fifo.FirstAcks(bodies)
      ensures r.num < |cs| && cs[r.num] == r.capture
    {
      Fifo.FirstAcksAreTheAcknowledged(bodies, r);
    }
  }

  // End to end, over any run of the phone, restarts, failed purges and repeated sending included: if the
  // committed events have ids of their own and the window is not exceeded, the log gains each acknowledged
  // event exactly once, in the order in which the events were committed.
  lemma {:induction false} LoggedOnceInOrder(h: seq<Event>, w: World, wire: Capture -> R.Event, p: R.Proxy)
    requires After(h) == Some(w) && KeepsIds(wire) && DistinctIds(Committed(h))
    requires p.seen == R.Fingerprints(p.log)
    requires forall c :: c in Committed(h) ==> R.Fingerprint(wire(c)) !in R.Fingerprints(p.log)
    requires |p.log| + |Fifo.FirstAcks(w.box.bodies)| <= R.MAX_SEEN_USAGE_EVENTS
    ensures var rows := Fifo.FirstAcks(w.box.bodies);
            && R.Reports(p, ReportsOf(w.box.bodies, wire)).log == p.log + Report(rows, wire)
            && Sorted(rows) && WellNamed(rows) && Numbered(rows, Committed(h))
  {
    var bodies, cs := w.box.bodies, Committed(h);
    SizeHistory(h, w);
    NumberHistory(h, w);
    AcknowledgedInOrder(h, w);
    AcksNumbered(bodies, cs);
    NumberedApart(Fifo.FirstAcks(bodies), cs);
    forall body | body in bodies
      ensures NewTo(p.log, body, wire)
    {
      assert forall r :: r in body ==> cs[r.num] in cs;
    }
    LoggedOnce(p, bodies, wire);
  }
}
