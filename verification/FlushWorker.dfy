// flushInternal as the loop it is, on the real tables, for one run that may be cancelled at any time. Nothing
// is captured meanwhile. Ghost state follows it step by step in the protocol of module FlushPass.
module FlushWorker {
  import opened Commons
  import opened FlushRuns
  import opened Outbox
  import opened BatchReader
  import opened FlushPass
  import opened FlushBound
  import opened FlushCoverage

  // What the pass meets: whether the r-th read finds the database ready, what target i answers to a batch
  // after it, whether the t-th transaction commits, since which step the run is cancelled, if it is, and
  // before which row the r-th scan would notice it.
  datatype Env = Env(
    ready: nat -> bool,
    answers: (nat, seq<Row>, nat) -> Answer,
    commits: nat -> bool,
    since: Option<nat>,
    cut: nat -> nat)
  {
    // Among the first n targets, some answers and all answers to a batch are of a kind.
    predicate AnyAnswer(r: nat, batch: seq<Row>, n: nat, kind: Answer -> bool) {
      exists i: nat :: i < n && kind(answers(r, batch, i))
    }

    predicate EveryAnswer(r: nat, batch: seq<Row>, n: nat, kind: Answer -> bool) {
      forall i: nat :: i < n ==> kind(answers(r, batch, i))
    }

    // A target takes the batch, or the answers call for a smaller one or rule its only row out.
    predicate Decides(r: nat, batch: seq<Row>, n: nat) {
      || AnyAnswer(r, batch, n, Accepted)
      || (1 < |batch| && AnyAnswer(r, batch, n, TooLarge))
      || EveryAnswer(r, batch, n, Invalid)
      || (|batch| == 1 && EveryAnswer(r, batch, n, TooLarge))
    }

    ghost predicate Reliable() {
      (forall r :: ready(r)) && (forall t :: commits(t))
    }

    // Nothing fails, nobody cancels, and the answers decide about every batch.
    ghost predicate Fair(n: nat) {
      Reliable() && since.None? && forall r: nat, batch: seq<Row> :: batch != [] ==> Decides(r, batch, n)
    }

    // How the first i targets have answered.
    predicate Tally(r: nat, batch: seq<Row>, i: nat, large: nat, invalid: nat) {
      && !AnyAnswer(r, batch, i, Accepted)
      && Counted(r, batch, i, large, TooLarge) && Counted(r, batch, i, invalid, Invalid)
    }

    predicate Counted(r: nat, batch: seq<Row>, i: nat, count: nat, kind: Answer -> bool) {
      count <= i && (0 < count <==> AnyAnswer(r, batch, i, kind)) && (count == i <==> EveryAnswer(r, batch, i, kind))
    }

    lemma {:induction false} CountNext(r: nat, batch: seq<Row>, i: nat, count: nat, kind: Answer -> bool)
      requires Counted(r, batch, i, count, kind)
      ensures Counted(r, batch, i + 1, if kind(answers(r, batch, i)) then count + 1 else count, kind)
    {
      if AnyAnswer(r, batch, i, kind) {
        var k: nat :| k < i && kind(answers(r, batch, k));
        assert k < i + 1;
      }
      assert kind(answers(r, batch, i)) ==> AnyAnswer(r, batch, i + 1, kind);
    }

    lemma {:induction false} TallyNext(r: nat, batch: seq<Row>, i: nat, large: nat, invalid: nat, a: Answer,
                                       i': nat, large': nat, invalid': nat)
      requires Tally(r, batch, i, large, invalid) && a == answers(r, batch, i) && !Accepted(a) && i' == i + 1
      requires large' == if TooLarge(a) then large + 1 else large
      requires invalid' == if Invalid(a) then invalid + 1 else invalid
      ensures Tally(r, batch, i', large', invalid')
    {
      CountNext(r, batch, i, large, TooLarge);
      CountNext(r, batch, i, invalid, Invalid);
    }
  }

  class FlushInternal {
    const db: OutboxDb
    const env: Env
    var readCount: nat      // calls of readBatch so far
    var transactions: nat   // write transactions so far
    var steps: nat          // steps so far, the clock of cancellation
    ghost const start: Box
    ghost const begun: nat
    ghost var box: Box
    ghost var pass: Pass
    ghost var trace: seq<Event>
    ghost var now: nat

    // The worker has done exactly the steps of `trace`.
    ghost predicate Follows()
      reads this
    {
      && Worked(start, trace, begun, env.since) == Some(Both(box, pass))
      && readCount == Reads(trace, env.since) && steps == |trace| && now == begun + |trace|
      && UniqueIds(start.tables.rows)
      && BoundInv(box.tables, pass, CancelledBy(env.since, steps))
    }

    ghost predicate Valid()
      reads this, db
    {
      Follows() && db.State() == box.tables
    }

    constructor (db: OutboxDb, env: Env, ghost start: Box, ghost begun: nat)
      requires db.State() == start.tables && UniqueIds(start.tables.rows)
      ensures Valid() && pass == Off && trace == []
      ensures this.db == db && this.env == env && this.start == start && readCount == 0
    {
      this.db, this.env, this.start, this.begun := db, env, start, begun;
      readCount, transactions, steps := 0, 0, 0;
      box, pass, trace, now := start, Off, [], begun;
    }

    method Advance(ghost e: Event)
      requires Worked(start, trace, begun, env.since) == Some(Both(box, pass))
      requires steps == |trace| && now == begun + |trace|
      requires BoundInv(box.tables, pass, CancelledBy(env.since, steps))
      requires Undisturbed(e) && Enabled(pass, e, CancelledBy(env.since, steps))
      modifies this`box, this`pass, this`trace, this`now, this`steps
      ensures Next(Some(Both(old(box), old(pass))), e, CancelledBy(env.since, old(steps)), old(now)) == Some(Both(box, pass))
      ensures Worked(start, trace, begun, env.since) == Some(Both(box, pass))
      ensures Reads(trace, env.since) == Reads(old(trace), env.since) + Cost(e, CancelledBy(env.since, old(steps)))
      ensures steps == |trace| == old(steps) + 1 && now == begun + |trace|
      ensures BoundInv(box.tables, pass, CancelledBy(env.since, steps))
      ensures ReadsLeft(box.tables, pass) + Cost(e, CancelledBy(env.since, old(steps))) <= ReadsLeft(old(box).tables, old(pass))
    {
      ghost var cancelled, later := CancelledBy(env.since, steps), CancelledBy(env.since, steps + 1);
      ghost var after := NextBound(Both(box, pass), e, cancelled, later, now);
      WorkedOneMore(start, trace, begun, env.since, e, cancelled, now);
      ReadsOneMore(trace, env.since, e);
      trace := trace + [e];
      box, pass, steps, now := after.box, after.pass, steps + 1, now + 1;
    }

    static lemma {:induction false} NextBound(before: Both, e: Event, cancelled: bool, later: bool,
                                              now: nat) returns (after: Both)
      requires BoundInv(before.box.tables, before.pass, cancelled) && (cancelled ==> later)
      requires Undisturbed(e) && Enabled(before.pass, e, cancelled)
      ensures Next(Some(before), e, cancelled, now) == Some(after)
      ensures BoundInv(after.box.tables, after.pass, later)
      ensures ReadsLeft(after.box.tables, after.pass) + Cost(e, cancelled) <= ReadsLeft(before.box.tables, before.pass)
    {
      after := Next(Some(before), e, cancelled, now).value;
      BoundNext(before, after, e, cancelled, later, now);
    }

    // readBatch: the batch, how many bad rows were quarantined, and whether a quarantine failed.
    method ReadBatch(maxCount: nat) returns (batch: seq<Row>, pruned: nat, error: bool)
      requires Valid() && pass.Reading? && pass.max == maxCount && !CancelledBy(env.since, steps)
      modifies this, db
      ensures Valid() && pass.Returned? && pass.n == old(pass).n && pass.max == maxCount
      ensures pass.batch == batch && pass.pruned == pruned && pass.error == error
      ensures error ==> !env.Reliable()
      ensures env.since.None? && env.ready(old(readCount)) ==>
                batch == ScanRows(old(db.rows)[..Min(maxCount, |old(db.rows)|)]).batch
      ensures ReadsLeft(box.tables, pass) < ReadsLeft(old(box).tables, old(pass))
    {
      var r := readCount;
      readCount := readCount + 1;
      Advance(Read(env.ready(r)));
      if !env.ready(r) {
        return [], 0, true;
      }
      var toQuarantine: seq<Bad>;
      batch, toQuarantine := ScanWindow(db.rows[..Min(maxCount, |db.rows|)], r);
      pruned, error := 0, false;
      if toQuarantine != [] {
        pruned, error := IsolateAll(toQuarantine);
      }
    }

    // The cursor loop, which a cancellation can cut short.
    method ScanWindow(window: seq<Row>, r: nat) returns (batch: seq<Row>, toQuarantine: seq<Bad>)
      requires Valid() && pass.Window? && pass.rows == window
      modifies this`box, this`pass, this`trace, this`now, this`steps
      ensures Valid()
      ensures var p := old(pass);
              pass == if toQuarantine == [] then Returned(p.n, p.max, batch, 0, false, p.at)
                      else Isolating(p.n, p.max, batch, toQuarantine, 0, p.at)
      ensures env.since.None? ==> batch == ScanRows(window).batch
      ensures ReadsLeft(box.tables, pass) <= ReadsLeft(old(box).tables, old(pass))
    {
      var s, total := steps, 0;
      var cancelled := (i: nat) => CancelledBy(env.since, s) && env.cut(r) <= i;
      batch, toQuarantine, total := BatchReader.ReadBatch(window, cancelled);
      Uncut(window, cancelled, env.since.None?);
      Advance(Scanned(Cut(|window|, cancelled)));
    }

    static lemma {:induction false} Uncut(window: seq<Row>, cancelled: nat -> bool, never: bool)
      requires never ==> forall i :: !cancelled(i)
      ensures never ==> ScanRows(window[..Cut(|window|, cancelled)]) == ScanRows(window)
    {
      if never {
        assert window[..Cut(|window|, cancelled)] == window;
      }
    }

    // The quarantine transactions that follow the scan.
    method IsolateAll(toQuarantine: seq<Bad>) returns (pruned: nat, error: bool)
      requires Valid() && pass.Isolating? && pass.bad == toQuarantine && pass.pruned == 0
      modifies this`transactions, this`box, this`pass, this`trace, this`now, this`steps, db
      ensures Valid() && pass.Returned? && pass.n == old(pass).n && pass.max == old(pass).max
      ensures pass.batch == old(pass).batch && pass.pruned == pruned && pass.error == error
      ensures error ==> !env.Reliable()
      ensures ReadsLeft(box.tables, pass) <= ReadsLeft(old(box).tables, old(pass))
    {
      pruned := 0;
      while true
        invariant Valid() && pass.Isolating? && pruned < |toQuarantine|
        invariant pass.n == old(pass).n && pass.max == old(pass).max && pass.batch == old(pass).batch
        invariant pass.bad == toQuarantine[pruned..] && pass.pruned == pruned
        invariant ReadsLeft(box.tables, pass) <= ReadsLeft(old(box).tables, old(pass))
        decreases |toQuarantine| - pruned
      {
        var bad := toQuarantine[pruned];
        var ok := IsolateOne(bad.row.capture.id, Stored(bad.row), bad.reason);
        Advance(Isolate(ok));
        if !ok {
          return pruned, true;
        }
        pruned := pruned + 1;
        if pruned == |toQuarantine| {
          return pruned, false;
        }
      }
    }

    // The target loop: whether a target took the batch, how the others refused it, and whether a
    // cancellation ended the loop.
    method Send(batch: seq<Row>, targets: nat) returns (sent: bool, large: nat, invalid: nat, interrupted: bool)
      requires Valid() && pass.Sending? && pass.batch == batch && pass.n == targets > 0
      requires pass.i == 0 && pass.large == 0 && pass.invalid == 0 && !pass.waiting
      modifies this`box, this`pass, this`trace, this`now, this`steps
      ensures Valid() && (interrupted ==> !sent && CancelledBy(env.since, steps))
      ensures if sent then pass == Purging(targets, batch)
              else pass == Settling(targets, old(pass).max, batch, large, invalid, interrupted)
      ensures !sent && !interrupted ==> env.Tally(readCount, batch, targets, large, invalid)
      ensures ReadsLeft(box.tables, pass) <= ReadsLeft(old(box).tables, old(pass))
    {
      sent, large, invalid, interrupted := false, 0, 0, false;
      var i := 0;
      while i < targets
        invariant 0 <= i <= targets && Valid() && !sent && !interrupted
        invariant i < targets ==> pass == Sending(targets, old(pass).max, batch, i, large, invalid, false)
        invariant i == targets ==> pass == Settling(targets, old(pass).max, batch, large, invalid, false)
        invariant env.Tally(readCount, batch, i, large, invalid)
        invariant ReadsLeft(box.tables, pass) <= ReadsLeft(old(box).tables, old(pass))
      {
        var reply := Ask(batch, i);
        if reply.None? {
          return false, large, invalid, true;
        }
        var answer := reply.value;
        if Accepted(answer) {
          return true, large, invalid, false;
        }
        ghost var i0, large0, invalid0 := i, large, invalid;
        if TooLarge(answer) {
          large := large + 1;
        } else if Invalid(answer) {
          invalid := invalid + 1;
        }
        i := i + 1;
        env.TallyNext(readCount, batch, i0, large0, invalid0, answer, i, large, invalid);
      }
    }

    // One turn of the target loop: the answer of target i, or None if the run is found cancelled.
    method Ask(batch: seq<Row>, i: nat) returns (reply: Option<Answer>)
      requires Valid() && pass.Sending? && pass.batch == batch && pass.i == i < pass.n && !pass.waiting
      modifies this`box, this`pass, this`trace, this`now, this`steps
      ensures Valid() && (reply.None? ==> CancelledBy(env.since, steps))
      ensures reply.Some? ==> reply.value == env.answers(readCount, batch, i)
      ensures var p := old(pass);
              match reply
              case None => pass == Settling(p.n, p.max, p.batch, p.large, p.invalid, true)
              case Some(answer) => pass == AfterAnswer(p, answer)
      ensures ReadsLeft(box.tables, pass) <= ReadsLeft(old(box).tables, old(pass))
    {
      var cancelled := CancelledBy(env.since, steps);
      Advance(Target);
      if cancelled {
        return None;
      }
      var answer := env.answers(readCount, batch, i);
      Advance(Answered(answer));
      return Some(answer);
    }

    // How the pass stands when it has ended with an outcome, or goes on with window size `max`.
    ghost predicate RoundEnds(targets: nat, done: Option<Outcome>, max: nat)
      reads this`pass, this`steps
    {
      match done
      case None => pass == Reading(targets, max)
      case Some(outcome) =>
        && pass.Over? && pass.outcome == outcome && outcome != Unconfigured
        && (outcome == Cancelled ==> CancelledBy(env.since, steps))
    }

    // flushInternal. It returns CANCELLED only if it was cancelled, DRAINED only with an empty outbox, and FAILED
    // only if something fails or a batch gets answers that decide nothing. Every row it has found is still in
    // the outbox, or was in a body answered 2xx, or was quarantined.
    method Flush(targets: nat) returns (outcome: Outcome)
      requires Valid() && pass.Off? && trace == []
      modifies this, db
      ensures Valid() && pass.Over? && pass.outcome == outcome
      ensures readCount <= 6 * |start.tables.rows| + 1
      ensures outcome == Drained ==> db.rows == []
      ensures outcome == Cancelled ==> CancelledBy(env.since, steps)
      ensures outcome == Unconfigured <==> targets == 0
      ensures 0 < targets && env.Fair(targets) ==> outcome == Drained
      ensures forall r :: r in start.tables.rows ==> r in db.rows || SettledSince(start, box, r)
    {
      Advance(Begin(targets));
      outcome := Unconfigured;
      if targets > 0 {
        outcome := Loop(targets);
      }
      AtMostSixReadsPerRow(start, trace, begun, env.since);
      RowsWorked(start, trace, begun, env.since, Both(box, pass));
    }

    method Loop(targets: nat) returns (outcome: Outcome)
      requires Valid() && targets > 0 && pass == Reading(targets, BATCH_SIZE)
      modifies this, db
      ensures Valid() && pass.Over? && RoundEnds(targets, Some(outcome), 0)
      ensures outcome == Failed ==> !env.Fair(targets)
    {
      var maxBatchCount: nat := BATCH_SIZE;
      while !CancelledBy(env.since, steps)
        invariant Valid() && pass == Reading(targets, maxBatchCount)
        decreases ReadsLeft(box.tables, pass)
      {
        var done: Option<Outcome>;
        done, maxBatchCount := Round(targets, maxBatchCount);
        if done.Some? {
          return done.value;
        }
      }
      Advance(Read(true));
      return Cancelled;
    }

    // One turn of the loop: read, inspect, send. `done` is the outcome if flushInternal returns.
    method Round(targets: nat, max: nat) returns (done: Option<Outcome>, max': nat)
      requires Valid() && targets > 0 && pass == Reading(targets, max) && !CancelledBy(env.since, steps)
      modifies this, db
      ensures Valid() && RoundEnds(targets, done, max')
      ensures done == Some(Failed) ==> !env.Fair(targets)
      ensures ReadsLeft(box.tables, pass) < ReadsLeft(old(box).tables, old(pass))
    {
      var batch, pruned, error := ReadBatch(max);
      var cancelled := CancelledBy(env.since, steps);
      Advance(Inspect);
      if cancelled {
        return Some(Cancelled), max;
      }
      if error {
        return Some(Failed), max;
      }
      if batch == [] {
        if pruned > 0 {
          return None, max; // only bad rows so far, look further
        }
        return Some(Drained), max; // nothing left
      }
      var body := BuildBody(batch);
      if |body| > MAX_BATCH_BYTES && |batch| > 1 {
        return None, Half(batch);
      }
      done, max' := SendRound(batch, targets, max);
    }

    method SendRound(batch: seq<Row>, targets: nat, max: nat) returns (done: Option<Outcome>, max': nat)
      requires Valid() && targets > 0 && pass == Sending(targets, max, batch, 0, 0, 0, false)
      modifies this`transactions, this`box, this`pass, this`trace, this`now, this`steps, db
      ensures Valid() && RoundEnds(targets, done, max')
      ensures done == Some(Failed) ==> !env.Fair(targets)
      ensures ReadsLeft(box.tables, pass) <= ReadsLeft(old(box).tables, old(pass))
    {
      var sent, large, invalid, interrupted := Send(batch, targets);
      if sent {
        done := PurgeBatch(batch);
        return done, BATCH_SIZE;
      }
      done, max' := Refused(batch, targets, max, large, invalid, interrupted);
    }

    // No target took the batch.
    method Refused(batch: seq<Row>, targets: nat, max: nat, large: nat, invalid: nat, interrupted: bool)
      returns (done: Option<Outcome>, max': nat)
      requires Valid() && pass == Settling(targets, max, batch, large, invalid, interrupted) && batch != []
      requires if interrupted then CancelledBy(env.since, steps) else env.Tally(readCount, batch, targets, large, invalid)
      modifies this`transactions, this`box, this`pass, this`trace, this`now, this`steps, db
      ensures Valid() && RoundEnds(targets, done, max')
      ensures done == Some(Failed) ==> !env.Reliable() || !env.Decides(readCount, batch, targets)
      ensures ReadsLeft(box.tables, pass) <= ReadsLeft(old(box).tables, old(pass))
    {
      var cancelled := interrupted || CancelledBy(env.since, steps);
      Advance(Settle);
      if cancelled {
        return Some(Cancelled), max;
      }
      if (large > 0 && |batch| > 1) || (invalid > 0 && invalid == targets && |batch| > 1) {
        return None, Half(batch);
      }
      var reason: Reason;
      if large > 0 && large == targets && |batch| == 1 {
        reason := TooLargeEverywhere;
      } else if invalid > 0 && invalid == targets && |batch| == 1 {
        reason := InvalidEverywhere;
      } else {
        return Some(Failed), max; // keep everything for the retry
      }
      var quarantined := RejectEvent(batch[0], reason);
      return if quarantined then None else Some(Failed), max;
    }

    // A target took the batch; the rows go before the run looks whether it was cancelled.
    method PurgeBatch(batch: seq<Row>) returns (done: Option<Outcome>)
      requires Valid() && pass.Purging? && pass.batch == batch && batch != []
      modifies this`transactions, this`box, this`pass, this`trace, this`now, this`steps, db
      ensures Valid() && RoundEnds(old(pass).n, done, BATCH_SIZE)
      ensures done != Some(Failed) ==> db.rows == Without(old(db.rows), Ids(batch))
      ensures done == Some(Failed) ==> !env.Reliable()
      ensures ReadsLeft(box.tables, pass) <= ReadsLeft(old(box).tables, old(pass))
    {
      var ids := seq(|batch|, i requires 0 <= i < |batch| => batch[i].capture.id);
      SameIds(batch, ids);
      var ok := db.PurgeSentEventsById(ids, env.commits(transactions));
      transactions := transactions + 1;
      var cancelled := CancelledBy(env.since, steps);
      Advance(Purge(ok));
      return if !ok then Some(Failed) else if cancelled then Some(Cancelled) else None;
    }

    static lemma {:induction false} SameIds(batch: seq<Row>, ids: seq<string>)
      requires |ids| == |batch| && forall i :: 0 <= i < |ids| ==> ids[i] == batch[i].capture.id
      ensures (set id | id in ids) == Ids(batch)
    {
      forall id | id in Ids(batch)
        ensures id in ids
      {
        var i :| 0 <= i < |batch| && batch[i].capture.id == id;
        assert ids[i] == id;
      }
    }

    method RejectEvent(row: Row, reason: Reason) returns (ok: bool)
      requires Valid() && pass.Rejecting? && pass.row == row && pass.reason == reason
      modifies this`transactions, this`box, this`pass, this`trace, this`now, this`steps, db
      ensures Valid()
      ensures if ok then pass == Reading(old(pass).n, old(pass).max) else pass.Over? && pass.outcome == Failed
      ensures ok || !env.Reliable()
      ensures ReadsLeft(box.tables, pass) <= ReadsLeft(old(box).tables, old(pass))
    {
      ok := IsolateOne(row.capture.id, Stored(row), reason);
      Advance(Reject(ok));
    }

    // One quarantine transaction.
    method IsolateOne(id: string, payload: string, reason: Reason) returns (ok: bool)
      requires Valid()
      modifies this`transactions, db
      ensures Follows() && db.State() == Quarantine(box.tables, id, payload, reason, ok)
      ensures ok || !env.Reliable()
    {
      ok := db.QuarantineAndRemoveEvent(id, payload, reason, env.commits(transactions));
      transactions := transactions + 1;
    }
  }
}
