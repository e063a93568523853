// What flushInternal does with a batch that no target took, and why a pass fails, read off the requests and
// their answers.
module RefusalProofs {
  import opened Outbox
  import opened BatchReader
  import opened FlushPass
  import opened QuarantineProofs
  import opened Commons
  import FlushRuns
  import D = Delivery
  import opened DeliveryProofs

  // ---------- One round ----------

  // The last n answers call for a smaller batch.
  predicate CallsForLess(posts: seq<Post>, batch: seq<Row>, n: nat) {
    1 < |batch| && (SomeAnswered(posts, n, TooLarge) || AllAnswered(posts, n, Invalid))
  }

  // The last n answers rule the only row of the batch out.
  predicate RulesOut(posts: seq<Post>, batch: seq<Row>, n: nat) {
    |batch| == 1 && (AllAnswered(posts, n, TooLarge) || AllAnswered(posts, n, Invalid))
  }

  // The last n requests sent one batch to all of n targets, none took it, and the answers leave nothing to
  // do but to try again later.
  predicate HopelessRound(posts: seq<Post>, batch: seq<Row>, n: nat) {
    && 0 < n && batch != [] && Sent(posts, batch, n, n)
    && !CallsForLess(posts, batch, n) && !RulesOut(posts, batch, n)
  }

  // Unless it is cancelled, the pass goes on with half the rows, or quarantines the row for what all targets
  // answered, or fails; which of these is told by the answers.
  predicate SettledAsAnswered(posts: seq<Post>, batch: seq<Row>, n: nat, q: Pass) {
    && (q.Reading? <==> CallsForLess(posts, batch, n))
    && (q.Reading? ==> q.n == n && 0 < q.max == |batch| / 2)
    && (q.Rejecting? <==> RulesOut(posts, batch, n))
    && (q.Rejecting? ==> q.n == n && batch == [q.row] &&
                         q.reason == if AllAnswered(posts, n, TooLarge) then TooLargeEverywhere else InvalidEverywhere)
    && (q.Over? <==> HopelessRound(posts, batch, n))
    && (q.Over? ==> q.outcome == FlushRuns.Failed)
    && (q.Reading? || q.Rejecting? || q.Over?)
  }

  lemma {:induction false} SettledByAnswers(b: Box, p: Pass, cancelled: bool, now: nat)
    requires QuarantineInv(b, p) && p.Settling? && !p.interrupted && !cancelled
    ensures Sent(b.posts, p.batch, p.n, p.n) && SettledAsAnswered(b.posts, p.batch, p.n, Settled(p, cancelled, now))
  {
    Counted(b.posts, p.batch, p.n, p.large, p.invalid);
    if |p.batch| == 1 {
      assert p.batch == [p.batch[0]];
    }
  }

  lemma {:induction false} Counted(posts: seq<Post>, batch: seq<Row>, n: nat, large: nat, invalid: nat)
    requires 0 < n && RoundInv(posts, batch, n, n, large, invalid)
    ensures 0 < large <==> SomeAnswered(posts, n, TooLarge)
    ensures 0 < large == n <==> AllAnswered(posts, n, TooLarge)
    ensures 0 < invalid == n <==> AllAnswered(posts, n, Invalid)
  {
  }

  // ---------- Why a pass fails ----------

  // An event at which the database fails the pass.
  predicate Fails(e: D.Event) {
    e.Work? && (e.p == Read(false) || e.p == Isolate(false) || e.p == Purge(false) || e.p == Reject(false))
  }

  // Since the worker last entered flushInternal, the database has failed it.
  predicate Faulted(h: seq<D.Event>) {
    h != [] && !h[|h| - 1].Enter? && !h[|h| - 1].Die? && (Fails(h[|h| - 1]) || Faulted(h[..|h| - 1]))
  }

  // How many requests had been made when the worker last entered flushInternal.
  function SentBefore(h: seq<D.Event>): nat
    requires D.Possible(h)
  {
    if h == [] then 0
    else if h[|h| - 1].Enter? then |D.After(h[..|h| - 1]).value.box.posts|
    else SentBefore(h[..|h| - 1])
  }

  // A round like that was the last, and was made by this pass.
  ghost predicate Hopeless(posts: seq<Post>, since: nat) {
    exists n: nat, batch: seq<Row> :: HopelessRound(posts, batch, n) && since + n <= |posts|
  }

  predicate Unsuccessful(o: FlushRuns.Outcome) {
    o == FlushRuns.Failed || o == FlushRuns.Cancelled
  }

  ghost predicate CauseInv(b: Box, p: Pass, since: nat, faulted: bool) {
    && since <= |b.posts|
    && (faulted ==> p.Off? || (p.Returned? && p.error) || (p.Over? && Unsuccessful(p.outcome)))
    && match p
       case Returned(_, _, _, _, error, _) => error ==> faulted
       case Sending(_, _, _, i, _, _, _) => since + i <= |b.posts|
       case Settling(n, _, _, _, _, interrupted) => !interrupted ==> since + n <= |b.posts|
       case Over(outcome, _) => outcome == FlushRuns.Failed ==> faulted || Hopeless(b.posts, since)
       case _ => true
  }

  lemma {:induction false} CauseSettle(b: Box, p: Pass, since: nat, faulted: bool, cancelled: bool, now: nat)
    requires QuarantineInv(b, p) && CauseInv(b, p, since, faulted) && p.Settling?
    ensures CauseInv(b, Settled(p, cancelled, now), since, faulted)
  {
    if !p.interrupted && !cancelled {
      SettledByAnswers(b, p, cancelled, now);
      if Settled(p, cancelled, now).Over? {
        assert HopelessRound(b.posts, p.batch, p.n) && since + p.n <= |b.posts|;
      }
    }
  }

  lemma {:induction false} CauseStep(b: Box, p: Pass, e: Event, since: nat, faulted: bool, cancelled: bool, now: nat)
    requires QuarantineInv(b, p) && CauseInv(b, p, since, faulted) && Enabled(p, e, cancelled) && !e.Begin?
    ensures var r := Step(b, p, e, cancelled, now); CauseInv(r.box, r.pass, since, faulted || Fails(D.Work(e)))
  {
    match e
    case Settle => CauseSettle(b, p, since, faulted, cancelled, now);
    case Answered(a) => CauseAnswered(b, p, a, since, faulted, cancelled, now);
    case _ =>
  }

  lemma {:induction false} CauseAnswered(b: Box, p: Pass, a: Answer, since: nat, faulted: bool, cancelled: bool,
                                         now: nat)
    requires CauseInv(b, p, since, faulted) && Enabled(p, Answered(a), cancelled)
    ensures var r := Step(b, p, Answered(a), cancelled, now); CauseInv(r.box, r.pass, since, faulted)
  {
  }

  lemma {:induction false} CauseLived(w: D.World, e: D.Event, now: nat, since: nat, faulted: bool, w': D.World)
    requires D.Enabled(w, e) && !e.Die? && w' == D.Step(w, e, now)
    requires QuarantineInv(w.box, w.pass) && CauseInv(w.box, w.pass, since, faulted)
    ensures if e.Enter? then CauseInv(w'.box, w'.pass, |w.box.posts|, false)
            else CauseInv(w'.box, w'.pass, since, faulted || Fails(e))
  {
    if e.Work? {
      CauseStep(w.box, w.pass, e.p, since, faulted, D.Cancelled(w), now);
    }
  }

  lemma {:induction false} CauseHistory(h: seq<D.Event>, w: D.World)
    requires D.After(h) == Some(w)
    ensures CauseInv(w.box, w.pass, SentBefore(h), Faulted(h))
  {
    if h != [] {
      var before, e := h[..|h| - 1], h[|h| - 1];
      var v := D.After(before).value;
      CauseHistory(before, v);
      if !e.Die? {
        BoxHistory(before, v, Capture("", Garbage("")));
        CauseLived(v, e, |h| - 1, SentBefore(before), Faulted(before), w);
      }
    }
  }

  // A pass returns FAILED only if the database failed it, or its last round was hopeless: its requests sent
  // one batch to all targets, none took it, and the answers neither call for a smaller batch nor rule the
  // only row out. If the database failed it, it returns nothing better.
  lemma {:induction false} FailureHasCause(h: seq<D.Event>, w: D.World)
    requires D.After(h) == Some(w) && w.pass.Over?
    ensures w.pass.outcome == FlushRuns.Failed ==> Faulted(h) || Hopeless(w.box.posts, SentBefore(h))
    ensures Faulted(h) ==> Unsuccessful(w.pass.outcome)
  {
    CauseHistory(h, w);
  }

  // ---------- Why a window is small ----------

  // How many requests had been made when a target last took a batch, counted from position `since`.
  function LastTaken(posts: seq<Post>, since: nat): (t: nat)
    requires since <= |posts|
    ensures since <= t <= |posts|
    ensures forall j :: t <= j < |posts| ==> !Accepted(posts[j].answer)
  {
    if |posts| == since then since
    else if Accepted(posts[|posts| - 1].answer) then |posts|
    else LastTaken(posts[..|posts| - 1], since)
  }

  // A round of n requests that ended at position k called for a smaller batch.
  predicate ShrunkAt(posts: seq<Post>, k: nat, batch: seq<Row>, n: nat) {
    k <= |posts| && 0 < n && Sent(posts[..k], batch, n, n) && CallsForLess(posts[..k], batch, n)
  }

  // There was such a round after position t.
  ghost predicate Shrunk(posts: seq<Post>, t: nat) {
    exists k: nat, batch: seq<Row>, n: nat :: ShrunkAt(posts, k, batch, n) && t + n <= k
  }

  function WindowSize(p: Pass): nat {
    match p
    case Reading(_, max) => max
    case Window(_, max, _, _) => max
    case Isolating(_, max, _, _, _, _) => max
    case Returned(_, max, _, _, _, _) => max
    case Sending(_, max, _, _, _, _, _) => max
    case Settling(_, max, _, _, _, _) => max
    case Rejecting(_, max, _, _) => max
    case _ => BATCH_SIZE
  }

  predicate Fits(batch: seq<Row>) {
    batch == [] || |Body(batch)| <= MAX_BATCH_BYTES
  }

  ghost predicate SizeInv(b: Box, p: Pass, since: nat) {
    && since <= |b.posts|
    && (WindowSize(p) == BATCH_SIZE || Shrunk(b.posts, LastTaken(b.posts, since)))
    && (p.Isolating? || p.Returned? ==> Fits(p.batch))
  }

  lemma {:induction false} ShrunkStays(posts: seq<Post>, more: Post, t: nat)
    requires Shrunk(posts, t)
    ensures Shrunk(posts + [more], t)
  {
    var k: nat, batch: seq<Row>, n: nat :| ShrunkAt(posts, k, batch, n) && t + n <= k;
    assert (posts + [more])[..k] == posts[..k];
    assert ShrunkAt(posts + [more], k, batch, n);
  }

  lemma {:induction false} SizeAnswered(b: Box, p: Pass, since: nat, a: Answer, cancelled: bool, now: nat)
    requires SizeInv(b, p, since) && Enabled(p, Answered(a), cancelled)
    ensures var r := Step(b, p, Answered(a), cancelled, now); SizeInv(r.box, r.pass, since)
  {
    var post := Post(p.batch, p.i, p.n, a);
    if !Accepted(a) {
      assert (b.posts + [post])[..|b.posts|] == b.posts;
      if p.max != BATCH_SIZE {
        ShrunkStays(b.posts, post, LastTaken(b.posts, since));
      }
    }
  }

  lemma {:induction false} SizeSettle(b: Box, p: Pass, since: nat, faulted: bool, cancelled: bool, now: nat)
    requires QuarantineInv(b, p) && CauseInv(b, p, since, faulted) && SizeInv(b, p, since) && p.Settling?
    ensures SizeInv(b, Settled(p, cancelled, now), since)
  {
    if !p.interrupted && !cancelled && Settled(p, cancelled, now).Reading? {
      SettledByAnswers(b, p, cancelled, now);
      NoneTaken(b.posts, since, p.n);
      assert b.posts[..|b.posts|] == b.posts;
      assert ShrunkAt(b.posts, |b.posts|, p.batch, p.n);
    }
  }

  lemma {:induction false} NoneTaken(posts: seq<Post>, since: nat, n: nat)
    requires since + n <= |posts| && forall j :: |posts| - n <= j < |posts| ==> !Accepted(posts[j].answer)
    ensures LastTaken(posts, since) + n <= |posts|
  {
    if 0 < n {
      NoneTaken(posts[..|posts| - 1], since, n - 1);
    }
  }

  lemma {:induction false} SizeScanned(b: Box, p: Pass, since: nat, k: nat, cancelled: bool, now: nat)
    requires SizeInv(b, p, since) && Enabled(p, Scanned(k), cancelled)
    ensures var r := Step(b, p, Scanned(k), cancelled, now); SizeInv(r.box, r.pass, since)
  {
    if ScanRows(p.rows[..k]).batch != [] {
      BodyFits(p.rows[..k]);
    }
  }

  lemma {:induction false} SizeStep(b: Box, p: Pass, e: Event, since: nat, faulted: bool, cancelled: bool, now: nat)
    requires QuarantineInv(b, p) && CauseInv(b, p, since, faulted) && SizeInv(b, p, since) && Enabled(p, e, cancelled)
    ensures var r := Step(b, p, e, cancelled, now); SizeInv(r.box, r.pass, since)
  {
    match e
    case Scanned(k) => SizeScanned(b, p, since, k, cancelled, now);
    case Answered(a) => SizeAnswered(b, p, since, a, cancelled, now);
    case Settle => SizeSettle(b, p, since, faulted, cancelled, now);
    case Isolate(ok) => SizeQuiet(b, p, e, since, cancelled, now);
    case Inspect => SizeQuiet(b, p, e, since, cancelled, now);
    case Purge(_) => SizeQuiet(b, p, e, since, cancelled, now);
    case Reject(_) => SizeQuiet(b, p, e, since, cancelled, now);
    case _ =>
  }

  lemma {:induction false} SizeQuiet(b: Box, p: Pass, e: Event, since: nat, cancelled: bool, now: nat)
    requires SizeInv(b, p, since) && Enabled(p, e, cancelled)
    requires e.Isolate? || e.Inspect? || e.Purge? || e.Reject?
    ensures var r := Step(b, p, e, cancelled, now); SizeInv(r.box, r.pass, since)
  {
  }

  lemma {:induction false} SizeLived(w: D.World, e: D.Event, now: nat, since: nat, faulted: bool, w': D.World)
    requires D.Enabled(w, e) && !e.Die? && w' == D.Step(w, e, now) && QuarantineInv(w.box, w.pass)
    requires CauseInv(w.box, w.pass, since, faulted) && SizeInv(w.box, w.pass, since)
    ensures SizeInv(w'.box, w'.pass, if e.Enter? then |w.box.posts| else since)
  {
    if e.Work? {
      SizeStep(w.box, w.pass, e.p, since, faulted, D.Cancelled(w), now);
    }
  }

  // A pass reads fewer than BATCH_SIZE rows at a time only if, since it began or a target last took a batch
  // of it, a round of its requests called for less.
  lemma {:induction false} SmallWindowHasCause(h: seq<D.Event>, w: D.World)
    requires D.After(h) == Some(w)
    ensures SizeInv(w.box, w.pass, SentBefore(h))
    ensures WindowSize(w.pass) != BATCH_SIZE ==> Shrunk(w.box.posts, LastTaken(w.box.posts, SentBefore(h)))
  {
    if h != [] {
      var before, e := h[..|h| - 1], h[|h| - 1];
      var v := D.After(before).value;
      SmallWindowHasCause(before, v);
      if !e.Die? {
        BoxHistory(before, v, Capture("", Garbage("")));
        CauseHistory(before, v);
        SizeLived(v, e, |h| - 1, SentBefore(before), Faulted(before), w);
      }
    }
  }

  // The decision after a round, over all histories.
  lemma {:induction false} AnswersDecide(h: seq<D.Event>, w: D.World)
    requires D.After(h) == Some(w) && w.pass.Settling? && !w.pass.interrupted && !D.Cancelled(w)
    requires D.Enabled(w, D.Work(Settle))
    ensures Sent(w.box.posts, w.pass.batch, w.pass.n, w.pass.n)
    ensures SettledAsAnswered(w.box.posts, w.pass.batch, w.pass.n, D.Step(w, D.Work(Settle), |h|).pass)
  {
    BoxHistory(h, w, Capture("", Garbage("")));
    SettledByAnswers(w.box, w.pass, false, |h|);
  }
}
