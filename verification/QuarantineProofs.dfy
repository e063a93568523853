// A row is quarantined only for a reason that is its own.
module QuarantineProofs {
  import opened Outbox
  import opened BatchReader
  import opened FlushPass

  // The n requests before position `at` carried this row alone, one to each of n targets, and every
  // target gave an answer of this kind.
  predicate RefusedEverywhere(posts: seq<Post>, at: nat, n: nat, row: Row, kind: Answer -> bool) {
    && 0 < n <= at <= |posts|
    && forall j :: at - n <= j < at ==>
         posts[j].body == [row] && posts[j].target == j - (at - n) && posts[j].of == n && kind(posts[j].answer)
  }

  ghost predicate Justified(posts: seq<Post>, x: Isolated) {
    && x.after <= |posts|
    && match x.reason
       case CorruptJson => x.row.capture.payload.Garbage?
       case MissingFields => x.row.capture.payload.Json? && !x.row.capture.payload.complete
       case Oversized =>
         x.row.capture.payload.Json? && x.row.capture.payload.complete && |Body([x.row])| > MAX_BATCH_BYTES
       case TooLargeEverywhere => exists n :: RefusedEverywhere(posts, x.after, n, x.row, TooLarge)
       case InvalidEverywhere => exists n :: RefusedEverywhere(posts, x.after, n, x.row, Invalid)
  }

  ghost predicate AllJustified(b: Box) {
    forall i :: 0 <= i < |b.isolated| ==> Justified(b.posts, b.isolated[i])
  }

  // The last i requests carried the batch, one to each of the first i of n targets, and none of them took it.
  predicate Sent(posts: seq<Post>, batch: seq<Row>, i: nat, n: nat) {
    && i <= |posts|
    && forall j :: |posts| - i <= j < |posts| ==>
         && posts[j].body == batch && posts[j].target == j - (|posts| - i) && posts[j].of == n
         && !Accepted(posts[j].answer)
  }

  predicate SomeAnswered(posts: seq<Post>, i: nat, kind: Answer -> bool) {
    i <= |posts| && exists j :: |posts| - i <= j < |posts| && kind(posts[j].answer)
  }

  predicate AllAnswered(posts: seq<Post>, i: nat, kind: Answer -> bool) {
    i <= |posts| && forall j :: |posts| - i <= j < |posts| ==> kind(posts[j].answer)
  }

  // Whether any and whether all of the last i answers were of a kind can be told from their count.
  predicate CountMeans(posts: seq<Post>, i: nat, count: nat, kind: Answer -> bool) {
    count <= i && (0 < count <==> SomeAnswered(posts, i, kind)) && (count == i <==> AllAnswered(posts, i, kind))
  }

  // What has been sent and answered so far in the round of a batch.
  predicate RoundInv(posts: seq<Post>, batch: seq<Row>, i: nat, n: nat, large: nat, invalid: nat) {
    && Sent(posts, batch, i, n)
    && CountMeans(posts, i, large, TooLarge) && CountMeans(posts, i, invalid, Invalid)
  }

  predicate BadFound(bad: seq<Bad>) {
    forall x :: x in bad ==> !Sendable(x.row) && x.reason == Defect(x.row)
  }

  predicate PassInv(b: Box, p: Pass) {
    match p
    case Isolating(_, _, _, bad, _, _) => BadFound(bad)
    case Sending(n, _, batch, i, large, invalid, _) =>
      i < n && batch != [] && RoundInv(b.posts, batch, i, n, large, invalid)
    case Settling(n, _, batch, large, invalid, interrupted) =>
      !interrupted ==> 0 < n && batch != [] && RoundInv(b.posts, batch, n, n, large, invalid)
    case Rejecting(n, _, row, reason) =>
      || (reason == TooLargeEverywhere && RefusedEverywhere(b.posts, |b.posts|, n, row, TooLarge))
      || (reason == InvalidEverywhere && RefusedEverywhere(b.posts, |b.posts|, n, row, Invalid))
    case Reading(n, _) => 0 < n
    case Window(n, _, _, _) => 0 < n
    case Returned(n, _, _, _, _, _) => 0 < n
    case Purging(n, _) => 0 < n
    case _ => true
  }

  ghost predicate QuarantineInv(b: Box, p: Pass) {
    AllJustified(b) && PassInv(b, p) && (p.Isolating? ==> 0 < p.n) && (p.Rejecting? ==> 0 < p.n)
  }

  // More requests do not undo a justification.
  lemma {:induction false} StillJustified(posts: seq<Post>, more: seq<Post>, x: Isolated)
    requires Justified(posts, x)
    ensures Justified(posts + more, x)
  {
    if x.reason == TooLargeEverywhere {
      var n :| RefusedEverywhere(posts, x.after, n, x.row, TooLarge);
      assert RefusedEverywhere(posts + more, x.after, n, x.row, TooLarge);
    } else if x.reason == InvalidEverywhere {
      var n :| RefusedEverywhere(posts, x.after, n, x.row, Invalid);
      assert RefusedEverywhere(posts + more, x.after, n, x.row, Invalid);
    }
  }

  lemma {:induction false} OneMoreIsolated(b: Box, row: Row, reason: Reason, ok: bool)
    requires AllJustified(b) && Justified(b.posts, Isolated(row, reason, |b.posts|))
    ensures AllJustified(Isolation(b, row, reason, ok))
  {
  }

  lemma {:induction false} BadIsJustified(posts: seq<Post>, row: Row)
    requires !Sendable(row)
    ensures Justified(posts, Isolated(row, Defect(row), |posts|))
  {
    assert Total([row]) == Size(row) by {
      assert [row][..0] == [];
    }
    JoinedLength([row]);
  }

  lemma {:induction false} CountOneMore(posts: seq<Post>, post: Post, i: nat, count: nat, kind: Answer -> bool)
    requires CountMeans(posts, i, count, kind) && i <= |posts|
    ensures CountMeans(posts + [post], i + 1, if kind(post.answer) then count + 1 else count, kind)
  {
    var more := posts + [post];
    assert more[|posts|] == post && forall j :: 0 <= j < |posts| ==> more[j] == posts[j];
    if SomeAnswered(posts, i, kind) {
      var j :| |posts| - i <= j < |posts| && kind(posts[j].answer);
      assert kind(more[j].answer);
    }
  }

  lemma {:induction false} StillAllJustified(b: Box, b': Box, post: Post)
    requires AllJustified(b) && b'.posts == b.posts + [post] && b'.isolated == b.isolated
    ensures AllJustified(b')
  {
    forall i | 0 <= i < |b'.isolated|
      ensures Justified(b'.posts, b'.isolated[i])
    {
      StillJustified(b.posts, [post], b.isolated[i]);
    }
  }

  lemma {:induction false} RoundOneMore(posts: seq<Post>, batch: seq<Row>, i: nat, n: nat, large: nat, invalid: nat,
                                        a: Answer, posts': seq<Post>, i': nat, large': nat, invalid': nat)
    requires RoundInv(posts, batch, i, n, large, invalid) && !Accepted(a)
    requires posts' == posts + [Post(batch, i, n, a)] && i' == i + 1
    requires large' == (if TooLarge(a) then large + 1 else large) && invalid' == if Invalid(a) then invalid + 1 else invalid
    ensures RoundInv(posts', batch, i', n, large', invalid')
  {
    var post := Post(batch, i, n, a);
    CountOneMore(posts, post, i, large, TooLarge);
    CountOneMore(posts, post, i, invalid, Invalid);
    SentOneMore(posts, batch, i, n, a);
  }

  lemma {:induction false} PassAnswered(b: Box, p: Pass, a: Answer, b': Box, q: Pass)
    requires PassInv(b, p) && p.Sending? && q == AfterAnswer(p, a)
    requires b'.posts == b.posts + [Post(p.batch, p.i, p.n, a)]
    ensures PassInv(b', q)
  {
    if !Accepted(a) {
      RoundOneMore(b.posts, p.batch, p.i, p.n, p.large, p.invalid, a, b'.posts,
                   if q.Sending? then q.i else q.n, q.large, q.invalid);
    }
  }

  lemma {:induction false} QuarantineAnswered(b: Box, p: Pass, a: Answer, cancelled: bool, now: nat)
    requires QuarantineInv(b, p) && Enabled(p, Answered(a), cancelled)
    ensures var r := Step(b, p, Answered(a), cancelled, now); QuarantineInv(r.box, r.pass)
  {
    var r := Step(b, p, Answered(a), cancelled, now);
    StillAllJustified(b, r.box, Post(p.batch, p.i, p.n, a));
    PassAnswered(b, p, a, r.box, r.pass);
  }

  lemma {:induction false} SentOneMore(posts: seq<Post>, batch: seq<Row>, i: nat, n: nat, a: Answer)
    requires Sent(posts, batch, i, n) && !Accepted(a)
    ensures Sent(posts + [Post(batch, i, n, a)], batch, i + 1, n)
  {
  }

  lemma {:induction false} RefusedBySettling(posts: seq<Post>, batch: seq<Row>, n: nat, kind: Answer -> bool)
    requires 0 < n && |batch| == 1 && Sent(posts, batch, n, n) && AllAnswered(posts, n, kind)
    ensures RefusedEverywhere(posts, |posts|, n, batch[0], kind)
  {
    assert batch == [batch[0]];
  }

  lemma {:induction false} QuarantineSettle(b: Box, p: Pass, cancelled: bool, now: nat)
    requires QuarantineInv(b, p) && p.Settling?
    ensures QuarantineInv(b, Settled(p, cancelled, now))
  {
    var q := Settled(p, cancelled, now);
    if q.Rejecting? {
      RefusedBySettling(b.posts, p.batch, p.n, if q.reason == TooLargeEverywhere then TooLarge else Invalid);
    }
  }

  lemma {:induction false} QuarantineStep(b: Box, p: Pass, e: Event, cancelled: bool, now: nat)
    requires QuarantineInv(b, p) && Enabled(p, e, cancelled)
    ensures var r := Step(b, p, e, cancelled, now); QuarantineInv(r.box, r.pass)
  {
    match e
    case Scanned(k) => QuarantineScanned(b, p, k, cancelled, now);
    case Isolate(ok) =>
      BadIsJustified(b.posts, p.bad[0].row);
      OneMoreIsolated(b, p.bad[0].row, p.bad[0].reason, ok);
    case Answered(a) => QuarantineAnswered(b, p, a, cancelled, now);
    case Settle => QuarantineSettle(b, p, cancelled, now);
    case Reject(ok) =>
      OneMoreIsolated(b, p.row, p.reason, ok);
    case _ =>
  }

  lemma {:induction false} QuarantineScanned(b: Box, p: Pass, k: nat, cancelled: bool, now: nat)
    requires QuarantineInv(b, p) && Enabled(p, Scanned(k), cancelled)
    ensures var r := Step(b, p, Scanned(k), cancelled, now); QuarantineInv(r.box, r.pass)
  {
    var m := ReadIsPrefix(p.rows[..k]);
  }
}
