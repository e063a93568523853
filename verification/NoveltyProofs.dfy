// The novelty gate over whole runs.
module NoveltyProofs {
  import opened Commons
  import opened TextNormal
  import opened Surprisal
  import Runs = NoveltyRuns

  datatype Capture = Capture(package: string, text: string, at: int)

  // The history of every package after a run.
  function Run(g: Gate, h: seq<Capture>): Recent {
    if h == [] then map[]
    else
      var m, c := Run(g, h[..|h| - 1]), h[|h| - 1];
      m[c.package := Next(g, Held(m, c.package), c.text, c.at)]
  }

  // What the gate answers to capture c after a run.
  predicate Accepts(g: Gate, h: seq<Capture>, c: Capture) {
    Novel(g, PruneOld(Held(Run(g, h), c.package), c.at), c.text)
  }

  // The accepted captures of a package, in order.
  function Accepted(g: Gate, h: seq<Capture>, package: string): seq<Capture> {
    if h == [] then []
    else
      var before, c := h[..|h| - 1], h[|h| - 1];
      var acc := Accepted(g, before, package);
      if c.package == package && Accepts(g, before, c) then acc + [c] else acc
  }

  // The clock does not go back.
  predicate Monotone(h: seq<Capture>) {
    forall i, j :: 0 <= i <= j < |h| ==> h[i].at <= h[j].at
  }

  predicate TimeOrder(acc: seq<Capture>, now: int) {
    (forall i, j :: 0 <= i <= j < |acc| ==> acc[i].at <= acc[j].at) && (forall i :: 0 <= i < |acc| ==> acc[i].at <= now)
  }

  function Entries(g: Gate, acc: seq<Capture>): (es: seq<HistoryEntry>)
    ensures |es| == |acc|
  {
    seq(|acc|, i requires 0 <= i < |acc| => EntryOf(g, acc[i].text, acc[i].at))
  }

  // The package holds its last accepted captures; one it no longer holds is too old, or has at least
  // HISTORY_PER_PACKAGE accepted ones behind it.
  predicate HoldsLast(g: Gate, held: seq<HistoryEntry>, acc: seq<Capture>, now: int) {
    && |held| <= |acc| && |held| <= HISTORY_PER_PACKAGE
    && held == Entries(g, acc)[|acc| - |held|..]
    && forall a :: 0 <= a < |acc| - |held| ==> now - acc[a].at >= DEDUPE_WINDOW_MS || |acc| - a > HISTORY_PER_PACKAGE
  }

  predicate ByTime(es: seq<HistoryEntry>) {
    forall i, j :: 0 <= i <= j < |es| ==> es[i].at <= es[j].at
  }

  predicate AllOld(es: seq<HistoryEntry>, now: int) {
    forall i :: 0 <= i < |es| ==> now - es[i].at >= DEDUPE_WINDOW_MS
  }

  lemma {:induction false} PruneAll(es: seq<HistoryEntry>, now: int)
    requires AllOld(es, now)
    ensures PruneOld(es, now) == []
  {
    if es != [] {
      PruneAll(es[..|es| - 1], now);
    }
  }

  lemma {:induction false} AllOldIfLast(es: seq<HistoryEntry>, now: int)
    requires ByTime(es) && es != [] && now - es[|es| - 1].at >= DEDUPE_WINDOW_MS
    ensures AllOld(es, now)
  {
    forall i | 0 <= i < |es|
      ensures now - es[i].at >= DEDUPE_WINDOW_MS
    {
      assert es[i].at <= es[|es| - 1].at;
    }
  }

  // Pruning a list in time order drops a prefix.
  lemma {:induction false} PruneDropsPrefix(es: seq<HistoryEntry>, now: int) returns (k: nat)
    requires ByTime(es)
    ensures k <= |es| && PruneOld(es, now) == es[k..] && AllOld(es[..k], now)
  {
    if es == [] {
      k := 0;
    } else if now - es[|es| - 1].at >= DEDUPE_WINDOW_MS {
      k := |es|;
      AllOldIfLast(es, now);
      assert es[..k] == es;
      PruneAll(es, now);
    } else {
      var front, z := es[..|es| - 1], es[|es| - 1];
      k := PruneDropsPrefix(front, now);
      assert front[k..] + [z] == es[k..] && front[..k] == es[..k];
    }
  }

  lemma {:induction false} HeldTimes(g: Gate, held: seq<HistoryEntry>, acc: seq<Capture>, now: int)
    requires HoldsLast(g, held, acc, now)
    ensures forall i :: 0 <= i < |held| ==> held[i].at == acc[|acc| - |held| + i].at
    ensures TimeOrder(acc, now) ==> ByTime(held)
  {
    forall i | 0 <= i < |held|
      ensures held[i].at == acc[|acc| - |held| + i].at
    {
      assert held[i] == Entries(g, acc)[|acc| - |held| + i];
    }
  }

  // Pruning when the next capture comes.
  lemma {:induction false} HoldsPruned(g: Gate, held: seq<HistoryEntry>, acc: seq<Capture>, now: int)
    requires HoldsLast(g, held, acc, now) && TimeOrder(acc, now)
    ensures HoldsLast(g, PruneOld(held, now), acc, now)
  {
    var off := |acc| - |held|;
    HeldTimes(g, held, acc, now);
    var k := PruneDropsPrefix(held, now);
    assert Entries(g, acc)[off..][k..] == Entries(g, acc)[off + k..];
    forall a | off <= a < off + k
      ensures now - acc[a].at >= DEDUPE_WINDOW_MS
    {
      assert held[..k][a - off].at == acc[a].at;
    }
  }

  lemma {:induction false} HoldsAccepted(g: Gate, held: seq<HistoryEntry>, acc: seq<Capture>, c: Capture)
    requires HoldsLast(g, held, acc, c.at)
    ensures HoldsLast(g, Last(held + [EntryOf(g, c.text, c.at)], HISTORY_PER_PACKAGE), acc + [c], c.at)
  {
    var r := Last(held + [EntryOf(g, c.text, c.at)], HISTORY_PER_PACKAGE);
    var acc' := acc + [c];
    assert Entries(g, acc') == Entries(g, acc) + [EntryOf(g, c.text, c.at)];
    assert held + [EntryOf(g, c.text, c.at)] == Entries(g, acc')[|acc| - |held|..];
    assert r == Entries(g, acc')[|acc'| - |r|..];
  }

  lemma {:induction false} TimeOrderMore(acc: seq<Capture>, c: Capture)
    requires TimeOrder(acc, c.at)
    ensures TimeOrder(acc + [c], c.at)
  {
  }

  lemma {:induction false} HoldsNext(g: Gate, held: seq<HistoryEntry>, acc: seq<Capture>, c: Capture)
    requires HoldsLast(g, held, acc, c.at) && TimeOrder(acc, c.at)
    ensures var acc' := if Novel(g, PruneOld(held, c.at), c.text) then acc + [c] else acc;
            HoldsLast(g, Next(g, held, c.text, c.at), acc', c.at) && TimeOrder(acc', c.at)
  {
    HoldsPruned(g, held, acc, c.at);
    if Novel(g, PruneOld(held, c.at), c.text) {
      HoldsAccepted(g, PruneOld(held, c.at), acc, c);
      TimeOrderMore(acc, c);
    }
  }

  // One package on its own: what it holds, and what was accepted.
  datatype Track = Track(held: seq<HistoryEntry>, accepted: seq<Capture>)

  function Follow(g: Gate, h: seq<Capture>, package: string): Track {
    if h == [] then Track([], [])
    else
      var t, c := Follow(g, h[..|h| - 1], package), h[|h| - 1];
      if c.package != package then t
      else
        Track(Next(g, t.held, c.text, c.at),
              if Novel(g, PruneOld(t.held, c.at), c.text) then t.accepted + [c] else t.accepted)
  }

  lemma {:induction false} FollowIs(g: Gate, h: seq<Capture>, package: string)
    ensures Follow(g, h, package) == Track(Held(Run(g, h), package), Accepted(g, h, package))
  {
    if h != [] {
      FollowIs(g, h[..|h| - 1], package);
    }
  }

  predicate TrackInv(g: Gate, t: Track, now: int) {
    HoldsLast(g, t.held, t.accepted, now) && TimeOrder(t.accepted, now)
  }

  lemma {:induction false} FollowHolds(g: Gate, h: seq<Capture>, package: string, now: int)
    requires Monotone(h) && (h != [] ==> h[|h| - 1].at <= now)
    ensures TrackInv(g, Follow(g, h, package), now)
  {
    if h != [] {
      var before, c := h[..|h| - 1], h[|h| - 1];
      var t := Follow(g, before, package);
      FollowHolds(g, before, package, c.at);
      HoldsNext(g, t.held, t.accepted, c);
      var t' := Follow(g, h, package);
      HoldsLater(g, t'.held, t'.accepted, c.at, now);
    }
  }

  lemma {:induction false} RunHolds(g: Gate, h: seq<Capture>, package: string, now: int)
    requires Monotone(h) && (h != [] ==> h[|h| - 1].at <= now)
    ensures HoldsLast(g, Held(Run(g, h), package), Accepted(g, h, package), now)
    ensures TimeOrder(Accepted(g, h, package), now)
  {
    FollowIs(g, h, package);
    FollowHolds(g, h, package, now);
  }

  lemma {:induction false} HoldsLater(g: Gate, held: seq<HistoryEntry>, acc: seq<Capture>, then': int, now: int)
    requires HoldsLast(g, held, acc, then') && TimeOrder(acc, then') && then' <= now
    ensures HoldsLast(g, held, acc, now) && TimeOrder(acc, now)
  {
  }

  // ---------- The same text twice ----------

  // What the gate makes of the next capture.
  function NextMark(g: Gate, h: seq<Capture>, c: Capture): Runs.Mark {
    Runs.Mark(c.package, Accepts(g, h, c), EntryOf(g, c.text, c.at))
  }

  function Marks(g: Gate, h: seq<Capture>): (ms: seq<Runs.Mark>)
    ensures |ms| == |h|
  {
    if h == [] then [] else Marks(g, h[..|h| - 1]) + [NextMark(g, h[..|h| - 1], h[|h| - 1])]
  }

  // Where in a run the accepted captures of a package are.
  function Places(g: Gate, h: seq<Capture>, package: string): (ps: seq<nat>)
    ensures forall r :: 0 <= r < |ps| ==> ps[r] < |h|
  {
    Runs.Places(Marks(g, h), package)
  }

  lemma {:induction false} MarksAre(g: Gate, h: seq<Capture>, package: string)
    ensures Runs.HeldBy(Marks(g, h), package) == Held(Run(g, h), package)
  {
    if h != [] {
      var before, c := h[..|h| - 1], h[|h| - 1];
      MarksAre(g, before, package);
      var held, ps := Held(Run(g, before), package), Places(g, before, package);
      Runs.RunMore(Marks(g, before), NextMark(g, before, c), package, held, ps);
      HeldMore(g, before, c, package);
    }
  }

  lemma {:induction false} HeldMore(g: Gate, before: seq<Capture>, c: Capture, package: string)
    ensures var held := Held(Run(g, before), package);
            Held(Run(g, before)[c.package := Next(g, Held(Run(g, before), c.package), c.text, c.at)], package) ==
            if c.package != package then held
            else if Accepts(g, before, c) then Last(PruneOld(held, c.at) + [EntryOf(g, c.text, c.at)], HISTORY_PER_PACKAGE)
            else PruneOld(held, c.at)
  {
  }

  lemma {:induction false} MarkOf(g: Gate, h: seq<Capture>, i: nat)
    requires i < |h|
    ensures Marks(g, h)[i].package == h[i].package && Marks(g, h)[i].entry == EntryOf(g, h[i].text, h[i].at)
  {
    if i < |h| - 1 {
      MarkOf(g, h[..|h| - 1], i);
    }
  }

  lemma {:induction false} MarksRefuse(g: Gate, h: seq<Capture>)
    ensures Runs.Refusing(Marks(g, h))
  {
    if h != [] {
      var before, c := h[..|h| - 1], h[|h| - 1];
      MarksRefuse(g, before);
      MarksAre(g, before, c.package);
      Runs.RefusingMore(Marks(g, before), NextMark(g, before, c));
    }
  }

  // Capture q, or one of the package between p and q, came when p had left the window.
  predicate LeftBy(h: seq<Capture>, package: string, p: nat, q: nat) {
    p < q < |h| && exists k :: p < k <= q && h[k].package == package && h[k].at - h[p].at >= DEDUPE_WINDOW_MS
  }

  // Two captures of a package with the same normalized text are both accepted only if the first had left
  // the window when the second, or some capture of the package in between, came, or at least
  // HISTORY_PER_PACKAGE others of the package were accepted in between. The clock may go back.
  lemma {:induction false} SameTextTwice(g: Gate, h: seq<Capture>, package: string, ps: seq<nat>, a: nat, b: nat)
    requires ps == Places(g, h, package) && a < b < |ps|
    requires Normalize(h[ps[a]].text) == Normalize(h[ps[b]].text)
    ensures LeftBy(h, package, ps[a], ps[b]) || b - a - 1 >= HISTORY_PER_PACKAGE
  {
    var ms := Marks(g, h);
    MarksAre(g, h, package);
    MarksRefuse(g, h);
    MarkOf(g, h, ps[a]);
    MarkOf(g, h, ps[b]);
    Runs.SameHashTwice(ms, package, a, b);
    if k :| ps[a] < k <= ps[b] && Runs.LeftWindow(ms, package, ps[a], k) {
      MarkOf(g, h, k);
    }
  }

  // ---------- Entries held together ----------

  predicate Apart(g: Gate, es: seq<HistoryEntry>) {
    forall i, j :: 0 <= i < j < |es| ==> Similarity(es[i].tokens, es[j].tokens) < g.threshold
  }

  lemma {:induction false} MaxIsMax(tokens: set<string>, es: seq<HistoryEntry>, i: nat)
    requires i < |es|
    ensures Similarity(tokens, es[i].tokens) <= MaxSimilarity(tokens, es)
  {
    if i < |es| - 1 {
      MaxIsMax(tokens, es[..|es| - 1], i);
    }
  }

  lemma {:induction false} PruneApart(g: Gate, es: seq<HistoryEntry>, now: int)
    requires Apart(g, es)
    ensures Apart(g, PruneOld(es, now))
  {
    if es != [] {
      var front, z := es[..|es| - 1], es[|es| - 1];
      PruneApart(g, front, now);
      var r := PruneOld(front, now);
      PruneMembers(front, now);
      forall i | 0 <= i < |r|
        ensures Similarity(r[i].tokens, z.tokens) < g.threshold
      {
        assert r[i] in front;
      }
    }
  }

  lemma {:induction false} NextApart(g: Gate, held: seq<HistoryEntry>, text: string, now: int)
    requires Apart(g, held)
    ensures Apart(g, Next(g, held, text, now))
  {
    var es, e := PruneOld(held, now), EntryOf(g, text, now);
    PruneApart(g, held, now);
    if Novel(g, es, text) {
      forall i | 0 <= i < |es|
        ensures Similarity(es[i].tokens, e.tokens) < g.threshold
      {
        MaxIsMax(e.tokens, es, i);
        SimilaritySymmetric(es[i].tokens, e.tokens);
      }
      assert Apart(g, es + [e]);
    }
  }

  lemma {:induction false} RunApart(g: Gate, h: seq<Capture>, package: string)
    ensures Apart(g, Held(Run(g, h), package))
  {
    if h != [] {
      RunApart(g, h[..|h| - 1], package);
      NextApart(g, Held(Run(g, h[..|h| - 1]), package), h[|h| - 1].text, h[|h| - 1].at);
    }
  }

  // ---------- The threshold in numbers of tokens ----------

  // The two sets have at least this share of their tokens in common; two empty sets have all of them.
  predicate Alike(a: set<string>, b: set<string>, share: real) {
    if a + b == {} then share <= 1.0 else |a * b| as real >= share * |a + b| as real
  }

  lemma {:induction false} RatioReaches(n: nat, d: nat, share: real)
    requires n <= d && d > 0
    ensures Ratio(n, d) >= share <==> n as real >= share * d as real
  {
    var r := Ratio(n, d);
    assert r * d as real == n as real;
    if r >= share {
      TimesPositive(share, r, d as real);
    } else {
      TimesPositive(r, share, d as real);
      assert r * d as real != share * d as real;
    }
  }

  lemma {:induction false} TimesPositive(x: real, y: real, z: real)
    requires x <= y && z > 0.0
    ensures x * z <= y * z && (x < y ==> x * z < y * z)
  {
    assert (y - x) * z >= 0.0;
    assert x < y ==> (y - x) * z > 0.0;
  }

  lemma {:induction false} AlikeIsSimilar(a: set<string>, b: set<string>, share: real)
    ensures Alike(a, b, share) <==> Similarity(a, b) >= share
  {
    if a != {} && b != {} {
      SizesOf(a, b);
      RatioReaches(|a * b|, |a + b|, share);
    } else if a + b != {} {
      NoneInCommon(a, b, share);
    }
  }

  lemma {:induction false} NoneInCommon(a: set<string>, b: set<string>, share: real)
    requires (a == {} || b == {}) && a + b != {}
    ensures Alike(a, b, share) <==> 0.0 >= share
  {
    assert a * b == {} && |a + b| > 0;
    RatioReaches(0, |a + b|, share);
  }

  // Any two entries a package holds have less than the threshold of their tokens in common.
  lemma {:induction false} HeldApart(g: Gate, h: seq<Capture>, package: string, i: nat, j: nat)
    requires i < j < |Held(Run(g, h), package)|
    ensures var es := Held(Run(g, h), package);
            !Alike(es[i].tokens, es[j].tokens, g.threshold)
  {
    var es := Held(Run(g, h), package);
    RunApart(g, h, package);
    AlikeIsSimilar(es[i].tokens, es[j].tokens, g.threshold);
  }

  // An entry that is still in the window and speaks against the text: it has its hash, or too many tokens
  // in common with it.
  predicate Against(g: Gate, e: HistoryEntry, text: string) {
    e.hash == g.hashOf(Normalize(text)) || Alike(g.tokenize(Normalize(text)), e.tokens, g.threshold)
  }

  lemma {:induction false} MaxReaches(tokens: set<string>, es: seq<HistoryEntry>, share: real)
    requires 0.0 < share
    ensures MaxSimilarity(tokens, es) >= share <==> exists e :: e in es && Alike(tokens, e.tokens, share)
  {
    if es != [] {
      var front, z := es[..|es| - 1], es[|es| - 1];
      MaxReaches(tokens, front, share);
      AlikeIsSimilar(tokens, z.tokens, share);
      assert forall e :: e in es <==> e in front || e == z;
    }
  }

  lemma {:induction false} NovelExactly(g: Gate, es: seq<HistoryEntry>, text: string)
    ensures Novel(g, es, text) <==> 0.0 < g.threshold && forall e :: e in es ==> !Against(g, e, text)
  {
    var tokens := g.tokenize(Normalize(text));
    NeverNegative(tokens, es);
    if 0.0 < g.threshold {
      MaxReaches(tokens, es, g.threshold);
    }
  }

  lemma {:induction false} NeverNegative(tokens: set<string>, es: seq<HistoryEntry>)
    ensures 0.0 <= MaxSimilarity(tokens, es)
  {
    if es != [] {
      NeverNegative(tokens, es[..|es| - 1]);
    }
  }

  // A capture is accepted exactly if the threshold is positive and no entry its package still has in the
  // window has its hash or at least the threshold of their tokens in common with it.
  lemma {:induction false} AcceptedExactly(g: Gate, h: seq<Capture>, c: Capture)
    ensures Accepts(g, h, c) <==>
              0.0 < g.threshold &&
              forall e :: e in Held(Run(g, h), c.package) && c.at - e.at < DEDUPE_WINDOW_MS ==> !Against(g, e, c.text)
  {
    var held := Held(Run(g, h), c.package);
    PruneMembers(held, c.at);
    NovelExactly(g, PruneOld(held, c.at), c.text);
  }

  // ---------- The hash shortcut ----------

  // The gate without the hash check.
  predicate NovelByTokens(g: Gate, es: seq<HistoryEntry>, text: string) {
    MaxSimilarity(g.tokenize(Normalize(text)), es) < g.threshold
  }

  // No capture of the package so far has a different text of the same hash.
  predicate NoCollision(g: Gate, h: seq<Capture>, c: Capture) {
    forall k :: 0 <= k < |h| && h[k].package == c.package &&
                g.hashOf(Normalize(h[k].text)) == g.hashOf(Normalize(c.text)) ==>
      Normalize(h[k].text) == Normalize(c.text)
  }

  // Every entry that is held comes from a capture of the package.
  lemma {:induction false} HeldFrom(g: Gate, h: seq<Capture>, package: string, e: HistoryEntry) returns (k: nat)
    requires e in Held(Run(g, h), package)
    ensures k < |h| && h[k].package == package && e == EntryOf(g, h[k].text, h[k].at)
  {
    MarksAre(g, h, package);
    k := Runs.HeldFrom(Marks(g, h), package, e);
    MarkOf(g, h, k);
  }

  // If the threshold is at most 1 and no earlier capture of the package has another text of the same hash,
  // the hash check does not change the answer.
  lemma {:induction false} HashAgrees(g: Gate, h: seq<Capture>, c: Capture)
    requires g.threshold <= 1.0 && NoCollision(g, h, c)
    ensures Accepts(g, h, c) <==> NovelByTokens(g, PruneOld(Held(Run(g, h), c.package), c.at), c.text)
  {
    var held := Held(Run(g, h), c.package);
    var es := PruneOld(held, c.at);
    var n := Normalize(c.text);
    PruneMembers(held, c.at);
    if HasHash(es, g.hashOf(n)) {
      var e :| e in es && e.hash == g.hashOf(n);
      var k := HeldFrom(g, h, c.package, e);
      var i :| 0 <= i < |es| && es[i] == e;
      MaxIsMax(g.tokenize(n), es, i);
    }
  }

  // With a threshold above 1 it does: a text seen a moment ago is refused by its hash alone.
  lemma {:induction false} HashDisagrees(g: Gate, c: Capture)
    requires g.threshold > 1.0
    ensures var es := PruneOld(Held(Run(g, [c]), c.package), c.at);
            !Accepts(g, [c], c) && NovelByTokens(g, es, c.text)
  {
    assert [c][..0] == [];
    var e := EntryOf(g, c.text, c.at);
    FirstIsNovel(g, c);
    assert Held(Run(g, [c]), c.package) == [e];
    assert [e][..0] == [];
    assert PruneOld([e], c.at) == [e];
    assert e in [e];
    assert MaxSimilarity(e.tokens, [e]) == Max(MaxSimilarity(e.tokens, []), Similarity(e.tokens, e.tokens));
  }

  lemma {:induction false} FirstIsNovel(g: Gate, c: Capture)
    requires g.threshold > 0.0
    ensures Next(g, [], c.text, c.at) == [EntryOf(g, c.text, c.at)]
  {
    assert PruneOld([], c.at) == [];
    assert MaxSimilarity(g.tokenize(Normalize(c.text)), []) == 0.0;
    assert [] + [EntryOf(g, c.text, c.at)] == [EntryOf(g, c.text, c.at)];
  }
}
