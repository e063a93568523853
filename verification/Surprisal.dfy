// surprisal.ts: the novelty gate. Hashing and tokenizing are parameters; both see only normalized text.
module Surprisal {
  import opened Commons
  import opened TextNormal

  const DEDUPE_WINDOW_MS := 15 * 60 * 1000
  const HISTORY_PER_PACKAGE := 15

  datatype HistoryEntry = HistoryEntry(hash: string, tokens: set<string>, at: int)

  // The configured threshold, and what the gate computes from a normalized text.
  datatype Gate = Gate(threshold: real, hashOf: string -> string, tokenize: string -> set<string>)

  type Recent = map<string, seq<HistoryEntry>>

  // ---------- Similarity ----------

  function Similarity(a: set<string>, b: set<string>): (r: real)
    ensures 0.0 <= r <= 1.0
    ensures r == 1.0 <==> a == b
    ensures if a + b == {} then r == 1.0 else r * |a + b| as real == |a * b| as real
  {
    if a == {} && b == {} then 1.0
    else if a == {} || b == {} then assert a * b == {}; 0.0
    else
      SizesOf(a, b);
      Ratio(|a * b|, |a + b|)
  }

  function Ratio(n: nat, d: nat): (r: real)
    requires n <= d && d > 0
    ensures 0.0 <= r <= 1.0 && (r == 1.0 <==> n == d) && r * d as real == n as real
  {
    n as real / d as real
  }

  lemma {:induction false} SizesOf(a: set<string>, b: set<string>)
    ensures |a * b| <= |a + b| && |a + b| == |a| + |b| - |a * b|
    ensures a != {} ==> |a + b| > 0
    ensures |a * b| == |a + b| <==> a == b
  {
    SubsetSize(a * b, a + b);
    if a != {} {
      SubsetSize(a, a + b);
      assert |a| > 0;
    }
    if |a * b| == |a + b| {
      SameSize(a * b, a + b);
      assert a == a * b && b == a * b;
    }
    assert a == b ==> a * b == a && a + b == a;
  }

  lemma {:induction false} SubsetSize(a: set<string>, b: set<string>)
    requires a <= b
    ensures |a| <= |b|
  {
    if a != {} {
      var x :| x in a;
      SubsetSize(a - {x}, b - {x});
    }
  }

  lemma {:induction false} SameSize(a: set<string>, b: set<string>)
    requires a <= b && |a| == |b|
    ensures a == b
  {
    if a != b {
      var x :| x in b && x !in a;
      SubsetSize(a, b - {x});
    }
  }

  lemma {:induction false} SimilaritySymmetric(a: set<string>, b: set<string>)
    ensures Similarity(a, b) == Similarity(b, a)
  {
    assert a * b == b * a && a + b == b + a;
  }

  // jaccardSimilarity: counts the tokens of the smaller set that the larger one has.
  method JaccardSimilarity(a: set<string>, b: set<string>) returns (r: real)
    ensures r == Similarity(a, b)
    ensures if a + b == {} then r == 1.0 else r * |a + b| as real == |a * b| as real
  {
    if |a| == 0 && |b| == 0 {
      return 1.0;
    }
    if |a| == 0 || |b| == 0 {
      return 0.0;
    }
    var intersection;
    if |a| < |b| {
      intersection := CountCommon(a, b);
    } else {
      intersection := CountCommon(b, a);
    }
    assert b * a == a * b;
    SizesOf(a, b);
    var union := |a| + |b| - intersection;
    return if union == 0 then 0.0 else Ratio(intersection, union);
  }

  method CountCommon(smaller: set<string>, larger: set<string>) returns (intersection: nat)
    ensures intersection == |smaller * larger|
  {
    intersection := 0;
    var todo := smaller;
    while todo != {}
      invariant todo <= smaller
      invariant intersection == |(smaller - todo) * larger|
      decreases |todo|
    {
      var item :| item in todo;
      OneMoreDone(smaller, todo, larger, item);
      todo := todo - {item};
      if item in larger {
        intersection := intersection + 1;
      }
    }
    assert smaller - todo == smaller;
  }

  lemma {:induction false} OneMoreDone(s: set<string>, todo: set<string>, larger: set<string>, item: string)
    requires todo <= s && item in todo
    ensures |(s - (todo - {item})) * larger| == |(s - todo) * larger| + (if item in larger then 1 else 0)
  {
    var done := (s - todo) * larger;
    var done' := (s - (todo - {item})) * larger;
    if item in larger {
      assert done' == done + {item} && item !in done;
    } else {
      assert done' == done;
    }
  }

  // ---------- History ----------

  function Held(m: Recent, package: string): seq<HistoryEntry> {
    if package in m then m[package] else []
  }

  function PruneOld(es: seq<HistoryEntry>, now: int): seq<HistoryEntry> {
    if es == [] then []
    else
      var rest := PruneOld(es[..|es| - 1], now);
      if now - es[|es| - 1].at < DEDUPE_WINDOW_MS then rest + [es[|es| - 1]] else rest
  }

  lemma {:induction false} PruneMembers(es: seq<HistoryEntry>, now: int)
    ensures forall e :: e in PruneOld(es, now) <==> e in es && now - e.at < DEDUPE_WINDOW_MS
  {
    if es != [] {
      PruneMembers(es[..|es| - 1], now);
    }
  }

  predicate HasHash(es: seq<HistoryEntry>, hash: string) {
    exists e :: e in es && e.hash == hash
  }

  function Max(a: real, b: real): real {
    if a < b then b else a
  }

  function MaxSimilarity(tokens: set<string>, es: seq<HistoryEntry>): real {
    if es == [] then 0.0
    else Max(MaxSimilarity(tokens, es[..|es| - 1]), Similarity(tokens, es[|es| - 1].tokens))
  }

  lemma {:induction false} LastWithoutFirst(es: seq<HistoryEntry>, n: nat)
    requires |es| > n
    ensures Last(es[1..], n) == Last(es, n)
  {
  }

  function EntryOf(g: Gate, text: string, now: int): HistoryEntry {
    HistoryEntry(g.hashOf(Normalize(text)), g.tokenize(Normalize(text)), now)
  }

  // Whether a text is novel against the entries still in the window.
  predicate Novel(g: Gate, es: seq<HistoryEntry>, text: string) {
    && !HasHash(es, g.hashOf(Normalize(text)))
    && MaxSimilarity(g.tokenize(Normalize(text)), es) < g.threshold
  }

  // One call of shouldSeed: the entries of the package afterwards.
  function Next(g: Gate, held: seq<HistoryEntry>, text: string, now: int): seq<HistoryEntry> {
    var es := PruneOld(held, now);
    if Novel(g, es, text) then Last(es + [EntryOf(g, text, now)], HISTORY_PER_PACKAGE) else es
  }

  lemma {:induction false} Overwritten(m: Recent, package: string, a: seq<HistoryEntry>, b: seq<HistoryEntry>)
    ensures m[package := a][package := b] == m[package := b]
    ensures Held(m[package := a], package) == a
  {
  }

  lemma {:induction false} PruneAgain(es: seq<HistoryEntry>, now: int)
    ensures PruneOld(PruneOld(es, now), now) == PruneOld(es, now)
  {
    if es != [] {
      PruneAgain(es[..|es| - 1], now);
    }
  }

  class SurprisalGate {
    const gate: Gate
    var recentByPackage: Recent

    constructor (gate: Gate)
      ensures this.gate == gate && recentByPackage == map[]
    {
      this.gate := gate;
      recentByPackage := map[];
    }

    method IsNearDuplicate(packageName: string, hash: string, now: int) returns (r: bool)
      modifies this
      ensures recentByPackage == old(recentByPackage)[packageName := PruneOld(Held(old(recentByPackage), packageName), now)]
      ensures r == HasHash(recentByPackage[packageName], hash)
    {
      var entries := PruneOld(Held(recentByPackage, packageName), now);
      recentByPackage := recentByPackage[packageName := entries];
      return HasHash(entries, hash);
    }

    method RecordHistory(packageName: string, entry: HistoryEntry)
      modifies this
      ensures recentByPackage == old(recentByPackage)[packageName :=
                Last(PruneOld(Held(old(recentByPackage), packageName), entry.at) + [entry], HISTORY_PER_PACKAGE)]
    {
      var entries := PruneOld(Held(recentByPackage, packageName), entry.at);
      entries := entries + [entry];
      ghost var all := entries;
      while |entries| > HISTORY_PER_PACKAGE
        invariant recentByPackage == old(recentByPackage)
        invariant Last(entries, HISTORY_PER_PACKAGE) == Last(all, HISTORY_PER_PACKAGE)
      {
        LastWithoutFirst(entries, HISTORY_PER_PACKAGE);
        entries := entries[1..];
      }
      recentByPackage := recentByPackage[packageName := entries];
    }

    method BestMatch(tokens: set<string>, history: seq<HistoryEntry>) returns (max: real)
      ensures max == MaxSimilarity(tokens, history)
    {
      max := 0.0;
      for i := 0 to |history|
        invariant max == MaxSimilarity(tokens, history[..i])
      {
        assert history[..i + 1][..i] == history[..i];
        var s := JaccardSimilarity(tokens, history[i].tokens);
        max := Max(max, s);
      }
      assert history[..|history|] == history;
    }

    method ShouldSeed(packageName: string, text: string, now: int) returns (novel: bool)
      modifies this
      ensures novel == Novel(gate, PruneOld(Held(old(recentByPackage), packageName), now), text)
      ensures recentByPackage == old(recentByPackage)[packageName :=
                Next(gate, Held(old(recentByPackage), packageName), text, now)]
    {
      ghost var was, held := recentByPackage, Held(recentByPackage, packageName);
      PruneAgain(held, now);
      var normalized := Normalize(text);
      var hash := gate.hashOf(normalized);
      var duplicate := IsNearDuplicate(packageName, hash, now);
      if duplicate {
        return false;
      }
      var candidateTokens := gate.tokenize(normalized);
      var history := PruneOld(Held(recentByPackage, packageName), now);
      assert history == PruneOld(held, now);
      var maxSimilarity := BestMatch(candidateTokens, history);
      novel := maxSimilarity < gate.threshold;
      if novel {
        RecordHistory(packageName, HistoryEntry(hash, candidateTokens, now));
        Overwritten(was, packageName, PruneOld(held, now),
                    Last(PruneOld(held, now) + [EntryOf(gate, text, now)], HISTORY_PER_PACKAGE));
      }
    }
  }
}
