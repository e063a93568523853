// Which captures a package of the novelty gate still holds, on any clock. What the texts are does not matter
// here, only the entries they make and which of them were accepted.
module NoveltyRuns {
  import opened Commons
  import opened Surprisal

  // A capture: the entry it makes, and whether it was accepted.
  datatype Mark = Mark(package: string, accepted: bool, entry: HistoryEntry)

  // What a package holds after a run.
  function HeldBy(ms: seq<Mark>, package: string): seq<HistoryEntry> {
    if ms == [] then []
    else
      var held, m := HeldBy(ms[..|ms| - 1], package), ms[|ms| - 1];
      if m.package != package then held
      else
        var es := PruneOld(held, m.entry.at);
        if m.accepted then Last(es + [m.entry], HISTORY_PER_PACKAGE) else es
  }

  // Where the accepted captures of a package are.
  function Places(ms: seq<Mark>, package: string): (ps: seq<nat>)
    ensures forall r :: 0 <= r < |ps| ==> ps[r] < |ms|
  {
    if ms == [] then []
    else
      var ps, m := Places(ms[..|ms| - 1], package), ms[|ms| - 1];
      if m.package == package && m.accepted then ps + [|ms| - 1] else ps
  }

  function EntriesAt(ms: seq<Mark>, ps: seq<nat>): (es: seq<HistoryEntry>)
    requires forall r :: 0 <= r < |ps| ==> ps[r] < |ms|
    ensures |es| == |ps| && forall r :: 0 <= r < |ps| ==> es[r] == ms[ps[r]].entry
  {
    seq(|ps|, r requires 0 <= r < |ps| => ms[ps[r]].entry)
  }

  // No capture was accepted whose hash an entry in the window had.
  predicate Refusing(ms: seq<Mark>) {
    forall i :: 0 <= i < |ms| && ms[i].accepted ==>
      !HasHash(PruneOld(HeldBy(ms[..i], ms[i].package), ms[i].entry.at), ms[i].entry.hash)
  }

  lemma {:induction false} RefusingMore(ms: seq<Mark>, m: Mark)
    requires Refusing(ms)
    requires m.accepted ==> !HasHash(PruneOld(HeldBy(ms, m.package), m.entry.at), m.entry.hash)
    ensures Refusing(ms + [m])
  {
    var ms' := ms + [m];
    assert ms'[..|ms|] == ms;
    assert forall i :: 0 <= i < |ms| ==> ms'[..i] == ms[..i];
  }

  // When capture k of the package came, capture p had left the window.
  predicate LeftWindow(ms: seq<Mark>, package: string, p: nat, k: nat) {
    p < k < |ms| && ms[k].package == package && ms[k].entry.at - ms[p].entry.at >= DEDUPE_WINDOW_MS
  }

  predicate Expired(ms: seq<Mark>, package: string, p: nat) {
    exists k :: p < k < |ms| && LeftWindow(ms, package, p, k)
  }

  // ---------- Some of all entries, in order ----------

  predicate RisingTo(ranks: seq<nat>, n: nat) {
    (forall i, j :: 0 <= i < j < |ranks| ==> ranks[i] < ranks[j]) && (forall i :: 0 <= i < |ranks| ==> ranks[i] < n)
  }

  // The entries held are some of all that were accepted, in order: entry i is number ranks[i].
  predicate Ranked(held: seq<HistoryEntry>, all: seq<HistoryEntry>, ranks: seq<nat>) {
    && |ranks| == |held| && RisingTo(ranks, |all|)
    && forall i :: 0 <= i < |held| ==> held[i] == all[ranks[i]]
  }

  lemma {:induction false} PruneRanked(held: seq<HistoryEntry>, all: seq<HistoryEntry>, ranks: seq<nat>, now: int)
    returns (kept: seq<nat>)
    requires Ranked(held, all, ranks)
    ensures Ranked(PruneOld(held, now), all, kept)
    ensures forall r :: r in kept ==> r in ranks
    ensures forall r :: r in ranks ==> r in kept || now - all[r].at >= DEDUPE_WINDOW_MS
  {
    if held == [] {
      kept := [];
    } else {
      var n := |held| - 1;
      var front, late, r := held[..n], ranks[..n], ranks[n];
      assert held == front + [held[n]] && ranks == late + [r];
      kept := PruneRanked(front, all, late, now);
      assert forall x :: x in late ==> x < r;
      if now - held[n].at < DEDUPE_WINDOW_MS {
        RankedMore(PruneOld(front, now), all, kept, r);
        kept := kept + [r];
      }
    }
  }

  lemma {:induction false} RankedMore(held: seq<HistoryEntry>, all: seq<HistoryEntry>, ranks: seq<nat>, r: nat)
    requires Ranked(held, all, ranks) && r < |all| && forall x :: x in ranks ==> x < r
    ensures Ranked(held + [all[r]], all, ranks + [r])
  {
    assert forall i :: 0 <= i < |ranks| ==> ranks[i] in ranks;
  }

  lemma {:induction false} LastRanked(held: seq<HistoryEntry>, all: seq<HistoryEntry>, ranks: seq<nat>)
    requires Ranked(held, all, ranks)
    ensures Ranked(Last(held, HISTORY_PER_PACKAGE), all, Last(ranks, HISTORY_PER_PACKAGE))
  {
    var es, late := Last(held, HISTORY_PER_PACKAGE), Last(ranks, HISTORY_PER_PACKAGE);
    LaterRising(ranks, |all|, |held| - |es|);
    forall i | 0 <= i < |es|
      ensures es[i] == all[late[i]]
    {
      assert held[|held| - |es| + i] == all[ranks[|held| - |es| + i]];
    }
  }

  lemma {:induction false} LaterRising(ranks: seq<nat>, n: nat, k: nat)
    requires RisingTo(ranks, n) && k <= |ranks|
    ensures RisingTo(ranks[k..], n)
  {
    var late := ranks[k..];
    forall i, j | 0 <= i < j < |late|
      ensures late[i] < late[j]
    {
      assert ranks[k + i] < ranks[k + j];
    }
    forall i | 0 <= i < |late|
      ensures late[i] < n
    {
      assert ranks[k + i] < n;
    }
  }

  // Of rising numbers below n, those that are not among the last ones are far below.
  lemma {:induction false} LastRising(ranks: seq<nat>, n: nat, late: seq<nat>, i: nat)
    requires RisingTo(ranks, n) && late == Last(ranks, HISTORY_PER_PACKAGE) && i < |ranks|
    ensures ranks[i] in late || n - ranks[i] > HISTORY_PER_PACKAGE
  {
    var off := |ranks| - |late|;
    if i >= off {
      assert late[i - off] == ranks[i];
    } else {
      RisingGap(ranks, n, i);
    }
  }

  lemma {:induction false} RisingGap(ranks: seq<nat>, n: nat, i: nat)
    requires RisingTo(ranks, n) && i < |ranks|
    ensures n - ranks[i] >= |ranks| - i
    decreases |ranks| - i
  {
    if i < |ranks| - 1 {
      RisingGap(ranks, n, i + 1);
    }
  }

  lemma {:induction false} AcceptedRanked(held: seq<HistoryEntry>, all: seq<HistoryEntry>, e: HistoryEntry,
                                          ranks: seq<nat>)
    returns (late: seq<nat>)
    requires Ranked(held, all, ranks)
    ensures Ranked(Last(held + [e], HISTORY_PER_PACKAGE), all + [e], late)
    ensures |all| in late && forall r :: r in ranks ==> r in late || |all| + 1 - r > HISTORY_PER_PACKAGE
  {
    var more := ranks + [|all|];
    assert forall i :: 0 <= i < |ranks| ==> ranks[i] in ranks;
    assert Ranked(held, all + [e], ranks);
    RankedMore(held, all + [e], ranks, |all|);
    LastRanked(held + [e], all + [e], more);
    late := Last(more, HISTORY_PER_PACKAGE);
    assert late[|late| - 1] == |all|;
    forall i | 0 <= i < |ranks|
      ensures ranks[i] in late || |all| + 1 - ranks[i] > HISTORY_PER_PACKAGE
    {
      LastRising(more, |all| + 1, late, i);
    }
  }

  // ---------- What is not held any more ----------

  // An accepted capture that is not held had left the window when some later capture of the package came,
  // or at least HISTORY_PER_PACKAGE others were accepted since.
  predicate HeldOrGone(ms: seq<Mark>, package: string, ps: seq<nat>, ranks: seq<nat>) {
    forall r :: 0 <= r < |ps| ==> r in ranks || Expired(ms, package, ps[r]) || |ps| - r > HISTORY_PER_PACKAGE
  }

  predicate PlacedIn(ms: seq<Mark>, ps: seq<nat>, all: seq<HistoryEntry>) {
    |ps| == |all| && forall r :: 0 <= r < |ps| ==> ps[r] < |ms| && all[r] == ms[ps[r]].entry
  }

  lemma {:induction false} GoneLater(ms: seq<Mark>, m: Mark, package: string, p: nat)
    requires p < |ms|
    ensures Expired(ms, package, p) ==> Expired(ms + [m], package, p)
    ensures m.package == package && m.entry.at - ms[p].entry.at >= DEDUPE_WINDOW_MS ==> Expired(ms + [m], package, p)
  {
    var ms' := ms + [m];
    assert ms'[p] == ms[p] && ms'[|ms|] == m;
    if Expired(ms, package, p) {
      var k :| p < k < |ms| && LeftWindow(ms, package, p, k);
      assert ms'[k] == ms[k] && LeftWindow(ms', package, p, k);
    }
    if m.package == package && m.entry.at - ms[p].entry.at >= DEDUPE_WINDOW_MS {
      assert LeftWindow(ms', package, p, |ms|);
    }
  }

  // A capture of another package changes nothing.
  lemma {:induction false} OthersGone(ms: seq<Mark>, m: Mark, package: string, ps: seq<nat>, all: seq<HistoryEntry>,
                                      ranks: seq<nat>)
    requires HeldOrGone(ms, package, ps, ranks) && PlacedIn(ms, ps, all)
    ensures HeldOrGone(ms + [m], package, ps, ranks)
  {
    forall r | 0 <= r < |ps|
      ensures Expired(ms, package, ps[r]) ==> Expired(ms + [m], package, ps[r])
    {
      GoneLater(ms, m, package, ps[r]);
    }
  }

  // A capture of the package: entries that have left the window go.
  lemma {:induction false} PrunedGone(ms: seq<Mark>, m: Mark, ps: seq<nat>, all: seq<HistoryEntry>, ranks: seq<nat>,
                                      kept: seq<nat>)
    requires HeldOrGone(ms, m.package, ps, ranks) && PlacedIn(ms, ps, all)
    requires forall r :: r in ranks && r < |all| ==> r in kept || m.entry.at - all[r].at >= DEDUPE_WINDOW_MS
    ensures HeldOrGone(ms + [m], m.package, ps, kept)
  {
    forall r | 0 <= r < |ps|
      ensures r in kept || Expired(ms + [m], m.package, ps[r]) || |ps| - r > HISTORY_PER_PACKAGE
    {
      GoneLater(ms, m, m.package, ps[r]);
    }
  }

  // It is accepted: the oldest go if there are too many.
  lemma {:induction false} CappedGone(ms: seq<Mark>, package: string, ps: seq<nat>, p: nat, ranks: seq<nat>,
                                      late: seq<nat>)
    requires HeldOrGone(ms, package, ps, ranks) && |ps| in late
    requires forall r :: r in ranks ==> r in late || |ps| + 1 - r > HISTORY_PER_PACKAGE
    ensures HeldOrGone(ms, package, ps + [p], late)
  {
    var ps' := ps + [p];
    forall r | 0 <= r < |ps'|
      ensures r in late || Expired(ms, package, ps'[r]) || |ps'| - r > HISTORY_PER_PACKAGE
    {
      assert r < |ps| ==> ps'[r] == ps[r];
    }
  }

  lemma {:induction false} NextRanked(ms: seq<Mark>, m: Mark, held: seq<HistoryEntry>, all: seq<HistoryEntry>,
                                      ps: seq<nat>,
                                      ranks0: seq<nat>) returns (ranks: seq<nat>)
    requires Ranked(held, all, ranks0) && HeldOrGone(ms, m.package, ps, ranks0) && PlacedIn(ms, ps, all)
    ensures var es := PruneOld(held, m.entry.at);
            && Ranked(if m.accepted then Last(es + [m.entry], HISTORY_PER_PACKAGE) else es,
                      if m.accepted then all + [m.entry] else all, ranks)
            && HeldOrGone(ms + [m], m.package, if m.accepted then ps + [|ms|] else ps, ranks)
  {
    ranks := PruneRanked(held, all, ranks0, m.entry.at);
    PrunedGone(ms, m, ps, all, ranks0, ranks);
    if m.accepted {
      var kept := ranks;
      ranks := AcceptedRanked(PruneOld(held, m.entry.at), all, m.entry, kept);
      CappedGone(ms + [m], m.package, ps, |ms|, kept, ranks);
    }
  }

  lemma {:induction false} RunMore(ms: seq<Mark>, m: Mark, package: string, held: seq<HistoryEntry>, ps: seq<nat>)
    requires held == HeldBy(ms, package) && ps == Places(ms, package)
    ensures HeldBy(ms + [m], package) ==
            if m.package != package then held
            else if m.accepted then Last(PruneOld(held, m.entry.at) + [m.entry], HISTORY_PER_PACKAGE)
            else PruneOld(held, m.entry.at)
    ensures Places(ms + [m], package) == if m.package == package && m.accepted then ps + [|ms|] else ps
  {
    assert (ms + [m])[..|ms|] == ms;
  }

  lemma {:induction false} EntriesMore(ms: seq<Mark>, m: Mark, ps: seq<nat>)
    requires forall r :: 0 <= r < |ps| ==> ps[r] < |ms|
    ensures EntriesAt(ms + [m], ps) == EntriesAt(ms, ps)
    ensures EntriesAt(ms + [m], ps + [|ms|]) == EntriesAt(ms, ps) + [m.entry]
  {
  }

  // Over any run: what a package holds, and what has become of the rest.
  lemma {:induction false} RunRanked(ms: seq<Mark>, package: string) returns (ranks: seq<nat>)
    ensures Ranked(HeldBy(ms, package), EntriesAt(ms, Places(ms, package)), ranks)
    ensures HeldOrGone(ms, package, Places(ms, package), ranks)
  {
    if ms == [] {
      ranks := [];
    } else {
      var before, m := ms[..|ms| - 1], ms[|ms| - 1];
      var held, ps := HeldBy(before, package), Places(before, package);
      assert ms == before + [m];
      ranks := RunRanked(before, package);
      RunMore(before, m, package, held, ps);
      EntriesMore(before, m, ps);
      if m.package == package {
        ranks := NextRanked(before, m, held, EntriesAt(before, ps), ps, ranks);
      } else {
        OthersGone(before, m, package, ps, EntriesAt(before, ps), ranks);
      }
    }
  }

  // ---------- The same hash twice ----------

  // The accepted captures before the b-th one.
  lemma {:induction false} PlacesBefore(ms: seq<Mark>, package: string, b: nat)
    requires b < |Places(ms, package)|
    ensures var ps := Places(ms, package);
            && Places(ms[..ps[b]], package) == ps[..b]
            && ms[ps[b]].package == package && ms[ps[b]].accepted
  {
    var before, m := ms[..|ms| - 1], ms[|ms| - 1];
    var ps0 := Places(before, package);
    assert ms == before + [m];
    RunMore(before, m, package, HeldBy(before, package), ps0);
    if b < |ps0| {
      PlacesBefore(before, package, b);
      assert before[..ps0[b]] == ms[..ps0[b]];
    }
  }

  // Every entry that is held comes from a capture of the package.
  lemma {:induction false} HeldFrom(ms: seq<Mark>, package: string, e: HistoryEntry) returns (k: nat)
    requires e in HeldBy(ms, package)
    ensures k < |ms| && ms[k].package == package && ms[k].entry == e
  {
    var ps := Places(ms, package);
    var ranks := RunRanked(ms, package);
    var i :| 0 <= i < |HeldBy(ms, package)| && HeldBy(ms, package)[i] == e;
    PlacesBefore(ms, package, ranks[i]);
    k := ps[ranks[i]];
  }

  // Two captures of a package with entries of one hash are both accepted only if the first had left the
  // window by the time of the second, or enough others were accepted in between.
  lemma {:induction false} SameHashTwice(ms: seq<Mark>, package: string, a: nat, b: nat)
    requires Refusing(ms) && a < b < |Places(ms, package)|
    requires var ps := Places(ms, package); ms[ps[a]].entry.hash == ms[ps[b]].entry.hash
    ensures var ps := Places(ms, package);
            || (exists k :: ps[a] < k <= ps[b] && LeftWindow(ms, package, ps[a], k))
            || b - a - 1 >= HISTORY_PER_PACKAGE
  {
    var ps := Places(ms, package);
    PlacesBefore(ms, package, b);
    var before, m := ms[..ps[b]], ms[ps[b]];
    NotKept(before, m, package, ps[..b], a);
    if Expired(before, package, ps[a]) {
      var k :| ps[a] < k < |before| && LeftWindow(before, package, ps[a], k);
      assert LeftWindow(ms, package, ps[a], k);
    } else if m.entry.at - before[ps[a]].entry.at >= DEDUPE_WINDOW_MS {
      assert LeftWindow(ms, package, ps[a], ps[b]);
    }
  }

  lemma {:induction false} NotKept(ms: seq<Mark>, m: Mark, package: string, ps: seq<nat>, a: nat)
    requires ps == Places(ms, package) && a < |ps| && m.entry.hash == ms[ps[a]].entry.hash
    requires !HasHash(PruneOld(HeldBy(ms, package), m.entry.at), m.entry.hash)
    ensures || Expired(ms, package, ps[a]) || m.entry.at - ms[ps[a]].entry.at >= DEDUPE_WINDOW_MS
            || |ps| - a > HISTORY_PER_PACKAGE
  {
    var held, all := HeldBy(ms, package), EntriesAt(ms, ps);
    var ranks := RunRanked(ms, package);
    var kept := PruneRanked(held, all, ranks, m.entry.at);
    var es := PruneOld(held, m.entry.at);
    forall i | 0 <= i < |kept|
      ensures kept[i] != a
    {
      assert es[i] == all[kept[i]] && es[i] in es;
    }
    assert a !in kept;
  }
}
