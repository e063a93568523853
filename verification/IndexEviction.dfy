// evict(): dropping the oldest entries of the stored index, whatever the counts in the manifest say.
module IndexEviction {
  import opened Commons
  import opened IndexStore
  import opened IndexMigration

  // ---------- Eviction ----------

  function Total(ms: seq<MonthCount>): int {
    if ms == [] then 0 else ms[0].count + Total(ms[1..])
  }

  datatype Listing = Listing(ms: seq<MonthCount>, shards: Shards) {
    function Content(): seq<Entry> {
      Flat(ms, shards)
    }
  }

  function Recount(ms: seq<MonthCount>, n: int): seq<MonthCount>
    requires ms != []
  {
    [ms[0].(count := n)] + ms[1..]
  }

  // The oldest shard goes.
  function Shifted(l: Listing): Listing
    requires l.ms != []
  {
    Listing(l.ms[1..], l.shards - {l.ms[0].month})
  }

  // The oldest shard loses its k oldest entries.
  function Trimmed(l: Listing, k: nat): Listing
    requires l.ms != [] && k <= |Shard(l.shards, l.ms[0].month)|
  {
    var kept := Shard(l.shards, l.ms[0].month)[k..];
    Listing(Recount(l.ms, |kept|), l.shards[l.ms[0].month := Parsed(kept)])
  }

  // Dropping from the front of the oldest shard while the counts add up to too many; a count that
  // turns out wrong is corrected first.
  function Evicted(l: Listing): Listing
    decreases |l.ms|
  {
    if Total(l.ms) <= MAX_INDEX || l.ms == [] then l
    else
      var n := |Shard(l.shards, l.ms[0].month)|;
      var overflow := Total(l.ms) + n - l.ms[0].count - MAX_INDEX;
      if overflow <= 0 then l.(ms := Recount(l.ms, n))
      else if n <= overflow then Evicted(Shifted(l))
      else Trimmed(l, overflow)
  }

  predicate IsSuffix(a: seq<Entry>, b: seq<Entry>) {
    |a| <= |b| && a == b[|b| - |a|..]
  }

  // Changing the oldest shard does not change what follows it.
  lemma {:induction false} RestStays(l: Listing, shards: Shards)
    requires DistinctMonths(l.ms) && l.ms != []
    requires forall m :: m != l.ms[0].month ==> Shard(shards, m) == Shard(l.shards, m)
    ensures Flat(l.ms[1..], shards) == Flat(l.ms[1..], l.shards)
  {
    FlatSame(l.ms[1..], shards, l.ms[1..], l.shards);
  }

  lemma {:induction false} ShiftedContent(l: Listing)
    requires DistinctMonths(l.ms) && l.ms != []
    ensures l.Content() == Shard(l.shards, l.ms[0].month) + Shifted(l).Content()
  {
    RestStays(l, Shifted(l).shards);
  }

  lemma {:induction false} TrimmedContent(l: Listing, k: nat)
    requires DistinctMonths(l.ms) && l.ms != [] && k <= |Shard(l.shards, l.ms[0].month)|
    ensures Trimmed(l, k).Content() == l.Content()[k..]
  {
    RestStays(l, Trimmed(l, k).shards);
    assert Trimmed(l, k).ms[1..] == l.ms[1..];
  }

  lemma {:induction false} RecountContent(l: Listing, n: int)
    requires l.ms != []
    ensures Flat(Recount(l.ms, n), l.shards) == l.Content()
  {
    assert Recount(l.ms, n)[1..] == l.ms[1..];
  }

  // Whatever the counts say, only the oldest entries are dropped.
  lemma {:induction false} EvictionDropsOldest(l: Listing)
    requires DistinctMonths(l.ms)
    ensures IsSuffix(Evicted(l).Content(), l.Content())
    decreases |l.ms|
  {
    if Total(l.ms) > MAX_INDEX && l.ms != [] {
      var n := |Shard(l.shards, l.ms[0].month)|;
      var overflow := Total(l.ms) + n - l.ms[0].count - MAX_INDEX;
      if overflow <= 0 {
        RecountContent(l, n);
      } else if n <= overflow {
        ShiftedContent(l);
        EvictionDropsOldest(Shifted(l));
      } else {
        TrimmedContent(l, overflow);
      }
    }
  }

  // By how many entries the counts in the manifest understate the shards, month by month.
  function Understated(l: Listing): nat
    decreases |l.ms|
  {
    if l.ms == [] then 0
    else
      var n := |Shard(l.shards, l.ms[0].month)|;
      (if l.ms[0].count < n then n - l.ms[0].count else 0) + Understated(Listing(l.ms[1..], l.shards))
  }

  lemma {:induction false} TotalBounds(l: Listing)
    ensures |l.Content()| <= Total(l.ms) + Understated(l)
    decreases |l.ms|
  {
    if l.ms != [] {
      TotalBounds(Listing(l.ms[1..], l.shards));
    }
  }

  lemma {:induction false} UnderstatedSame(ms: seq<MonthCount>, a: Shards, b: Shards)
    requires forall i :: 0 <= i < |ms| ==> Shard(a, ms[i].month) == Shard(b, ms[i].month)
    ensures Understated(Listing(ms, a)) == Understated(Listing(ms, b))
  {
    if ms != [] {
      UnderstatedSame(ms[1..], a, b);
    }
  }

  // Whatever the counts say, eviction exceeds the cap by no more than they understate.
  lemma {:induction false} EvictionBound(l: Listing)
    requires DistinctMonths(l.ms)
    ensures |Evicted(l).Content()| <= MAX_INDEX + Understated(l)
    decreases |l.ms|
  {
    TotalBounds(l);
    if Total(l.ms) > MAX_INDEX && l.ms != [] {
      var n := |Shard(l.shards, l.ms[0].month)|;
      var overflow := Total(l.ms) + n - l.ms[0].count - MAX_INDEX;
      TotalBounds(Listing(l.ms[1..], l.shards));
      if overflow <= 0 {
        RecountContent(l, n);
      } else if n <= overflow {
        EvictionBound(Shifted(l));
        UnderstatedSame(l.ms[1..], Shifted(l).shards, l.shards);
      } else {
        TrimmedContent(l, overflow);
      }
    }
  }

  // The months whose counts eviction takes as they are, because it stops before it reads their shards.
  function Unread(l: Listing): Listing
    decreases |l.ms|
  {
    if Total(l.ms) <= MAX_INDEX || l.ms == [] then l
    else
      var n := |Shard(l.shards, l.ms[0].month)|;
      var overflow := Total(l.ms) + n - l.ms[0].count - MAX_INDEX;
      if 0 < overflow && n <= overflow then Unread(Shifted(l)) else Listing(l.ms[1..], l.shards)
  }

  // Whatever the counts say: the counts in the new manifest add up to at most MAX_INDEX, and what is left
  // differs from them by exactly what the counts of the unread months are off.
  lemma {:induction false} EvictedSize(l: Listing)
    requires DistinctMonths(l.ms)
    ensures Total(Evicted(l).ms) <= MAX_INDEX
    ensures |Evicted(l).Content()| - Total(Evicted(l).ms) == |Unread(l).Content()| - Total(Unread(l).ms)
    decreases |l.ms|
  {
    if Total(l.ms) > MAX_INDEX && l.ms != [] {
      var n := |Shard(l.shards, l.ms[0].month)|;
      var overflow := Total(l.ms) + n - l.ms[0].count - MAX_INDEX;
      if overflow <= 0 {
        RecountContent(l, n);
      } else if n <= overflow {
        EvictedSize(Shifted(l));
      } else {
        TrimmedContent(l, overflow);
        assert Trimmed(l, overflow).ms[1..] == l.ms[1..];
      }
    }
  }

  // Exactly when the cap holds afterwards: the unread months hold more than their counts say by no more
  // than the counts in the new manifest stay below MAX_INDEX.
  lemma {:induction false} CapHoldsExactly(l: Listing)
    requires DistinctMonths(l.ms)
    ensures |Evicted(l).Content()| <= MAX_INDEX <==>
            |Unread(l).Content()| - Total(Unread(l).ms) <= MAX_INDEX - Total(Evicted(l).ms)
  {
    EvictedSize(l);
  }

  predicate Overstated(l: Listing) {
    forall i :: 0 <= i < |l.ms| ==> l.ms[i].count >= |Shard(l.shards, l.ms[i].month)|
  }

  lemma {:induction false} NothingUnderstated(l: Listing)
    ensures Overstated(l) <==> Understated(l) == 0
    decreases |l.ms|
  {
    if l.ms != [] {
      var rest := Listing(l.ms[1..], l.shards);
      NothingUnderstated(rest);
      assert Overstated(l) <==> l.ms[0].count >= |Shard(l.shards, l.ms[0].month)| && Overstated(rest) by {
        assert forall i :: 0 < i < |l.ms| ==> rest.ms[i - 1] == l.ms[i];
      }
    }
  }

  // If no count is too small, the cap holds afterwards.
  lemma {:induction false} EvictionReachesCap(l: Listing)
    requires DistinctMonths(l.ms) && Overstated(l)
    ensures |Evicted(l).Content()| <= MAX_INDEX
  {
    NothingUnderstated(l);
    EvictionBound(l);
  }

  // The bound is met: a count that is too small can hide any number of entries.
  lemma {:induction false} UnderstatedHides(month: string, s: seq<Entry>)
    requires |s| > MAX_INDEX
    ensures var l := Listing([MonthCount(month, MAX_INDEX)], map[month := Parsed(s)]);
            Evicted(l) == l && |l.Content()| == MAX_INDEX + Understated(l) == |s|
  {
    var l := Listing([MonthCount(month, MAX_INDEX)], map[month := Parsed(s)]);
    assert l.ms[1..] == [];
    assert Total(l.ms) == MAX_INDEX + Total([]);
    assert Understated(Listing([], l.shards)) == 0 && Flat([], l.shards) == [];
  }

  lemma {:induction false} ExactTotal(l: Listing)
    requires Exact(l.ms, l.shards)
    ensures |l.Content()| == Total(l.ms)
    decreases |l.ms|
  {
    if l.ms != [] {
      ExactTotal(Listing(l.ms[1..], l.shards));
    }
  }

  lemma {:induction false} ExactRest(l: Listing)
    requires DistinctMonths(l.ms) && l.ms != [] && Exact(l.ms, l.shards)
    ensures Exact(Shifted(l).ms, Shifted(l).shards)
  {
  }

  // One step of eviction with exact counts.
  lemma {:induction false} EvictedExactly(l: Listing)
    requires Exact(l.ms, l.shards) && Total(l.ms) > MAX_INDEX && l.ms != []
    ensures var n, overflow := |Shard(l.shards, l.ms[0].month)|, Total(l.ms) - MAX_INDEX;
            Evicted(l) == if n <= overflow then Evicted(Shifted(l)) else Trimmed(l, overflow)
  {
    assert l.ms[0].count == |Shard(l.shards, l.ms[0].month)|;
  }

  // With exact counts, exactly the surplus is dropped.
  lemma {:induction false} EvictionIsExact(l: Listing)
    requires DistinctMonths(l.ms) && Exact(l.ms, l.shards)
    ensures Evicted(l).Content() == Last(l.Content(), MAX_INDEX)
    decreases |l.ms|
  {
    ExactTotal(l);
    if Total(l.ms) > MAX_INDEX && l.ms != [] {
      var n, overflow := |Shard(l.shards, l.ms[0].month)|, Total(l.ms) - MAX_INDEX;
      EvictedExactly(l);
      if n <= overflow {
        ShiftedContent(l);
        ExactRest(l);
        EvictionIsExact(Shifted(l));
      } else {
        TrimmedContent(l, overflow);
      }
    }
  }

  lemma {:induction false} ListedRest(ms: seq<MonthCount>, m: string)
    requires ms != [] && Listed(ms, m)
    ensures m == ms[0].month || Listed(ms[1..], m)
  {
    var i :| 0 <= i < |ms| && ms[i].month == m;
    if i > 0 {
      assert ms[1..][i - 1].month == m;
    }
  }

  lemma {:induction false} ListedSame(a: seq<MonthCount>, b: seq<MonthCount>, m: string)
    requires |a| == |b| && forall i :: 0 <= i < |a| ==> a[i].month == b[i].month
    ensures Listed(a, m) ==> Listed(b, m)
  {
    if Listed(a, m) {
      var i :| 0 <= i < |a| && a[i].month == m;
      assert b[i].month == m;
    }
  }

  predicate Good(l: Listing) {
    WellFormed(l.ms, l.shards)
  }

  lemma {:induction false} ShiftedGood(l: Listing)
    requires Good(l) && l.ms != []
    ensures Good(Shifted(l))
  {
    var r := Shifted(l);
    AscendingDistinct(l.ms);
    forall i | 0 <= i < |r.ms|
      ensures GoodMonth(r.ms[i], r.shards)
    {
      assert GoodMonth(l.ms[i + 1], l.shards);
    }
    forall m | m in r.shards && !Listed(r.ms, m)
      ensures Shard(r.shards, m) == []
    {
      if Listed(l.ms, m) {
        ListedRest(l.ms, m);
      }
    }
  }

  lemma {:induction false} TrimmedGood(l: Listing, k: nat)
    requires Good(l) && l.ms != [] && k <= |Shard(l.shards, l.ms[0].month)|
    ensures Good(Trimmed(l, k))
  {
    var r := Trimmed(l, k);
    AscendingDistinct(l.ms);
    forall i | 0 <= i < |r.ms|
      ensures GoodMonth(r.ms[i], r.shards)
    {
      assert GoodMonth(l.ms[i], l.shards);
    }
    forall x | x in r.shards && !Listed(r.ms, x)
      ensures Shard(r.shards, x) == []
    {
      assert r.ms[0].month == l.ms[0].month;
      ListedSame(l.ms, r.ms, x);
    }
  }

  // A property that says the counts are exact, and that losing or trimming the oldest shard preserves.
  ghost predicate KeptBySteps(p: Listing -> bool) {
    forall l :: p(l) && l.ms != [] ==>
      && Exact(l.ms, l.shards) && p(Shifted(l))
      && forall k: nat :: k <= |Shard(l.shards, l.ms[0].month)| ==> p(Trimmed(l, k))
  }

  lemma {:induction false} EvictionKeeps(l: Listing, p: Listing -> bool)
    requires KeptBySteps(p) && p(l)
    ensures p(Evicted(l))
    decreases |l.ms|
  {
    if Total(l.ms) > MAX_INDEX && l.ms != [] {
      EvictedExactly(l);
      if |Shard(l.shards, l.ms[0].month)| <= Total(l.ms) - MAX_INDEX {
        EvictionKeeps(Shifted(l), p);
      }
    }
  }

  // Eviction leaves the index well formed.
  lemma {:induction false} EvictionKeepsForm(l: Listing)
    requires Good(l)
    ensures Good(Evicted(l))
  {
    forall l | Good(l) && l.ms != []
      ensures Exact(l.ms, l.shards) && Good(Shifted(l))
      ensures forall k: nat :: k <= |Shard(l.shards, l.ms[0].month)| ==> Good(Trimmed(l, k))
    {
      GoodSteps(l);
    }
    EvictionKeeps(l, Good);
  }

  lemma {:induction false} GoodSteps(l: Listing)
    requires Good(l) && l.ms != []
    ensures Exact(l.ms, l.shards) && Good(Shifted(l))
    ensures forall k: nat :: k <= |Shard(l.shards, l.ms[0].month)| ==> Good(Trimmed(l, k))
  {
    WellFormedParts(l.ms, l.shards);
    ShiftedGood(l);
    forall k: nat | k <= |Shard(l.shards, l.ms[0].month)|
      ensures Good(Trimmed(l, k))
    {
      TrimmedGood(l, k);
    }
  }
}
