// appendEntry and readIndex on values: what they do to, and read from, the flat list.
module IndexAppend {
  import opened Commons
  import opened IndexOrder
  import opened IndexStore
  import opened IndexMigration
  import opened IndexEviction

  // ---------- Appending ----------

  // The index after the entry has gone into the shard of its month, before eviction.
  function Pushed(l: Listing, e: Entry): Listing {
    var shard := StableSort(Shard(l.shards, Month(e)) + [e], TimestampOf);
    Listing(SortMonths(Put(l.ms, Month(e), |shard|)), l.shards[Month(e) := Parsed(shard)])
  }

  // Where a month is, or belongs, in the manifest.
  predicate Around(ms: seq<MonthCount>, month: string, i: nat, j: nat) {
    && i <= j <= |ms| && j <= i + 1
    && (i < j ==> ms[i].month == month)
    && (forall k :: 0 <= k < i ==> Less(ms[k].month, month))
    && (forall k :: j <= k < |ms| ==> Less(month, ms[k].month))
  }

  lemma {:induction false} FindMonth(ms: seq<MonthCount>, month: string) returns (i: nat, j: nat)
    requires Ascending(ms)
    ensures Around(ms, month, i, j) && (i == j <==> !Listed(ms, month))
  {
    i := 0;
    while i < |ms| && Less(ms[i].month, month)
      invariant i <= |ms| && forall k :: 0 <= k < i ==> Less(ms[k].month, month)
    {
      i := i + 1;
    }
    j := if i < |ms| && ms[i].month == month then i + 1 else i;
    if i < |ms| {
      LessTotal(ms[i].month, month);
      forall k | j <= k < |ms|
        ensures Less(month, ms[k].month)
      {
        if i < k && i == j {
          LessTransitive(month, ms[i].month, ms[k].month);
        }
      }
    }
    forall k | 0 <= k < |ms| && (k < i || j <= k)
      ensures ms[k].month != month
    {
      if ms[k].month == month {
        LessAsymmetric(month, month);
      }
    }
  }

  lemma {:induction false} PutAt(ms: seq<MonthCount>, month: string, i: nat, j: nat, n: int)
    requires Around(ms, month, i, j)
    requires forall k :: 0 <= k < |ms| && (k < i || j <= k) ==> ms[k].month != month
    ensures Put(ms, month, n) == if i < j then ms[..i] + [MonthCount(month, n)] + ms[j..] else ms + [MonthCount(month, n)]
  {
    if i == j {
      PutNew(ms, MonthCount(month, n));
    } else if i > 0 {
      var first, rest := ms[0], ms[1..];
      PutAt(rest, month, i - 1, j - 1, n);
      assert ms[..i] == [first] + rest[..i - 1] && ms[j..] == rest[j - 1..] && ms == [first] + rest;
      assert Put(ms, month, n) == [first] + Put(rest, month, n);
    }
  }

  lemma {:induction false} AroundOthers(ms: seq<MonthCount>, month: string, i: nat, j: nat)
    requires Around(ms, month, i, j)
    ensures forall k :: 0 <= k < |ms| && (k < i || j <= k) ==> ms[k].month != month
  {
    if Less(month, month) {
      LessAsymmetric(month, month);
    }
  }

  lemma {:induction false} SplicedAscends(ms: seq<MonthCount>, x: MonthCount, i: nat, j: nat)
    requires Ascending(ms) && Around(ms, x.month, i, j)
    ensures Ascending(ms[..i] + [x] + ms[j..])
  {
    var r := ms[..i] + [x] + ms[j..];
    forall a, b | 0 <= a < b < |r|
      ensures Less(r[a].month, r[b].month)
    {
      if a < i < b {
        LessTransitive(ms[a].month, x.month, ms[b - i - 1 + j].month);
      }
    }
  }

  lemma {:induction false} AscendingSorted(ms: seq<MonthCount>)
    requires Ascending(ms)
    ensures Sorted(ms, MonthName)
  {
    forall i, j | 0 <= i < j < |ms|
      ensures !Less(MonthName(ms[j]), MonthName(ms[i]))
    {
      LessAsymmetric(ms[i].month, ms[j].month);
    }
  }

  // The sorted manifest after the count of a month has been set.
  lemma {:induction false} PutSorted(ms: seq<MonthCount>, month: string, i: nat, j: nat, n: int)
    requires Ascending(ms) && Around(ms, month, i, j)
    ensures SortMonths(Put(ms, month, n)) == ms[..i] + [MonthCount(month, n)] + ms[j..]
    ensures Ascending(ms[..i] + [MonthCount(month, n)] + ms[j..])
  {
    var x := MonthCount(month, n);
    AroundOthers(ms, month, i, j);
    PutAt(ms, month, i, j, n);
    SplicedAscends(ms, x, i, j);
    if i < j {
      AscendingSorted(ms[..i] + [x] + ms[j..]);
      SortOfSorted(ms[..i] + [x] + ms[j..], MonthName);
    } else {
      SortAdded(ms, x, i);
    }
  }

  lemma {:induction false} SortAdded(ms: seq<MonthCount>, x: MonthCount, i: nat)
    requires Ascending(ms) && i <= |ms| && Ascending(ms[..i] + [x] + ms[i..])
    ensures SortMonths(ms + [x]) == ms[..i] + [x] + ms[i..]
  {
    AscendingSorted(ms);
    SortPushed(ms, x, MonthName);
    assert SortMonths(ms + [x]) == Insert(ms, x, MonthName);
    InsertAscending(ms[..i], x, ms[i..]);
    assert ms[..i] + ms[i..] == ms;
  }

  lemma {:induction false} InsertAscending(a: seq<MonthCount>, x: MonthCount, b: seq<MonthCount>)
    requires Ascending(a + [x] + b)
    ensures Insert(a + b, x, MonthName) == a + [x] + b
  {
    var r := a + [x] + b;
    assert r[|a|] == x;
    forall y | y in a
      ensures !Less(MonthName(x), MonthName(y))
    {
      var k :| 0 <= k < |a| && a[k] == y;
      assert r[k] == y;
      LessAsymmetric(y.month, x.month);
    }
    forall y | y in b
      ensures Less(MonthName(x), MonthName(y))
    {
      var k :| 0 <= k < |b| && b[k] == y;
      assert r[|a| + 1 + k] == y;
    }
    InsertMiddle(a, [], b, x, MonthName);
    assert a + [] + b == a + b;
    assert Insert([], x, MonthName) == [x];
  }

  lemma {:induction false} SplitFlat(l: Listing, month: string, i: nat, j: nat)
    requires Around(l.ms, month, i, j) && (i == j ==> Shard(l.shards, month) == [])
    ensures l.Content() == Flat(l.ms[..i], l.shards) + Shard(l.shards, month) + Flat(l.ms[j..], l.shards)
  {
    FlatConcat(l.ms[..i], l.ms[i..], l.shards);
    assert l.ms == l.ms[..i] + l.ms[i..];
    if i < j {
      assert l.ms[i..][1..] == l.ms[j..];
    }
  }

  // Pushing into the shard of the month is inserting by time into the flat list.
  lemma {:induction false} PushedContent(l: Listing, e: Entry)
    requires Good(l)
    ensures Pushed(l, e).Content() == Insert(l.Content(), e, TimestampOf)
  {
    var m, s := Month(e), Shard(l.shards, Month(e));
    var i, j := FindMonth(l.ms, m);
    WellFormedParts(l.ms, l.shards);
    ShardSorted(l, m);
    SortPushed(s, e, TimestampOf);
    var s' := Insert(s, e, TimestampOf);
    PutSorted(l.ms, m, i, j, |s'|);
    SplitFlat(l, m, i, j);
    InsertInMonth(l.ms[..i], m, l.ms[j..], l.shards, e);
    var p := Pushed(l, e);
    AroundOthers(l.ms, m, i, j);
    assert p.ms == l.ms[..i] + [MonthCount(m, |s'|)] + l.ms[j..];
    FlatThree(p, l, i, j, MonthCount(m, |s'|));
  }

  lemma {:induction false} ShardSorted(l: Listing, m: string)
    requires Good(l)
    ensures GoodShard(Shard(l.shards, m), m) && UniqueIds(Shard(l.shards, m))
  {
    if Listed(l.ms, m) {
      var i :| 0 <= i < |l.ms| && l.ms[i].month == m;
      assert GoodMonth(l.ms[i], l.shards);
    } else {
      assert Shard(l.shards, m) == [];
    }
  }

  lemma {:induction false} FlatThree(p: Listing, l: Listing, i: nat, j: nat, x: MonthCount)
    requires i <= j <= |l.ms| && p.ms == l.ms[..i] + [x] + l.ms[j..]
    requires forall m :: m != x.month ==> Shard(p.shards, m) == Shard(l.shards, m)
    requires forall k :: 0 <= k < |l.ms| && (k < i || j <= k) ==> l.ms[k].month != x.month
    ensures p.Content() == Flat(l.ms[..i], l.shards) + Shard(p.shards, x.month) + Flat(l.ms[j..], l.shards)
  {
    FlatConcat(l.ms[..i] + [x], l.ms[j..], p.shards);
    FlatConcat(l.ms[..i], [x], p.shards);
    assert [x][1..] == [];
    assert Flat([x], p.shards) == Shard(p.shards, x.month) + Flat([], p.shards);
    FlatSame(l.ms[..i], p.shards, l.ms[..i], l.shards);
    FlatSame(l.ms[j..], p.shards, l.ms[j..], l.shards);
  }

  lemma {:induction false} PushedShard(s: seq<Entry>, e: Entry)
    requires GoodShard(s, Month(e)) && UniqueIds(s) && !HasId(s, e.id)
    ensures var r := StableSort(s + [e], TimestampOf);
            GoodShard(r, Month(e)) && UniqueIds(r)
  {
    SortPushed(s, e, TimestampOf);
    InsertSorted(s, e, TimestampOf);
    InsertUnique(s, e);
    SortMembers(s + [e], TimestampOf);
    var r := StableSort(s + [e], TimestampOf);
    forall i | 0 <= i < |r|
      ensures Month(r[i]) == Month(e)
    {
      assert r[i] in s + [e];
    }
  }

  lemma {:induction false} PushedGood(l: Listing, e: Entry)
    requires Good(l) && !HasId(Shard(l.shards, Month(e)), e.id)
    ensures Good(Pushed(l, e))
  {
    var m, s := Month(e), Shard(l.shards, Month(e));
    var i, j := FindMonth(l.ms, m);
    ShardSorted(l, m);
    PushedShard(s, e);
    var n := |StableSort(s + [e], TimestampOf)|;
    PutSorted(l.ms, m, i, j, n);
    AroundOthers(l.ms, m, i, j);
    SplicedGood(l, i, j, MonthCount(m, n), Pushed(l, e));
  }

  lemma {:induction false} SplicedGood(l: Listing, i: nat, j: nat, x: MonthCount, p: Listing)
    requires Good(l) && Around(l.ms, x.month, i, j)
    requires p.ms == l.ms[..i] + [x] + l.ms[j..] && Ascending(p.ms) && GoodMonth(x, p.shards)
    requires forall m :: m in p.shards <==> m in l.shards || m == x.month
    requires forall m :: m != x.month ==> Shard(p.shards, m) == Shard(l.shards, m)
    requires forall k :: 0 <= k < |l.ms| && (k < i || j <= k) ==> l.ms[k].month != x.month
    ensures Good(p)
  {
    forall k | 0 <= k < |p.ms|
      ensures GoodMonth(p.ms[k], p.shards)
    {
      if k < i {
        assert GoodMonth(l.ms[k], l.shards);
      } else if k > i {
        assert GoodMonth(l.ms[k - i - 1 + j], l.shards);
      }
    }
    forall m | m in p.shards && !Listed(p.ms, m)
      ensures Shard(p.shards, m) == []
    {
      assert p.ms[i] == x;
      SplicedLists(l.ms, i, j, x, m);
    }
  }

  lemma {:induction false} SplicedLists(ms: seq<MonthCount>, i: nat, j: nat, x: MonthCount, m: string)
    requires Around(ms, x.month, i, j)
    ensures Listed(ms, m) ==> Listed(ms[..i] + [x] + ms[j..], m)
  {
    var r := ms[..i] + [x] + ms[j..];
    if Listed(ms, m) {
      var k :| 0 <= k < |ms| && ms[k].month == m;
      if k < i {
        assert r[k] == ms[k];
      } else if k < j {
        assert r[i].month == m;
      } else {
        assert r[i + 1 + k - j] == ms[k];
      }
    }
  }

  // appendEntry after the migration.
  function Appended(l: Listing, e: Entry): Listing {
    if HasId(Shard(l.shards, Month(e)), e.id) then l
    else
      var r := Evicted(Pushed(l, e));
      r.(ms := SortMonths(r.ms))
  }

  // On a well-formed index appendEntry does what appending to the flat list does, and the index stays
  // well formed.
  lemma {:induction false} AppendRefinesFlat(l: Listing, e: Entry)
    requires Good(l) && IdFixesMonth(l.Content(), e)
    ensures Good(Appended(l, e)) && Appended(l, e).Content() == AppendFlat(l.Content(), e)
  {
    WellFormedParts(l.ms, l.shards);
    ShardDedupIsGlobal(l.ms, l.shards, e);
    if !HasId(Shard(l.shards, Month(e)), e.id) {
      var p := Pushed(l, e);
      PushedContent(l, e);
      PushedGood(l, e);
      WellFormedParts(p.ms, p.shards);
      EvictionIsExact(p);
      EvictionKeepsForm(p);
      AscendingSorted(Evicted(p).ms);
      SortOfSorted(Evicted(p).ms, MonthName);
    }
  }

  // ---------- Stopping halfway ----------

  // The index if appendEntry is stopped after its first write: the shard is written, the manifest is not.
  function Stopped(l: Listing, e: Entry): Listing {
    Listing(l.ms, Pushed(l, e).shards)
  }

  // After such a stop the entry can be read exactly if its month was listed before, and appending it again
  // does not help.
  lemma {:induction false} StoppedAppend(l: Listing, e: Entry)
    requires Good(l) && !HasId(Shard(l.shards, Month(e)), e.id)
    ensures Stopped(l, e).Content() == if Listed(l.ms, Month(e)) then Insert(l.Content(), e, TimestampOf) else l.Content()
    ensures Appended(Stopped(l, e), e) == Stopped(l, e)
  {
    if Listed(l.ms, Month(e)) {
      StoppedListed(l, e);
    } else {
      var p := Pushed(l, e);
      assert forall i :: 0 <= i < |l.ms| ==> l.ms[i].month != Month(e);
      FlatSame(l.ms, p.shards, l.ms, l.shards);
    }
    PushedHolds(Shard(l.shards, Month(e)), e);
  }

  lemma {:induction false} PushedHolds(s: seq<Entry>, e: Entry)
    ensures HasId(StableSort(s + [e], TimestampOf), e.id)
  {
    SortMembers(s + [e], TimestampOf);
    assert e in s + [e];
  }

  lemma {:induction false} StoppedListed(l: Listing, e: Entry)
    requires Good(l) && Listed(l.ms, Month(e))
    ensures Stopped(l, e).Content() == Insert(l.Content(), e, TimestampOf)
  {
    var p := Pushed(l, e);
    var i, j := FindMonth(l.ms, Month(e));
    PutSorted(l.ms, Month(e), i, j, |Shard(p.shards, Month(e))|);
    PushedContent(l, e);
    SameMonths(l.ms, p.ms, i, MonthCount(Month(e), |Shard(p.shards, Month(e))|));
    FlatSame(l.ms, p.shards, p.ms, p.shards);
  }

  lemma {:induction false} SameMonths(ms: seq<MonthCount>, ms': seq<MonthCount>, i: nat, x: MonthCount)
    requires i < |ms| && ms[i].month == x.month && ms' == ms[..i] + [x] + ms[i + 1..]
    ensures |ms'| == |ms| && forall k :: 0 <= k < |ms| ==> ms'[k].month == ms[k].month
  {
  }

  // The next capture of the month makes up for it: from there on the index is what it would have been.
  lemma {:induction false} NextOfMonth(l: Listing, e: Entry, f: Entry)
    requires Good(l) && Month(f) == Month(e)
    ensures Pushed(Stopped(l, e), f) == Pushed(Pushed(l, e), f)
    ensures Appended(Stopped(l, e), f) == if HasId(Shard(Pushed(l, e).shards, Month(e)), f.id) then Stopped(l, e)
                                          else Appended(Pushed(l, e), f)
  {
    var m, p := Month(e), Pushed(l, e);
    var i, j := FindMonth(l.ms, m);
    var n, k := |Shard(p.shards, m)|, |Shard(p.shards, m)| + 1;
    PutSorted(l.ms, m, i, j, n);
    PutSorted(l.ms, m, i, j, k);
    assert p.ms == l.ms[..i] + [MonthCount(m, n)] + l.ms[j..];
    assert Around(p.ms, m, i, i + 1);
    PutSorted(p.ms, m, i, i + 1, k);
    assert p.ms[..i] == l.ms[..i] && p.ms[i + 1..] == l.ms[j..];
    SortSorts(Shard(p.shards, m) + [f], TimestampOf);
  }

  // ---------- Reading ----------

  // The shards concatenated newest month first.
  function NewestFirst(l: Listing): seq<Entry>
    decreases |l.ms|
  {
    if l.ms == [] then [] else NewestFirst(Listing(l.ms[1..], l.shards)) + Shard(l.shards, l.ms[0].month)
  }

  // Sorting that gives the flat list.
  lemma {:induction false} SortNewestFirst(l: Listing)
    requires Ascending(l.ms) && GoodShards(l.ms, l.shards)
    ensures StableSort(NewestFirst(l), TimestampOf) == l.Content()
    decreases |l.ms|
  {
    if l.ms != [] {
      var rest := Listing(l.ms[1..], l.shards);
      SortNewestFirst(rest);
      ShardBeforeFlat(Shard(l.shards, l.ms[0].month), l.ms[0].month, rest.ms, l.shards);
      SortSwaps(NewestFirst(rest), Shard(l.shards, l.ms[0].month), TimestampOf);
    }
  }

  lemma {:induction false} LastOfRest(a: seq<Entry>, b: seq<Entry>, n: nat)
    requires a == [] || |b| >= n
    ensures Last(a + b, n) == Last(b, n)
  {
  }

  lemma {:induction false} LateMonths(l: Listing, i: nat)
    requires Ascending(l.ms) && GoodShards(l.ms, l.shards) && i <= |l.ms|
    ensures Ascending(l.ms[i..]) && GoodShards(l.ms[i..], l.shards)
    ensures l.Content() == Flat(l.ms[..i], l.shards) + Flat(l.ms[i..], l.shards)
  {
    FlatConcat(l.ms[..i], l.ms[i..], l.shards);
    assert l.ms[..i] + l.ms[i..] == l.ms;
  }

  // Stopping early is harmless: enough of the newest months hold the newest entries.
  lemma {:induction false} EnoughMonths(l: Listing, i: nat)
    requires Ascending(l.ms) && GoodShards(l.ms, l.shards) && i <= |l.ms|
    requires i == 0 || |NewestFirst(Listing(l.ms[i..], l.shards))| >= MAX_INDEX
    ensures Last(StableSort(NewestFirst(Listing(l.ms[i..], l.shards)), TimestampOf), MAX_INDEX)
         == Last(l.Content(), MAX_INDEX)
  {
    var late := Listing(l.ms[i..], l.shards);
    LateMonths(l, i);
    SortNewestFirst(late);
    SortSorts(NewestFirst(late), TimestampOf);
    LastOfRest(Flat(l.ms[..i], l.shards), late.Content(), MAX_INDEX);
  }
}
