// The stored capture index: month shards behind a manifest, and the one flat list they stand for.
module IndexStore {
  import opened Commons
  import opened IndexOrder

  const MAX_INDEX := 2000

  // `text` stands for the summary, the vector and the label, which the index carries along unread.
  datatype Entry = Entry(id: string, timestamp: string, text: string)

  datatype MonthCount = MonthCount(month: string, count: int)

  // A stored value: it may have been damaged so that it does not parse as an array.
  datatype Blob<+T> = Absent | Corrupt | Parsed(value: T)

  datatype State = State(
    legacy: Blob<seq<Entry>>,
    manifest: Blob<seq<MonthCount>>,
    shards: map<string, Blob<seq<Entry>>>)

  function TimestampOf(e: Entry): string {
    e.timestamp
  }

  function MonthName(m: MonthCount): string {
    m.month
  }

  function Month(e: Entry): string {
    Slice(e.timestamp, 7)
  }

  function ValueOf<T>(b: Blob<seq<T>>): seq<T> {
    if b.Parsed? then b.value else []
  }

  // readShard
  function Shard(shards: map<string, Blob<seq<Entry>>>, month: string): seq<Entry> {
    if month in shards then ValueOf(shards[month]) else []
  }

  predicate HasId(s: seq<Entry>, id: string) {
    exists x :: x in s && x.id == id
  }

  predicate UniqueIds(s: seq<Entry>) {
    forall i, j :: 0 <= i < j < |s| ==> s[i].id != s[j].id
  }

  // The list the shards stand for: all listed shards, in manifest order.
  function Flat(ms: seq<MonthCount>, shards: map<string, Blob<seq<Entry>>>): seq<Entry> {
    if ms == [] then [] else Shard(shards, ms[0].month) + Flat(ms[1..], shards)
  }

  lemma {:induction false} FlatConcat(a: seq<MonthCount>, b: seq<MonthCount>, shards: map<string, Blob<seq<Entry>>>)
    ensures Flat(a + b, shards) == Flat(a, shards) + Flat(b, shards)
  {
    if a == [] {
      assert a + b == b;
    } else {
      assert (a + b)[1..] == a[1..] + b;
      FlatConcat(a[1..], b, shards);
    }
  }

  // Only the months and the shards of the listed months matter.
  lemma {:induction false} FlatSame(a: seq<MonthCount>, s: map<string, Blob<seq<Entry>>>,
                                    b: seq<MonthCount>, t: map<string, Blob<seq<Entry>>>)
    requires |a| == |b|
    requires forall i :: 0 <= i < |a| ==> a[i].month == b[i].month && Shard(s, a[i].month) == Shard(t, a[i].month)
    ensures Flat(a, s) == Flat(b, t)
  {
    if a != [] {
      FlatSame(a[1..], s, b[1..], t);
    }
  }

  predicate Listed(ms: seq<MonthCount>, month: string) {
    exists i :: 0 <= i < |ms| && ms[i].month == month
  }

  predicate DistinctMonths(ms: seq<MonthCount>) {
    forall i, j :: 0 <= i < j < |ms| ==> ms[i].month != ms[j].month
  }

  predicate Ascending(ms: seq<MonthCount>) {
    forall i, j :: 0 <= i < j < |ms| ==> Less(ms[i].month, ms[j].month)
  }

  predicate Exact(ms: seq<MonthCount>, shards: map<string, Blob<seq<Entry>>>) {
    forall i :: 0 <= i < |ms| ==> ms[i].count == |Shard(shards, ms[i].month)|
  }

  // A shard holds entries of its month only, oldest first.
  predicate GoodShard(s: seq<Entry>, month: string) {
    (forall i :: 0 <= i < |s| ==> Month(s[i]) == month) && Sorted(s, TimestampOf)
  }

  predicate GoodShards(ms: seq<MonthCount>, shards: map<string, Blob<seq<Entry>>>) {
    forall i :: 0 <= i < |ms| ==> GoodShard(Shard(shards, ms[i].month), ms[i].month)
  }

  predicate NothingUnlisted(ms: seq<MonthCount>, shards: map<string, Blob<seq<Entry>>>) {
    forall m :: m in shards && !Listed(ms, m) ==> Shard(shards, m) == []
  }

  predicate GoodMonth(mc: MonthCount, shards: map<string, Blob<seq<Entry>>>) {
    var s := Shard(shards, mc.month);
    mc.count == |s| && GoodShard(s, mc.month) && UniqueIds(s)
  }

  // What every writer keeps: the manifest lists the months in order, each once, with exact counts;
  // shards are month-pure, sorted and free of repeated ids; no shard is unlisted.
  predicate WellFormed(ms: seq<MonthCount>, shards: map<string, Blob<seq<Entry>>>) {
    && Ascending(ms)
    && (forall i :: 0 <= i < |ms| ==> GoodMonth(ms[i], shards))
    && NothingUnlisted(ms, shards)
  }

  lemma {:induction false} WellFormedParts(ms: seq<MonthCount>, shards: map<string, Blob<seq<Entry>>>)
    requires WellFormed(ms, shards)
    ensures Exact(ms, shards) && GoodShards(ms, shards) && DistinctMonths(ms)
  {
    assert forall i :: 0 <= i < |ms| ==> GoodMonth(ms[i], shards);
    AscendingDistinct(ms);
  }

  lemma {:induction false} AscendingDistinct(ms: seq<MonthCount>)
    requires Ascending(ms)
    ensures DistinctMonths(ms)
  {
    forall i, j | 0 <= i < j < |ms|
      ensures ms[i].month != ms[j].month
    {
      if ms[i].month == ms[j].month {
        LessAsymmetric(ms[i].month, ms[j].month);
      }
    }
  }

  // ---------- Time order of the flat list ----------

  lemma {:induction false} EarlierMonth(a: Entry, b: Entry)
    requires Less(Month(a), Month(b))
    ensures Less(a.timestamp, b.timestamp)
  {
    SliceOrder(a.timestamp, b.timestamp, 7);
  }

  lemma {:induction false} FlatMember(ms: seq<MonthCount>, shards: map<string, Blob<seq<Entry>>>, e: Entry)
    returns (i: nat)
    requires e in Flat(ms, shards)
    ensures i < |ms| && e in Shard(shards, ms[i].month)
  {
    if e in Shard(shards, ms[0].month) {
      i := 0;
    } else {
      var k := FlatMember(ms[1..], shards, e);
      i := k + 1;
    }
  }

  lemma {:induction false} FlatHolds(ms: seq<MonthCount>, shards: map<string, Blob<seq<Entry>>>, i: nat, e: Entry)
    requires i < |ms| && e in Shard(shards, ms[i].month)
    ensures e in Flat(ms, shards)
  {
    if i > 0 {
      FlatHolds(ms[1..], shards, i - 1, e);
    }
  }

  // A shard is before everything in later months.
  lemma {:induction false} ShardBeforeFlat(s: seq<Entry>, month: string, ms: seq<MonthCount>, shards: map<string,
                                           Blob<seq<Entry>>>)
    requires GoodShard(s, month) && GoodShards(ms, shards)
    requires forall i :: 0 <= i < |ms| ==> Less(month, ms[i].month)
    ensures AllBefore(s, Flat(ms, shards), TimestampOf)
  {
    var f := Flat(ms, shards);
    forall i, j | 0 <= i < |s| && 0 <= j < |f|
      ensures Less(TimestampOf(s[i]), TimestampOf(f[j]))
    {
      var k := FlatMember(ms, shards, f[j]);
      EarlierMonth(s[i], f[j]);
    }
  }

  lemma {:induction false} SortedConcat(a: seq<Entry>, b: seq<Entry>)
    requires Sorted(a, TimestampOf) && Sorted(b, TimestampOf) && AllBefore(a, b, TimestampOf)
    ensures Sorted(a + b, TimestampOf)
  {
    var s := a + b;
    forall i, j | 0 <= i < j < |s|
      ensures !Less(TimestampOf(s[j]), TimestampOf(s[i]))
    {
      if i < |a| <= j {
        LessAsymmetric(TimestampOf(a[i]), TimestampOf(b[j - |a|]));
      }
    }
  }

  lemma {:induction false} FlatSorted(ms: seq<MonthCount>, shards: map<string, Blob<seq<Entry>>>)
    requires Ascending(ms) && GoodShards(ms, shards)
    ensures Sorted(Flat(ms, shards), TimestampOf)
  {
    if ms != [] {
      FlatSorted(ms[1..], shards);
      ShardBeforeFlat(Shard(shards, ms[0].month), ms[0].month, ms[1..], shards);
      SortedConcat(Shard(shards, ms[0].month), Flat(ms[1..], shards));
    }
  }

  // ---------- The flat index ----------

  // Appending on the flat list: ignore a known id, insert by time, drop the oldest.
  function AppendFlat(flat: seq<Entry>, e: Entry): seq<Entry> {
    if HasId(flat, e.id) then flat else Last(Insert(flat, e, TimestampOf), MAX_INDEX)
  }

  // Insertion by time inside one month, seen from the flat list.
  lemma {:induction false} InsertInMonth(before: seq<MonthCount>, month: string, after: seq<MonthCount>,
                      shards: map<string, Blob<seq<Entry>>>, e: Entry)
    requires GoodShards(before, shards) && GoodShards(after, shards) && Month(e) == month
    requires forall i :: 0 <= i < |before| ==> Less(before[i].month, month)
    requires forall i :: 0 <= i < |after| ==> Less(month, after[i].month)
    ensures Insert(Flat(before, shards) + Shard(shards, month) + Flat(after, shards), e, TimestampOf)
         == Flat(before, shards) + Insert(Shard(shards, month), e, TimestampOf) + Flat(after, shards)
  {
    forall x | x in Flat(before, shards)
      ensures !Less(TimestampOf(e), TimestampOf(x))
    {
      var k := FlatMember(before, shards, x);
      EarlierMonth(x, e);
      LessAsymmetric(TimestampOf(x), TimestampOf(e));
    }
    forall x | x in Flat(after, shards)
      ensures Less(TimestampOf(e), TimestampOf(x))
    {
      var k := FlatMember(after, shards, x);
      EarlierMonth(e, x);
    }
    InsertMiddle(Flat(before, shards), Shard(shards, month), Flat(after, shards), e, TimestampOf);
  }

  // Because an id fixes the month, looking for the id in the shard of the entry is looking for it
  // everywhere.
  predicate IdFixesMonth(flat: seq<Entry>, e: Entry) {
    forall i :: 0 <= i < |flat| && flat[i].id == e.id ==> Month(flat[i]) == Month(e)
  }

  // Ids of the form `local:` + timestamp fix the month.
  predicate LocalId(e: Entry) {
    e.id == "local:" + e.timestamp
  }

  lemma {:induction false} LocalIdsFixMonth(flat: seq<Entry>, e: Entry)
    requires LocalId(e) && forall i :: 0 <= i < |flat| ==> LocalId(flat[i])
    ensures IdFixesMonth(flat, e)
  {
    forall i | 0 <= i < |flat| && flat[i].id == e.id
      ensures Month(flat[i]) == Month(e)
    {
      assert flat[i].timestamp == ("local:" + flat[i].timestamp)[6..] == ("local:" + e.timestamp)[6..] == e.timestamp;
    }
  }

  lemma {:induction false} ShardDedupIsGlobal(ms: seq<MonthCount>, shards: map<string, Blob<seq<Entry>>>, e: Entry)
    requires GoodShards(ms, shards) && NothingUnlisted(ms, shards) && IdFixesMonth(Flat(ms, shards), e)
    ensures HasId(Shard(shards, Month(e)), e.id) <==> HasId(Flat(ms, shards), e.id)
  {
    var f, s := Flat(ms, shards), Shard(shards, Month(e));
    if HasId(f, e.id) {
      var x :| x in f && x.id == e.id;
      var k := FlatMember(ms, shards, x);
      assert Month(x) == ms[k].month;
    }
    if HasId(s, e.id) {
      var x :| x in s && x.id == e.id;
      assert Listed(ms, Month(e));
      var k :| 0 <= k < |ms| && ms[k].month == Month(e);
      FlatHolds(ms, shards, k, x);
    }
  }

  // Appending the same entry again changes nothing, even if it was evicted at once.
  lemma {:induction false} AppendTwice(flat: seq<Entry>, e: Entry)
    requires |flat| <= MAX_INDEX
    ensures AppendFlat(AppendFlat(flat, e), e) == AppendFlat(flat, e)
  {
    if !HasId(flat, e.id) && !HasId(AppendFlat(flat, e), e.id) {
      EvictedAtOnce(flat, e);
    }
  }

  // An entry that does not survive its own insertion was the oldest, and leaves the list as it was.
  lemma {:induction false} EvictedAtOnce(flat: seq<Entry>, e: Entry)
    requires |flat| <= MAX_INDEX && !HasId(flat, e.id) && !HasId(AppendFlat(flat, e), e.id)
    ensures AppendFlat(flat, e) == flat
  {
    var all := Insert(flat, e, TimestampOf);
    InsertContent(flat, e, TimestampOf);
    assert e in multiset(all);
    DroppedFromFront(all, MAX_INDEX, e);
    FrontMeansBefore(flat, e);
  }

  lemma {:induction false} DroppedFromFront(all: seq<Entry>, n: nat, e: Entry)
    requires |all| <= n + 1 && e in all && e !in Last(all, n)
    ensures all[0] == e && Last(all, n) == all[1..]
  {
    var i :| 0 <= i < |all| && all[i] == e;
    assert forall k :: 1 <= k < |all| ==> all[k] == all[1..][k - 1];
  }

  // If e ends up in front, the rest is the list as it was.
  lemma {:induction false} FrontMeansBefore(flat: seq<Entry>, e: Entry)
    requires Insert(flat, e, TimestampOf) != [] && Insert(flat, e, TimestampOf)[0] == e && !HasId(flat, e.id)
    ensures Insert(flat, e, TimestampOf) == [e] + flat
  {
    if flat != [] {
      assert flat[0].id != e.id;
      if Less(TimestampOf(e), TimestampOf(flat[|flat| - 1])) {
        var front := flat[..|flat| - 1];
        InsertContent(front, e, TimestampOf);
        assert !HasId(front, e.id) by {
          assert forall i :: 0 <= i < |front| ==> front[i] == flat[i];
        }
        FrontMeansBefore(front, e);
        assert [e] + front + [flat[|flat| - 1]] == [e] + flat;
      }
    }
  }
}
