// Moving the legacy index into month shards: what it writes, that it can be restarted after any write,
// and what it keeps.
module IndexMigration {
  import opened IndexOrder
  import opened IndexStore

  type Shards = map<string, Blob<seq<Entry>>>

  // The months of the legacy entries, in order of first appearance.
  function LegacyMonths(legacy: seq<Entry>): seq<string> {
    if legacy == [] then []
    else
      var ms, m := LegacyMonths(legacy[..|legacy| - 1]), Month(legacy[|legacy| - 1]);
      if m in ms then ms else ms + [m]
  }

  // The legacy entries of a month, the first of each id.
  function Bucket(legacy: seq<Entry>, month: string): seq<Entry> {
    if legacy == [] then []
    else
      var b, e := Bucket(legacy[..|legacy| - 1], month), legacy[|legacy| - 1];
      if Month(e) == month && !HasId(b, e.id) then b + [e] else b
  }

  function AddMissing(current: seq<Entry>, entries: seq<Entry>): seq<Entry> {
    if entries == [] then current
    else
      var c, e := AddMissing(current, entries[..|entries| - 1]), entries[|entries| - 1];
      if HasId(c, e.id) then c else c + [e]
  }

  function Merge(current: seq<Entry>, entries: seq<Entry>): seq<Entry> {
    StableSort(AddMissing(current, entries), TimestampOf)
  }

  function Merged(st: State, month: string): seq<Entry> {
    Merge(Shard(st.shards, month), Bucket(ValueOf(st.legacy), month))
  }

  // Map.set on a map that remembers the order of insertion
  function Put(ms: seq<MonthCount>, month: string, count: int): seq<MonthCount> {
    if ms == [] then [MonthCount(month, count)]
    else if ms[0].month == month then [MonthCount(month, count)] + ms[1..]
    else [ms[0]] + Put(ms[1..], month, count)
  }

  // new Map(ms)
  function FromList(ms: seq<MonthCount>): seq<MonthCount> {
    if ms == [] then []
    else Put(FromList(ms[..|ms| - 1]), ms[|ms| - 1].month, ms[|ms| - 1].count)
  }

  function PutMerged(ms: seq<MonthCount>, months: seq<string>, st: State): seq<MonthCount> {
    if months == [] then ms
    else
      var m := months[|months| - 1];
      Put(PutMerged(ms, months[..|months| - 1], st), m, |Merged(st, m)|)
  }

  function SortMonths(ms: seq<MonthCount>): seq<MonthCount> {
    StableSort(ms, MonthName)
  }

  function NewManifest(st: State): seq<MonthCount> {
    SortMonths(PutMerged(FromList(ValueOf(st.manifest)), LegacyMonths(ValueOf(st.legacy)), st))
  }

  // ---------- The writes ----------

  datatype Write = SetShard(month: string, entries: seq<Entry>) | SetManifest(ms: seq<MonthCount>) | RemoveLegacy

  function Perform(st: State, w: Write): State {
    match w
    case SetShard(m, es) => st.(shards := st.shards[m := Parsed(es)])
    case SetManifest(ms) => st.(manifest := Parsed(ms))
    case RemoveLegacy => st.(legacy := Absent)
  }

  function Performed(st: State, ws: seq<Write>): State {
    if ws == [] then st else Perform(Performed(st, ws[..|ws| - 1]), ws[|ws| - 1])
  }

  function ShardWrites(st: State, months: seq<string>): (ws: seq<Write>)
    ensures |ws| == |months|
  {
    seq(|months|, i requires 0 <= i < |months| => SetShard(months[i], Merged(st, months[i])))
  }

  // What migrateLegacyIfPresent writes, in order.
  function MigrationWrites(st: State): seq<Write> {
    if st.legacy.Absent? then []
    else ShardWrites(st, LegacyMonths(ValueOf(st.legacy))) + [SetManifest(NewManifest(st)), RemoveLegacy]
  }

  function Migrated(st: State): State {
    Performed(st, MigrationWrites(st))
  }

  lemma {:induction false} NextPerformed(st: State, ws: seq<Write>, i: nat)
    requires i < |ws|
    ensures Performed(st, ws[..i + 1]) == Perform(Performed(st, ws[..i]), ws[i])
  {
    assert ws[..i + 1][..i] == ws[..i];
  }

  // ---------- Restarting ----------

  // The months in `done` have been merged, nothing else has changed.
  ghost predicate PartlyMigrated(st: State, now: State, done: seq<string>) {
    && now.legacy == st.legacy && now.manifest == st.manifest
    && (forall m :: m in now.shards <==> m in done || m in st.shards)
    && (forall m :: m in now.shards ==>
          now.shards[m] == if m in done then Parsed(Merged(st, m)) else st.shards[m])
  }

  lemma {:induction false} OneShardWritten(st: State, now: State, done: seq<string>, month: string)
    requires PartlyMigrated(st, now, done)
    ensures PartlyMigrated(st, Perform(now, SetShard(month, Merged(st, month))), done + [month])
  {
  }

  lemma {:induction false} ShardsWritten(st: State, now: State, done: seq<string>, months: seq<string>, k: nat)
    requires PartlyMigrated(st, now, done) && k <= |months|
    ensures PartlyMigrated(st, Performed(now, ShardWrites(st, months)[..k]), done + months[..k])
  {
    var ws := ShardWrites(st, months);
    if k > 0 {
      var before, month := done + months[..k - 1], months[k - 1];
      assert done + months[..k] == before + [month] && ws[k - 1] == SetShard(month, Merged(st, month));
      NextPerformed(now, ws, k - 1);
      ShardsWritten(st, now, done, months, k - 1);
      OneShardWritten(st, Performed(now, ws[..k - 1]), before, month);
    } else {
      assert ws[..k] == [] && done + months[..k] == done;
    }
  }

  lemma {:induction false} HasIdPush(c: seq<Entry>, e: Entry, id: string)
    ensures HasId(c + [e], id) <==> HasId(c, id) || e.id == id
  {
    assert e in c + [e];
    assert forall x :: x in c + [e] <==> x in c || x == e;
  }

  lemma {:induction false} AddMissingIds(current: seq<Entry>, entries: seq<Entry>, id: string)
    ensures HasId(AddMissing(current, entries), id) <==> HasId(current, id) || HasId(entries, id)
  {
    if entries != [] {
      var front, e := entries[..|entries| - 1], entries[|entries| - 1];
      assert entries == front + [e];
      AddMissingIds(current, front, id);
      HasIdPush(AddMissing(current, front), e, id);
      HasIdPush(front, e, id);
    }
  }

  lemma {:induction false} HasIdSorted(s: seq<Entry>, id: string)
    ensures HasId(StableSort(s, TimestampOf), id) <==> HasId(s, id)
  {
    SortMembers(s, TimestampOf);
  }

  lemma {:induction false} NothingMissing(current: seq<Entry>, entries: seq<Entry>)
    requires forall x :: x in entries ==> HasId(current, x.id)
    ensures AddMissing(current, entries) == current
  {
    if entries != [] {
      NothingMissing(current, entries[..|entries| - 1]);
    }
  }

  // Merging the same entries again changes nothing.
  lemma {:induction false} MergeTwice(current: seq<Entry>, entries: seq<Entry>)
    ensures Merge(Merge(current, entries), entries) == Merge(current, entries)
  {
    var all := AddMissing(current, entries);
    var once := Merge(current, entries);
    forall x | x in entries
      ensures HasId(once, x.id)
    {
      AddMissingIds(current, entries, x.id);
      HasIdSorted(all, x.id);
    }
    NothingMissing(once, entries);
    SortSorts(all, TimestampOf);
    SortOfSorted(once, TimestampOf);
  }

  lemma {:induction false} MergedAgain(st: State, now: State, done: seq<string>, month: string)
    requires PartlyMigrated(st, now, done)
    ensures Merged(now, month) == Merged(st, month)
  {
    MergeTwice(Shard(st.shards, month), Bucket(ValueOf(st.legacy), month));
    if month in done {
      assert month in now.shards;
      assert Shard(now.shards, month) == Merged(st, month);
    } else {
      assert Shard(now.shards, month) == Shard(st.shards, month);
    }
  }

  lemma {:induction false} SamePut(ms: seq<MonthCount>, months: seq<string>, st: State, now: State)
    requires forall m :: |Merged(now, m)| == |Merged(st, m)|
    ensures PutMerged(ms, months, now) == PutMerged(ms, months, st)
  {
    if months != [] {
      SamePut(ms, months[..|months| - 1], st, now);
    }
  }

  // As long as only shards have been written, the same writes are still to do.
  lemma {:induction false} SameWrites(st: State, now: State, done: seq<string>)
    requires PartlyMigrated(st, now, done) && !st.legacy.Absent?
    ensures MigrationWrites(now) == MigrationWrites(st)
  {
    forall m
      ensures Merged(now, m) == Merged(st, m)
    {
      MergedAgain(st, now, done, m);
    }
    var months := LegacyMonths(ValueOf(st.legacy));
    SamePut(FromList(ValueOf(st.manifest)), months, st, now);
    assert ShardWrites(now, months) == ShardWrites(st, months);
  }

  // All shards written: nothing of what was done before matters.
  lemma {:induction false} AllShardsWritten(st: State, now: State, done: seq<string>, months: seq<string>)
    requires PartlyMigrated(st, now, done) && (forall m :: m in done ==> m in months)
    ensures Performed(now, ShardWrites(st, months)) == Performed(st, ShardWrites(st, months))
  {
    var ws := ShardWrites(st, months);
    assert ws[..|ws|] == ws && months[..|months|] == months;
    ShardsWritten(st, st, [], months, |months|);
    ShardsWritten(st, now, done, months, |months|);
    SamePartly(st, Performed(now, ws), Performed(st, ws), done + months, [] + months);
  }

  lemma {:induction false} SamePartly(st: State, a: State, b: State, x: seq<string>, y: seq<string>)
    requires PartlyMigrated(st, a, x) && PartlyMigrated(st, b, y) && forall m :: m in x <==> m in y
    ensures a == b
  {
    assert a.shards == b.shards;
  }

  lemma {:induction false} PerformedMore(st: State, ws: seq<Write>, w: Write)
    ensures Performed(st, ws + [w]) == Perform(Performed(st, ws), w)
  {
    assert (ws + [w])[..|ws|] == ws;
  }

  lemma {:induction false} FullRun(st: State, ws: seq<Write>, ms: seq<MonthCount>)
    ensures Performed(st, ws + [SetManifest(ms), RemoveLegacy])
         == Performed(st, ws).(manifest := Parsed(ms), legacy := Absent)
  {
    assert ws + [SetManifest(ms), RemoveLegacy] == ws + [SetManifest(ms)] + [RemoveLegacy];
    PerformedMore(st, ws, SetManifest(ms));
    PerformedMore(st, ws + [SetManifest(ms)], RemoveLegacy);
  }

  lemma {:induction false} RestartAmongShards(st: State, k: nat)
    requires !st.legacy.Absent? && k <= |LegacyMonths(ValueOf(st.legacy))|
    ensures Migrated(Performed(st, MigrationWrites(st)[..k])) == Migrated(st)
  {
    var months := LegacyMonths(ValueOf(st.legacy));
    var ws := ShardWrites(st, months);
    assert MigrationWrites(st)[..k] == ws[..k];
    var now := Performed(st, ws[..k]);
    ShardsWritten(st, st, [], months, k);
    assert [] + months[..k] == months[..k];
    SameWrites(st, now, months[..k]);
    AllShardsWritten(st, now, months[..k], months);
    FullRun(st, ws, NewManifest(st));
    FullRun(now, ws, NewManifest(st));
  }

  // ---------- Restarting after the manifest was written ----------

  lemma {:induction false} PutSame(ms: seq<MonthCount>, i: nat)
    requires i < |ms| && forall j :: 0 <= j < i ==> ms[j].month != ms[i].month
    ensures Put(ms, ms[i].month, ms[i].count) == ms
  {
    if i > 0 {
      PutSame(ms[1..], i - 1);
    }
  }

  lemma {:induction false} PutNew(ms: seq<MonthCount>, x: MonthCount)
    requires forall j :: 0 <= j < |ms| ==> ms[j].month != x.month
    ensures Put(ms, x.month, x.count) == ms + [x]
  {
    if ms != [] {
      PutNew(ms[1..], x);
      assert [ms[0]] + (ms[1..] + [x]) == ms + [x];
    }
  }

  lemma {:induction false} FromDistinct(ms: seq<MonthCount>)
    requires DistinctMonths(ms)
    ensures FromList(ms) == ms
  {
    if ms != [] {
      var front := ms[..|ms| - 1];
      FromDistinct(front);
      PutNew(front, ms[|ms| - 1]);
    }
  }

  lemma {:induction false} PutMembers(ms: seq<MonthCount>, month: string, count: int)
    requires DistinctMonths(ms)
    ensures DistinctMonths(Put(ms, month, count))
    ensures forall x :: x in Put(ms, month, count) <==> x == MonthCount(month, count) || (x in ms && x.month != month)
  {
    if ms != [] && ms[0].month != month {
      PutMembers(ms[1..], month, count);
      assert forall x :: x in ms <==> x == ms[0] || x in ms[1..];
      var rest := Put(ms[1..], month, count);
      assert forall i :: 0 <= i < |rest| ==> rest[i] in rest;
      assert forall x :: x in ms[1..] ==> x.month != ms[0].month;
    } else if ms != [] {
      assert forall x :: x in ms[1..] ==> x.month != month;
    }
  }

  lemma {:induction false} FromListDistinct(ms: seq<MonthCount>)
    ensures DistinctMonths(FromList(ms))
  {
    if ms != [] {
      FromListDistinct(ms[..|ms| - 1]);
      PutMembers(FromList(ms[..|ms| - 1]), ms[|ms| - 1].month, ms[|ms| - 1].count);
    }
  }

  lemma {:induction false} PutMergedMembers(ms: seq<MonthCount>, months: seq<string>, st: State)
    requires DistinctMonths(ms)
    ensures DistinctMonths(PutMerged(ms, months, st))
    ensures forall m :: m in months ==> MonthCount(m, |Merged(st, m)|) in PutMerged(ms, months, st)
    ensures forall x :: x in PutMerged(ms, months, st) ==>
              if x.month in months then x.count == |Merged(st, x.month)| else x in ms
    ensures forall x :: x in ms && x.month !in months ==> x in PutMerged(ms, months, st)
  {
    if months != [] {
      var m := months[|months| - 1];
      PutMergedMembers(ms, months[..|months| - 1], st);
      PutMembers(PutMerged(ms, months[..|months| - 1], st), m, |Merged(st, m)|);
    }
  }

  lemma {:induction false} AlreadyPut(ms: seq<MonthCount>, months: seq<string>, st: State)
    requires DistinctMonths(ms)
    requires forall m :: m in months ==> MonthCount(m, |Merged(st, m)|) in ms
    ensures PutMerged(ms, months, st) == ms
  {
    if months != [] {
      var m := months[|months| - 1];
      AlreadyPut(ms, months[..|months| - 1], st);
      var i :| 0 <= i < |ms| && ms[i] == MonthCount(m, |Merged(st, m)|);
      PutSame(ms, i);
    }
  }

  lemma {:induction false} SortedAscends(s: seq<MonthCount>)
    requires Sorted(s, MonthName) && DistinctMonths(s)
    ensures Ascending(s)
  {
    forall i, j | 0 <= i < j < |s|
      ensures Less(s[i].month, s[j].month)
    {
      assert !Less(MonthName(s[j]), MonthName(s[i]));
      LessTotal(s[i].month, s[j].month);
    }
  }

  lemma {:induction false} SortDistinct(ms: seq<MonthCount>)
    requires DistinctMonths(ms)
    ensures DistinctMonths(SortMonths(ms)) && Ascending(SortMonths(ms))
    ensures forall x :: x in SortMonths(ms) <==> x in ms
  {
    SortMembers(ms, MonthName);
    if ms != [] {
      var front, z := ms[..|ms| - 1], ms[|ms| - 1];
      SortDistinct(front);
      InsertDistinct(SortMonths(front), z);
    }
    SortSorts(ms, MonthName);
    SortedAscends(SortMonths(ms));
  }

  lemma {:induction false} InsertDistinct(s: seq<MonthCount>, e: MonthCount)
    requires DistinctMonths(s) && forall x :: x in s ==> x.month != e.month
    ensures DistinctMonths(Insert(s, e, MonthName))
  {
    if s != [] && Less(MonthName(e), MonthName(s[|s| - 1])) {
      var front := s[..|s| - 1];
      InsertDistinct(front, e);
      InsertContent(front, e, MonthName);
      var r := Insert(front, e, MonthName);
      forall i | 0 <= i < |r|
        ensures r[i].month != s[|s| - 1].month
      {
        assert r[i] in multiset(r);
        assert r[i] in front || r[i] == e;
      }
    }
  }

  // The manifest is final once written: writing it again changes nothing.
  lemma {:induction false} ManifestSettled(st: State, now: State)
    requires now.legacy == st.legacy && now.manifest == Parsed(NewManifest(st))
    requires forall m :: |Merged(now, m)| == |Merged(st, m)|
    ensures NewManifest(now) == NewManifest(st)
  {
    var months := LegacyMonths(ValueOf(st.legacy));
    var old' := FromList(ValueOf(st.manifest));
    FromListDistinct(ValueOf(st.manifest));
    PutMergedMembers(old', months, st);
    SortDistinct(PutMerged(old', months, st));
    var ms := NewManifest(st);
    FromDistinct(ms);
    AlreadyPut(ms, months, now);
    SortSorts(PutMerged(old', months, st), MonthName);
    SortOfSorted(ms, MonthName);
  }

  lemma {:induction false} RestartBeforeRemoval(st: State)
    requires !st.legacy.Absent?
    ensures var ws := MigrationWrites(st);
            Migrated(Performed(st, ws[..|ws| - 1])) == Migrated(st)
  {
    var months := LegacyMonths(ValueOf(st.legacy));
    var ws := ShardWrites(st, months);
    var all := MigrationWrites(st);
    assert all[..|all| - 1] == ws + [SetManifest(NewManifest(st))];
    PerformedMore(st, ws, SetManifest(NewManifest(st)));
    assert ws[..|ws|] == ws && months[..|months|] == months;
    ShardsWritten(st, st, [], months, |months|);
    assert [] + months == months;
    var part := Performed(st, ws);
    var now := part.(manifest := Parsed(NewManifest(st)));
    forall m
      ensures Merged(now, m) == Merged(st, m)
    {
      MergedAgain(st, part, months, m);
    }
    ManifestSettled(st, now);
    assert ShardWrites(now, months) == ws;
    FullRun(st, ws, NewManifest(st));
    FullRun(now, ws, NewManifest(st));
    AllShardsWritten(st, part, months, months);
    OtherManifest(part, ws, Parsed(NewManifest(st)));
  }

  // Shard writes do not look at the manifest.
  lemma {:induction false} OtherManifest(st: State, ws: seq<Write>, ms: Blob<seq<MonthCount>>)
    requires forall i :: 0 <= i < |ws| ==> ws[i].SetShard?
    ensures Performed(st.(manifest := ms), ws) == Performed(st, ws).(manifest := ms)
  {
    if ws != [] {
      OtherManifest(st, ws[..|ws| - 1], ms);
    }
  }

  // Stopping after any write and starting over gives what an uninterrupted migration gives.
  lemma {:induction false} Restartable(st: State, k: nat)
    requires k <= |MigrationWrites(st)|
    ensures Migrated(Performed(st, MigrationWrites(st)[..k])) == Migrated(st)
  {
    var ws := MigrationWrites(st);
    if st.legacy.Absent? {
      assert ws[..k] == [];
    } else if k <= |ws| - 2 {
      RestartAmongShards(st, k);
    } else if k == |ws| - 1 {
      RestartBeforeRemoval(st);
    } else {
      assert ws[..k] == ws;
      FullRun(st, ShardWrites(st, LegacyMonths(ValueOf(st.legacy))), NewManifest(st));
    }
  }

  // ---------- What a migration keeps ----------

  predicate FromLegacy(legacy: seq<Entry>, month: string, id: string) {
    exists x :: x in legacy && Month(x) == month && x.id == id
  }

  lemma {:induction false} FromLegacyPush(c: seq<Entry>, e: Entry, month: string, id: string)
    ensures FromLegacy(c + [e], month, id) <==> FromLegacy(c, month, id) || (Month(e) == month && e.id == id)
  {
    assert e in c + [e];
    assert forall x :: x in c + [e] <==> x in c || x == e;
  }

  lemma {:induction false} BucketIds(legacy: seq<Entry>, month: string, id: string)
    ensures HasId(Bucket(legacy, month), id) <==> FromLegacy(legacy, month, id)
  {
    if legacy != [] {
      var front, e := legacy[..|legacy| - 1], legacy[|legacy| - 1];
      assert legacy == front + [e];
      BucketIds(front, month, id);
      HasIdPush(Bucket(front, month), e, id);
      FromLegacyPush(front, e, month, id);
    }
  }

  lemma {:induction false} BucketMembers(legacy: seq<Entry>, month: string)
    ensures forall x :: x in Bucket(legacy, month) ==> x in legacy && Month(x) == month
  {
    if legacy != [] {
      BucketMembers(legacy[..|legacy| - 1], month);
    }
  }

  lemma {:induction false} LegacyMonthsAre(legacy: seq<Entry>)
    ensures forall x :: x in legacy ==> Month(x) in LegacyMonths(legacy)
  {
    if legacy != [] {
      LegacyMonthsAre(legacy[..|legacy| - 1]);
    }
  }

  lemma {:induction false} AddMissingMembers(current: seq<Entry>, entries: seq<Entry>)
    ensures current <= AddMissing(current, entries)
    ensures forall x :: x in AddMissing(current, entries) ==> x in current || x in entries
    ensures UniqueIds(current) ==> UniqueIds(AddMissing(current, entries))
  {
    if entries != [] {
      var front, e := entries[..|entries| - 1], entries[|entries| - 1];
      AddMissingMembers(current, front);
      var c := AddMissing(current, front);
      assert forall i :: 0 <= i < |c| ==> c[i] in c;
    }
  }

  lemma {:induction false} InsertUnique(s: seq<Entry>, e: Entry)
    requires UniqueIds(s) && !HasId(s, e.id)
    ensures UniqueIds(Insert(s, e, TimestampOf))
  {
    if s != [] && Less(TimestampOf(e), TimestampOf(s[|s| - 1])) {
      var front := s[..|s| - 1];
      InsertUnique(front, e);
      InsertContent(front, e, TimestampOf);
      var r := Insert(front, e, TimestampOf);
      forall i | 0 <= i < |r|
        ensures r[i].id != s[|s| - 1].id
      {
        assert r[i] in multiset(r);
        assert r[i] in front || r[i] == e;
      }
    }
  }

  lemma {:induction false} SortUnique(s: seq<Entry>)
    requires UniqueIds(s)
    ensures UniqueIds(StableSort(s, TimestampOf))
  {
    if s != [] {
      var front, e := s[..|s| - 1], s[|s| - 1];
      SortUnique(front);
      SortMembers(front, TimestampOf);
      InsertUnique(StableSort(front, TimestampOf), e);
    }
  }

  // A merged shard holds the ids it held and the legacy ids of its month, each id once if they were
  // unique, oldest first; what it held is still there, and nothing comes from elsewhere.
  lemma {:induction false} MergedShard(st: State, month: string)
    requires GoodShard(Shard(st.shards, month), month) && UniqueIds(Shard(st.shards, month))
    ensures var s := Shard(st.shards, month);
            && GoodShard(Merged(st, month), month) && UniqueIds(Merged(st, month))
            && (forall x :: x in s ==> x in Merged(st, month))
            && (forall x :: x in Merged(st, month) ==> x in s || x in ValueOf(st.legacy))
  {
    var s, b := Shard(st.shards, month), Bucket(ValueOf(st.legacy), month);
    BucketMembers(ValueOf(st.legacy), month);
    AddMissingMembers(s, b);
    SortMembers(AddMissing(s, b), TimestampOf);
    SortSorts(AddMissing(s, b), TimestampOf);
    SortUnique(AddMissing(s, b));
    forall i | 0 <= i < |Merged(st, month)|
      ensures Month(Merged(st, month)[i]) == month
    {
      assert Merged(st, month)[i] in AddMissing(s, b);
    }
  }

  lemma {:induction false} MergedIds(st: State, month: string, id: string)
    ensures HasId(Merged(st, month), id) <==>
            HasId(Shard(st.shards, month), id) || FromLegacy(ValueOf(st.legacy), month, id)
  {
    BucketIds(ValueOf(st.legacy), month, id);
    AddMissingIds(Shard(st.shards, month), Bucket(ValueOf(st.legacy), month), id);
    HasIdSorted(AddMissing(Shard(st.shards, month), Bucket(ValueOf(st.legacy), month)), id);
  }

  // The order in which the months are met does not matter: this describes all shards afterwards.
  lemma {:induction false} MigratedShards(st: State)
    requires !st.legacy.Absent?
    ensures var months := LegacyMonths(ValueOf(st.legacy));
            && Migrated(st).legacy == Absent && Migrated(st).manifest == Parsed(NewManifest(st))
            && (forall m :: Shard(Migrated(st).shards, m) ==
                            if m in months then Merged(st, m) else Shard(st.shards, m))
            && (forall m :: m in Migrated(st).shards <==> m in months || m in st.shards)
  {
    var months := LegacyMonths(ValueOf(st.legacy));
    var ws := ShardWrites(st, months);
    assert ws[..|ws|] == ws && [] + months[..|months|] == months;
    ShardsWritten(st, st, [], months, |months|);
    FullRun(st, ws, NewManifest(st));
  }

  // Every legacy entry is in the shard of its month afterwards, by id.
  lemma {:induction false} LegacyKept(st: State, e: Entry)
    requires e in ValueOf(st.legacy)
    ensures HasId(Shard(Migrated(st).shards, Month(e)), e.id)
  {
    MigratedShards(st);
    LegacyMonthsAre(ValueOf(st.legacy));
    MergedIds(st, Month(e), e.id);
  }

  // Members of the new manifest.
  lemma {:induction false} ManifestMembers(st: State)
    requires DistinctMonths(ValueOf(st.manifest))
    ensures var months := LegacyMonths(ValueOf(st.legacy));
            && Ascending(NewManifest(st))
            && (forall m :: m in months ==> MonthCount(m, |Merged(st, m)|) in NewManifest(st))
            && (forall x :: x in NewManifest(st) ==>
                  if x.month in months then x.count == |Merged(st, x.month)| else x in ValueOf(st.manifest))
            && (forall x :: x in ValueOf(st.manifest) && x.month !in months ==> x in NewManifest(st))
  {
    FromDistinct(ValueOf(st.manifest));
    PutMergedMembers(ValueOf(st.manifest), LegacyMonths(ValueOf(st.legacy)), st);
    SortDistinct(PutMerged(FromList(ValueOf(st.manifest)), LegacyMonths(ValueOf(st.legacy)), st));
  }

  predicate Sound(st: State) {
    WellFormed(ValueOf(st.manifest), st.shards)
  }

  lemma {:induction false} UnlistedIsEmpty(st: State, month: string)
    requires Sound(st) && !Listed(ValueOf(st.manifest), month)
    ensures Shard(st.shards, month) == []
  {
  }

  lemma {:induction false} ShardIsGood(st: State, month: string)
    requires Sound(st)
    ensures GoodShard(Shard(st.shards, month), month) && UniqueIds(Shard(st.shards, month))
  {
    if Listed(ValueOf(st.manifest), month) {
      var i :| 0 <= i < |ValueOf(st.manifest)| && ValueOf(st.manifest)[i].month == month;
      assert GoodMonth(ValueOf(st.manifest)[i], st.shards);
    } else {
      UnlistedIsEmpty(st, month);
    }
  }

  // A sound index is sound after the migration.
  lemma {:induction false} MigratedSound(st: State)
    requires Sound(st)
    ensures Sound(Migrated(st)) && Migrated(st).legacy.Absent?
  {
    if !st.legacy.Absent? {
      var months, ms, old' := LegacyMonths(ValueOf(st.legacy)), NewManifest(st), ValueOf(st.manifest);
      var shards := Migrated(st).shards;
      AscendingDistinct(old');
      ManifestMembers(st);
      MigratedShards(st);
      forall i | 0 <= i < |ms|
        ensures GoodMonth(ms[i], shards)
      {
        ShardIsGood(st, ms[i].month);
        MergedShard(st, ms[i].month);
        assert ms[i] in ms;
        assert ms[i] in old' ==> GoodMonth(ms[i], st.shards);
      }
      forall m | m in shards && !Listed(ms, m)
        ensures Shard(shards, m) == []
      {
        NotListedMeans(ms, m);
        NotInNew(st, m);
      }
    }
  }

  lemma {:induction false} NotListedMeans(ms: seq<MonthCount>, m: string)
    requires !Listed(ms, m)
    ensures forall x :: x in ms ==> x.month != m
  {
  }

  lemma {:induction false} NotInNew(st: State, m: string)
    requires Sound(st) && !st.legacy.Absent? && !Listed(NewManifest(st), m)
    ensures m !in LegacyMonths(ValueOf(st.legacy)) && Shard(st.shards, m) == []
  {
    AscendingDistinct(ValueOf(st.manifest));
    ManifestMembers(st);
    NotListedMeans(NewManifest(st), m);
    assert forall x :: x in ValueOf(st.manifest) ==> x.month != m;
    UnlistedIsEmpty(st, m);
  }
}
