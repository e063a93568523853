// captureIndex.ts: the stored index and the operations on it.
module CaptureIndex {
  import opened Commons
  import opened IndexOrder
  import opened IndexStore
  import opened IndexMigration
  import opened IndexEviction
  import opened IndexAppend

  class CaptureIndex {
    var legacy: Blob<seq<Entry>>
    var manifest: Blob<seq<MonthCount>>
    var shards: Shards

    ghost function Stored(): State
      reads this
    {
      State(legacy, manifest, shards)
    }

    ghost function Index(): Listing
      reads this
    {
      ListingOf(Stored())
    }

    constructor ()
      ensures Stored() == State(Absent, Absent, map[])
    {
      legacy, manifest, shards := Absent, Absent, map[];
    }

    method WriteManifest(ms: seq<MonthCount>)
      modifies this`manifest
      ensures manifest == Parsed(SortMonths(ms))
    {
      manifest := Parsed(SortMonths(ms));
    }

    method WriteShard(month: string, entries: seq<Entry>)
      modifies this`shards
      ensures shards == old(shards)[month := Parsed(entries)]
    {
      shards := shards[month := Parsed(entries)];
    }

    method MigrateLegacyIfPresent()
      modifies this
      ensures Stored() == Migrated(old(Stored()))
    {
      if legacy.Absent? {
        return;
      }
      ghost var st := Stored();
      var entries := ValueOf(legacy);
      var months, buckets := ByMonth(entries);
      var counts := FromList(ValueOf(manifest));
      var i := 0;
      while i < |months|
        invariant 0 <= i <= |months|
        invariant Stored() == Performed(st, ShardWrites(st, months)[..i])
        invariant counts == PutMerged(FromList(ValueOf(st.manifest)), months[..i], st)
      {
        var month := months[i];
        MigratedNext(st, Stored(), months, i, counts);
        var current := MergeInto(Shard(shards, month), buckets[month]);
        WriteShard(month, current);
        counts := Put(counts, month, |current|);
        i := i + 1;
      }
      assert months[..|months|] == months && ShardWrites(st, months)[..|months|] == ShardWrites(st, months);
      WriteManifest(counts);
      legacy := Absent;
      FullRun(st, ShardWrites(st, months), NewManifest(st));
    }

    // byMonth: the months in order of appearance, and the bucket of each.
    static method ByMonth(entries: seq<Entry>) returns (months: seq<string>, buckets: map<string, seq<Entry>>)
      ensures months == LegacyMonths(entries)
      ensures forall m :: m in months ==> m in buckets && buckets[m] == Bucket(entries, m)
    {
      months, buckets := [], map[];
      for i := 0 to |entries|
        invariant months == LegacyMonths(entries[..i])
        invariant forall m :: m in buckets <==> m in months
        invariant forall m :: m in months ==> buckets[m] == Bucket(entries[..i], m)
        invariant forall m :: m !in months ==> Bucket(entries[..i], m) == []
      {
        OneMoreEntry(entries, i);
        var e := entries[i];
        var m := Month(e);
        var bucket := if m in buckets then buckets[m] else [];
        if !HasId(bucket, e.id) {
          bucket := bucket + [e];
        }
        buckets := buckets[m := bucket];
        if m !in months {
          months := months + [m];
        }
      }
      assert entries[..|entries|] == entries;
    }

    // The shard of a month with what it misses of a bucket, sorted.
    static method MergeInto(shard: seq<Entry>, bucket: seq<Entry>) returns (current: seq<Entry>)
      ensures current == Merge(shard, bucket)
    {
      current := shard;
      for i := 0 to |bucket|
        invariant current == AddMissing(shard, bucket[..i])
      {
        assert bucket[..i + 1][..i] == bucket[..i];
        if !HasId(current, bucket[i].id) {
          current := current + [bucket[i]];
        }
      }
      assert bucket[..|bucket|] == bucket;
      current := StableSort(current, TimestampOf);
    }

    method Evict(ms0: seq<MonthCount>) returns (ms: seq<MonthCount>)
      modifies this`shards
      ensures Listing(ms, shards) == Evicted(Listing(ms0, old(shards)))
    {
      ms := ms0;
      var total := Sum(ms);
      while total > MAX_INDEX && |ms| > 0
        invariant total == Total(ms)
        invariant Evicted(Listing(ms, shards)) == Evicted(Listing(ms0, old(shards)))
        decreases |ms|, total
      {
        var oldest := ms[0];
        var shard := Shard(shards, oldest.month);
        ghost var now := Listing(ms, shards);
        if |shard| != oldest.count {
          total := total + |shard| - oldest.count;
          ms := Recount(ms, |shard|);
          if total <= MAX_INDEX {
            break;
          }
        }
        var overflow := total - MAX_INDEX;
        assert ms[1..] == now.ms[1..];
        if |shard| <= overflow {
          shards := shards - {oldest.month};
          total := total - |shard|;
          ms := ms[1..];
        } else {
          var kept := shard[overflow..];
          WriteShard(oldest.month, kept);
          total := total - (|shard| - |kept|);
          ms := Recount(ms, |kept|);
        }
      }
    }

    static method Sum(ms: seq<MonthCount>) returns (total: int)
      ensures total == Total(ms)
    {
      total := 0;
      for i := 0 to |ms|
        invariant total + Total(ms[i..]) == Total(ms)
      {
        total := total + ms[i].count;
      }
    }

    method AppendEntry(e: Entry)
      modifies this
      ensures legacy == Absent
      ensures Index() == Appended(ListingOf(Migrated(old(Stored()))), e)
    {
      MigrateLegacyIfPresent();
      var month := Month(e);
      var ms := ValueOf(manifest);
      var shard := Shard(shards, month);
      if HasId(shard, e.id) {
        return;
      }
      shard := StableSort(shard + [e], TimestampOf);
      WriteShard(month, shard);
      ms := SortMonths(Put(ms, month, |shard|));
      ms := Evict(ms);
      WriteManifest(ms);
    }

    method ReadIndex() returns (entries: seq<Entry>)
      requires var st := if ValueOf(manifest) == [] then Migrated(Stored()) else Stored();
               Ascending(ListingOf(st).ms) && GoodShards(ListingOf(st).ms, st.shards)
      modifies this
      ensures Stored() == if ValueOf(old(manifest)) == [] then Migrated(old(Stored())) else old(Stored())
      ensures entries == Last(Index().Content(), MAX_INDEX)
    {
      var ms := ValueOf(manifest);
      if ms == [] {
        MigrateLegacyIfPresent();
        ms := ValueOf(manifest);
      }
      var collected := Collect(ms);
      collected := StableSort(collected, TimestampOf);
      return if |collected| > MAX_INDEX then collected[|collected| - MAX_INDEX..] else collected;
    }

    // Newest month to oldest, until there are enough entries.
    method Collect(ms: seq<MonthCount>) returns (collected: seq<Entry>)
      requires Ascending(ms) && GoodShards(ms, shards)
      ensures Last(StableSort(collected, TimestampOf), MAX_INDEX) == Last(Flat(ms, shards), MAX_INDEX)
    {
      collected := [];
      var i := |ms|;
      while i > 0
        invariant 0 <= i <= |ms|
        invariant collected == NewestFirst(Listing(ms[i..], shards))
      {
        i := i - 1;
        assert ms[i..][1..] == ms[i + 1..];
        collected := collected + Shard(shards, ms[i].month);
        if |collected| >= MAX_INDEX {
          break;
        }
      }
      EnoughMonths(Listing(ms, shards), i);
    }

    method ClearIndex()
      modifies this
      ensures Stored() == State(Absent, Absent, old(shards) - MonthsOf(ValueOf(old(manifest))))
    {
      var ms := ValueOf(manifest);
      for i := 0 to |ms|
        invariant legacy == old(legacy) && manifest == old(manifest)
        invariant shards == old(shards) - MonthsOf(ms[..i])
      {
        assert ms[..i + 1] == ms[..i] + [ms[i]];
        shards := shards - {ms[i].month};
      }
      assert ms[..|ms|] == ms;
      manifest := Absent;
      legacy := Absent;
    }
  }

  lemma {:induction false} OneMoreEntry(entries: seq<Entry>, i: nat)
    requires i < |entries|
    ensures LegacyMonths(entries[..i + 1]) ==
            var ms, m := LegacyMonths(entries[..i]), Month(entries[i]); if m in ms then ms else ms + [m]
    ensures forall m :: Bucket(entries[..i + 1], m) ==
              var b := Bucket(entries[..i], m);
              if Month(entries[i]) == m && !HasId(b, entries[i].id) then b + [entries[i]] else b
  {
    assert entries[..i + 1][..i] == entries[..i];
  }

  function ListingOf(st: State): Listing {
    Listing(ValueOf(st.manifest), st.shards)
  }

  function MonthsOf(ms: seq<MonthCount>): set<string> {
    set x | x in ms :: x.month
  }

  // While the migration is under way, the next month merges to what it would have at the start.
  lemma {:induction false} MigratedNext(st: State, now: State, months: seq<string>, i: nat, counts: seq<MonthCount>)
    requires i < |months| && now == Performed(st, ShardWrites(st, months)[..i])
    requires counts == PutMerged(FromList(ValueOf(st.manifest)), months[..i], st)
    ensures now.legacy == st.legacy
    ensures var m, s := months[i], Merged(now, months[i]);
            && now.(shards := now.shards[m := Parsed(s)]) == Performed(st, ShardWrites(st, months)[..i + 1])
            && Put(counts, m, |s|) == PutMerged(FromList(ValueOf(st.manifest)), months[..i + 1], st)
  {
    ShardsWritten(st, st, [], months, i);
    MergedAgain(st, now, [] + months[..i], months[i]);
    NextPerformed(st, ShardWrites(st, months), i);
    NextPut(FromList(ValueOf(st.manifest)), months, i, st);
  }

  lemma {:induction false} NextPut(ms: seq<MonthCount>, months: seq<string>, i: nat, st: State)
    requires i < |months|
    ensures PutMerged(ms, months[..i + 1], st) == Put(PutMerged(ms, months[..i], st), months[i], |Merged(st, months[i])|)
  {
    assert months[..i + 1][..i] == months[..i];
  }

  // ---------- Results about whole states ----------

  // appendEntry, migration included, refines appending to the flat list.
  lemma {:induction false} AppendEntryRefines(st: State, e: Entry)
    requires Sound(st) && IdFixesMonth(ListingOf(Migrated(st)).Content(), e)
    ensures var before, l := ListingOf(Migrated(st)), Appended(ListingOf(Migrated(st)), e);
            && Good(before) && Good(l)
            && l.Content() == AppendFlat(before.Content(), e)
            && Sorted(l.Content(), TimestampOf)
  {
    MigratedSound(st);
    var before := ListingOf(Migrated(st));
    AppendRefinesFlat(before, e);
    var l := Appended(before, e);
    WellFormedParts(l.ms, l.shards);
    FlatSorted(l.ms, l.shards);
  }

  // Nothing is left of a sound index after clearIndex.
  lemma {:induction false} ClearedIsEmpty(st: State, month: string)
    requires Sound(st)
    ensures Shard(st.shards - MonthsOf(ValueOf(st.manifest)), month) == []
  {
    if Listed(ValueOf(st.manifest), month) {
      var i :| 0 <= i < |ValueOf(st.manifest)| && ValueOf(st.manifest)[i].month == month;
      assert ValueOf(st.manifest)[i].month in MonthsOf(ValueOf(st.manifest));
    }
  }
}
