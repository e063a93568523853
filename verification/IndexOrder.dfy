// Text order, as the capture index compares ISO timestamps and months, and the stable sort it uses.
module IndexOrder {

  // a < b on strings
  predicate Less(a: string, b: string) {
    b != [] && (a == [] || a[0] < b[0] || (a[0] == b[0] && Less(a[1..], b[1..])))
  }

  lemma {:induction false} LessTransitive(a: string, b: string, c: string)
    requires Less(a, b) && Less(b, c)
    ensures Less(a, c)
  {
    if a != [] && a[0] == b[0] && b[0] == c[0] {
      LessTransitive(a[1..], b[1..], c[1..]);
    }
  }

  lemma {:induction false} LessAsymmetric(a: string, b: string)
    requires Less(a, b)
    ensures !Less(b, a)
  {
    if a != [] && a[0] == b[0] {
      LessAsymmetric(a[1..], b[1..]);
    }
  }

  lemma {:induction false} LessTotal(a: string, b: string)
    ensures Less(a, b) || a == b || Less(b, a)
  {
    if a != [] && b != [] && a[0] == b[0] {
      LessTotal(a[1..], b[1..]);
      assert a[1..] == b[1..] ==> a == [a[0]] + a[1..] == [b[0]] + b[1..] == b;
    }
  }

  // "not after" is transitive as well
  lemma {:induction false} NotAfterTransitive(a: string, b: string, c: string)
    requires !Less(b, a) && !Less(c, b)
    ensures !Less(c, a)
  {
    if Less(c, a) {
      LessTotal(a, b);
      if a != b {
        LessTransitive(c, a, b);
      }
    }
  }

  // s.slice(0, n)
  function Slice(s: string, n: nat): string {
    if |s| <= n then s else s[..n]
  }

  // If the slices are in order, so are the strings.
  lemma {:induction false} SliceOrder(a: string, b: string, n: nat)
    requires Less(Slice(a, n), Slice(b, n))
    ensures Less(a, b)
  {
    if a != [] && a[0] == b[0] {
      assert n > 0;
      assert Slice(a, n)[1..] == Slice(a[1..], n - 1);
      assert Slice(b, n)[1..] == Slice(b[1..], n - 1);
      SliceOrder(a[1..], b[1..], n - 1);
    }
  }

  predicate Sorted<T>(s: seq<T>, key: T -> string) {
    forall i, j :: 0 <= i < j < |s| ==> !Less(key(s[j]), key(s[i]))
  }

  // e goes behind everything that is not after it.
  function Insert<T>(s: seq<T>, e: T, key: T -> string): seq<T> {
    if s == [] || !Less(key(e), key(s[|s| - 1])) then s + [e]
    else Insert(s[..|s| - 1], e, key) + [s[|s| - 1]]
  }

  // s.sort(...), which is stable
  function StableSort<T>(s: seq<T>, key: T -> string): seq<T> {
    if s == [] then [] else Insert(StableSort(s[..|s| - 1], key), s[|s| - 1], key)
  }

  lemma {:induction false} InsertContent<T>(s: seq<T>, e: T, key: T -> string)
    ensures |Insert(s, e, key)| == |s| + 1
    ensures multiset(Insert(s, e, key)) == multiset(s) + multiset{e}
  {
    if s != [] && Less(key(e), key(s[|s| - 1])) {
      InsertContent(s[..|s| - 1], e, key);
      assert s == s[..|s| - 1] + [s[|s| - 1]];
    }
  }

  // Insertion between what is not after e and what is after e touches neither.
  lemma {:induction false} InsertMiddle<T>(a: seq<T>, s: seq<T>, b: seq<T>, e: T, key: T -> string)
    requires forall x :: x in a ==> !Less(key(e), key(x))
    requires forall x :: x in b ==> Less(key(e), key(x))
    ensures Insert(a + s + b, e, key) == a + Insert(s, e, key) + b
    decreases |s| + |b|
  {
    if b != [] {
      var b', z := b[..|b| - 1], b[|b| - 1];
      InsertMiddle(a, s, b', e, key);
      assert (a + s + b)[..|a + s + b| - 1] == a + s + b';
      assert a + Insert(s, e, key) + b' + [z] == a + Insert(s, e, key) + b;
    } else if s != [] && Less(key(e), key(s[|s| - 1])) {
      var s', z := s[..|s| - 1], s[|s| - 1];
      InsertMiddle(a, s', [], e, key);
      assert a + s' + [] == a + s';
      assert (a + s + b)[..|a + s + b| - 1] == a + s';
      assert a + Insert(s', e, key) + [] + [z] == a + (Insert(s', e, key) + [z]) + b;
    } else {
      assert a + s + b == a + s;
      assert s == [] ==> a + s == a;
      assert a + s + [e] == a + (s + [e]) + b;
    }
  }

  lemma {:induction false} InsertSorted<T>(s: seq<T>, e: T, key: T -> string)
    requires Sorted(s, key)
    ensures Sorted(Insert(s, e, key), key)
  {
    if s == [] || !Less(key(e), key(s[|s| - 1])) {
      forall i | 0 <= i < |s|
        ensures !Less(key(e), key(s[i]))
      {
        if i < |s| - 1 {
          NotAfterTransitive(key(s[i]), key(s[|s| - 1]), key(e));
        }
      }
    } else {
      var s', z := s[..|s| - 1], s[|s| - 1];
      InsertSorted(s', e, key);
      InsertContent(s', e, key);
      LessAsymmetric(key(e), key(z));
      forall x | x in Insert(s', e, key)
        ensures !Less(key(z), key(x))
      {
        assert x in multiset(Insert(s', e, key));
        assert x in s' || x == e;
      }
    }
  }

  lemma {:induction false} SortSorts<T>(s: seq<T>, key: T -> string)
    ensures Sorted(StableSort(s, key), key)
    ensures multiset(StableSort(s, key)) == multiset(s) && |StableSort(s, key)| == |s|
  {
    if s != [] {
      var s', z := s[..|s| - 1], s[|s| - 1];
      SortSorts(s', key);
      InsertSorted(StableSort(s', key), z, key);
      InsertContent(StableSort(s', key), z, key);
      assert s == s' + [z];
    }
  }

  lemma {:induction false} SortMembers<T>(s: seq<T>, key: T -> string)
    ensures forall x :: x in StableSort(s, key) <==> x in s
  {
    SortSorts(s, key);
    assert forall x :: x in StableSort(s, key) <==> x in multiset(StableSort(s, key));
  }

  lemma {:induction false} SortOfSorted<T>(s: seq<T>, key: T -> string)
    requires Sorted(s, key)
    ensures StableSort(s, key) == s
  {
    if s != [] {
      SortOfSorted(s[..|s| - 1], key);
    }
  }

  lemma {:induction false} SortPushed<T>(s: seq<T>, e: T, key: T -> string)
    requires Sorted(s, key)
    ensures StableSort(s + [e], key) == Insert(s, e, key)
  {
    assert (s + [e])[..|s|] == s;
    SortOfSorted(s, key);
  }

  predicate AllBefore<T>(early: seq<T>, late: seq<T>, key: T -> string) {
    forall i, j :: 0 <= i < |early| && 0 <= j < |late| ==> Less(key(early[i]), key(late[j]))
  }

  // The latest of the early ones goes between the others and the late ones.
  lemma {:induction false} InsertBetween<T>(early: seq<T>, z: T, late: seq<T>, key: T -> string)
    requires Sorted(early + [z], key) && AllBefore(early + [z], late, key)
    ensures Insert(early + late, z, key) == early + [z] + late
  {
    var e := early + [z];
    assert e[|early|] == z;
    assert forall x :: x in early ==> !Less(key(z), key(x)) by {
      forall i | 0 <= i < |early|
        ensures !Less(key(z), key(early[i]))
      {
        assert e[i] == early[i];
      }
    }
    InsertMiddle(early, [], late, z, key);
    assert early + [] + late == early + late;
  }

  // Sorting moves a sorted run that arrives too late to the front.
  lemma {:induction false} SortSwaps<T>(late: seq<T>, early: seq<T>, key: T -> string)
    requires Sorted(early, key) && AllBefore(early, StableSort(late, key), key)
    ensures StableSort(late + early, key) == early + StableSort(late, key)
  {
    if early == [] {
      assert late + early == late;
    } else {
      var early', z := early[..|early| - 1], early[|early| - 1];
      assert early == early' + [z];
      assert (late + early)[..|late + early| - 1] == late + early';
      SortSwaps(late, early', key);
      InsertBetween(early', z, StableSort(late, key), key);
    }
  }
}
