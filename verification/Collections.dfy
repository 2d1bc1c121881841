/** Sorting into a canonical order, and the counting arguments the guards rely on. */
module Collections {
  import opened Text

  // ----- Sorting -----

  function InsertBy<T>(less: (T, T) -> bool, x: T, s: seq<T>): seq<T> {
    if s == [] || !less(s[0], x) then [x] + s else [s[0]] + InsertBy(less, x, s[1..])
  }

  /** A copy of `s` in the order `less` gives. */
  function SortBy<T>(less: (T, T) -> bool, s: seq<T>): seq<T> {
    if s == [] then [] else InsertBy(less, s[0], SortBy(less, s[1..]))
  }

  lemma {:induction false} InsertKeeps<T>(less: (T, T) -> bool, x: T, s: seq<T>)
    ensures multiset(InsertBy(less, x, s)) == multiset(s) + multiset{x}
  {
    if s != [] && less(s[0], x) {
      InsertKeeps(less, x, s[1..]);
      assert s == [s[0]] + s[1..];
    }
  }

  /** Sorting only reorders. */
  lemma {:induction false} SortKeeps<T>(less: (T, T) -> bool, s: seq<T>)
    ensures multiset(SortBy(less, s)) == multiset(s)
    ensures |SortBy(less, s)| == |s|
    ensures forall x :: x in SortBy(less, s) <==> x in s
  {
    if s != [] {
      SortKeeps(less, s[1..]);
      InsertKeeps(less, s[0], SortBy(less, s[1..]));
      assert s == [s[0]] + s[1..];
    }
    assert |multiset(SortBy(less, s))| == |multiset(s)|;
    forall x ensures x in SortBy(less, s) <==> x in s {
      assert x in SortBy(less, s) <==> x in multiset(SortBy(less, s));
      assert x in s <==> x in multiset(s);
    }
  }

  /** `less` orders the elements of `s` strictly and totally. */
  ghost predicate Orders<T(!new)>(less: (T, T) -> bool, s: seq<T>) {
    && (forall x :: x in s ==> !less(x, x))
    && (forall x, y :: x in s && y in s && x != y ==> (less(x, y) <==> !less(y, x)))
    && (forall x, y, z :: x in s && y in s && z in s && less(x, y) && less(y, z) ==> less(x, z))
  }

  ghost predicate Ascending<T(!new)>(less: (T, T) -> bool, s: seq<T>) {
    forall i, j :: 0 <= i < j < |s| ==> !less(s[j], s[i])
  }

  lemma {:induction false} InsertAscends<T(!new)>(less: (T, T) -> bool, x: T, s: seq<T>)
    requires Orders(less, [x] + s) && Ascending(less, s)
    ensures Ascending(less, InsertBy(less, x, s))
  {
    var all := [x] + s;
    assert forall y :: y in s ==> y in all;
    if s == [] {
    } else if !less(s[0], x) {
      forall j | 0 <= j < |s| ensures !less(s[j], x) {
        assert x in all && s[j] in all && s[0] in all;
        assert j > 0 ==> !less(s[j], s[0]);
      }
    } else {
      assert s == [s[0]] + s[1..];
      assert forall y :: y in [x] + s[1..] ==> y in all;
      InsertAscends(less, x, s[1..]);
      var t := InsertBy(less, x, s[1..]);
      InsertKeeps(less, x, s[1..]);
      forall j | 0 <= j < |t| ensures !less(t[j], s[0]) {
        assert t[j] in multiset(t);
        if t[j] == x {
          assert x in all && s[0] in all && less(s[0], x);
        } else {
          assert t[j] in s[1..];
          var k :| 0 <= k < |s[1..]| && s[1..][k] == t[j];
          assert s[k + 1] == t[j];
        }
      }
    }
  }

  lemma {:induction false} SortAscends<T(!new)>(less: (T, T) -> bool, s: seq<T>)
    requires Orders(less, s)
    ensures Ascending(less, SortBy(less, s))
  {
    if s != [] {
      assert s == [s[0]] + s[1..];
      assert forall y :: y in s[1..] ==> y in s;
      SortAscends(less, s[1..]);
      var t := SortBy(less, s[1..]);
      SortKeeps(less, s[1..]);
      assert forall y :: y in [s[0]] + t ==> y in s;
      InsertAscends(less, s[0], t);
    }
  }

  lemma HeadsAgree<T(!new)>(less: (T, T) -> bool, a: seq<T>, b: seq<T>)
    requires Orders(less, a) && Ascending(less, a) && Ascending(less, b) && multiset(a) == multiset(b)
    requires a != [] && b != []
    ensures a[0] == b[0]
  {
    assert a[0] in multiset(b) && b[0] in multiset(a);
    var i :| 0 <= i < |b| && b[i] == a[0];
    var j :| 0 <= j < |a| && a[j] == b[0];
    assert i > 0 ==> !less(b[i], b[0]);
    assert j > 0 ==> !less(a[j], a[0]);
  }

  lemma TailsAgree<T>(a: seq<T>, b: seq<T>)
    requires a != [] && b != [] && a[0] == b[0] && multiset(a) == multiset(b)
    ensures multiset(a[1..]) == multiset(b[1..])
  {
    assert a == [a[0]] + a[1..] && b == [b[0]] + b[1..];
    assert multiset(a[1..]) == multiset(a) - multiset{a[0]};
    assert multiset(b[1..]) == multiset(b) - multiset{b[0]};
  }

  lemma OrdersTail<T(!new)>(less: (T, T) -> bool, s: seq<T>)
    requires s != [] && Orders(less, s)
    ensures Orders(less, s[1..])
  {
    assert forall y :: y in s[1..] ==> y in s;
  }

  lemma {:induction false} AscendingUnique<T(!new)>(less: (T, T) -> bool, a: seq<T>, b: seq<T>)
    requires Orders(less, a) && Ascending(less, a) && Ascending(less, b) && multiset(a) == multiset(b)
    ensures a == b
  {
    assert |a| == |multiset(a)| == |multiset(b)| == |b|;
    if a != [] {
      HeadsAgree(less, a, b);
      TailsAgree(a, b);
      OrdersTail(less, a);
      AscendingUnique(less, a[1..], b[1..]);
      assert a == [a[0]] + a[1..] && b == [b[0]] + b[1..];
    }
  }

  /** Lists with the same elements sort to the same list when the order tells
      distinct elements apart. */
  lemma SortCanonical<T(!new)>(less: (T, T) -> bool, a: seq<T>, b: seq<T>)
    requires multiset(a) == multiset(b) && Orders(less, a)
    ensures SortBy(less, a) == SortBy(less, b)
  {
    SortKeeps(less, a);
    SortKeeps(less, b);
    forall x ensures x in a <==> x in b {
      assert x in multiset(a) <==> x in a;
      assert x in multiset(b) <==> x in b;
    }
    SortAscends(less, a);
    SortAscends(less, b);
    AscendingUnique(less, SortBy(less, a), SortBy(less, b));
  }

  /** Lists that sort to the same list have the same elements. */
  lemma SortedAlike<T>(less: (T, T) -> bool, a: seq<T>, b: seq<T>)
    requires SortBy(less, a) == SortBy(less, b)
    ensures multiset(a) == multiset(b)
  {
    SortKeeps(less, a);
    SortKeeps(less, b);
  }

  // ----- Counting -----

  /** A subset that is not smaller is the whole set. */
  lemma SubsetOfSameSize<T>(a: set<T>, b: set<T>)
    requires a <= b && |a| >= |b|
    ensures a == b
  {
    assert b == a + (b - a);
    assert |b| == |a| + |b - a|;
  }

  predicate Distinct<T(==)>(s: seq<T>) {
    forall i, j :: 0 <= i < j < |s| ==> s[i] != s[j]
  }

  /** Distinct keys are as many as the list is long, and only then. */
  lemma {:induction false} DistinctCount<T>(s: seq<T>)
    ensures Distinct(s) ==> |Elements(s)| == |s|
    ensures |Elements(s)| <= |s|
  {
    if s != [] {
      var last := |s| - 1;
      DistinctCount(s[..last]);
      assert s == s[..last] + [s[last]];
      assert Elements(s) == Elements(s[..last]) + {s[last]};
      if Distinct(s) {
        assert s[last] !in s[..last];
      }
    }
  }

  /** A list without repetition is determined, up to order, by its elements. */
  lemma {:induction false} DistinctMultiset<T>(s: seq<T>)
    requires Distinct(s)
    ensures forall x :: multiset(s)[x] == if x in s then 1 else 0
  {
    if s != [] {
      var last := |s| - 1;
      DistinctMultiset(s[..last]);
      assert s == s[..last] + [s[last]];
      assert s[last] !in s[..last];
    }
  }

  lemma SameElementsReorder<T>(a: seq<T>, b: seq<T>)
    requires Distinct(a) && Distinct(b) && forall x :: x in a <==> x in b
    ensures multiset(a) == multiset(b)
  {
    DistinctMultiset(a);
    DistinctMultiset(b);
  }

  lemma ReorderKeepsElements<T>(a: seq<T>, b: seq<T>)
    requires multiset(a) == multiset(b)
    ensures |a| == |b| && forall x :: x in a <==> x in b
  {
    assert |multiset(a)| == |multiset(b)|;
    forall x ensures x in a <==> x in b {
      assert x in multiset(a) <==> x in a;
      assert x in multiset(b) <==> x in b;
    }
  }

  /** No two positions share a key. */
  ghost predicate DistinctBy<T(!new), K(!new)>(key: T -> K, s: seq<T>) {
    forall i, j :: 0 <= i < j < |s| ==> key(s[i]) != key(s[j])
  }

  lemma DistinctByIsDistinct<T(!new), K(!new)>(key: T -> K, s: seq<T>)
    requires DistinctBy(key, s)
    ensures Distinct(s)
    ensures forall x, y :: x in s && y in s && key(x) == key(y) ==> x == y
  {
    forall i, j | 0 <= i < j < |s| ensures s[i] != s[j] {
      assert key(s[i]) != key(s[j]);
    }
  }

  lemma DistinctOccurrences<T>(s: seq<T>)
    requires forall x :: x in s ==> multiset(s)[x] == 1
    ensures Distinct(s)
  {
    forall i, j | 0 <= i < j < |s| ensures s[i] != s[j] {
      assert s == s[..j] + [s[j]] + s[j + 1..];
      assert s[i] == s[..j][i];
      assert multiset(s) == multiset(s[..j]) + multiset{s[j]} + multiset(s[j + 1..]);
      assert s[i] in multiset(s[..j]);
      assert s[i] == s[j] ==> multiset(s)[s[j]] >= 2;
    }
  }

  /** Having distinct keys does not depend on the order. */
  lemma DistinctByReordered<T(!new), K(!new)>(key: T -> K, a: seq<T>, b: seq<T>)
    requires DistinctBy(key, a) && multiset(a) == multiset(b)
    ensures DistinctBy(key, b)
  {
    DistinctByIsDistinct(key, a);
    DistinctMultiset(a);
    ReorderKeepsElements(a, b);
    DistinctOccurrences(b);
    forall i, j | 0 <= i < j < |b| ensures key(b[i]) != key(b[j]) {
      assert b[i] in a && b[j] in a && b[i] != b[j];
    }
  }

  // ----- Lookup tables -----

  /** No two of the first `i` positions share a key. */
  ghost predicate DistinctUpTo<T(!new), K(!new)>(key: T -> K, s: seq<T>, i: nat) {
    i <= |s| && forall j, k :: 0 <= j < k < i ==> key(s[j]) != key(s[k])
  }

  /** `seen` holds the keys of the first `i` elements, all different. */
  ghost predicate Seen<T(!new), K(!new)>(key: T -> K, s: seq<T>, i: nat, seen: set<K>) {
    && DistinctUpTo(key, s, i) && |seen| == i
    && forall k :: k in seen <==> exists j :: 0 <= j < i && key(s[j]) == k
  }

  lemma SeenStart<T(!new), K(!new)>(key: T -> K, s: seq<T>)
    ensures Seen(key, s, 0, {})
  {
  }

  /** The next key either repeats, or joins the ones seen. */
  lemma SeeOneMore<T(!new), K(!new)>(key: T -> K, s: seq<T>, i: nat, seen: set<K>)
    requires i < |s| && Seen(key, s, i, seen)
    ensures key(s[i]) in seen ==> !DistinctBy(key, s)
    ensures key(s[i]) !in seen ==> Seen(key, s, i + 1, seen + {key(s[i])})
  {
    var next := key(s[i]);
    if next in seen {
      var j :| 0 <= j < i && key(s[j]) == next;
    } else {
      forall k ensures k in seen + {next} <==> exists j :: 0 <= j < i + 1 && key(s[j]) == k {
        if k in seen {
          var j :| 0 <= j < i && key(s[j]) == k;
        }
        assert k == next ==> key(s[i]) == k;
      }
    }
  }

  lemma SeenAll<T(!new), K(!new)>(key: T -> K, s: seq<T>, seen: set<K>)
    requires Seen(key, s, |s|, seen)
    ensures DistinctBy(key, s) && |seen| == |s|
  {
  }

  /** `byKey` files the first `i` elements under their keys. */
  ghost predicate Filed<T(!new), K(!new)>(key: T -> K, s: seq<T>, i: nat, byKey: map<K, T>) {
    && i <= |s| && |byKey| == i
    && (forall j :: 0 <= j < i ==> key(s[j]) in byKey && byKey[key(s[j])] == s[j])
    && (forall k :: k in byKey ==> exists j :: 0 <= j < i && key(s[j]) == k)
  }

  lemma FiledEntry<T(!new), K(!new)>(key: T -> K, s: seq<T>, i: nat, byKey: map<K, T>, k: K)
    requires Filed(key, s, i, byKey) && k in byKey
    ensures byKey[k] in s && key(byKey[k]) == k
  {
    var j :| 0 <= j < i && key(s[j]) == k;
  }

  lemma FileStart<T(!new), K(!new)>(key: T -> K, s: seq<T>)
    ensures Filed(key, s, 0, map[]) && DistinctUpTo(key, s, 0)
  {
  }

  /** The next element's key is new when the list repeats none. */
  lemma NotFiledYet<T(!new), K(!new)>(key: T -> K, s: seq<T>, i: nat, byKey: map<K, T>)
    requires i < |s| && Filed(key, s, i, byKey)
    ensures key(s[i]) in byKey ==> !DistinctBy(key, s)
    ensures key(s[i]) !in byKey && DistinctUpTo(key, s, i) ==> DistinctUpTo(key, s, i + 1)
  {
    if key(s[i]) in byKey {
      var j :| 0 <= j < i && key(s[j]) == key(s[i]);
    }
  }

  lemma FileOneMore<T(!new), K(!new)>(key: T -> K, s: seq<T>, i: nat, byKey: map<K, T>)
    requires i < |s| && Filed(key, s, i, byKey) && key(s[i]) !in byKey
    ensures Filed(key, s, i + 1, byKey[key(s[i]) := s[i]])
  {
    var next := key(s[i]);
    var more := byKey[next := s[i]];
    assert more.Keys == byKey.Keys + {next};
    forall k | k in more ensures exists j :: 0 <= j < i + 1 && key(s[j]) == k {
      if k in byKey {
        var j :| 0 <= j < i && key(s[j]) == k;
      }
    }
    forall j | 0 <= j < i + 1 ensures key(s[j]) in more && more[key(s[j])] == s[j] {
      assert j < i ==> key(s[j]) in byKey;
    }
  }

  lemma DistinctToTheEnd<T(!new), K(!new)>(key: T -> K, s: seq<T>)
    ensures DistinctUpTo(key, s, |s|) <==> DistinctBy(key, s)
  {
  }

  // ----- Composite keys -----

  /** Field by field, the first difference decides. */
  predicate TupleLess(a: seq<string>, b: seq<string>) {
    if b == [] then false
    else if a == [] then true
    else if a[0] != b[0] then LexLess(a[0], b[0])
    else TupleLess(a[1..], b[1..])
  }

  lemma {:induction false} TupleIrreflexive(a: seq<string>)
    ensures !TupleLess(a, a)
  {
    if a != [] {
      TupleIrreflexive(a[1..]);
    }
  }

  lemma {:induction false} TupleTotal(a: seq<string>, b: seq<string>)
    requires a != b
    ensures TupleLess(a, b) <==> !TupleLess(b, a)
  {
    if a != [] && b != [] {
      if a[0] != b[0] {
        LexTotal(a[0], b[0]);
        if LexLess(a[0], b[0]) {
          LexAsymmetric(a[0], b[0]);
        }
      } else {
        assert a == [a[0]] + a[1..] && b == [b[0]] + b[1..];
        TupleTotal(a[1..], b[1..]);
      }
    }
  }

  lemma {:induction false} TupleTransitive(a: seq<string>, b: seq<string>, c: seq<string>)
    requires TupleLess(a, b) && TupleLess(b, c)
    ensures TupleLess(a, c)
  {
    if a != [] {
      if a[0] == b[0] && b[0] == c[0] {
        TupleTransitive(a[1..], b[1..], c[1..]);
      } else if a[0] != b[0] && b[0] != c[0] {
        LexTransitive(a[0], b[0], c[0]);
        LexIrreflexive(a[0]);
      }
    }
  }

  /** An order on keys orders every list whose elements the key tells apart. */
  lemma KeyOrders<T(!new)>(less: (T, T) -> bool, key: T -> seq<string>, s: seq<T>)
    requires forall x, y :: less(x, y) <==> TupleLess(key(x), key(y))
    requires forall x, y :: x in s && y in s && key(x) == key(y) ==> x == y
    ensures Orders(less, s)
  {
    forall x | x in s ensures !less(x, x) {
      TupleIrreflexive(key(x));
    }
    forall x, y | x in s && y in s && x != y ensures less(x, y) <==> !less(y, x) {
      TupleTotal(key(x), key(y));
    }
    forall x, y, z | x in s && y in s && z in s && less(x, y) && less(y, z) ensures less(x, z) {
      TupleTransitive(key(x), key(y), key(z));
    }
  }

  /** The same for a single text key. */
  lemma LexKeyOrders<T(!new)>(less: (T, T) -> bool, key: T -> string, s: seq<T>)
    requires forall x, y :: less(x, y) <==> LexLess(key(x), key(y))
    requires forall x, y :: x in s && y in s && key(x) == key(y) ==> x == y
    ensures Orders(less, s)
  {
    forall x | x in s ensures !less(x, x) {
      LexIrreflexive(key(x));
    }
    forall x, y | x in s && y in s && x != y ensures less(x, y) <==> !less(y, x) {
      LexTotal(key(x), key(y));
      if LexLess(key(x), key(y)) {
        LexAsymmetric(key(x), key(y));
      }
    }
    forall x, y, z | x in s && y in s && z in s && less(x, y) && less(y, z) ensures less(x, z) {
      LexTransitive(key(x), key(y), key(z));
    }
  }
}
