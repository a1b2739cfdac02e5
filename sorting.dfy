/**
 * Go's `sort.Slice(xs, less)`: an in-place, UNSTABLE sort by a "less"
 * comparator. All Go promises is that afterwards no later element is less than
 * an earlier one and the slice holds the same elements; elements that compare
 * equal may come out in any order. The model sorts in place by adjacent swaps
 * and is proved against exactly that promise, never against a fixed order.
 */
module Sorting {
  import Strs
  import opened Seqs

  /**
   * What `sort.Slice` needs of `less`: it is asymmetric, and "not less" is
   * transitive (so "neither is less" is an equivalence).
   */
  ghost predicate StrictWeakOrder<T(!new)>(less: (T, T) -> bool)
  {
    (forall x, y :: less(x, y) ==> !less(y, x)) &&
    (forall x, y, z :: !less(y, x) && !less(z, y) ==> !less(z, x))
  }

  /** A strict order in which any two different values are comparable. */
  ghost predicate StrictTotalOrder<K(!new)>(lt: (K, K) -> bool)
  {
    (forall x :: !lt(x, x)) &&
    (forall x, y, z :: lt(x, y) && lt(y, z) ==> lt(x, z)) &&
    (forall x, y :: x == y || lt(x, y) || lt(y, x))
  }

  /** No element is less than one before it. */
  predicate SortedBy<T>(s: seq<T>, less: (T, T) -> bool)
  {
    forall i, j :: 0 <= i < j < |s| ==> !less(s[j], s[i])
  }

  /** sort.Slice on a whole array: afterwards sorted by `less`, same elements. */
  method SortSlice<T(!new)>(a: array<T>, less: (T, T) -> bool)
    requires StrictWeakOrder(less)
    modifies a
    ensures SortedBy(a[..], less)
    ensures multiset(a[..]) == multiset(old(a[..]))
  {
    var i := 0;
    while i < a.Length
      invariant 0 <= i <= a.Length
      invariant forall p, q :: 0 <= p < q < i ==> !less(a[q], a[p])
      invariant multiset(a[..]) == multiset(old(a[..]))
    {
      InsertAt(a, i, less);
      i := i + 1;
    }
    assert a[..] == a[..a.Length];
  }

  /** Moves `a[i]` down into the sorted prefix `a[..i]`, leaving `a[..i + 1]` sorted. */
  method InsertAt<T(!new)>(a: array<T>, i: int, less: (T, T) -> bool)
    requires StrictWeakOrder(less)
    requires 0 <= i < a.Length
    requires forall p, q :: 0 <= p < q < i ==> !less(a[q], a[p])
    modifies a
    ensures forall p, q :: 0 <= p < q <= i ==> !less(a[q], a[p])
    ensures multiset(a[..]) == multiset(old(a[..]))
  {
    var j := i;
    while j > 0 && less(a[j], a[j - 1])
      invariant 0 <= j <= i
      invariant forall p, q :: 0 <= p < q <= i && p != j && q != j ==> !less(a[q], a[p])
      invariant forall q :: j < q <= i ==> !less(a[q], a[j])
      invariant multiset(a[..]) == multiset(old(a[..]))
    {
      a[j], a[j - 1] := a[j - 1], a[j];
      j := j - 1;
    }
    forall p | 0 <= p < j
      ensures !less(a[j], a[p])
    {
      assert !less(a[j - 1], a[p]) || p == j - 1;
    }
  }

  /** Sorts a copy of `s`: the result is sorted by `less` and a permutation of `s`. */
  method SortedCopy<T(!new)>(s: seq<T>, less: (T, T) -> bool) returns (r: seq<T>)
    requires StrictWeakOrder(less)
    ensures SortedBy(r, less)
    ensures multiset(r) == multiset(s)
  {
    if |s| == 0 {
      return [];
    }
    var a := new T[|s|](i requires 0 <= i < |s| => s[i]);
    assert a[..] == s;
    SortSlice(a, less);
    r := a[..];
  }

  /** Two sorted permutations of each other start with the same element. */
  lemma SortedHeads<K(!new)>(a: seq<K>, b: seq<K>, lt: (K, K) -> bool)
    requires StrictTotalOrder(lt)
    requires SortedBy(a, lt) && SortedBy(b, lt)
    requires multiset(a) == multiset(b) && |a| > 0
    ensures |b| > 0 && a[0] == b[0]
  {
    assert a[0] in multiset(b);
    assert b[0] in multiset(a);
    var k :| 0 <= k < |b| && b[k] == a[0];
    var m :| 0 <= m < |a| && a[m] == b[0];
    assert k > 0 ==> !lt(a[0], b[0]);
    assert m > 0 ==> !lt(b[0], a[0]);
  }

  lemma TailsPerm<T>(a: seq<T>, b: seq<T>)
    requires multiset(a) == multiset(b) && |a| > 0 && |b| > 0 && a[0] == b[0]
    ensures multiset(a[1..]) == multiset(b[1..])
  {
    MultisetTail(a);
    MultisetTail(b);
  }

  lemma SortedTail<T>(a: seq<T>, less: (T, T) -> bool)
    requires SortedBy(a, less) && |a| > 0
    ensures SortedBy(a[1..], less)
  {
    forall i, j | 0 <= i < j < |a| - 1
      ensures !less(a[1..][j], a[1..][i])
    {
      assert a[1..][j] == a[j + 1] && a[1..][i] == a[i + 1];
    }
  }

  /** Under a total order, the sorted arrangement of a multiset is unique. */
  lemma {:induction false} SortedUnique<K(!new)>(a: seq<K>, b: seq<K>, lt: (K, K) -> bool)
    requires StrictTotalOrder(lt)
    requires SortedBy(a, lt) && SortedBy(b, lt)
    requires multiset(a) == multiset(b)
    ensures a == b
    decreases |a|
  {
    if |a| > 0 {
      SortedHeads(a, b, lt);
      TailsPerm(a, b);
      SortedTail(a, lt);
      SortedTail(b, lt);
      SortedUnique(a[1..], b[1..], lt);
      assert a == [a[0]] + a[1..] && b == [b[0]] + b[1..];
    } else {
      assert |b| == 0;
    }
  }

  /** `less` compares elements by a key under the order `lt`. */
  ghost predicate ComparesByKey<T(!new), K>(less: (T, T) -> bool, key: T -> K, lt: (K, K) -> bool)
  {
    forall x, y :: less(x, y) == lt(key(x), key(y))
  }

  /** A comparator by a totally ordered key is one sort.Slice accepts. */
  lemma KeyedWeakOrder<T(!new), K(!new)>(less: (T, T) -> bool, key: T -> K, lt: (K, K) -> bool)
    requires StrictTotalOrder(lt) && ComparesByKey(less, key, lt)
    ensures StrictWeakOrder(less)
  {
    forall x, y, z | !less(y, x) && !less(z, y)
      ensures !less(z, x)
    {
      assert !lt(key(y), key(x)) && !lt(key(z), key(y));
    }
  }

  /** Sorting by a keyed comparator puts the keys in order. */
  lemma SortedKeys<T(!new), K>(r: seq<T>, less: (T, T) -> bool, key: T -> K, lt: (K, K) -> bool)
    requires ComparesByKey(less, key, lt)
    requires SortedBy(r, less)
    ensures SortedBy(MapSeq(key, r), lt)
  {
    var ks := MapSeq(key, r);
    forall i, j | 0 <= i < j < |ks|
      ensures !lt(ks[j], ks[i])
    {
      assert !less(r[j], r[i]);
    }
  }

  /**
   * Two outcomes of an unstable sort by a totally ordered key agree on the
   * sequence of keys: only elements with equal keys can change places.
   */
  lemma SortedKeysDetermined<T(!new), K(!new)>(r1: seq<T>, r2: seq<T>, less: (T, T) -> bool, key: T -> K, lt: (K, K) -> bool)
    requires StrictTotalOrder(lt) && ComparesByKey(less, key, lt)
    requires SortedBy(r1, less) && SortedBy(r2, less)
    requires multiset(r1) == multiset(r2)
    ensures MapSeq(key, r1) == MapSeq(key, r2)
  {
    SortedKeys(r1, less, key, lt);
    SortedKeys(r2, less, key, lt);
    MapPerm(key, r1, r2);
    SortedUnique(MapSeq(key, r1), MapSeq(key, r2), lt);
  }

  /** Go string `<` is a strict total order. */
  lemma StrLessTotalOrder()
    ensures StrictTotalOrder(Strs.StrLess)
  {
    forall x: string
      ensures !Strs.StrLess(x, x)
    {
      Strs.StrLessIrreflexive(x);
    }
    forall x: string, y: string, z: string | Strs.StrLess(x, y) && Strs.StrLess(y, z)
      ensures Strs.StrLess(x, z)
    {
      Strs.StrLessTransitive(x, y, z);
    }
    forall x: string, y: string
      ensures x == y || Strs.StrLess(x, y) || Strs.StrLess(y, x)
    {
      Strs.StrLessTotal(x, y);
    }
  }

  /** A two-level sort key: a number first, a string to break ties. */
  datatype Key = Key(major: int, minor: string)

  /** Ascending by `major`, then by `minor`. */
  predicate KeyLess(a: Key, b: Key)
  {
    a.major < b.major || (a.major == b.major && Strs.StrLess(a.minor, b.minor))
  }

  /** Descending by `major`, then by `minor`. */
  predicate KeyGreater(a: Key, b: Key)
  {
    KeyLess(b, a)
  }

  lemma KeyLessTotalOrder()
    ensures StrictTotalOrder(KeyLess)
  {
    StrLessTotalOrder();
    forall x: Key, y: Key
      ensures x == y || KeyLess(x, y) || KeyLess(y, x)
    {
      Strs.StrLessTotal(x.minor, y.minor);
    }
  }

  lemma KeyGreaterTotalOrder()
    ensures StrictTotalOrder(KeyGreater)
  {
    KeyLessTotalOrder();
  }
}
