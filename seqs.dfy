/** Generic facts about sequences: element-wise maps, flattening, prefixes and multisets. */
module Seqs {

  /** `f` applied to every element. */
  function MapSeq<A, B>(f: A -> B, s: seq<A>): (r: seq<B>)
    ensures |r| == |s|
    ensures forall i :: 0 <= i < |s| ==> r[i] == f(s[i])
  {
    seq(|s|, i requires 0 <= i < |s| => f(s[i]))
  }

  lemma MapSeqCons<A, B>(f: A -> B, s: seq<A>)
    requires |s| > 0
    ensures MapSeq(f, s) == [f(s[0])] + MapSeq(f, s[1..])
  {
  }

  /** Removing one element from a sequence removes it from its multiset. */
  lemma MultisetRemove<T>(s: seq<T>, k: int)
    requires 0 <= k < |s|
    ensures multiset(s[..k] + s[k + 1..]) == multiset(s) - multiset{s[k]}
  {
    assert s == s[..k] + [s[k]] + s[k + 1..];
  }

  lemma MultisetTail<T>(s: seq<T>)
    requires |s| > 0
    ensures multiset(s[1..]) == multiset(s) - multiset{s[0]}
  {
    assert s == [s[0]] + s[1..];
  }

  lemma MapConcat<A, B>(f: A -> B, x: seq<A>, y: seq<A>)
    ensures MapSeq(f, x + y) == MapSeq(f, x) + MapSeq(f, y)
  {
  }

  lemma MultisetSplit<T>(lo: seq<T>, y: T, hi: seq<T>)
    ensures multiset(lo + ([y] + hi)) == multiset(lo + hi) + multiset{y}
  {
  }

  lemma MapSplitAt<A, B>(f: A -> B, b: seq<A>, k: int)
    requires 0 <= k < |b|
    ensures MapSeq(f, b) == MapSeq(f, b[..k]) + ([f(b[k])] + MapSeq(f, b[k + 1..]))
  {
    assert b[..k] + b[k..] == b;
    MapConcat(f, b[..k], b[k..]);
    MapSeqCons(f, b[k..]);
    assert b[k..][1..] == b[k + 1..];
  }

  /** Mapping after removing one element removes its image from the mapped multiset. */
  lemma MapRemove<A, B>(f: A -> B, b: seq<A>, k: int)
    requires 0 <= k < |b|
    ensures multiset(MapSeq(f, b)) == multiset(MapSeq(f, b[..k] + b[k + 1..])) + multiset{f(b[k])}
  {
    MapSplitAt(f, b, k);
    MapConcat(f, b[..k], b[k + 1..]);
    MultisetSplit(MapSeq(f, b[..k]), f(b[k]), MapSeq(f, b[k + 1..]));
  }

  lemma MapRemoveFirst<A, B>(f: A -> B, a: seq<A>)
    requires |a| > 0
    ensures multiset(MapSeq(f, a)) == multiset(MapSeq(f, a[1..])) + multiset{f(a[0])}
  {
    MapRemove(f, a, 0);
    assert a[..0] + a[1..] == a[1..];
  }

  /** An element of a permutation's multiset sits at some index of it. */
  lemma IndexOf<T>(x: T, b: seq<T>) returns (k: int)
    requires x in multiset(b)
    ensures 0 <= k < |b| && b[k] == x
  {
    assert x in b;
    k :| 0 <= k < |b| && b[k] == x;
  }

  /** Taking the same element out of two permutations leaves permutations. */
  lemma PermRemove<T>(a: seq<T>, b: seq<T>, k: int)
    requires multiset(a) == multiset(b) && |a| > 0 && 0 <= k < |b| && b[k] == a[0]
    ensures multiset(a[1..]) == multiset(b[..k] + b[k + 1..])
  {
    MultisetRemove(b, k);
    MultisetTail(a);
  }

  /** Mapping a permutation gives a permutation. */
  lemma {:induction false} MapPerm<A, B>(f: A -> B, a: seq<A>, b: seq<A>)
    requires multiset(a) == multiset(b)
    ensures multiset(MapSeq(f, a)) == multiset(MapSeq(f, b))
    decreases |a|
  {
    if |a| > 0 {
      var k := IndexOf(a[0], b);
      PermRemove(a, b, k);
      MapPerm(f, a[1..], b[..k] + b[k + 1..]);
      MapRemove(f, b, k);
      MapRemoveFirst(f, a);
    }
  }

  /** The concatenation of `f(x)` for every `x` of `xs`, left to right. */
  function Concat<T, U>(f: T -> seq<U>, xs: seq<T>): seq<U>
    decreases |xs|
  {
    if |xs| == 0 then [] else Concat(f, xs[..|xs| - 1]) + f(xs[|xs| - 1])
  }

  lemma ConcatSnoc<T, U>(f: T -> seq<U>, xs: seq<T>, i: int)
    requires 0 <= i < |xs|
    ensures Concat(f, xs[..i + 1]) == Concat(f, xs[..i]) + f(xs[i])
  {
    assert xs[..i + 1][..i] == xs[..i];
  }

  lemma {:induction false} ConcatAppend<T, U>(f: T -> seq<U>, a: seq<T>, b: seq<T>)
    ensures Concat(f, a + b) == Concat(f, a) + Concat(f, b)
    decreases |b|
  {
    if |b| == 0 {
      assert a + b == a;
    } else {
      assert (a + b)[..|a + b| - 1] == a + b[..|b| - 1];
      ConcatAppend(f, a, b[..|b| - 1]);
    }
  }

  lemma ConcatSingle<T, U>(f: T -> seq<U>, x: T)
    ensures Concat(f, [x]) == f(x)
  {
    assert [x][..0] == [];
  }

  /** A prefix of the input flattens to a prefix of the output. */
  lemma {:induction false} ConcatPrefix<T, U>(f: T -> seq<U>, xs: seq<T>, i: int)
    requires 0 <= i <= |xs|
    ensures Concat(f, xs[..i]) <= Concat(f, xs)
    decreases |xs| - i
  {
    if i < |xs| {
      ConcatPrefix(f, xs, i + 1);
      ConcatSnoc(f, xs, i);
    } else {
      assert xs[..i] == xs;
    }
  }

  lemma PrefixTrans<T>(a: seq<T>, b: seq<T>, c: seq<T>)
    requires a <= b && b <= c
    ensures a <= c
  {
    assert c[..|b|][..|a|] == c[..|a|];
  }

  lemma PrefixAppend<T>(c: seq<T>, a: seq<T>, b: seq<T>)
    requires a <= b
    ensures c + a <= c + b
  {
    assert (c + b)[..|c + a|] == c + b[..|a|];
  }

  lemma PrefixExtend<T>(a: seq<T>, b: seq<T>, c: seq<T>)
    requires a <= b
    ensures a <= b + c
  {
    assert (b + c)[..|a|] == b[..|a|];
  }

  lemma MapPrefix<A, B>(f: A -> B, a: seq<A>, b: seq<A>)
    requires a <= b
    ensures MapSeq(f, a) <= MapSeq(f, b)
  {
    assert MapSeq(f, b)[..|a|] == MapSeq(f, a);
  }

  /** No value occurs twice. */
  predicate Distinct<T(==)>(s: seq<T>)
  {
    forall i, j :: 0 <= i < j < |s| ==> s[i] != s[j]
  }

  lemma DistinctSnoc<T>(s: seq<T>, x: T)
    ensures Distinct(s + [x]) <==> Distinct(s) && x !in s
  {
    if Distinct(s) && x !in s {
      forall i, j | 0 <= i < j < |s + [x]|
        ensures (s + [x])[i] != (s + [x])[j]
      {
        if j == |s| { assert (s + [x])[i] == s[i]; }
      }
    }
    if Distinct(s + [x]) {
      forall i, j | 0 <= i < j < |s|
        ensures s[i] != s[j]
      {
        assert s[i] == (s + [x])[i] && s[j] == (s + [x])[j];
      }
      forall i | 0 <= i < |s|
        ensures s[i] != x
      {
        assert s[i] == (s + [x])[i] && (s + [x])[|s|] == x;
      }
    }
  }

  /** `f(x)` does not depend on `xs`: concatenating through two layers is concatenating `h`. */
  lemma {:induction false} ConcatConcat<T, M, U>(g: M -> seq<U>, f: T -> seq<M>, h: T -> seq<U>, xs: seq<T>)
    requires forall x :: Concat(g, f(x)) == h(x)
    ensures Concat(g, Concat(f, xs)) == Concat(h, xs)
    decreases |xs|
  {
    if |xs| > 0 {
      var init := xs[..|xs| - 1];
      ConcatConcat(g, f, h, init);
      ConcatAppend(g, Concat(f, init), f(xs[|xs| - 1]));
    }
  }

  lemma {:induction false} MemberConcat<T, U>(f: T -> seq<U>, xs: seq<T>, y: U)
    requires y in Concat(f, xs)
    ensures exists x :: x in xs && y in f(x)
    decreases |xs|
  {
    var init := xs[..|xs| - 1];
    if y in Concat(f, init) {
      MemberConcat(f, init, y);
      var x :| x in init && y in f(x);
      assert x in xs;
    } else {
      assert xs[|xs| - 1] in xs;
    }
  }
}
