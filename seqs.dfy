/**
 * The List<T> operations the binders use on their working lists:
 * List.Remove (the first equal element), the search for the first element
 * that answers, and the order-keeping filter that a series of removals
 * amounts to.
 */
module Seqs {
  import opened Wrappers

  /** List<T>.Remove(x): drops the first element equal to `x`, if there is one. */
  function RemoveFirst<T(==)>(s: seq<T>, x: T): (r: seq<T>)
    ensures x !in s ==> r == s
    ensures x in s ==> |r| == |s| - 1
    ensures forall y :: y in r ==> y in s
  {
    if s == [] then []
    else if s[0] == x then s[1..]
    else [s[0]] + RemoveFirst(s[1..], x)
  }

  /** The index of the first element satisfying `f`, if any: a foreach loop that breaks at the first hit. */
  function FirstIndex<T>(s: seq<T>, f: T -> bool): (r: Option<nat>)
    ensures r.Some? ==> r.value < |s| && f(s[r.value])
    ensures r.Some? ==> forall j :: 0 <= j < r.value ==> !f(s[j])
    ensures r.None? ==> forall j :: 0 <= j < |s| ==> !f(s[j])
  {
    if s == [] then None
    else if f(s[0]) then Some(0)
    else
      match FirstIndex(s[1..], f)
      case None => None
      case Some(i) => Some(i + 1)
  }

  /** True when no element occurs twice. */
  predicate NoDuplicates<T(==)>(s: seq<T>) {
    forall i, j :: 0 <= i < j < |s| ==> s[i] != s[j]
  }

  /** Removing an element from a list without duplicates removes every trace of it and keeps the rest. */
  lemma {:induction false} RemoveFirstNoDuplicates<T>(s: seq<T>, x: T)
    requires NoDuplicates(s)
    ensures x !in RemoveFirst(s, x)
    ensures NoDuplicates(RemoveFirst(s, x))
    ensures forall y :: y != x ==> (y in RemoveFirst(s, x) <==> y in s)
  {
    if s != [] && s[0] != x {
      assert NoDuplicates(s[1..]) by {
        forall i, j | 0 <= i < j < |s[1..]| ensures s[1..][i] != s[1..][j] {
          assert s[1..][i] == s[i + 1] && s[1..][j] == s[j + 1];
        }
      }
      RemoveFirstNoDuplicates(s[1..], x);
      var r := RemoveFirst(s[1..], x);
      assert s[0] !in r by {
        forall k | 0 <= k < |s[1..]| ensures s[1..][k] != s[0] {
          assert s[1..][k] == s[k + 1];
        }
      }
      assert RemoveFirst(s, x) == [s[0]] + r;
      forall i, j | 0 <= i < j < |[s[0]] + r| ensures ([s[0]] + r)[i] != ([s[0]] + r)[j] {
        if i == 0 {
          assert ([s[0]] + r)[j] == r[j - 1];
          assert r[j - 1] in r;
        } else {
          assert ([s[0]] + r)[i] == r[i - 1] && ([s[0]] + r)[j] == r[j - 1];
        }
      }
    } else if s != [] {
      forall k | 0 <= k < |s[1..]| ensures s[1..][k] != x {
        assert s[1..][k] == s[k + 1];
      }
      forall i, j | 0 <= i < j < |s[1..]| ensures s[1..][i] != s[1..][j] {
        assert s[1..][i] == s[i + 1] && s[1..][j] == s[j + 1];
      }
    }
  }

  /** Removing `x` from a list whose first occurrence of `x` follows `a` removes exactly that occurrence. */
  lemma {:induction false} RemoveFirstSkips<T>(a: seq<T>, x: T, c: seq<T>)
    requires x !in a
    ensures RemoveFirst(a + [x] + c, x) == a + c
  {
    if a == [] {
      assert a + [x] + c == [x] + c;
    } else {
      var s := a + [x] + c;
      assert s[0] == a[0] && a[0] in a;
      assert s[1..] == a[1..] + [x] + c;
      assert x !in a[1..] by {
        forall k | 0 <= k < |a[1..]| ensures a[1..][k] != x {
          assert a[1..][k] == a[k + 1];
        }
      }
      RemoveFirstSkips(a[1..], x, c);
      assert RemoveFirst(s, x) == [a[0]] + RemoveFirst(s[1..], x);
      assert [a[0]] + (a[1..] + c) == a + c;
    }
  }

  /** Appending an element that is not yet there keeps a list free of duplicates. */
  lemma NoDuplicatesAppend<T>(s: seq<T>, x: T)
    requires NoDuplicates(s) && x !in s
    ensures NoDuplicates(s + [x])
  {
    forall i, j | 0 <= i < j < |s + [x]| ensures (s + [x])[i] != (s + [x])[j] {
      if j == |s| {
        assert (s + [x])[i] == s[i] && s[i] in s;
      } else {
        assert (s + [x])[i] == s[i] && (s + [x])[j] == s[j];
      }
    }
  }

  /** The `Some` results of `f` over `xs`, in order: a loop that appends only what `f` keeps. */
  function FilterMap<A, B>(xs: seq<A>, f: A -> Option<B>): (r: seq<B>)
    ensures |r| <= |xs|
  {
    if xs == [] then []
    else
      match f(xs[|xs| - 1])
      case None => FilterMap(xs[..|xs| - 1], f)
      case Some(y) => FilterMap(xs[..|xs| - 1], f) + [y]
  }

  lemma FilterMapStep<A, B>(xs: seq<A>, i: nat, f: A -> Option<B>)
    requires i < |xs|
    ensures FilterMap(xs[..i + 1], f) == FilterMap(xs[..i], f) + (match f(xs[i]) case None => [] case Some(y) => [y])
  {
    assert xs[..i + 1][..i] == xs[..i];
  }

  /** `Map(ys, g)`: g applied to every element, in order. */
  function Map<A, B>(ys: seq<A>, g: A -> B): (r: seq<B>)
    ensures |r| == |ys| && forall i :: 0 <= i < |ys| ==> r[i] == g(ys[i])
  {
    seq(|ys|, i requires 0 <= i < |ys| => g(ys[i]))
  }

  /** Appending g of the first element, then the mapped rest, appends the whole map. */
  lemma AppendMapFirst<A, B>(acc: seq<B>, ys: seq<A>, g: A -> B)
    requires ys != []
    ensures (acc + [g(ys[0])]) + Map(ys[1..], g) == acc + Map(ys, g)
  {
    assert Map(ys, g) == [g(ys[0])] + Map(ys[1..], g);
  }

  /** When `f` undoes `g` on every element, filtering `f` over the images gives the elements back. */
  lemma {:induction false} FilterMapInverse<A, B>(ys: seq<B>, g: B -> A, f: A -> Option<B>)
    requires forall i :: 0 <= i < |ys| ==> f(g(ys[i])) == Some(ys[i])
    ensures FilterMap(Map(ys, g), f) == ys
  {
    if ys != [] {
      var n := |ys| - 1;
      var xs := Map(ys, g);
      assert xs[..n] == Map(ys[..n], g);
      FilterMapInverse(ys[..n], g, f);
      assert xs[..n + 1] == xs;
      FilterMapStep(xs, n, f);
      assert ys[..n] + [ys[n]] == ys;
    }
  }
}
