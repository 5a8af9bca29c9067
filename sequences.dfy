/**
 * Order facts shared by the filters of the pipeline: a filter keeps some of
 * the elements of its input and never reorders them.
 */
module Sequences {

  /** `a` is `b` with some elements dropped, the rest kept in order. */
  predicate IsSubsequence<T(==)>(a: seq<T>, b: seq<T>)
    decreases |b|
  {
    if a == [] then true
    else if b == [] then false
    else if a[0] == b[0] then IsSubsequence(a[1..], b[1..])
    else IsSubsequence(a, b[1..])
  }

  /** Dropping the first element of `b` keeps a subsequence of the rest a subsequence of `b`. */
  lemma {:induction false} SkipOne<T>(a: seq<T>, b: seq<T>)
    requires b != []
    requires IsSubsequence(a, b[1..])
    ensures IsSubsequence(a, b)
    decreases |b|, 0
  {
    if a != [] && a[0] == b[0] {
      SubsequenceTail(a, b[1..]);
    }
  }

  lemma {:induction false} SubsequenceTail<T>(a: seq<T>, b: seq<T>)
    requires a != []
    requires IsSubsequence(a, b)
    ensures IsSubsequence(a[1..], b)
    decreases |b|, 1
  {
    if a[0] != b[0] {
      SubsequenceTail(a, b[1..]);
    }
    SkipOne(a[1..], b);
  }

  /** The step of a front-recursive filter: `x` is kept or dropped, the rest is filtered. */
  lemma KeepOrDrop<T>(x: T, r: seq<T>, rest: seq<T>, keep: bool)
    requires IsSubsequence(r, rest)
    ensures IsSubsequence((if keep then [x] else []) + r, [x] + rest)
  {
    var b := [x] + rest;
    assert b[1..] == rest;
    if keep {
      assert ([x] + r)[1..] == r;
    } else {
      assert [] + r == r;
      SkipOne(r, b);
    }
  }

  /**
   * The step of a front-recursive filter by `keep`: membership, counts and
   * order carry over from the filtered rest to the filtered whole.
   */
  lemma ConsFilterStep<T>(x: T, r: seq<T>, rest: seq<T>, keep: T -> bool)
    requires forall y :: y in r <==> y in rest && keep(y)
    requires forall y :: multiset(r)[y] == if keep(y) then multiset(rest)[y] else 0
    requires IsSubsequence(r, rest)
    ensures forall y :: y in (if keep(x) then [x] else []) + r <==> y in [x] + rest && keep(y)
    ensures forall y :: multiset((if keep(x) then [x] else []) + r)[y] == if keep(y) then multiset([x] + rest)[y] else 0
    ensures IsSubsequence((if keep(x) then [x] else []) + r, [x] + rest)
  {
    KeepOrDrop(x, r, rest, keep(x));
    forall y ensures multiset((if keep(x) then [x] else []) + r)[y] == if keep(y) then multiset([x] + rest)[y] else 0 {
      assert multiset((if keep(x) then [x] else []) + r) == multiset(if keep(x) then [x] else []) + multiset(r);
      assert multiset([x] + rest) == multiset([x]) + multiset(rest);
    }
  }

  /** A subsequence stays one when an element is appended to the longer sequence. */
  lemma {:induction false} SnocRight<T>(a: seq<T>, b: seq<T>, x: T)
    requires IsSubsequence(a, b)
    ensures IsSubsequence(a, b + [x])
    decreases |b|
  {
    if a != [] {
      assert (b + [x])[1..] == b[1..] + [x];
      SnocRight(if a[0] == b[0] then a[1..] else a, b[1..], x);
    }
  }

  /** A subsequence of a prefix is a subsequence of the whole. */
  lemma {:induction false} ExtendRight<T>(a: seq<T>, b: seq<T>, c: seq<T>)
    requires IsSubsequence(a, b)
    ensures IsSubsequence(a, b + c)
    decreases |c|
  {
    if c != [] {
      SnocRight(a, b, c[0]);
      ExtendRight(a, b + [c[0]], c[1..]);
      assert b + [c[0]] + c[1..] == b + c;
    } else {
      assert b + c == b;
    }
  }

  /** Appending the same element to both keeps a subsequence. */
  lemma {:induction false} SnocBoth<T>(a: seq<T>, b: seq<T>, x: T)
    requires IsSubsequence(a, b)
    ensures IsSubsequence(a + [x], b + [x])
    decreases |b|
  {
    if a == [] {
      LastOnly(b, x);
      assert a + [x] == [x];
    } else {
      assert (a + [x])[0] == a[0] && (a + [x])[1..] == a[1..] + [x];
      assert (b + [x])[1..] == b[1..] + [x];
      if a[0] == b[0] {
        SnocBoth(a[1..], b[1..], x);
      } else {
        SnocBoth(a, b[1..], x);
      }
    }
  }

  lemma {:induction false} LastOnly<T>(b: seq<T>, x: T)
    ensures IsSubsequence([x], b + [x])
    decreases |b|
  {
    if b != [] {
      assert (b + [x])[1..] == b[1..] + [x];
      assert ([x])[1..] == [];
      if b[0] != x {
        LastOnly(b[1..], x);
      }
    }
  }

  // Slicing facts, stated for any element type so that they are proved
  // apart from the string functions that use them.

  lemma SliceShift<T>(t: seq<T>, k: nat)
    requires k < |t|
    ensures t[1..][k..] == t[k + 1..]
    ensures t[..k + 1] == [t[0]] + t[1..][..k]
  {
  }

  lemma SliceZero<T>(t: seq<T>, x: seq<T>)
    ensures t[0..] == t && t[..0] + x == x
  {
  }

  lemma LastOfSuffix<T>(s: seq<T>, k: nat)
    requires k < |s|
    ensures s[k..] != [] && s[k..][|s[k..]| - 1] == s[|s| - 1]
  {
  }

  lemma Prefix<T>(c: T, w: seq<T>, x: seq<T>, cr: seq<T>)
    requires cr == w + x
    ensures [c] + cr == ([c] + w) + x
  {
  }

  /** A prefix grows by the next element. */
  lemma PrefixSnoc<T>(s: seq<T>, i: nat)
    requires i < |s|
    ensures s[..i + 1] == s[..i] + [s[i]]
  {
  }

  /** The index of the first occurrence of `x` in `xs`. */
  function IndexOf<T(==)>(xs: seq<T>, x: T): (k: nat)
    requires x in xs
    ensures k < |xs| && xs[k] == x
    ensures x !in xs[..k]
  {
    if xs[0] == x then 0
    else
      var k := 1 + IndexOf(xs[1..], x);
      assert xs[..k] == [xs[0]] + xs[1..][..k - 1];
      k
  }

  /** Appending to a sequence does not move the first occurrence of an element already in it. */
  lemma IndexOfSnoc<T>(xs: seq<T>, y: T, x: T)
    requires x in xs
    ensures IndexOf(xs + [y], x) == IndexOf(xs, x)
  {
    var k := IndexOf(xs, x);
    assert (xs + [y])[..k] == xs[..k];
    assert (xs + [y])[k] == x;
  }

  /** An element seen for the first time at the end has its first occurrence there. */
  lemma IndexOfLast<T>(xs: seq<T>, y: T)
    requires y !in xs
    ensures IndexOf(xs + [y], y) == |xs|
  {
    assert (xs + [y])[..|xs|] == xs;
  }

  /** Ordered by first occurrence stays so when the sequence grows by one and a new element is appended. */
  lemma FirstOccurrenceSnoc<T>(init: seq<T>, last: T, kept: seq<T>, r: seq<T>)
    requires forall x :: x in kept ==> x in init
    requires forall i, j :: 0 <= i < j < |kept| ==> IndexOf(init, kept[i]) < IndexOf(init, kept[j])
    requires r == if last in init then kept else kept + [last]
    ensures forall i, j :: 0 <= i < j < |r| ==> IndexOf(init + [last], r[i]) < IndexOf(init + [last], r[j])
  {
    var xs := init + [last];
    forall i, j | 0 <= i < j < |r| ensures IndexOf(xs, r[i]) < IndexOf(xs, r[j]) {
      assert r[i] == kept[i];
      IndexOfSnoc(init, last, kept[i]);
      if j < |kept| {
        assert r[j] == kept[j];
        IndexOfSnoc(init, last, kept[j]);
      } else {
        IndexOfLast(init, last);
      }
    }
  }
}
