/** Sequence helpers shared by the extractors: every extractor builds its
    result by visiting tables, then rows, appending what each yields. */
module Seqs {

  /** The concatenation of f(x) over xs, in order. */
  function ConcatMap<T, U>(xs: seq<T>, f: T -> seq<U>): seq<U> {
    if xs == [] then [] else ConcatMap(xs[..|xs| - 1], f) + f(xs[|xs| - 1])
  }

  /** Two singletons joined are the pair. */
  lemma PairOfSingletons<T>(x: T, y: T)
    ensures [x] + [y] == [x, y]
  {
  }

  lemma AppendAssoc<T>(a: seq<T>, b: seq<T>, c: seq<T>)
    ensures a + b + c == a + (b + c)
  {
  }

  /** One more visited element appends what it yields. */
  lemma ConcatMapSnoc<T, U>(xs: seq<T>, x: T, f: T -> seq<U>)
    ensures ConcatMap(xs + [x], f) == ConcatMap(xs, f) + f(x)
  {
    assert (xs + [x])[..|xs|] == xs;
  }

  /** The loop step over a prefix: visiting xs[i] after xs[..i]. */
  lemma ConcatMapPrefixStep<T, U>(xs: seq<T>, i: nat, f: T -> seq<U>)
    requires i < |xs|
    ensures ConcatMap(xs[..i + 1], f) == ConcatMap(xs[..i], f) + f(xs[i])
  {
    assert xs[..i + 1] == xs[..i] + [xs[i]];
    ConcatMapSnoc(xs[..i], xs[i], f);
  }

  /** Visiting a suffix of xs: the suffix of all but the last element,
      then the last one. */
  lemma ConcatMapSuffixSnoc<T, U>(xs: seq<T>, k: nat, f: T -> seq<U>)
    requires k < |xs|
    ensures ConcatMap(xs[k..], f) == ConcatMap(xs[..|xs| - 1][k..], f) + f(xs[|xs| - 1])
  {
    assert xs[k..] == xs[..|xs| - 1][k..] + [xs[|xs| - 1]];
    ConcatMapSnoc(xs[..|xs| - 1][k..], xs[|xs| - 1], f);
  }

  /** What two runs yield is what each yields, concatenated. */
  lemma {:induction false} ConcatMapAppend<T, U>(a: seq<T>, b: seq<T>, f: T -> seq<U>)
    ensures ConcatMap(a + b, f) == ConcatMap(a, f) + ConcatMap(b, f)
    decreases |b|
  {
    if b == [] {
      assert a + b == a;
    } else {
      var b', last := b[..|b| - 1], b[|b| - 1];
      assert a + b == (a + b') + [last];
      assert b == b' + [last];
      ConcatMapSnoc(a + b', last, f);
      ConcatMapSnoc(b', last, f);
      ConcatMapAppend(a, b', f);
      AppendAssoc(ConcatMap(a, f), ConcatMap(b', f), f(last));
    }
  }

  /** An element of the result comes from some visited element, and
      everything a visited element yields is in the result. */
  lemma {:induction false} ConcatMapMembership<T, U>(xs: seq<T>, f: T -> seq<U>, y: U)
    ensures y in ConcatMap(xs, f) <==> exists x :: x in xs && y in f(x)
  {
    if xs != [] {
      var init, last := xs[..|xs| - 1], xs[|xs| - 1];
      ConcatMapMembership(init, f, y);
      assert xs == init + [last];
      if y in ConcatMap(init, f) {
        var x :| x in init && y in f(x);
        assert x in xs;
      }
    }
  }

  /** Membership by position: an element of the result comes from the
      element at some index. */
  lemma ConcatMapMembershipAt<T, U>(xs: seq<T>, f: T -> seq<U>, y: U)
    ensures y in ConcatMap(xs, f) <==> exists i :: 0 <= i < |xs| && y in f(xs[i])
  {
    ConcatMapMembership(xs, f, y);
    if y in ConcatMap(xs, f) {
      var x :| x in xs && y in f(x);
      var i :| 0 <= i < |xs| && xs[i] == x;
    }
  }

  /** When every element yields at most one item, the result is no longer
      than the input. */
  lemma {:induction false} ConcatMapLength<T, U>(xs: seq<T>, f: T -> seq<U>)
    requires forall x :: x in xs ==> |f(x)| <= 1
    ensures |ConcatMap(xs, f)| <= |xs|
  {
    if xs != [] {
      ConcatMapLength(xs[..|xs| - 1], f);
    }
  }

  /** When every element yields no more under `f` than under `g`, the
      whole result is no longer either. */
  lemma {:induction false} ConcatMapMonotone<T, U, V>(xs: seq<T>, f: T -> seq<U>, g: T -> seq<V>)
    requires forall x :: x in xs ==> |f(x)| <= |g(x)|
    ensures |ConcatMap(xs, f)| <= |ConcatMap(xs, g)|
  {
    if xs != [] {
      ConcatMapMonotone(xs[..|xs| - 1], f, g);
    }
  }
}
