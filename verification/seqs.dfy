/** Sequence combinators the prompt assembly is written in terms of:
    keeping the items a predicate selects (`Iterator::filter`), appending a
    piece of text per item (a `push_str` in a `for` loop), and pairing two
    sequences item by item. */
module Sequences {

  /** Concatenation is associative; stated once so that proofs about long
      concatenations can name the regrouping they need. */
  lemma AppendAssoc<T>(a: seq<T>, b: seq<T>, c: seq<T>)
    ensures a + (b + c) == a + b + c
  {
  }

  // ---------------------------------------------------------------------
  // Filter
  // ---------------------------------------------------------------------

  /** The items of `s` that satisfy `p`, in their original order. */
  function Filter<T>(s: seq<T>, p: T -> bool): (r: seq<T>)
    ensures |r| <= |s|
  {
    if s == [] then []
    else Filter(s[..|s| - 1], p) + (if p(s[|s| - 1]) then [s[|s| - 1]] else [])
  }

  /** An item is kept exactly when it is an item of `s` that `p` accepts. */
  lemma {:induction false} FilterMembers<T>(s: seq<T>, p: T -> bool)
    ensures forall x <- Filter(s, p) :: x in s && p(x)
    ensures forall x <- s :: p(x) ==> x in Filter(s, p)
    decreases |s|
  {
    if s != [] {
      var init, last := s[..|s| - 1], s[|s| - 1];
      assert s == init + [last];
      FilterMembers(init, p);
    }
  }

  /** Filtering commutes with concatenation, so relative order is kept. */
  lemma {:induction false} FilterAppend<T>(a: seq<T>, b: seq<T>, p: T -> bool)
    ensures Filter(a + b, p) == Filter(a, p) + Filter(b, p)
    decreases |b|
  {
    if b == [] {
      assert a + b == a;
    } else {
      var init := b[..|b| - 1];
      assert (a + b)[..|a + b| - 1] == a + init;
      FilterAppend(a, init, p);
    }
  }

  /** An item the predicate rejects leaves no trace, wherever it stands. */
  lemma FilterSkip<T>(a: seq<T>, x: T, b: seq<T>, p: T -> bool)
    requires !p(x)
    ensures Filter(a + [x] + b, p) == Filter(a + b, p)
  {
    assert [x][..0] == [];
    FilterAppend(a + [x], b, p);
    FilterAppend(a, [x], p);
    FilterAppend(a, b, p);
  }

  /** An item the predicate accepts is kept in its place. */
  lemma FilterKeep<T>(a: seq<T>, x: T, b: seq<T>, p: T -> bool)
    requires p(x)
    ensures Filter(a + [x] + b, p) == Filter(a, p) + [x] + Filter(b, p)
  {
    assert [x][..0] == [];
    FilterAppend(a + [x], b, p);
    FilterAppend(a, [x], p);
  }

  /** Nothing is kept when the predicate rejects every item. */
  lemma {:induction false} FilterNone<T>(s: seq<T>, p: T -> bool)
    requires forall x <- s :: !p(x)
    ensures Filter(s, p) == []
    decreases |s|
  {
    if s != [] {
      var init, last := s[..|s| - 1], s[|s| - 1];
      assert s == init + [last];
      FilterNone(init, p);
    }
  }

  // ---------------------------------------------------------------------
  // FlatMap
  // ---------------------------------------------------------------------

  /** The pieces `f` gives for the items of `s`, concatenated in order. */
  function FlatMap<T, U>(s: seq<T>, f: T -> seq<U>): seq<U> {
    if s == [] then []
    else FlatMap(s[..|s| - 1], f) + f(s[|s| - 1])
  }

  /** The pieces of `a + b` are those of `a` followed by those of `b`. */
  lemma {:induction false} FlatMapAppend<T, U>(a: seq<T>, b: seq<T>, f: T -> seq<U>)
    ensures FlatMap(a + b, f) == FlatMap(a, f) + FlatMap(b, f)
    decreases |b|
  {
    if b == [] {
      assert a + b == a;
    } else {
      var init := b[..|b| - 1];
      assert (a + b)[..|a + b| - 1] == a + init;
      FlatMapAppend(a, init, f);
    }
  }

  /** One more item appends exactly its own piece. */
  lemma FlatMapSnoc<T, U>(s: seq<T>, x: T, f: T -> seq<U>)
    ensures FlatMap(s + [x], f) == FlatMap(s, f) + f(x)
  {
    assert (s + [x])[..|s|] == s;
  }

  /** The step of a loop that walks `s` and appends the piece of every
      item. */
  lemma FlatMapPrefixStep<T, U>(s: seq<T>, i: nat, f: T -> seq<U>)
    requires i < |s|
    ensures FlatMap(s[..i + 1], f) == FlatMap(s[..i], f) + f(s[i])
  {
    assert s[..i + 1][..i] == s[..i];
  }

  /** An item in the middle contributes its piece in its place. */
  lemma FlatMapMiddle<T, U>(a: seq<T>, x: T, b: seq<T>, f: T -> seq<U>)
    ensures FlatMap(a + [x] + b, f) == FlatMap(a, f) + f(x) + FlatMap(b, f)
  {
    FlatMapAppend(a + [x], b, f);
    FlatMapSnoc(a, x, f);
  }

  /** The step of a loop that walks `s` and appends the piece of every item
      `p` accepts. */
  lemma FlatMapFilterSnoc<T, U>(s: seq<T>, x: T, p: T -> bool, f: T -> seq<U>)
    ensures p(x) ==> FlatMap(Filter(s + [x], p), f) == FlatMap(Filter(s, p), f) + f(x)
    ensures !p(x) ==> FlatMap(Filter(s + [x], p), f) == FlatMap(Filter(s, p), f)
  {
    FilterAppend(s, [x], p);
    assert [x][..0] == [];
    if p(x) {
      assert Filter([x], p) == [x];
      FlatMapSnoc(Filter(s, p), x, f);
    } else {
      assert Filter([x], p) == [];
      assert Filter(s, p) + [] == Filter(s, p);
    }
  }

  /** The step of a loop that walks `s` and appends the piece of every item
      `p` accepts, stated on prefixes. */
  lemma FlatMapFilterPrefixStep<T, U>(s: seq<T>, i: nat, p: T -> bool, f: T -> seq<U>)
    requires i < |s|
    ensures p(s[i]) ==> FlatMap(Filter(s[..i + 1], p), f) == FlatMap(Filter(s[..i], p), f) + f(s[i])
    ensures !p(s[i]) ==> FlatMap(Filter(s[..i + 1], p), f) == FlatMap(Filter(s[..i], p), f)
  {
    assert s[..i + 1] == s[..i] + [s[i]];
    FlatMapFilterSnoc(s[..i], s[i], p, f);
  }

  // ---------------------------------------------------------------------
  // Zip
  // ---------------------------------------------------------------------

  /** The pairs of items at equal positions of `a` and `b`. */
  function Zip<A, B>(a: seq<A>, b: seq<B>): seq<(A, B)>
    requires |a| == |b|
  {
    seq(|a|, i requires 0 <= i < |a| => (a[i], b[i]))
  }

  lemma ZipAppend<A, B>(a1: seq<A>, b1: seq<B>, a2: seq<A>, b2: seq<B>)
    requires |a1| == |b1| && |a2| == |b2|
    ensures Zip(a1 + a2, b1 + b2) == Zip(a1, b1) + Zip(a2, b2)
  {
  }
}
