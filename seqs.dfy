/**
  Order-preserving filters over sequences (the `Array.prototype.filter` and the
  "push when the condition holds" loops of the source), with their membership,
  length and subsequence facts proved once.
 */
module Seqs {

  /** `xs.filter(p)`: the elements satisfying `p`, in order. */
  function Filter<T>(p: T -> bool, xs: seq<T>): seq<T>
  {
    if xs == [] then []
    else Filter(p, xs[..|xs| - 1]) + (if p(xs[|xs| - 1]) then [xs[|xs| - 1]] else [])
  }

  /** Keeps exactly the elements that satisfy `p`. */
  lemma {:induction false} FilterMembership<T>(p: T -> bool, xs: seq<T>, x: T)
    ensures x in Filter(p, xs) <==> x in xs && p(x)
  {
    if xs != [] {
      var n := |xs| - 1;
      FilterMembership(p, xs[..n], x);
      assert xs == xs[..n] + [xs[n]];
    }
  }

  /** Every element of the filtered sequence satisfies `p`. */
  lemma {:induction false} FilterAll<T>(p: T -> bool, xs: seq<T>)
    ensures forall y :: y in Filter(p, xs) ==> p(y)
  {
    forall y | y in Filter(p, xs) ensures p(y) {
      FilterMembership(p, xs, y);
    }
  }

  /** A filter that keeps everything is the identity. */
  lemma {:induction false} FilterKeepsAll<T>(p: T -> bool, xs: seq<T>)
    requires forall i :: 0 <= i < |xs| ==> p(xs[i])
    ensures Filter(p, xs) == xs
  {
    if xs != [] {
      var n := |xs| - 1;
      FilterKeepsAll(p, xs[..n]);
      assert xs == xs[..n] + [xs[n]];
    }
  }

  /** `sub` is `xs` with some elements removed, order kept. */
  ghost predicate IsSubsequence<T>(sub: seq<T>, xs: seq<T>)
    decreases |xs|
  {
    if sub == [] then true
    else if xs == [] then false
    else if sub[|sub| - 1] == xs[|xs| - 1] then IsSubsequence(sub[..|sub| - 1], xs[..|xs| - 1])
    else IsSubsequence(sub, xs[..|xs| - 1])
  }

  lemma {:induction false} SubsequenceShorter<T>(sub: seq<T>, xs: seq<T>)
    requires IsSubsequence(sub, xs)
    ensures |sub| <= |xs|
    decreases |xs|
  {
    if sub != [] {
      if sub[|sub| - 1] == xs[|xs| - 1] {
        SubsequenceShorter(sub[..|sub| - 1], xs[..|xs| - 1]);
      } else {
        SubsequenceShorter(sub, xs[..|xs| - 1]);
      }
    }
  }

  /** Appending to the longer sequence keeps a subsequence a subsequence. */
  lemma {:induction false} SubsequenceOfInit<T>(sub: seq<T>, xs: seq<T>, x: T)
    requires IsSubsequence(sub, xs)
    ensures IsSubsequence(sub, xs + [x])
    decreases |xs|, 1
  {
    var ys := xs + [x];
    assert ys[..|ys| - 1] == xs;
    if sub != [] && sub[|sub| - 1] == x {
      SubsequenceDropLast(sub, xs);
    }
  }

  /** Dropping the last element of a subsequence keeps it a subsequence. */
  lemma {:induction false} SubsequenceDropLast<T>(sub: seq<T>, xs: seq<T>)
    requires sub != [] && IsSubsequence(sub, xs)
    ensures IsSubsequence(sub[..|sub| - 1], xs)
    decreases |xs|, 0
  {
    var n := |xs| - 1;
    assert xs[..n] + [xs[n]] == xs;
    if sub[|sub| - 1] == xs[n] {
      SubsequenceOfInit(sub[..|sub| - 1], xs[..n], xs[n]);
    } else {
      SubsequenceDropLast(sub, xs[..n]);
      SubsequenceOfInit(sub[..|sub| - 1], xs[..n], xs[n]);
    }
  }

  /** The filtered sequence is a subsequence of the input, hence never longer. */
  lemma {:induction false} FilterIsSubsequence<T>(p: T -> bool, xs: seq<T>)
    ensures IsSubsequence(Filter(p, xs), xs)
    ensures |Filter(p, xs)| <= |xs|
  {
    if xs != [] {
      var n := |xs| - 1;
      var f := Filter(p, xs[..n]);
      FilterIsSubsequence(p, xs[..n]);
      if p(xs[n]) {
        assert Filter(p, xs) == f + [xs[n]];
        assert (f + [xs[n]])[..|f|] == f;
      } else {
        assert Filter(p, xs) == f;
        SubsequenceOfInit(f, xs[..n], xs[n]);
        assert xs[..n] + [xs[n]] == xs;
      }
    }
    SubsequenceShorter(Filter(p, xs), xs);
  }

  lemma {:induction false} FilterAppend<T>(p: T -> bool, xs: seq<T>, ys: seq<T>)
    ensures Filter(p, xs + ys) == Filter(p, xs) + Filter(p, ys)
    decreases |ys|
  {
    if ys == [] {
      assert xs + ys == xs;
    } else {
      var n := |ys| - 1;
      FilterAppend(p, xs, ys[..n]);
      assert (xs + ys)[..|xs + ys| - 1] == xs + ys[..n];
    }
  }

  /** `f(x)` for each `x` of `xs` satisfying `p`, in order (the push-in-a-loop idiom). */
  function FilterMap<T, U>(p: T -> bool, f: T -> U, xs: seq<T>): (ys: seq<U>)
    ensures |ys| <= |xs|
  {
    if xs == [] then []
    else FilterMap(p, f, xs[..|xs| - 1]) + (if p(xs[|xs| - 1]) then [f(xs[|xs| - 1])] else [])
  }

  /** An output element is the image of a kept input element, and every kept element has its image. */
  lemma {:induction false} FilterMapMembership<T, U>(p: T -> bool, f: T -> U, xs: seq<T>, y: U)
    ensures y in FilterMap(p, f, xs) <==> exists i :: 0 <= i < |xs| && p(xs[i]) && y == f(xs[i])
  {
    if xs != [] {
      var n := |xs| - 1;
      var init := xs[..n];
      FilterMapMembership(p, f, init, y);
      if y in FilterMap(p, f, init) {
        var i :| 0 <= i < |init| && p(init[i]) && y == f(init[i]);
        assert xs[i] == init[i];
      }
      if i :| 0 <= i < |xs| && p(xs[i]) && y == f(xs[i]) {
        if i < n {
          assert init[i] == xs[i];
        }
      }
    }
  }

  /** Concatenation regroups freely: `(a + b) + c == a + (b + c)`. */
  lemma AppendAssoc<T>(a: seq<T>, b: seq<T>, c: seq<T>)
    ensures a + b + c == a + (b + c)
  {
  }
}
