/** Order-preserving selection and truncation of sequences. */
module Sequences {

  /** The elements of `xs` that satisfy `keep`, each mapped by `f`, in their original
      order: what both an append-inside-if loop and a filtered list comprehension build.
      Defined from the back so that one more loop iteration is one more step here. */
  function FilterMap<A, B>(xs: seq<A>, keep: A -> bool, f: A -> B): (r: seq<B>)
    ensures |r| <= |xs|
    decreases |xs|
  {
    if xs == [] then []
    else FilterMap(xs[..|xs| - 1], keep, f) + (if keep(xs[|xs| - 1]) then [f(xs[|xs| - 1])] else [])
  }

  /** One more element at the end adds at most its own image at the end. */
  lemma FilterMapSnoc<A, B>(xs: seq<A>, x: A, keep: A -> bool, f: A -> B)
    ensures FilterMap(xs + [x], keep, f) == FilterMap(xs, keep, f) + (if keep(x) then [f(x)] else [])
  {
    assert (xs + [x])[..|xs|] == xs;
  }

  /** The loop form of FilterMapSnoc: from the first `i` elements to the first `i + 1`. */
  lemma FilterMapStep<A, B>(xs: seq<A>, i: nat, keep: A -> bool, f: A -> B)
    requires i < |xs|
    ensures FilterMap(xs[..i + 1], keep, f) == FilterMap(xs[..i], keep, f) + (if keep(xs[i]) then [f(xs[i])] else [])
  {
    assert xs[..i + 1] == xs[..i] + [xs[i]];
    FilterMapSnoc(xs[..i], xs[i], keep, f);
  }

  /** `idx` lists, in strictly increasing order, exactly the positions of `xs` whose
      element `keep` accepts, and `r[j]` is `f` of the element at position `idx[j]`. */
  ghost predicate Selects<A, B>(xs: seq<A>, keep: A -> bool, f: A -> B, idx: seq<nat>, r: seq<B>)
  {
    && |idx| == |r|
    && (forall j :: 0 <= j < |idx| ==> idx[j] < |xs| && r[j] == f(xs[idx[j]]))
    && (forall j, k :: 0 <= j < k < |idx| ==> idx[j] < idx[k])
    && (forall i :: 0 <= i < |xs| ==> (keep(xs[i]) <==> i in idx))
  }

  /** FilterMap keeps exactly the accepted elements, each once, in input order. */
  lemma {:induction false} FilterMapSelects<A, B>(xs: seq<A>, keep: A -> bool, f: A -> B)
    returns (idx: seq<nat>)
    ensures Selects(xs, keep, f, idx, FilterMap(xs, keep, f))
    decreases |xs|
  {
    if xs == [] {
      idx := [];
    } else {
      var n := |xs| - 1;
      var front := xs[..n];
      var prev := FilterMapSelects(front, keep, f);
      var r0 := FilterMap(front, keep, f);
      assert FilterMap(xs, keep, f) == r0 + (if keep(xs[n]) then [f(xs[n])] else []);
      if keep(xs[n]) {
        idx := prev + [n];
        SelectsExtend(xs, keep, f, prev, r0);
      } else {
        idx := prev;
        SelectsSkip(xs, keep, f, prev, r0);
      }
    }
  }

  /** A selection of the front of `xs` is one of `xs` when the last element is dropped. */
  lemma SelectsSkip<A, B>(xs: seq<A>, keep: A -> bool, f: A -> B, prev: seq<nat>, r0: seq<B>)
    requires |xs| > 0 && !keep(xs[|xs| - 1])
    requires Selects(xs[..|xs| - 1], keep, f, prev, r0)
    ensures Selects(xs, keep, f, prev, r0)
  {
    var n := |xs| - 1;
    forall j | 0 <= j < |prev|
      ensures prev[j] < |xs| && r0[j] == f(xs[prev[j]])
    {
      assert xs[..n][prev[j]] == xs[prev[j]];
    }
    forall i | 0 <= i < |xs|
      ensures keep(xs[i]) <==> i in prev
    {
      if i < n { assert xs[..n][i] == xs[i]; }
    }
  }

  /** A selection of the front of `xs` extends by the last position when it is kept. */
  lemma SelectsExtend<A, B>(xs: seq<A>, keep: A -> bool, f: A -> B, prev: seq<nat>, r0: seq<B>)
    requires |xs| > 0 && keep(xs[|xs| - 1])
    requires Selects(xs[..|xs| - 1], keep, f, prev, r0)
    ensures Selects(xs, keep, f, prev + [|xs| - 1], r0 + [f(xs[|xs| - 1])])
  {
    var n := |xs| - 1;
    var idx := prev + [n];
    var r := r0 + [f(xs[n])];
    forall j | 0 <= j < |idx|
      ensures idx[j] < |xs| && r[j] == f(xs[idx[j]])
    {
      if j < |prev| { assert xs[..n][prev[j]] == xs[prev[j]]; }
    }
    forall i | 0 <= i < |xs|
      ensures keep(xs[i]) <==> i in idx
    {
      if i < n {
        assert xs[..n][i] == xs[i];
        assert n !in prev;
      }
    }
  }

  /** Python's `xs[:n]` for a non-negative `n`. */
  function Take<T>(xs: seq<T>, n: nat): (r: seq<T>)
    ensures |r| == if |xs| < n then |xs| else n
    ensures r == xs[..|r|]
  {
    if |xs| <= n then xs else xs[..n]
  }
}
