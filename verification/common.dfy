/** An optional value: `None` stands for JavaScript's `undefined`/`null` and for
    the `NaN` an empty average produces. */
module Optional {

  datatype Option<+T> = None | Some(value: T)
}

/** `xs.filter(p).length`, the one aggregate every dashboard card uses, with the
    facts about it that the per-component counts need. */
module Counting {

  /** Number of elements of `xs` satisfying `p`. */
  function Count<T>(xs: seq<T>, p: T -> bool): (n: nat)
    ensures n <= |xs|
    ensures n == 0 <==> forall i :: 0 <= i < |xs| ==> !p(xs[i])
    ensures n == |xs| <==> forall i :: 0 <= i < |xs| ==> p(xs[i])
  {
    if |xs| == 0 then 0
    else
      var rest := Count(xs[1..], p);
      assert forall i :: 1 <= i < |xs| ==> xs[i] == xs[1..][i - 1];
      (if p(xs[0]) then 1 else 0) + rest
  }

  /** Counting distributes over concatenation. */
  lemma {:induction false} CountAppend<T>(xs: seq<T>, ys: seq<T>, p: T -> bool)
    ensures Count(xs + ys, p) == Count(xs, p) + Count(ys, p)
  {
    if |xs| == 0 {
      assert xs + ys == ys;
    } else {
      assert (xs + ys)[1..] == xs[1..] + ys;
      CountAppend(xs[1..], ys, p);
    }
  }

  /** When every element satisfies exactly one of three predicates, the three
      counts add up to the length. */
  lemma {:induction false} CountPartition3<T>(xs: seq<T>, p: T -> bool, q: T -> bool, r: T -> bool)
    requires forall i :: 0 <= i < |xs| ==>
      (p(xs[i]) || q(xs[i]) || r(xs[i]))
      && !(p(xs[i]) && q(xs[i])) && !(p(xs[i]) && r(xs[i])) && !(q(xs[i]) && r(xs[i]))
    ensures Count(xs, p) + Count(xs, q) + Count(xs, r) == |xs|
  {
    if |xs| > 0 {
      assert forall i :: 0 <= i < |xs[1..]| ==> xs[1..][i] == xs[i + 1];
      CountPartition3(xs[1..], p, q, r);
    }
  }

  /** Position-wise comparison: if `p` holds at position `i` of `ys` only when it
      holds at position `i` of `xs`, then `ys` has no more `p`-elements than `xs`. */
  lemma {:induction false} CountPointwise<T>(xs: seq<T>, ys: seq<T>, p: T -> bool)
    requires |xs| == |ys|
    requires forall i :: 0 <= i < |xs| ==> p(ys[i]) ==> p(xs[i])
    ensures Count(ys, p) <= Count(xs, p)
  {
    if |xs| > 0 {
      assert forall i :: 0 <= i < |xs[1..]| ==> xs[1..][i] == xs[i + 1] && ys[1..][i] == ys[i + 1];
      CountPointwise(xs[1..], ys[1..], p);
    }
  }

  /** The strict version: if in addition some position loses `p`, the count drops. */
  lemma {:induction false} CountPointwiseStrict<T>(xs: seq<T>, ys: seq<T>, p: T -> bool, k: int)
    requires |xs| == |ys|
    requires forall i :: 0 <= i < |xs| ==> p(ys[i]) ==> p(xs[i])
    requires 0 <= k < |xs| && p(xs[k]) && !p(ys[k])
    ensures Count(ys, p) < Count(xs, p)
  {
    assert forall i :: 0 <= i < |xs[1..]| ==> xs[1..][i] == xs[i + 1] && ys[1..][i] == ys[i + 1];
    if k == 0 {
      CountPointwise(xs[1..], ys[1..], p);
    } else {
      CountPointwiseStrict(xs[1..], ys[1..], p, k - 1);
    }
  }
}
