/** `weightedPick(rng, items, weights)`, written out identically in
    frontend/src/generators/conditions.ts and procedures.ts: one draw
    scaled by the total weight, then the running remainder is reduced by
    each weight until it reaches zero or below. */
module Weighted {
  import opened Prelude
  import opened Stream

  /** `weights.reduce((a, b) => a + b, 0)`. */
  function Sum(w: seq<real>): real {
    if |w| == 0 then 0.0 else Sum(w[..|w| - 1]) + w[|w| - 1]
  }

  /** The cumulative weight of the items up to and including index `i`. */
  function Cum(w: seq<real>, i: nat): real
    requires i < |w|
  {
    Sum(w[..i + 1])
  }

  /** The scan from index `j` for the target `r = u * total`: the first
      index whose cumulative weight brings the remainder to zero or below. */
  function FirstWithin(w: seq<real>, target: real, j: nat): (k: Option<nat>)
    requires j <= |w|
    ensures k.Some? ==> j <= k.value < |w|
    decreases |w| - j
  {
    if j == |w| then None
    else if target - Cum(w, j) <= 0.0 then Some(j)
    else FirstWithin(w, target, j + 1)
  }

  /** `rng() * total` for the draw `u`. */
  function Target(w: seq<real>, u: real): real {
    u * Sum(w)
  }

  /** The index picked for the draw `u`, the last one when the scan finds
      none. */
  function WeightedIndex(u: real, w: seq<real>): (k: nat)
    requires |w| > 0
    ensures k < |w|
  {
    match FirstWithin(w, Target(w, u), 0)
    case Some(k) => k
    case None => |w| - 1
  }

  /** The item picked for the draw `u`. */
  function WeightedFromDraw<T>(u: real, items: seq<T>, w: seq<real>): (r: T)
    requires |items| == |w| > 0
    ensures r in items
  {
    items[WeightedIndex(u, w)]
  }

  /** The scan stops at the first index whose cumulative weight reaches
      the target, and finds none only when no prefix reaches it. */
  lemma {:induction false} FirstWithinIsFirst(w: seq<real>, target: real, j: nat)
    requires j <= |w|
    ensures var k := FirstWithin(w, target, j);
      (k.Some? ==>
         Cum(w, k.value) >= target && forall i | j <= i < k.value :: Cum(w, i) < target)
      && (k.None? ==> forall i | j <= i < |w| :: Cum(w, i) < target)
    decreases |w| - j
  {
    if j < |w| && target - Cum(w, j) > 0.0 {
      FirstWithinIsFirst(w, target, j + 1);
    }
  }

  /** The picked index is the first whose cumulative weight is at least
      `u * total`; the last index is the fallback only when no cumulative
      weight reaches it. */
  lemma WeightedIndexFirst(u: real, w: seq<real>)
    requires |w| > 0
    ensures var k := WeightedIndex(u, w);
      (forall i | 0 <= i < k :: Cum(w, i) < Target(w, u))
      && (Cum(w, k) >= Target(w, u)
          || (k == |w| - 1 && forall i | 0 <= i < |w| :: Cum(w, i) < Target(w, u)))
  {
    FirstWithinIsFirst(w, Target(w, u), 0);
  }

  /** With non-negative weights and a draw below 1 the last cumulative
      weight, the total, already reaches `u * total`: the fallback is
      never needed. */
  lemma WeightedIndexFinds(u: real, w: seq<real>)
    requires |w| > 0 && 0.0 <= u < 1.0
    requires forall i | 0 <= i < |w| :: w[i] >= 0.0
    ensures FirstWithin(w, Target(w, u), 0).Some?
  {
    var total := Sum(w);
    SumNonNegative(w);
    assert w[..|w|] == w;
    assert Cum(w, |w| - 1) == total;
    MulMonotone(total, u, 1.0);
    assert Target(w, u) <= Cum(w, |w| - 1);
    FirstWithinIsFirst(w, Target(w, u), 0);
  }

  lemma {:induction false} SumNonNegative(w: seq<real>)
    requires forall i | 0 <= i < |w| :: w[i] >= 0.0
    ensures Sum(w) >= 0.0
  {
    if |w| > 0 {
      SumNonNegative(w[..|w| - 1]);
    }
  }

  /** The loop of `weightedPick` once `r = rng() * total` is known. */
  method ScanWeights(w: seq<real>, target: real) returns (found: Option<nat>)
    ensures found == FirstWithin(w, target, 0)
  {
    var r := target;
    var i := 0;
    while i < |w|
      invariant 0 <= i <= |w|
      invariant r == target - Sum(w[..i])
      invariant FirstWithin(w, target, 0) == FirstWithin(w, target, i)
    {
      assert w[..i + 1][..i] == w[..i];
      assert Cum(w, i) == Sum(w[..i]) + w[i];
      r := r - w[i];
      if r <= 0.0 {
        return Some(i);
      }
      i := i + 1;
    }
    return None;
  }

  /** `weightedPick(rng, items, weights)`: one draw. */
  method WeightedPick<T>(rng: Mulberry32, items: seq<T>, weights: seq<real>) returns (r: T)
    requires rng.Valid() && |items| == |weights| > 0
    modifies rng
    ensures rng.Valid() && rng.draws == old(rng.draws) + 1
    ensures r == WeightedFromDraw(rng.values(old(rng.draws)), items, weights)
  {
    var total := Sum(weights);
    var u := rng.Next();
    assert Target(weights, u) == u * total;
    var found := ScanWeights(weights, u * total);
    if found.Some? {
      r := items[found.value];
    } else {
      r := items[|items| - 1];
    }
  }
}
