/** Small shared definitions: optional values, outcomes of calls, and counting the
    elements of a sequence that satisfy a predicate. */
module Basics {

  datatype Option<+T> = None | Some(value: T)

  /** What a write reported, and whether it took effect. */
  datatype Call = Done | FailedBefore | FailedAfter {
    predicate Applied() { !FailedBefore? }
  }

  function Bit(b: bool): nat { if b then 1 else 0 }

  function Count<T>(xs: seq<T>, p: T -> bool): nat {
    if |xs| == 0 then 0 else Count(xs[..|xs| - 1], p) + Bit(p(xs[|xs| - 1]))
  }

  lemma CountAppend<T>(xs: seq<T>, x: T, p: T -> bool)
    ensures Count(xs + [x], p) == Count(xs, p) + Bit(p(x))
  {
    assert (xs + [x])[..|xs|] == xs;
  }

  lemma {:induction false} CountUpdate<T>(xs: seq<T>, i: nat, x: T, p: T -> bool)
    requires i < |xs|
    ensures Count(xs[i := x], p) + Bit(p(xs[i])) == Count(xs, p) + Bit(p(x))
  {
    var n := |xs| - 1;
    if i == n {
      assert xs[i := x][..n] == xs[..n];
    } else {
      assert xs[i := x][..n] == xs[..n][i := x];
      CountUpdate(xs[..n], i, x, p);
    }
  }

  lemma {:induction false} CountMonotone<T>(xs: seq<T>, p: T -> bool, q: T -> bool)
    requires forall i :: 0 <= i < |xs| && p(xs[i]) ==> q(xs[i])
    ensures Count(xs, p) <= Count(xs, q)
  {
    if |xs| == 0 {
    } else {
      CountMonotone(xs[..|xs| - 1], p, q);
    }
  }

  lemma {:induction false} CountSplit<T>(xs: seq<T>, p: T -> bool, q: T -> bool, r: T -> bool)
    requires forall i :: 0 <= i < |xs| ==> Bit(p(xs[i])) + Bit(q(xs[i])) == Bit(r(xs[i]))
    ensures Count(xs, p) + Count(xs, q) == Count(xs, r)
  {
    if |xs| == 0 {
    } else {
      CountSplit(xs[..|xs| - 1], p, q, r);
    }
  }

  lemma {:induction false} CountZero<T>(xs: seq<T>, p: T -> bool)
    requires forall i :: 0 <= i < |xs| ==> !p(xs[i])
    ensures Count(xs, p) == 0
  {
    if |xs| == 0 {
    } else {
      CountZero(xs[..|xs| - 1], p);
    }
  }

  lemma {:induction false} CountPositive<T>(xs: seq<T>, i: nat, p: T -> bool)
    requires i < |xs| && p(xs[i])
    ensures Count(xs, p) >= 1
  {
    if i == |xs| - 1 {
    } else {
      CountPositive(xs[..|xs| - 1], i, p);
    }
  }

  lemma {:induction false} CountWitness<T>(xs: seq<T>, p: T -> bool) returns (i: nat)
    requires Count(xs, p) >= 1
    ensures i < |xs| && p(xs[i])
  {
    var n := |xs| - 1;
    if p(xs[n]) {
      i := n;
    } else {
      i := CountWitness(xs[..n], p);
    }
  }
}
