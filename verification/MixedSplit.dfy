/** How a mixed scenario's time is shared out: splitMixedDurations
    (internal/workload/mixed.go), in 64-bit arithmetic. */
module MixedSplit {
  import opened Basics
  import opened Int64

  // ----- The profile -----

  datatype MixedProfile = MixedProfile(cpuPercent: int, dbWritePercent: int, dbReadPercent: int)

  const DEFAULT_PROFILE: MixedProfile := MixedProfile(34, 33, 33)

  predicate ProfileFits(p: MixedProfile) {
    InInt64(p.cpuPercent) && InInt64(p.dbWritePercent) && InInt64(p.dbReadPercent)
  }

  function Percents(p: MixedProfile): (s: seq<int>)
    ensures |s| == 3
  {
    [p.cpuPercent, p.dbWritePercent, p.dbReadPercent]
  }

  predicate NonNegative(p: MixedProfile) {
    p.cpuPercent >= 0 && p.dbWritePercent >= 0 && p.dbReadPercent >= 0
  }

  function Sum3(s: seq<int>): int
    requires |s| == 3
  {
    s[0] + s[1] + s[2]
  }

  /** The profile that is used: all zeroes stand for the default. */
  function Effective(p: MixedProfile): MixedProfile {
    if p == MixedProfile(0, 0, 0) then DEFAULT_PROFILE else p
  }

  function ActivePhases(p: MixedProfile): nat {
    Bit(p.cpuPercent > 0) + Bit(p.dbWritePercent > 0) + Bit(p.dbReadPercent > 0)
  }

  /** When a total can be shared out at all. */
  predicate Splittable(totalMs: int, p: MixedProfile) {
    totalMs > 0 && NonNegative(p) && Sum3(Percents(p)) <= 100 && totalMs >= ActivePhases(Effective(p))
  }

  // ----- The shares -----

  /** A phase's own share: its percentage rounded down, but at least 1 ms. */
  function Share(totalMs: int, percent: int): int {
    if percent <= 0 then 0
    else if totalMs * percent / 100 == 0 then 1
    else totalMs * percent / 100
  }

  /** The first phase with the largest percentage. */
  function Largest(s: seq<int>): (i: nat)
    requires |s| == 3
    ensures i < 3 && forall j :: 0 <= j < 3 ==> s[j] <= s[i]
    ensures forall j :: 0 <= j < i ==> s[j] < s[i]
  {
    if s[0] >= s[1] && s[0] >= s[2] then 0 else if s[1] >= s[2] then 1 else 2
  }

  /** What every phase gets: its own share, and the largest what is left. */
  function Shared(totalMs: int, p: MixedProfile, i: nat): int
    requires i < 3
  {
    var s := Percents(p);
    if i != Largest(s) then Share(totalMs, s[i])
    else totalMs - Share(totalMs, s[(i + 1) % 3]) - Share(totalMs, s[(i + 2) % 3])
  }

  datatype Durations = Durations(cpuMs: int, writeMs: int, readMs: int)

  function Apportion(totalMs: int, p: MixedProfile): Durations {
    Durations(Shared(totalMs, p, 0), Shared(totalMs, p, 1), Shared(totalMs, p, 2))
  }

  function Parts(d: Durations): seq<int> { [d.cpuMs, d.writeMs, d.readMs] }

  datatype SplitError = NotPositive | NegativePercent | TooMuch | NoPhase | TooShort

  datatype Split = Ok(durations: Durations) | Err(error: SplitError)

  /** The outcome in unbounded arithmetic. */
  function Ideal(totalMs: int, p: MixedProfile): Split {
    if totalMs <= 0 then Err(NotPositive)
    else if !NonNegative(p) then Err(NegativePercent)
    else if Sum3(Percents(p)) > 100 then Err(TooMuch)
    else if totalMs < ActivePhases(Effective(p)) then Err(TooShort)
    else Ok(Apportion(totalMs, Effective(p)))
  }

  /** Where 64 bits do no harm: the percentages do not wrap around into what is
      admitted, and no phase but the largest overflows. */
  predicate InRange(totalMs: int, p: MixedProfile) {
    totalMs <= 0 || !NonNegative(p) ||
    (var sum := Sum3(Percents(p));
     if sum > 100 then sum <= MAX_INT64 || sum > TWO_64 + 100
     else SharesInRange(totalMs, Effective(p)))
  }

  predicate SharesInRange(totalMs: int, p: MixedProfile) {
    var s := Percents(p);
    forall i :: 0 <= i < 3 && i != Largest(s) ==> totalMs * s[i] <= MAX_INT64
  }

  // ----- Arithmetic on shares -----

  lemma Monotone(t: int, p: int, q: int)
    requires t > 0 && p <= q
    ensures t * p <= t * q
  {
  }

  lemma SumOfProducts(t: int, a: int, b: int, c: int)
    ensures t * a + t * b + t * c == t * (a + b + c)
  {
  }

  /** A share is less than 1 ms away from the exact proportion. */
  lemma ShareAccuracy(t: int, p: int)
    requires t > 0 && p >= 0
    ensures -100 < 100 * Share(t, p) - t * p < 100
    ensures p > 0 ==> Share(t, p) >= 1
    ensures p == 0 ==> Share(t, p) == 0
    ensures Share(t, p) > 1 ==> 100 * Share(t, p) <= t * p
    ensures p > 0 && Share(t, p) == 1 ==> t * p < 200
  {
    if p > 0 {
      Monotone(t, 0, p);
      var x := t * p;
      assert x > 0;
    }
  }

  /** The sum of the three shares is at most one more than the total; if it is more,
      the two other phases were rounded up from nothing. */
  lemma SharesSum(t: int, p: MixedProfile)
    requires Splittable(t, p) && p == Effective(p)
    ensures var s := Percents(p);
            var sum := Share(t, s[0]) + Share(t, s[1]) + Share(t, s[2]);
            var l := Largest(s);
            && sum <= t + 1
            && (sum == t + 1 ==> Share(t, s[(l + 1) % 3]) == 1 && Share(t, s[(l + 2) % 3]) == 1 && Share(t, s[l]) > 1)
  {
    var s := Percents(p);
    ShareAccuracy(t, s[0]);
    ShareAccuracy(t, s[1]);
    ShareAccuracy(t, s[2]);
    SumOfProducts(t, s[0], s[1], s[2]);
    Monotone(t, s[0] + s[1] + s[2], 100);
    var x, y, z := t * s[0], t * s[1], t * s[2];
    var a, b, c := Share(t, s[0]), Share(t, s[1]), Share(t, s[2]);
    assert x + y + z <= 100 * t;
    assert 100 * (a + b + c) < 100 * t + 300;
    var l := Largest(s);
    Monotone(t, s[0], s[l]);
    Monotone(t, s[1], s[l]);
    Monotone(t, s[2], s[l]);
    if a + b + c > t {
      // At least two phases were rounded up; a phase that was not has a larger percentage.
      assert (if a > 1 then 1 else 0) + (if b > 1 then 1 else 0) + (if c > 1 then 1 else 0) <= 1;
    }
  }

  lemma ExcessIsEarly(t: int, p: MixedProfile)
    requires Splittable(t, p) && p == Effective(p)
    ensures Share(t, p.cpuPercent) + Share(t, p.dbWritePercent) + Share(t, p.dbReadPercent) == t + 1 ==> t < 200
  {
    SharesSum(t, p);
    var percent := Percents(p)[(Largest(Percents(p)) + 1) % 3];
    ShareAccuracy(t, percent);
    if Share(t, percent) == 1 {
      assert percent >= 1;
      Monotone(t, 1, percent);
    }
  }

  // ----- The code -----

  datatype MixedPhase = MixedPhase(name: string, percent: int, ms: int)

  function WrapSum(ms: seq<MixedPhase>): int {
    if |ms| == 0 then 0 else Wrap(WrapSum(ms[..|ms| - 1]) + ms[|ms| - 1].ms)
  }

  method SumDurations(phases: array<MixedPhase>) returns (total: int)
    ensures total == WrapSum(phases[..]) && InInt64(total)
  {
    total := 0;
    for i := 0 to phases.Length
      invariant total == WrapSum(phases[..i]) && InInt64(total)
    {
      assert phases[..i + 1][..i] == phases[..i];
      total := Wrap(total + phases[i].ms);
    }
    assert phases[..phases.Length] == phases[..];
  }

  function Milliseconds(ms: seq<MixedPhase>): seq<int>
    requires |ms| == 3
  {
    [ms[0].ms, ms[1].ms, ms[2].ms]
  }

  function RawSum(ms: seq<int>): int
    requires |ms| == 3
  {
    Wrap(Wrap(Wrap(ms[0]) + ms[1]) + ms[2])
  }

  lemma WrapSum3(ms: seq<MixedPhase>)
    requires |ms| == 3
    ensures WrapSum(ms) == RawSum(Milliseconds(ms))
  {
    hide Wrap;
    assert ms[..2][..1] == ms[..1] && ms[..1][..0] == [];
    assert WrapSum(ms[..1]) == Wrap(ms[0].ms);
    assert WrapSum(ms[..2]) == Wrap(Wrap(ms[0].ms) + ms[1].ms);
  }

  /** Termination of trimming: what there is to take away. */
  function Excess(ms: seq<MixedPhase>): nat {
    if |ms| == 0 then 0 else Excess(ms[..|ms| - 1]) + (if ms[|ms| - 1].ms > 0 then ms[|ms| - 1].ms else 0)
  }

  lemma {:induction false} ExcessDrops(ms: seq<MixedPhase>, i: nat)
    requires i < |ms| && ms[i].ms > 1
    ensures Excess(ms[i := ms[i].(ms := ms[i].ms - 1)]) == Excess(ms) - 1
  {
    var n := |ms| - 1;
    var ms' := ms[i := ms[i].(ms := ms[i].ms - 1)];
    if i == n {
      assert ms'[..n] == ms[..n];
    } else {
      assert ms'[..n] == ms[..n][i := ms[i].(ms := ms[i].ms - 1)];
      ExcessDrops(ms[..n], i);
    }
  }

  /** One pass of the trimming loop: the first phase above 1 ms loses one. */
  method Trim(phases: array<MixedPhase>) returns (reduced: bool)
    modifies phases
    ensures !reduced ==> phases[..] == old(phases[..]) && forall i :: 0 <= i < phases.Length ==> phases[i].ms <= 1
    ensures reduced ==> exists i: nat ::
              i < phases.Length && old(phases[i].ms) > 1 && (forall j :: 0 <= j < i ==> old(phases[j].ms) <= 1) &&
              phases[..] == old(phases[..])[i := old(phases[i]).(ms := old(phases[i].ms) - 1)]
  {
    reduced := false;
    for i := 0 to phases.Length
      invariant phases[..] == old(phases[..]) && !reduced
      invariant forall j :: 0 <= j < i ==> phases[j].ms <= 1
    {
      if phases[i].ms > 1 {
        phases[i] := phases[i].(ms := phases[i].ms - 1);
        assert phases[..] == old(phases[..])[i := old(phases[i]).(ms := old(phases[i].ms) - 1)];
        return true;
      }
    }
  }

  function ShareList(totalMs: int, p: MixedProfile): seq<int> {
    var s := Percents(p);
    [Share(totalMs, s[0]), Share(totalMs, s[1]), Share(totalMs, s[2])]
  }

  predicate Holds(phases: seq<MixedPhase>, p: MixedProfile, ms: seq<int>) {
    |phases| == 3 && |ms| == 3 &&
    forall i :: 0 <= i < 3 ==> phases[i].percent == Percents(p)[i] && phases[i].ms == ms[i]
  }

  /** A phase's own share as the code computes it. */
  function WrapShare(totalMs: int, percent: int): int {
    if percent <= 0 then 0
    else if Quo(Wrap(totalMs * percent), 100) == 0 then 1
    else Quo(Wrap(totalMs * percent), 100)
  }

  function WrapShares(totalMs: int, p: MixedProfile): seq<int> {
    var s := Percents(p);
    [WrapShare(totalMs, s[0]), WrapShare(totalMs, s[1]), WrapShare(totalMs, s[2])]
  }

  const SHARE_LIMIT: int := 92233720368547759

  /** A share is right if its product fits, and too small if it does not. */
  lemma WrapShareIs(t: int, percent: int)
    requires t > 0 && 0 <= percent
    ensures t * percent <= MAX_INT64 ==> WrapShare(t, percent) == Share(t, percent) >= 0
    ensures t * percent > MAX_INT64 ==> WrapShare(t, percent) < Share(t, percent)
    ensures -SHARE_LIMIT <= WrapShare(t, percent) <= SHARE_LIMIT
  {
    var x := t * percent;
    if percent > 0 {
      Monotone(t, 0, percent);
      if x > MAX_INT64 {
        WrapAbove(x);
        QuoLess(Wrap(x), x);
      }
      QuoBounds(Wrap(x));
    }
  }

  lemma QuoLess(w: int, x: int)
    requires x > MAX_INT64 && w <= x - TWO_64
    ensures Quo(w, 100) < x / 100 && x / 100 > 1
  {
  }

  lemma QuoBounds(w: int)
    requires InInt64(w)
    ensures -SHARE_LIMIT <= Quo(w, 100) <= SHARE_LIMIT
  {
  }

  /** First loop: every active phase gets its own share. */
  method GiveShares(phases: array<MixedPhase>, totalMs: int, ghost p: MixedProfile) returns (active: int)
    requires phases.Length == 3 && totalMs > 0 && InInt64(totalMs)
    requires Holds(phases[..], p, [0, 0, 0]) && NonNegative(p)
    modifies phases
    ensures active == ActivePhases(p)
    ensures Holds(phases[..], p, WrapShares(totalMs, p))
  {
    active := 0;
    for i := 0 to 3
      invariant forall j :: 0 <= j < 3 ==> phases[j].percent == Percents(p)[j]
      invariant forall j :: i <= j < 3 ==> phases[j].ms == 0
      invariant active == (if i > 0 then Bit(p.cpuPercent > 0) else 0)
                          + (if i > 1 then Bit(p.dbWritePercent > 0) else 0)
                          + (if i > 2 then Bit(p.dbReadPercent > 0) else 0)
      invariant forall j :: 0 <= j < i ==> phases[j].ms == WrapShare(totalMs, Percents(p)[j])
    {
      hide Wrap, Quo;
      if phases[i].percent > 0 {
        active := active + 1;
        phases[i] := phases[i].(ms := Quo(Wrap(totalMs * phases[i].percent), 100));
        if phases[i].ms == 0 {
          phases[i] := phases[i].(ms := 1);
        }
      }
    }
  }

  /** Second loop: the sum so far and the first phase with the largest percentage. */
  method FindTarget(phases: array<MixedPhase>) returns (sum: int, target: int)
    requires phases.Length == 3
    ensures sum == WrapSum(phases[..])
    ensures -1 <= target < 3
    ensures target == -1 <==> forall j :: 0 <= j < 3 ==> phases[j].percent <= 0
    ensures target >= 0 ==> phases[target].percent > 0 && forall j :: 0 <= j < 3 ==>
            phases[j].percent <= phases[target].percent
    ensures target >= 0 ==> forall j :: 0 <= j < target ==> phases[j].percent < phases[target].percent
  {
    sum := 0;
    target := -1;
    var targetPercent := -1;
    for i := 0 to 3
      invariant sum == WrapSum(phases[..i])
      invariant -1 <= target < i
      invariant target == -1 ==> targetPercent == -1 && forall j :: 0 <= j < i ==> phases[j].percent <= 0
      invariant target >= 0 ==> targetPercent == phases[target].percent > 0
      invariant target >= 0 ==> forall j :: 0 <= j < i ==> phases[j].percent <= targetPercent
      invariant target >= 0 ==> forall j :: 0 <= j < target ==> phases[j].percent < targetPercent
    {
      assert phases[..i + 1][..i] == phases[..i];
      sum := Wrap(sum + phases[i].ms);
      if phases[i].percent > 0 && phases[i].percent > targetPercent {
        target := i;
        targetPercent := phases[i].percent;
      }
    }
    assert phases[..3] == phases[..];
  }

  /** What the phases hold before trimming: shares, with any remainder given to the
      largest. */
  function BeforeTrim(totalMs: int, p: MixedProfile): seq<int> {
    var s := ShareList(totalMs, p);
    var l := Largest(Percents(p));
    if Sum3(s) < totalMs then s[l := s[l] + (totalMs - Sum3(s))] else s
  }

  /** Trimming takes 1 ms from the largest phase or does not happen. */
  lemma TrimOnce(t: int, p: MixedProfile, i: nat)
    requires Splittable(t, p) && p == Effective(p)
    ensures Sum3(BeforeTrim(t, p)) <= t + 1
    ensures Sum3(BeforeTrim(t, p)) <= t ==> BeforeTrim(t, p) == Parts(Apportion(t, p))
    ensures Sum3(BeforeTrim(t, p)) == t + 1 && i < 3 && BeforeTrim(t, p)[i] > 1 ==>
              i == Largest(Percents(p)) && BeforeTrim(t, p)[i := BeforeTrim(t, p)[i] - 1] == Parts(Apportion(t, p))
    ensures Sum3(BeforeTrim(t, p)) == t + 1 ==> BeforeTrim(t, p)[Largest(Percents(p))] > 1
  {
    SharesSum(t, p);
    var l := Largest(Percents(p));
    var s := ShareList(t, p);
    assert Sum3(s) == s[l] + s[(l + 1) % 3] + s[(l + 2) % 3];
  }

  /** What the phases hold before trimming, as the code computes it. */
  function Before(totalMs: int, p: MixedProfile): (r: seq<int>)
    ensures |r| == 3
  {
    var s := WrapShares(totalMs, p);
    var l := Largest(Percents(p));
    if RawSum(s) < totalMs then s[l := Wrap(s[l] + Wrap(totalMs - RawSum(s)))] else s
  }

  /** The step after the second loop: what is left over goes to its target. */
  method GiveRemainder(phases: array<MixedPhase>, totalMs: int, ghost p: MixedProfile)
    requires phases.Length == 3 && NonNegative(p) && ActivePhases(p) > 0
    requires Holds(phases[..], p, WrapShares(totalMs, p))
    modifies phases
    ensures Holds(phases[..], p, Before(totalMs, p))
  {
    var sum, target := FindTarget(phases);
    WrapSum3(phases[..]);
    hide Wrap, WrapShare;
    assert Milliseconds(phases[..]) == WrapShares(totalMs, p);
    assert target == Largest(Percents(p));
    if sum < totalMs && target >= 0 {
      phases[target] := phases[target].(ms := Wrap(phases[target].ms + Wrap(totalMs - sum)));
    }
  }

  lemma RawSumFits(ms: seq<int>)
    requires |ms| == 3 && forall i :: 0 <= i < 3 ==> -SHARE_LIMIT <= ms[i] <= SHARE_LIMIT
    ensures RawSum(ms) == Sum3(ms)
  {
  }

  /** However far the target's own share is off, the remainder makes up for it. */
  lemma RemainderHeals(w: int, rest: int, t: int)
    requires -SHARE_LIMIT <= w <= SHARE_LIMIT && 0 <= rest <= t && InInt64(t)
    ensures Wrap(w + Wrap(t - (w + rest))) == t - rest
  {
    var d := t - (w + rest);
    if d > MAX_INT64 {
      WrapAbove(d);
      WrapBelow(w + Wrap(d));
    }
  }

  lemma OthersInRange(t: int, p: MixedProfile, i: nat)
    requires Splittable(t, p) && SharesInRange(t, p) && i < 3 && i != Largest(Percents(p))
    ensures WrapShares(t, p)[i] == ShareList(t, p)[i] >= 0
  {
    WrapShareIs(t, Percents(p)[i]);
  }

  lemma SharesAreSmall(t: int, p: MixedProfile)
    requires t > 0 && NonNegative(p)
    ensures RawSum(WrapShares(t, p)) == Sum3(WrapShares(t, p))
  {
    var s := Percents(p);
    WrapShareIs(t, s[0]);
    WrapShareIs(t, s[1]);
    WrapShareIs(t, s[2]);
    hide WrapShare;
    RawSumFits(WrapShares(t, p));
  }

  /** The largest share is right, or too small and then there is no excess. */
  lemma LargestShare(t: int, p: MixedProfile)
    requires Splittable(t, p) && p == Effective(p) && InInt64(t)
    ensures var s, w, l := ShareList(t, p), WrapShares(t, p), Largest(Percents(p));
            && -SHARE_LIMIT <= w[l] <= SHARE_LIMIT && s[l] >= 1
            && (w[l] == s[l] || (w[l] < s[l] && Sum3(s) <= t))
  {
    var l := Largest(Percents(p));
    var percent := Percents(p)[l];
    WrapShareIs(t, percent);
    ShareAccuracy(t, percent);
    LargestIsActive(p);
    SharesSum(t, p);
    ExcessIsEarly(t, p);
    if t < 200 { Monotone(t, percent, 100); }
    hide Share, WrapShare;
  }

  /** The target's time is what the others leave, in both arithmetics. */
  lemma TargetGetsRest(t: int, l: nat, i: nat, j: nat, s: seq<int>, w: seq<int>)
    requires |s| == |w| == 3 && l < 3 && i == (l + 1) % 3 && j == (l + 2) % 3 && InInt64(t)
    requires w[i] == s[i] >= 0 && w[j] == s[j] >= 0 && -SHARE_LIMIT <= w[l] <= SHARE_LIMIT && s[l] >= 0
    requires Sum3(s) <= t + 1 && (w[l] == s[l] || (w[l] < s[l] && Sum3(s) <= t))
    ensures (if Sum3(w) < t then w[l := Wrap(w[l] + Wrap(t - Sum3(w)))] else w) ==
            (if Sum3(s) < t then s[l := s[l] + (t - Sum3(s))] else s)
  {
    assert Sum3(s) == s[l] + s[i] + s[j] && Sum3(w) == w[l] + w[i] + w[j];
    if Sum3(w) < t {
      RemainderHeals(w[l], w[i] + w[j], t);
    }
  }

  /** If no phase but the largest overflows, trimming starts from the right times. */
  lemma BeforeIsRight(t: int, p: MixedProfile)
    requires Splittable(t, p) && p == Effective(p) && InInt64(t) && SharesInRange(t, p)
    ensures Before(t, p) == BeforeTrim(t, p)
  {
    var s, w := ShareList(t, p), WrapShares(t, p);
    var l := Largest(Percents(p));
    OthersInRange(t, p, (l + 1) % 3);
    OthersInRange(t, p, (l + 2) % 3);
    LargestShare(t, p);
    SharesAreSmall(t, p);
    SharesSum(t, p);
    hide Share, WrapShare, Wrap, RawSum, SharesInRange, ShareList, WrapShares, Splittable, Effective, Percents;
    TargetGetsRest(t, l, (l + 1) % 3, (l + 2) % 3, s, w);
  }

  lemma BeforeTrimFits(t: int, p: MixedProfile)
    requires Splittable(t, p) && p == Effective(p) && InInt64(t)
    ensures |BeforeTrim(t, p)| == 3 && Sum3(BeforeTrim(t, p)) <= t + 1 && InInt64(Sum3(BeforeTrim(t, p)))
    ensures forall i :: 0 <= i < 3 ==> 0 <= BeforeTrim(t, p)[i]
  {
    SharesSum(t, p);
    ExcessIsEarly(t, p);
    var s := Percents(p);
    ShareAccuracy(t, s[0]);
    ShareAccuracy(t, s[1]);
    ShareAccuracy(t, s[2]);
    hide Share;
  }

  lemma RawSumIsSum(ms: seq<int>)
    requires |ms| == 3 && Sum3(ms) <= MAX_INT64 && forall i :: 0 <= i < 3 ==> 0 <= ms[i]
    ensures RawSum(ms) == Sum3(ms)
  {
  }

  predicate Safe(t: int, p: MixedProfile) {
    Splittable(t, p) && p == Effective(p) && InInt64(t) && SharesInRange(t, p)
  }

  /** Where the trimming loop is after `trims` passes. */
  ghost predicate Trimming(phases: seq<MixedPhase>, t: int, p: MixedProfile, trims: nat) {
    && |phases| == 3 && (forall j :: 0 <= j < 3 ==> phases[j].ms <= Before(t, p)[j])
    && (Safe(t, p) ==>
          && (trims == 0 ==> Holds(phases, p, Before(t, p)))
          && (trims > 0 ==> trims == 1 && WrapSum(phases) <= t)
          && (WrapSum(phases) <= t ==> Holds(phases, p, Parts(Apportion(t, p)))))
  }

  lemma TrimmingStarts(phases: seq<MixedPhase>, t: int, p: MixedProfile)
    requires Holds(phases, p, Before(t, p))
    ensures Trimming(phases, t, p, 0)
  {
    hide Before, Safe, Apportion, WrapSum;
    if Safe(t, p) { Untrimmed(phases, t, p); }
  }

  lemma TrimmingGoesOn(phases: seq<MixedPhase>, t: int, p: MixedProfile, trims: nat, i: nat, phases': seq<MixedPhase>)
    requires Trimming(phases, t, p, trims) && WrapSum(phases) > t
    requires i < 3 && phases[i].ms > 1 && phases' == phases[i := phases[i].(ms := phases[i].ms - 1)]
    ensures Trimming(phases', t, p, trims + 1)
  {
    hide Before, Safe, Apportion, WrapSum, Holds;
    if Safe(t, p) { Trimmed(phases, t, p, i, phases'); }
  }

  lemma TrimmingCan(phases: seq<MixedPhase>, t: int, p: MixedProfile, trims: nat)
    requires Trimming(phases, t, p, trims) && WrapSum(phases) > t && Safe(t, p)
    ensures exists i :: 0 <= i < 3 && phases[i].ms > 1
  {
    hide Before, Safe, Apportion, WrapSum, Holds;
    CanTrim(phases, t, p);
  }

  /** The trimming loop only takes time away; where nothing overflowed it takes 1 ms
      from the largest phase or does nothing. */
  method TrimToFit(phases: array<MixedPhase>, totalMs: int, ghost p: MixedProfile)
    returns (fits: bool, ghost trims: nat)
    requires phases.Length == 3 && InInt64(totalMs) && Holds(phases[..], p, Before(totalMs, p))
    modifies phases
    ensures forall j :: 0 <= j < 3 ==> phases[j].ms <= Before(totalMs, p)[j]
    ensures Safe(totalMs, p) ==> fits && trims <= 1 && Holds(phases[..], p, Parts(Apportion(totalMs, p)))
  {
    TrimmingStarts(phases[..], totalMs, p);
    hide Before, Safe, Apportion, WrapSum, Excess, Holds;
    trims := 0;
    var total := SumDurations(phases);
    while total > totalMs
      invariant total == WrapSum(phases[..]) && Trimming(phases[..], totalMs, p, trims)
      decreases Excess(phases[..])
    {
      ghost var before := phases[..];
      if Safe(totalMs, p) { TrimmingCan(before, totalMs, p, trims); }
      var reduced := Trim(phases);
      if !reduced {
        return false, trims;
      }
      ghost var i: nat :| i < 3 && before[i].ms > 1 && phases[..] == before[i := before[i].(ms := before[i].ms - 1)];
      ExcessDrops(before, i);
      TrimmingGoesOn(before, totalMs, p, trims, i, phases[..]);
      trims := trims + 1;
      total := SumDurations(phases);
    }
    fits := true;
  }

  /** The sum before trimming is at most one too large, and then there is a phase to
      trim; if it is not too large, the phases are right already. */
  lemma Untrimmed(phases: seq<MixedPhase>, t: int, p: MixedProfile)
    requires Safe(t, p) && Holds(phases, p, Before(t, p))
    ensures WrapSum(phases) <= t ==> Holds(phases, p, Parts(Apportion(t, p)))
    ensures WrapSum(phases) == Sum3(BeforeTrim(t, p)) <= t + 1
  {
    BeforeIsRight(t, p);
    TrimOnce(t, p, 0);
    BeforeTrimFits(t, p);
    hide Share, Apportion, BeforeTrim, Before, RawSum;
    WrapSum3(phases);
    RawSumIsSum(Milliseconds(phases));
  }

  lemma CanTrim(phases: seq<MixedPhase>, t: int, p: MixedProfile)
    requires Safe(t, p) && Holds(phases, p, Before(t, p))
    requires WrapSum(phases) > t
    ensures exists i :: 0 <= i < 3 && phases[i].ms > 1
  {
    Untrimmed(phases, t, p);
    BeforeIsRight(t, p);
    TrimOnce(t, p, 0);
    hide Share, Apportion, BeforeTrim, Before;
    assert phases[Largest(Percents(p))].ms > 1;
  }

  lemma RightSum(phases: seq<MixedPhase>, t: int, p: MixedProfile)
    requires Safe(t, p) && Holds(phases, p, Parts(Apportion(t, p)))
    ensures WrapSum(phases) == t
  {
    SplitConserves(t, p);
    hide Apportion, RawSum;
    WrapSum3(phases);
    var ms := Milliseconds(phases);
    assert Sum3(ms) == t && forall k :: 0 <= k < 3 ==> 0 <= ms[k];
    RawSumIsSum(ms);
  }

  lemma Trimmed(phases: seq<MixedPhase>, t: int, p: MixedProfile, i: nat, phases': seq<MixedPhase>)
    requires Safe(t, p) && Holds(phases, p, Before(t, p))
    requires WrapSum(phases) > t && i < 3 && phases[i].ms > 1
    requires phases' == phases[i := phases[i].(ms := phases[i].ms - 1)]
    ensures Holds(phases', p, Parts(Apportion(t, p))) && WrapSum(phases') == t
  {
    Untrimmed(phases, t, p);
    BeforeIsRight(t, p);
    TrimOnce(t, p, i);
    RightIsHeld(phases, p, Before(t, p), i, phases');
    hide Before, BeforeTrim, Apportion, Holds;
    assert Before(t, p)[i := Before(t, p)[i] - 1] == Parts(Apportion(t, p));
    RightSum(phases', t, p);
  }

  lemma RightIsHeld(phases: seq<MixedPhase>, p: MixedProfile, ms: seq<int>, i: nat, phases': seq<MixedPhase>)
    requires Holds(phases, p, ms) && i < 3 && phases' == phases[i := phases[i].(ms := phases[i].ms - 1)]
    ensures Holds(phases', p, ms[i := ms[i] - 1]) && ms[i] == phases[i].ms
  {
  }

  /** A phase that is not the largest and whose product overflows gets less than its
      share, and nothing makes up for it. */
  lemma OverflowIsLost(t: int, p: MixedProfile) returns (i: nat)
    requires t > 0 && NonNegative(p) && !SharesInRange(t, p)
    ensures i < 3 && Before(t, p)[i] < Parts(Apportion(t, p))[i]
  {
    i :| 0 <= i < 3 && i != Largest(Percents(p)) && t * Percents(p)[i] > MAX_INT64;
    WrapShareIs(t, Percents(p)[i]);
    hide Share, WrapShare, Wrap, RawSum;
  }

  /** The percentages are added in 64 bits, which wraps around once at most. */
  lemma PercentTotal(p: MixedProfile)
    requires NonNegative(p) && ProfileFits(p)
    ensures var sum := Sum3(Percents(p));
            Wrap(Wrap(p.cpuPercent + p.dbWritePercent) + p.dbReadPercent) ==
            if sum <= MAX_INT64 then sum else sum - TWO_64
  {
    var a := p.cpuPercent + p.dbWritePercent;
    if a > MAX_INT64 {
      WrapAbove(a);
    } else if a + p.dbReadPercent > MAX_INT64 {
      WrapAbove(a + p.dbReadPercent);
    }
  }

  /** The second half of splitMixedDurations, for percentages that were let through. */
  method Divide(totalMs: int, p: MixedProfile) returns (r: Split, ghost trims: nat)
    requires 0 < totalMs && InInt64(totalMs) && NonNegative(p)
    ensures r.Err? ==> r.error in {NoPhase, TooShort}
    ensures totalMs < ActivePhases(p) && ActivePhases(p) > 0 ==> r == Err(TooShort) && trims == 0
    ensures totalMs >= ActivePhases(p) && Safe(totalMs, p) ==> r == Ok(Apportion(totalMs, p)) && trims <= 1
    ensures !SharesInRange(totalMs, p) ==> r != Ok(Apportion(totalMs, p))
  {
    hide Wrap, Before, Apportion, SharesInRange, WrapShare;
    trims := 0;
    var phases := new MixedPhase[3];
    phases[0] := MixedPhase("cpu", p.cpuPercent, 0);
    phases[1] := MixedPhase("db_write", p.dbWritePercent, 0);
    phases[2] := MixedPhase("db_read", p.dbReadPercent, 0);
    ghost var lost: nat := 3;
    if !SharesInRange(totalMs, p) { lost := OverflowIsLost(totalMs, p); }
    ghost var right := Apportion(totalMs, p);

    var active := GiveShares(phases, totalMs, p);
    if Safe(totalMs, p) { LargestIsActive(p); }
    hide Safe;
    if active == 0 { return Err(NoPhase), 0; }
    if totalMs < active { return Err(TooShort), 0; }
    GiveRemainder(phases, totalMs, p);
    var fits;
    fits, trims := TrimToFit(phases, totalMs, p);
    if !fits { return Err(TooShort), trims; }
    r := Ok(Durations(phases[0].ms, phases[1].ms, phases[2].ms));
  }

  /** splitMixedDurations: it is right exactly where 64 bits do no harm. `trims`
      counts the passes of the trimming loop. */
  method SplitMixedDurations(totalMs: int, profile: MixedProfile) returns (r: Split, ghost trims: nat)
    requires InInt64(totalMs) && ProfileFits(profile)
    ensures r == Ideal(totalMs, profile) <==> InRange(totalMs, profile)
    ensures InRange(totalMs, profile) ==> trims <= 1
  {
    trims := 0;
    if totalMs <= 0 { return Err(NotPositive), 0; }
    var p := profile;
    if p.cpuPercent < 0 || p.dbWritePercent < 0 || p.dbReadPercent < 0 { return Err(NegativePercent), 0; }
    PercentTotal(p);
    var totalPercent := Wrap(Wrap(p.cpuPercent + p.dbWritePercent) + p.dbReadPercent);
    hide Wrap, Apportion, SharesInRange;
    if totalPercent == 0 {
      p := DEFAULT_PROFILE;
      totalPercent := 100;
    }
    if totalPercent > 100 { return Err(TooMuch), 0; }
    if Sum3(Percents(profile)) <= 100 {
      assert p == Effective(profile) == Effective(p) && Sum3(Percents(p)) <= 100;
      if totalMs < 3 { ShortIsInRange(totalMs, p); }
    }
    r, trims := Divide(totalMs, p);
  }

  lemma ShortIsInRange(t: int, p: MixedProfile)
    requires 0 < t < 3 && NonNegative(p) && Sum3(Percents(p)) <= 100
    ensures SharesInRange(t, p)
  {
    forall i | 0 <= i < 3
      ensures t * Percents(p)[i] <= MAX_INT64
    {
      Monotone(t, Percents(p)[i], 100);
    }
  }

  // ----- What the shares are like -----

  /** Whenever a total can be shared out: the parts add up to it exactly, active
      phases get at least 1 ms and the others none. */
  lemma SplitConserves(t: int, p: MixedProfile)
    requires Splittable(t, p)
    ensures var d := Parts(Apportion(t, Effective(p))); var s := Percents(Effective(p));
            Sum3(d) == t && forall i :: 0 <= i < 3 ==> if s[i] > 0 then 1 <= d[i] <= t else d[i] == 0
  {
    var e := Effective(p);
    var s := Percents(e);
    SharesSum(t, e);
    ShareAccuracy(t, s[0]);
    ShareAccuracy(t, s[1]);
    ShareAccuracy(t, s[2]);
    LargestIsActive(e);
    var l := Largest(s);
    var sum := Share(t, s[0]) + Share(t, s[1]) + Share(t, s[2]);
    assert sum == Share(t, s[l]) + Share(t, s[(l + 1) % 3]) + Share(t, s[(l + 2) % 3]);
  }

  lemma LargestIsActive(p: MixedProfile)
    requires NonNegative(p) && p == Effective(p)
    ensures Percents(p)[Largest(Percents(p))] > 0
  {
  }

  /** What is left of a total after two shares is close to the third proportion. */
  lemma RestIsAccurate(t: int, a: int, b: int, c: int)
    requires t > 0 && a >= 0 && b >= 0 && c >= 0 && a + b + c == 100
    ensures -200 < 100 * (t - Share(t, b) - Share(t, c)) - t * a < 200
  {
    ShareAccuracy(t, b);
    ShareAccuracy(t, c);
    SumOfProducts(t, a, b, c);
    hide Share;
    assert t * (a + b + c) == t * 100;
  }

  /** Every phase but the largest is less than 1 ms from its exact proportion; when
      the percentages add up to 100, the largest is less than 2 ms away. */
  lemma SplitIsAccurate(t: int, p: MixedProfile, i: nat)
    requires Splittable(t, p) && i < 3
    ensures var d := Parts(Apportion(t, Effective(p))); var s := Percents(Effective(p));
            && (i != Largest(s) ==> -100 < 100 * d[i] - t * s[i] < 100)
            && (i == Largest(s) && Sum3(s) == 100 ==> -200 < 100 * d[i] - t * s[i] < 200)
  {
    var s := Percents(Effective(p));
    if i != Largest(s) {
      ShareAccuracy(t, s[i]);
      hide Share;
    } else if Sum3(s) == 100 {
      RestIsAccurate(t, s[i], s[(i + 1) % 3], s[(i + 2) % 3]);
      hide Share;
    }
  }

  /** A larger percentage never gets fewer milliseconds. */
  lemma SplitIsMonotone(t: int, p: MixedProfile, i: nat, j: nat)
    requires Splittable(t, p) && i < 3 && j < 3
    requires var s := Percents(Effective(p)); s[i] > s[j]
    ensures var d := Parts(Apportion(t, Effective(p))); d[i] >= d[j]
  {
    var e := Effective(p);
    var s := Percents(e);
    SharesSum(t, e);
    SplitConserves(t, p);
    Monotone(t, s[j], s[i]);
    ShareAccuracy(t, s[i]);
    ShareAccuracy(t, s[j]);
    var l := Largest(s);
    assert Share(t, s[0]) + Share(t, s[1]) + Share(t, s[2]) ==
           Share(t, s[l]) + Share(t, s[(l + 1) % 3]) + Share(t, s[(l + 2) % 3]);
    assert j != l;
    assert Share(t, s[i]) >= Share(t, s[j]);
  }

  /** How many milliseconds a percentage of a total is off, in hundredths. */
  function Off(ms: int, totalMs: int, percent: int): int { 100 * ms - totalMs * percent }

  /** When a split succeeds, and with which error it fails otherwise. */
  lemma SplitSucceedsExactly(t: int, cpu: int, write: int, read: int)
    ensures var active := if cpu == 0 && write == 0 && read == 0 then 3
                          else Bit(cpu > 0) + Bit(write > 0) + Bit(read > 0);
            var r := Ideal(t, MixedProfile(cpu, write, read));
            && (r == Err(NotPositive) <==> t <= 0)
            && (r == Err(NegativePercent) <==> t > 0 && (cpu < 0 || write < 0 || read < 0))
            && (r == Err(TooMuch) <==> t > 0 && cpu >= 0 && write >= 0 && read >= 0 && cpu + write + read > 100)
            && (r == Err(TooShort) <==>
                  0 < t < active && cpu >= 0 && write >= 0 && read >= 0 && cpu + write + read <= 100)
            && (r.Ok? <==>
                  t > 0 && t >= active && cpu >= 0 && write >= 0 && read >= 0 && cpu + write + read <= 100)
  {
    hide Apportion;
  }

  /** What each workload gets, by its name. */
  lemma SplitByName(t: int, cpu: int, write: int, read: int, d: Durations)
    requires Ideal(t, MixedProfile(cpu, write, read)) == Ok(d) && cpu + write + read > 0
    ensures d.cpuMs + d.writeMs + d.readMs == t
    ensures (if cpu > 0 then d.cpuMs >= 1 else d.cpuMs == 0) && (if write > 0 then d.writeMs >= 1 else d.writeMs == 0)
    ensures if read > 0 then d.readMs >= 1 else d.readMs == 0
    ensures cpu < write || cpu < read ==> -100 < Off(d.cpuMs, t, cpu) < 100
    ensures write <= cpu || write < read ==> -100 < Off(d.writeMs, t, write) < 100
    ensures read <= cpu || read <= write ==> -100 < Off(d.readMs, t, read) < 100
    ensures cpu + write + read == 100 ==>
              -200 < Off(d.cpuMs, t, cpu) < 200 && -200 < Off(d.writeMs, t, write) < 200 &&
              -200 < Off(d.readMs, t, read) < 200
  {
    var p := MixedProfile(cpu, write, read);
    SplitSucceedsExactly(t, cpu, write, read);
    assert p == Effective(p) && Percents(p) == [cpu, write, read] && Parts(d) == [d.cpuMs, d.writeMs, d.readMs];
    SplitConserves(t, p);
    SplitIsAccurate(t, p, 0);
    SplitIsAccurate(t, p, 1);
    SplitIsAccurate(t, p, 2);
    hide Apportion, Ideal;
  }

  /** A profile of zeroes is 34 percent CPU, 33 percent write and 33 percent read. */
  lemma UnsetProfile(t: int)
    requires t >= 3
    ensures Ideal(t, MixedProfile(0, 0, 0)) == Ideal(t, MixedProfile(34, 33, 33))
  {
    hide Apportion;
  }

  /** An input for which the promise fails: two phases of 50 percent each, and so
      much time that the smaller of them is lost to overflow. */
  lemma OverflowBreaksShares()
    ensures var t := 0x4000_0000_0000_0000; var p := MixedProfile(50, 50, 0);
            InInt64(t) && Splittable(t, p) && !InRange(t, p)
    ensures Before(0x4000_0000_0000_0000, MixedProfile(50, 50, 0))[1] < 0
  {
    var t, p := 0x4000_0000_0000_0000, MixedProfile(50, 50, 0);
    assert Effective(p) == p && Largest(Percents(p)) == 0;
    assert t * Percents(p)[1] > MAX_INT64;
  }
}
