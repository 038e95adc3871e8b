/** A mixed scenario from the request's duration to the phases that run:
    MixedGenerator.Execute (internal/workload/mixed.go) with the parameters
    handleMessage gives it (cmd/worker/main.go). */
module MixedExecute {
  import opened Basics
  import opened Workload
  import opened Int64
  import opened MixedSplit

  /** What a generator returns: operations done, and whether it succeeded. */
  datatype Reply = Reply(ops: int, ok: bool)

  /** One of the three generators. `calls` are the durations it was given; the
      reply is the oracle's, except that a duration that is not positive is refused. */
  class Generator {
    var calls: seq<int>
    const reply: Reply

    constructor (reply: Reply)
      ensures this.reply == reply && calls == []
    {
      this.reply, calls := reply, [];
    }

    method Execute(durationMs: int) returns (r: Reply)
      modifies this`calls
      ensures calls == old(calls) + [durationMs]
      ensures r == if durationMs <= 0 then Reply(0, false) else reply
    {
      calls := calls + [durationMs];
      r := if durationMs <= 0 then Reply(0, false) else reply;
    }
  }

  datatype MixedError = NoDuration | MissingGenerator | BadSplit(error: SplitError) | PhaseFailed(phase: nat)

  datatype Result = Result(ops: int, error: Option<MixedError>)

  /** The phases that run, what they did together, and the one that failed. */
  datatype Outcome = Outcome(ran: seq<nat>, ops: int, failed: Option<nat>)

  /** Running the phases from k on: those without time are skipped, and the first
      failure is the last to run. */
  function RunFrom(parts: seq<int>, replies: seq<Reply>, k: nat): Outcome
    requires |parts| == |replies| && k <= |parts|
    decreases |parts| - k
  {
    if k == |parts| then Outcome([], 0, None)
    else if parts[k] <= 0 then RunFrom(parts, replies, k + 1)
    else if !replies[k].ok then Outcome([k], replies[k].ops, Some(k))
    else
      var rest := RunFrom(parts, replies, k + 1);
      Outcome([k] + rest.ran, replies[k].ops + rest.ops, rest.failed)
  }

  class MixedGenerator {
    const cpu: Generator?
    const dbWrite: Generator?
    const dbRead: Generator?

    constructor (cpu: Generator?, dbWrite: Generator?, dbRead: Generator?)
      ensures this.cpu == cpu && this.dbWrite == dbWrite && this.dbRead == dbRead
    {
      this.cpu, this.dbWrite, this.dbRead := cpu, dbWrite, dbRead;
    }

    /** One phase: skipped without time, otherwise run and its operations added. */
    method Phase(g: Generator, ms: int, ops: int) returns (total: int, ok: bool)
      modifies g`calls
      ensures g.calls == if ms > 0 then old(g.calls) + [ms] else old(g.calls)
      ensures total == if ms > 0 then Wrap(ops + g.reply.ops) else ops
      ensures ok <==> ms <= 0 || g.reply.ok
    {
      total, ok := ops, true;
      if ms > 0 {
        var r := g.Execute(ms);
        total := Wrap(ops + r.ops);
        ok := r.ok;
      }
    }

    predicate Complete() { cpu != null && dbWrite != null && dbRead != null }

    /** The three phases one after the other, with the times they are given. */
    method RunPhases(d: Durations) returns (r: Result)
      requires cpu != null && dbWrite != null && dbRead != null
      requires cpu != dbWrite && cpu != dbRead && dbWrite != dbRead
      modifies cpu, dbWrite, dbRead
      ensures Ran(d, r, old(cpu.calls), old(dbWrite.calls), old(dbRead.calls))
    {
      hide Wrap, RunFrom;
      ThreePhases(Parts(d), [cpu.reply, dbWrite.reply, dbRead.reply]);
      var ops, ok := Phase(cpu, d.cpuMs, 0);
      if !ok { return Result(ops, Some(PhaseFailed(0))); }
      ops, ok := Phase(dbWrite, d.writeMs, ops);
      if !ok { return Result(ops, Some(PhaseFailed(1))); }
      ops, ok := Phase(dbRead, d.readMs, ops);
      if !ok { return Result(ops, Some(PhaseFailed(2))); }
      r := Result(ops, None);
    }

    /** The phases of RunFrom have run, each with its part of the time, and the
        operations are those of the phases that ran. */
    ghost predicate Ran(d: Durations, r: Result, cpuCalls: seq<int>, writeCalls: seq<int>, readCalls: seq<int>)
      requires cpu != null && dbWrite != null && dbRead != null
      reads this, cpu, dbWrite, dbRead
    {
      var out := RunFrom(Parts(d), [cpu.reply, dbWrite.reply, dbRead.reply], 0);
      && r.ops == Wrap(out.ops)
      && r.error == (match out.failed case Some(k) => Some(PhaseFailed(k)) case None => None)
      && cpu.calls == cpuCalls + (if 0 in out.ran then [d.cpuMs] else [])
      && dbWrite.calls == writeCalls + (if 1 in out.ran then [d.writeMs] else [])
      && dbRead.calls == readCalls + (if 2 in out.ran then [d.readMs] else [])
    }

    /** Execute: the split's error is returned, or the phases run with exactly the times
        of the split, which are those it should give exactly where 64 bits do no harm. */
    method Execute(durationMs: int, profile: MixedProfile) returns (r: Result, ghost split: Split)
      requires InInt64(durationMs) && ProfileFits(profile)
      requires Complete() ==> cpu != dbWrite && cpu != dbRead && dbWrite != dbRead
      modifies if cpu == null then {} else {cpu}
      modifies if dbWrite == null then {} else {dbWrite}
      modifies if dbRead == null then {} else {dbRead}
      ensures durationMs <= 0 ==> r == Result(0, Some(NoDuration))
      ensures durationMs > 0 && !Complete() ==> r == Result(0, Some(MissingGenerator))
      ensures durationMs <= 0 || !Complete() || split.Err? ==>
                && (cpu != null ==> cpu.calls == old(cpu.calls))
                && (dbWrite != null ==> dbWrite.calls == old(dbWrite.calls))
                && (dbRead != null ==> dbRead.calls == old(dbRead.calls))
      ensures durationMs > 0 && Complete() ==>
                && (split == Ideal(durationMs, profile) <==> InRange(durationMs, profile))
                && match split
                   case Err(e) => r == Result(0, Some(BadSplit(e)))
                   case Ok(d) => Ran(d, r, old(cpu.calls), old(dbWrite.calls), old(dbRead.calls))
    {
      hide Ideal, InRange, Ran;
      split := Split.Err(NotPositive);
      if durationMs <= 0 { return Result(0, Some(NoDuration)), split; }
      if cpu == null || dbWrite == null || dbRead == null { return Result(0, Some(MissingGenerator)), split; }
      var times;
      ghost var trims;
      times, trims := SplitMixedDurations(durationMs, profile);
      split := times;
      if times.Err? { return Result(0, Some(BadSplit(times.error))), split; }
      r := RunPhases(times.durations);
    }
  }

  /** The three phases spelled out, with the additions the code makes. */
  lemma ThreePhases(parts: seq<int>, replies: seq<Reply>)
    requires |parts| == |replies| == 3
    ensures var out := RunFrom(parts, replies, 0);
            var runs0 := parts[0] > 0;
            var on1 := !runs0 || replies[0].ok;
            var runs1 := on1 && parts[1] > 0;
            var on2 := on1 && (!runs1 || replies[1].ok);
            var runs2 := on2 && parts[2] > 0;
            var ops0 := if runs0 then Wrap(0 + replies[0].ops) else 0;
            var ops1 := if runs1 then Wrap(ops0 + replies[1].ops) else ops0;
            var ops2 := if runs2 then Wrap(ops1 + replies[2].ops) else ops1;
            && (0 in out.ran <==> runs0) && (1 in out.ran <==> runs1) && (2 in out.ran <==> runs2)
            && Wrap(out.ops) == ops2
            && out.failed == (if !on1 then Some(0) else if !on2 then Some(1)
                              else if runs2 && !replies[2].ok then Some(2) else None)
  {
    hide Wrap;
    WrapChains(replies[0].ops, replies[1].ops, replies[2].ops);
    var out3, out2, out1 := RunFrom(parts, replies, 3), RunFrom(parts, replies, 2), RunFrom(parts, replies, 1);
    assert out2 == if parts[2] <= 0 then out3 else if replies[2].ok then Outcome([2], replies[2].ops, None)
                   else Outcome([2], replies[2].ops, Some(2));
  }

  lemma WrapChains(a: int, b: int, c: int)
    ensures Wrap(0) == 0 && Wrap(Wrap(Wrap(a) + b) + c) == Wrap(a + b + c)
    ensures Wrap(Wrap(a) + b) == Wrap(a + b) && Wrap(Wrap(a) + c) == Wrap(a + c) && Wrap(Wrap(b) + c) == Wrap(b + c)
    ensures Wrap(a + b + c) == Wrap(a + (b + c))
  {
    WrapAdds(a, b);
    WrapAdds(a + b, c);
    WrapAdds(a, c);
    WrapAdds(b, c);
  }

  // ----- What the phases add up to -----

  function Handed(parts: seq<int>, ran: seq<nat>): int
    requires forall k :: 0 <= k < |ran| ==> ran[k] < |parts|
  {
    if |ran| == 0 then 0 else parts[ran[0]] + Handed(parts, ran[1..])
  }

  function SumFrom(parts: seq<int>, k: nat): int
    requires k <= |parts|
    decreases |parts| - k
  {
    if k == |parts| then 0 else (if parts[k] > 0 then parts[k] else 0) + SumFrom(parts, k + 1)
  }

  /** Phases from k on, in order, all of them with time. */
  predicate InOrder(ran: seq<nat>, parts: seq<int>, k: nat) {
    && (forall i :: 0 <= i < |ran| ==> k <= ran[i] < |parts| && parts[ran[i]] > 0)
    && (forall i, j :: 0 <= i < j < |ran| ==> ran[i] < ran[j])
  }

  lemma InOrderCons(ran: seq<nat>, parts: seq<int>, k: nat)
    requires k < |parts| && parts[k] > 0 && InOrder(ran, parts, k + 1)
    ensures InOrder([k] + ran, parts, k)
  {
  }

  /** Only phases with time run, in order. */
  lemma {:induction false} RunsInOrder(parts: seq<int>, replies: seq<Reply>, k: nat)
    requires |parts| == |replies| && k <= |parts|
    ensures InOrder(RunFrom(parts, replies, k).ran, parts, k)
    decreases |parts| - k
  {
    if k == |parts| {
    } else {
      RunsInOrder(parts, replies, k + 1);
      if parts[k] > 0 && replies[k].ok {
        InOrderCons(RunFrom(parts, replies, k + 1).ran, parts, k);
      }
    }
  }

  /** Every phase from k on with time has run, up to the first that fails, which is the
      last to run. */
  ghost predicate UpToFailure(out: Outcome, parts: seq<int>, replies: seq<Reply>, k: nat)
    requires |parts| == |replies|
  {
    match out.failed
    case None => forall j :: k <= j < |parts| && parts[j] > 0 ==> replies[j].ok && j in out.ran
    case Some(f) =>
      && k <= f < |parts| && |out.ran| > 0 && out.ran[|out.ran| - 1] == f && !replies[f].ok
      && (forall j :: k <= j < f && parts[j] > 0 ==> replies[j].ok && j in out.ran)
  }

  lemma OnePhaseMore(rest: Outcome, ops: int, parts: seq<int>, replies: seq<Reply>, k: nat)
    requires |parts| == |replies| && k < |parts| && replies[k].ok && UpToFailure(rest, parts, replies, k + 1)
    ensures UpToFailure(Outcome([k] + rest.ran, ops, rest.failed), parts, replies, k)
  {
    var ran := [k] + rest.ran;
    assert ran[0] == k && forall x :: x in rest.ran ==> x in ran;
  }

  lemma {:induction false} RunsUpToFailure(parts: seq<int>, replies: seq<Reply>, k: nat)
    requires |parts| == |replies| && k <= |parts|
    ensures UpToFailure(RunFrom(parts, replies, k), parts, replies, k)
    decreases |parts| - k
  {
    if k == |parts| {
    } else {
      RunsUpToFailure(parts, replies, k + 1);
      if parts[k] > 0 && replies[k].ok {
        OnePhaseMore(RunFrom(parts, replies, k + 1), RunFrom(parts, replies, k).ops, parts, replies, k);
        hide UpToFailure;
      }
    }
  }

  /** Without a failure the durations handed out make up the whole time. */
  lemma {:induction false} RunsHandOutAll(parts: seq<int>, replies: seq<Reply>, k: nat)
    requires |parts| == |replies| && k <= |parts| && RunFrom(parts, replies, k).failed.None?
    ensures forall i :: 0 <= i < |RunFrom(parts, replies, k).ran| ==> RunFrom(parts, replies, k).ran[i] < |parts|
    ensures Handed(parts, RunFrom(parts, replies, k).ran) == SumFrom(parts, k)
    decreases |parts| - k
  {
    RunsInOrder(parts, replies, k);
    if k == |parts| {
    } else {
      RunsHandOutAll(parts, replies, k + 1);
      if parts[k] > 0 {
        assert RunFrom(parts, replies, k).ran[1..] == RunFrom(parts, replies, k + 1).ran;
      }
    }
  }

  /** The operations of the phases that ran, added up. */
  function OpsOf(ran: seq<nat>, replies: seq<Reply>): int
    requires forall k :: 0 <= k < |ran| ==> ran[k] < |replies|
  {
    if |ran| == 0 then 0 else replies[ran[0]].ops + OpsOf(ran[1..], replies)
  }

  /** The operations reported are those of the phases that ran, the failed one included. */
  lemma {:induction false} OpsAreSummed(parts: seq<int>, replies: seq<Reply>, k: nat)
    requires |parts| == |replies| && k <= |parts|
    ensures forall i :: 0 <= i < |RunFrom(parts, replies, k).ran| ==> RunFrom(parts, replies, k).ran[i] < |replies|
    ensures RunFrom(parts, replies, k).ops == OpsOf(RunFrom(parts, replies, k).ran, replies)
    decreases |parts| - k
  {
    RunsInOrder(parts, replies, k);
    if k == |parts| {
    } else {
      OpsAreSummed(parts, replies, k + 1);
      if parts[k] > 0 {
        if replies[k].ok {
          assert RunFrom(parts, replies, k).ran[1..] == RunFrom(parts, replies, k + 1).ran;
        } else {
          assert RunFrom(parts, replies, k).ran[1..] == [];
        }
      }
    }
  }

  // ----- From the request -----

  /** Duration.Milliseconds(). */
  function DurationMs(d: Nanoseconds): int { Quo(d as int, 1_000_000) }

  function AtLeastOne(x: int): int { if x < 1 then 1 else x }

  /** handleMessage leaves the mixed profile at its zero value. */
  const UNSET: MixedProfile := MixedProfile(0, 0, 0)

  /** For every duration the API admits: nothing overflows, the split succeeds
      exactly from 3 ms on, write and read get 33 percent but at least 1 ms, CPU
      gets the rest, and each part is one a generator accepts. */
  lemma AdmittedMixedScenario(r: ScenarioRequest)
    requires Admitted(r) && r.profile.workloadType == MIXED
    ensures var t := DurationMs(r.profile.duration); var d := Apportion(t, Effective(UNSET));
            && InInt64(t) && t >= 0 && InRange(t, UNSET)
            && (Ideal(t, UNSET) == Ok(d) <==> t >= 3)
            && (t >= 3 ==> d.writeMs == d.readMs == AtLeastOne(33 * t / 100) && d.cpuMs + d.writeMs + d.readMs == t)
            && (t >= 3 ==> 1 <= d.cpuMs && 1 <= d.writeMs && 1 <= d.readMs)
    ensures DurationMs(r.profile.duration) == r.profile.duration as int / 1_000_000
    ensures var n := r.profile.duration as int; var d := Apportion(n / 1_000_000, Effective(UNSET));
            && (Ideal(n / 1_000_000, UNSET).Ok? <==> n >= 3_000_000)
            && (n >= 3_000_000 ==>
                  Ideal(n / 1_000_000, UNSET) == Ok(d) && d.cpuMs + d.writeMs + d.readMs == n / 1_000_000 &&
                  d.writeMs == d.readMs == (if 33 * (n / 1_000_000) < 100 then 1 else 33 * (n / 1_000_000) / 100))
  {
    assert r.profile.duration > 0;
    var t := DurationMs(r.profile.duration);
    assert ActivePhases(Effective(UNSET)) == 3 && Percents(Effective(UNSET)) == [34, 33, 33];
    if t >= 3 {
      SplitConserves(t, UNSET);
      var s := Percents(Effective(UNSET));
      assert s == [34, 33, 33];
      assert Largest(s) == 0;
      assert t * 33 == 33 * t;
    }
  }

  lemma SumFrom3(parts: seq<int>)
    requires |parts| == 3 && forall i :: 0 <= i < 3 ==> parts[i] > 0
    ensures SumFrom(parts, 0) == Sum3(parts)
  {
    assert SumFrom(parts, 0) == parts[0] + SumFrom(parts, 1) == parts[0] + parts[1] + SumFrom(parts, 2);
    assert SumFrom(parts, 2) == parts[2] + SumFrom(parts, 3);
  }

  /** For every admitted duration of at least 3 ms, whatever the generators reply,
      the durations Execute hands out are positive and make up the whole time
      unless a phase fails. */
  lemma AdmittedMixedRun(r: ScenarioRequest, replies: seq<Reply>)
    requires Admitted(r) && DurationMs(r.profile.duration) >= 3 && |replies| == 3
    ensures var t := DurationMs(r.profile.duration);
            var parts := Parts(Apportion(t, Effective(UNSET)));
            var out := RunFrom(parts, replies, 0);
            && (forall i :: 0 <= i < |out.ran| ==> out.ran[i] < 3 && parts[out.ran[i]] > 0)
            && (out.failed.None? ==> (forall k :: 0 <= k < 3 ==> k in out.ran) && Handed(parts, out.ran) == t)
            && t == r.profile.duration as int / 1_000_000
  {
    var t := DurationMs(r.profile.duration);
    var parts := Parts(Apportion(t, Effective(UNSET)));
    SplitConserves(t, UNSET);
    assert Percents(Effective(UNSET)) == [34, 33, 33];
    assert forall i :: 0 <= i < 3 ==> parts[i] >= 1;
    RunsInOrder(parts, replies, 0);
    hide Apportion;
    if RunFrom(parts, replies, 0).failed.None? {
      RunsHandOutAll(parts, replies, 0);
      RunsUpToFailure(parts, replies, 0);
      SumFrom3(parts);
    }
  }

  /** What the workers' share of a mixed scenario is: 33 percent of the milliseconds in
      n nanoseconds for write and for read, but at least one each. */
  function ThirdOf(n: int): int { if 33 * (n / 1_000_000) < 100 then 1 else 33 * (n / 1_000_000) / 100 }

  /** The mixed case of handleMessage: the generator is run for the request's duration,
      with the profile unset. From 3 ms on the three generators are handed, in order and
      up to the first that fails, the rest, a third and a third of the milliseconds;
      below, nothing runs. */
  method RunMixed(profile: LoadProfile, g: MixedGenerator) returns (r: Result)
    requires g.Complete() && g.cpu != g.dbWrite && g.cpu != g.dbRead && g.dbWrite != g.dbRead
    requires profile.duration > 0
    modifies if g.cpu == null then {} else {g.cpu}
    modifies if g.dbWrite == null then {} else {g.dbWrite}
    modifies if g.dbRead == null then {} else {g.dbRead}
    ensures var n := profile.duration as int;
            n < 3_000_000 ==>
              && r.ops == 0 && r.error.Some? && !r.error.value.PhaseFailed? && g.cpu.calls == old(g.cpu.calls)
              && g.dbWrite.calls == old(g.dbWrite.calls) && g.dbRead.calls == old(g.dbRead.calls)
    ensures var n := profile.duration as int; var share := ThirdOf(n);
            n >= 3_000_000 ==>
              && g.cpu.calls == old(g.cpu.calls) + [n / 1_000_000 - 2 * share]
              && g.dbWrite.calls == old(g.dbWrite.calls) + (if g.cpu.reply.ok then [share] else [])
              && g.dbRead.calls == old(g.dbRead.calls) + (if g.cpu.reply.ok && g.dbWrite.reply.ok then [share] else [])
              && (r.error.None? <==> g.cpu.reply.ok && g.dbWrite.reply.ok && g.dbRead.reply.ok)
  {
    ghost var request := ScenarioRequest("s", LoadProfile(1, profile.duration, 0, 1, "q", MIXED));
    AdmittedMixedScenario(request);
    AllThree(profile.duration as int / 1_000_000, [g.cpu.reply, g.dbWrite.reply, g.dbRead.reply]);
    hide Ideal, InRange, Apportion, RunFrom, Wrap, Effective;
    ghost var split;
    r, split := g.Execute(DurationMs(profile.duration), UNSET);
  }

  /** When every phase has time, each runs unless one before it failed. */
  lemma AllThree(t: int, replies: seq<Reply>)
    requires |replies| == 3
    ensures t >= 3 ==>
              var out := RunFrom(Parts(Apportion(t, Effective(UNSET))), replies, 0);
              && 0 in out.ran && (1 in out.ran <==> replies[0].ok) && (2 in out.ran <==> replies[0].ok && replies[1].ok)
              && (out.failed.None? <==> replies[0].ok && replies[1].ok && replies[2].ok)
  {
    if t >= 3 {
      SplitConserves(t, UNSET);
      assert Percents(Effective(UNSET)) == [34, 33, 33];
      hide Apportion, Wrap;
      ThreePhases(Parts(Apportion(t, Effective(UNSET))), replies);
    }
  }
}
