/** The counters against the log: every row, event and increment is the doing of
    exactly one handler, so the totals are ordered the way the code orders the
    calls, in every reachable state. */
module Accounting {
  import opened Basics
  import opened Workload
  import opened Topology
  import opened Lifecycle
  import opened Handlers
  import opened Demo

  function Did(e: Effect): Handler -> bool { (h: Handler) => h.effects.Has(e) }

  function CountedAs(kind: string): Handler -> bool { (h: Handler) => h.effects.byType && h.Kind() == kind }

  function CountedAmong(kinds: seq<string>): Handler -> bool {
    (h: Handler) => h.effects.byType && h.Kind() in kinds
  }

  function IsStatus(st: Status): Event -> bool { (e: Event) => e.status == st }

  function IsResult(): Message -> bool { (m: Message) => m.body.ResultNotice? }

  function Events(s: State, st: Status): nat { Count(s.log, IsStatus(st)) }

  function Results(s: State): nat { Count(s.broker.published, IsResult()) }

  /** The public quantity an effect shows up in. */
  function Measure(s: State, e: Effect): nat {
    match e
    case RunningMark => Events(s, Running)
    case Launch => 0
    case Snapshot => s.tally.snapshots
    case OpsTotal => s.tally.total
    case OpsType => 0
    case ErrorsTotal => s.tally.errors
    case ResultSent => Results(s)
    case ResultLost => 0
    case CompletedMark => Events(s, Completed)
    case FailedMark => Events(s, Failed)
  }

  predicate Public(e: Effect) { !e.Launch? && !e.OpsType? && !e.ResultLost? }

  predicate Balanced(s: State, e: Effect) { Measure(s, e) == Count(s.handlers, Did(e)) }

  predicate KindBalanced(s: State, kind: string) { TypeCount(s.tally, kind) == Count(s.handlers, CountedAs(kind)) }

  ghost predicate AccountInv(s: State) {
    && HandlersInv(s)
    && (forall e: Effect :: Public(e) ==> Balanced(s, e))
    && (forall kind: string :: KindBalanced(s, kind))
  }

  // ----- The handlers' own steps -----

  lemma EventsAppend(log: seq<Event>, more: seq<Event>, st: Status)
    requires |more| <= 1
    ensures Count(log + more, IsStatus(st)) == Count(log, IsStatus(st)) + Bit(|more| == 1 && more[0].status == st)
  {
    if |more| == 1 {
      CountAppend(log, more[0], IsStatus(st));
      assert log + more == log + [more[0]];
    } else {
      assert log + more == log;
    }
  }

  lemma PublishCounts(b: Broker, m: Message)
    ensures Publish(b, m).published == b.published + [m]
    ensures Count(Publish(b, m).published, IsResult()) == Count(b.published, IsResult()) + Bit(m.body.ResultNotice?)
  {
    CountAppend(b.published, m, IsResult());
  }

  lemma WithHas(x: Effects, a: Effect, e: Effect)
    ensures x.With(a).Has(e) <==> x.Has(e) || a == e
  {
  }

  lemma AddsToEffects(h: Handler, act: Act, n: nat, e: Effect)
    requires !e.Launch?
    ensures After(h, act, n).effects.Has(e) <==> h.effects.Has(e) || Adding(h, act) == Some(e)
  {
    hide Advance, Adding, Effects.With, Effects.Has;
    var added := match Adding(h, act)
                 case Some(x) => h.effects.With(x)
                 case None => h.effects;
    if Adding(h, act).Some? {
      WithHas(h.effects, Adding(h, act).value, e);
    }
    WithHas(added, Launch, e);
  }

  /** No handler has the same effect twice. */
  lemma AddsOnce(h: Handler, act: Act, log: seq<Event>, e: Effect)
    requires EffectsOk(h) && WatcherOk(h) && CanAct(h, act, log) && Adding(h, act) == Some(e)
    ensures !h.effects.Has(e)
  {
  }

  lemma WorkEffects(s: State, i: nat, act: Act, s': State, e: Effect)
    requires HandlersInv(s) && DoWork(s, i, act) == Some(s') && !e.Launch?
    ensures s'.handlers == s.handlers[i := s'.handlers[i]]
    ensures Bit(s'.handlers[i].effects.Has(e)) ==
            Bit(s.handlers[i].effects.Has(e)) + Bit(Adding(s.handlers[i], act) == Some(e))
  {
    hide After, CanAct, Adding, Counted, Appended;
    var h := s.handlers[i];
    assert HandlerOk(h);
    AddsToEffects(h, act, |s.log|, e);
    if Adding(h, act) == Some(e) {
      AddsOnce(h, act, s.log, e);
    }
  }

  lemma WorkMarks(s: State, i: nat, act: Act, s': State, e: Effect)
    requires DoWork(s, i, act) == Some(s')
    requires e.RunningMark? || e.CompletedMark? || e.FailedMark?
    ensures Measure(s', e) == Measure(s, e) + Bit(Adding(s.handlers[i], act) == Some(e))
  {
    hide After, CanAct, Counted;
    var st := if e.RunningMark? then Running else if e.CompletedMark? then Completed else Failed;
    EventsAppend(s.log, Appended(s.handlers[i], act), st);
  }

  lemma WorkCounters(s: State, i: nat, act: Act, s': State, e: Effect)
    requires DoWork(s, i, act) == Some(s')
    requires e.Snapshot? || e.OpsTotal? || e.ErrorsTotal?
    ensures Measure(s', e) == Measure(s, e) + Bit(Adding(s.handlers[i], act) == Some(e))
  {
    hide After, CanAct, Appended;
  }

  lemma WorkResults(s: State, i: nat, act: Act, s': State)
    requires DoWork(s, i, act) == Some(s')
    ensures Results(s') == Results(s) + Bit(Adding(s.handlers[i], act) == Some(ResultSent))
  {
    hide After, CanAct, Appended, Counted;
    var h := s.handlers[i];
    PublishCounts(s.broker, Message("results." + h.Sid(), ResultNotice(h.Sid()), false));
    hide Publish;
  }

  lemma WorkKinds(s: State, i: nat, act: Act, s': State, kind: string)
    requires DoWork(s, i, act) == Some(s')
    ensures TypeCount(s'.tally, kind) ==
            TypeCount(s.tally, kind) + Bit(Adding(s.handlers[i], act) == Some(OpsType) && s.handlers[i].Kind() == kind)
    ensures s'.handlers[i].body == s.handlers[i].body
  {
    ActKeepsType(s.handlers[i], act, s.log);
    hide After, CanAct, Appended;
  }

  lemma WorkBalanced(s: State, i: nat, act: Act, s': State, e: Effect)
    requires HandlersInv(s) && DoWork(s, i, act) == Some(s') && Public(e) && Balanced(s, e)
    ensures Balanced(s', e)
  {
    WorkEffects(s, i, act, s', e);
    match e {
      case RunningMark => WorkMarks(s, i, act, s', e);
      case CompletedMark => WorkMarks(s, i, act, s', e);
      case FailedMark => WorkMarks(s, i, act, s', e);
      case ResultSent => WorkResults(s, i, act, s');
      case _ => WorkCounters(s, i, act, s', e);
    }
    hide DoWork, Adding;
    CountUpdate(s.handlers, i, s'.handlers[i], Did(e));
  }

  lemma WorkKindBalanced(s: State, i: nat, act: Act, s': State, kind: string)
    requires HandlersInv(s) && DoWork(s, i, act) == Some(s') && KindBalanced(s, kind)
    ensures KindBalanced(s', kind)
  {
    WorkEffects(s, i, act, s', OpsType);
    WorkKinds(s, i, act, s', kind);
    hide DoWork, Adding, HandlersInv, Effects.Has, TypeCount, Count;
    CountUpdate(s.handlers, i, s'.handlers[i], CountedAs(kind));
  }

  // ----- Everybody else's steps -----

  lemma {:induction false} CountSame<T>(xs: seq<T>, ys: seq<T>, p: T -> bool)
    requires |xs| == |ys| && forall i :: 0 <= i < |xs| ==> p(xs[i]) == p(ys[i])
    ensures Count(xs, p) == Count(ys, p)
  {
    if |xs| == 0 {
    } else {
      CountSame(xs[..|xs| - 1], ys[..|ys| - 1], p);
    }
  }

  lemma OthersKeepCounts(s: State, step: Step, s': State, p: Handler -> bool)
    requires Take(s, step) == Some(s') && !step.Work?
    requires forall h, h' :: Bystander(h, h') ==> p(h) == p(h')
    requires forall h: Handler :: h.effects == NOTHING ==> !p(h)
    ensures Count(s'.handlers, p) == Count(s.handlers, p)
  {
    OtherSteps(s, step, s');
    hide Take;
    var n := |s.handlers|;
    CountSame(s.handlers, s'.handlers[..n], p);
    if |s'.handlers| > n {
      assert s'.handlers == s'.handlers[..n] + [s'.handlers[n]];
      CountAppend(s'.handlers[..n], s'.handlers[n], p);
    } else {
      assert s'.handlers == s'.handlers[..n];
    }
  }

  lemma OthersKeepEvents(s: State, step: Step, s': State, st: Status)
    requires Take(s, step) == Some(s') && !step.Work? && !st.Queued? && !st.Stopped?
    ensures Events(s', st) == Events(s, st)
  {
    match step {
      case CreateStore(req, id, call) => EventsAppend(s.log, [Event(id, Queued)], st);
      case StopAppend(k, call) => EventsAppend(s.log, [Event(s.stops[k].sid, Stopped)], st);
      case _ =>
    }
  }

  lemma OthersKeepResults(s: State, step: Step, s': State)
    requires Take(s, step) == Some(s') && !step.Work?
    ensures Results(s') == Results(s)
  {
    match step {
      case CreatePublish(k, send) =>
        var c := s.creates[k];
        PublishCounts(s.broker, Message(c.profile.targetQueue, Scenario(c.sid, c.profile), true));
      case StopPublish(k, send) =>
        PublishCounts(s.broker, Message("scenario.stop", StopNotice(s.stops[k].sid), false));
      case ForeignPublish(key, body) =>
        PublishCounts(s.broker, Message(key, body, false));
      case _ =>
    }
    hide Publish;
  }

  lemma OthersKeepTally(s: State, step: Step, s': State)
    requires Take(s, step) == Some(s') && !step.Work?
    ensures s'.tally == s.tally
  {
  }

  lemma OthersKeepMeasures(s: State, step: Step, s': State, e: Effect)
    requires Take(s, step) == Some(s') && !step.Work?
    ensures Measure(s', e) == Measure(s, e) && s'.tally == s.tally
  {
    hide Take;
    OthersKeepEvents(s, step, s', Running);
    OthersKeepEvents(s, step, s', Completed);
    OthersKeepEvents(s, step, s', Failed);
    OthersKeepResults(s, step, s');
    OthersKeepTally(s, step, s');
  }

  // ----- The invariant -----

  lemma StepKeepsAccounts(s: State, step: Step, s': State)
    requires AccountInv(s) && Take(s, step) == Some(s')
    ensures AccountInv(s')
  {
    StepKeepsHandlers(s, step, s');
    if step.Work? {
      assert DoWork(s, step.i, step.act) == Some(s');
      hide Take, DoWork;
      forall e: Effect | Public(e)
        ensures Balanced(s', e)
      {
        WorkBalanced(s, step.i, step.act, s', e);
      }
      forall kind: string
        ensures KindBalanced(s', kind)
      {
        assert KindBalanced(s, kind);
        WorkKindBalanced(s, step.i, step.act, s', kind);
      }
    } else {
      hide Take;
      forall e: Effect | Public(e)
        ensures Balanced(s', e)
      {
        assert Balanced(s, e);
        OthersKeepMeasures(s, step, s', e);
        OthersKeepCounts(s, step, s', Did(e));
      }
      forall kind: string
        ensures KindBalanced(s', kind)
      {
        assert KindBalanced(s, kind);
        OthersKeepMeasures(s, step, s', Snapshot);
        OthersKeepCounts(s, step, s', CountedAs(kind));
      }
    }
  }

  lemma {:induction false} AccountsAlwaysBalance(steps: seq<Step>)
    requires Run(START, steps).Some?
    ensures AccountInv(Run(START, steps).value)
  {
    hide Take;
    if |steps| == 0 {
    } else {
      var n := |steps| - 1;
      RunLast(START, steps);
      AccountsAlwaysBalance(steps[..n]);
      StepKeepsAccounts(Run(START, steps[..n]).value, steps[n], Run(START, steps).value);
    }
  }

  // ----- The chain -----

  const KINDS: seq<string> := [CPU_BURN, MEM_ALLOC, DB_WRITE, DB_READ, MIXED]

  /** The sum of the cp:ops:<type> counters. */
  function SumKinds(t: Tally, kinds: seq<string>): nat {
    if |kinds| == 0 then 0 else SumKinds(t, kinds[..|kinds| - 1]) + TypeCount(t, kinds[|kinds| - 1])
  }

  lemma KindsAreRunnable()
    ensures forall w: string :: w in KINDS <==> Runnable(w)
    ensures forall i, j :: 0 <= i < j < |KINDS| ==> KINDS[i] != KINDS[j]
  {
    assert |CPU_BURN| == 8 && |MEM_ALLOC| == 9 && |DB_WRITE| == 8 && |DB_READ| == 7 && |MIXED| == 5;
    assert CPU_BURN[0] == 'c' && DB_WRITE[0] == 'd';
  }

  lemma {:induction false} SumIsCount(s: State, kinds: seq<string>)
    requires forall kind: string :: KindBalanced(s, kind)
    requires forall i, j :: 0 <= i < j < |kinds| ==> kinds[i] != kinds[j]
    ensures SumKinds(s.tally, kinds) == Count(s.handlers, CountedAmong(kinds))
  {
    if |kinds| == 0 {
      CountZero(s.handlers, CountedAmong(kinds));
    } else {
      var n := |kinds| - 1;
      SumIsCount(s, kinds[..n]);
      assert KindBalanced(s, kinds[n]);
      CountSplit(s.handlers, CountedAmong(kinds[..n]), CountedAs(kinds[n]), CountedAmong(kinds));
    }
  }

  lemma AllKinds(s: State)
    requires AccountInv(s)
    ensures SumKinds(s.tally, KINDS) == Count(s.handlers, Did(OpsType))
  {
    KindsAreRunnable();
    SumIsCount(s, KINDS);
    forall i | 0 <= i < |s.handlers|
      ensures CountedAmong(KINDS)(s.handlers[i]) == Did(OpsType)(s.handlers[i])
    {
      assert HandlerOk(s.handlers[i]);
    }
    CountMonotone(s.handlers, CountedAmong(KINDS), Did(OpsType));
    CountMonotone(s.handlers, Did(OpsType), CountedAmong(KINDS));
  }

  function Terminal(): Handler -> bool { (h: Handler) => h.effects.completed || h.effects.failed }

  function Published(): Handler -> bool { (h: Handler) => h.effects.sent || h.effects.lost }

  /** Deliveries whose result was published, or lost, and that appended no terminal
      event: because they are not there yet, found a stop, or a call failed. */
  function Unended(): Handler -> bool {
    (h: Handler) => (h.effects.sent || h.effects.lost) && !h.effects.completed && !h.effects.failed
  }

  lemma ClosedEffects(s: State)
    requires HandlersInv(s)
    ensures forall i :: 0 <= i < |s.handlers| ==> Closed(s.handlers[i].effects)
  {
    forall i | 0 <= i < |s.handlers|
      ensures Closed(s.handlers[i].effects)
    {
      assert HandlerOk(s.handlers[i]);
    }
  }

  lemma EarlyCounts(hs: seq<Handler>)
    requires forall i :: 0 <= i < |hs| ==> Closed(hs[i].effects)
    ensures Count(hs, Did(RunningMark)) >= Count(hs, Did(Snapshot)) >= Count(hs, Did(OpsTotal))
    ensures Count(hs, Did(OpsTotal)) >= Count(hs, Did(OpsType))
  {
    CountMonotone(hs, Did(Snapshot), Did(RunningMark));
    CountMonotone(hs, Did(OpsTotal), Did(Snapshot));
    CountMonotone(hs, Did(OpsType), Did(OpsTotal));
  }

  lemma LateCounts(hs: seq<Handler>)
    requires forall i :: 0 <= i < |hs| ==> Closed(hs[i].effects)
    ensures Count(hs, Did(OpsType)) >= Count(hs, Did(ResultSent)) + Count(hs, Did(ResultLost))
    ensures Count(hs, Did(ResultSent)) + Count(hs, Did(ResultLost)) ==
            Count(hs, Did(CompletedMark)) + Count(hs, Did(FailedMark)) + Count(hs, Unended())
  {
    CountSplit(hs, Did(ResultSent), Did(ResultLost), Published());
    CountMonotone(hs, Published(), Did(OpsType));
    CountSplit(hs, Terminal(), Unended(), Published());
    CountSplit(hs, Did(CompletedMark), Did(FailedMark), Terminal());
  }

  lemma ErrorCounts(hs: seq<Handler>)
    requires forall i :: 0 <= i < |hs| ==> Closed(hs[i].effects)
    ensures Count(hs, Did(FailedMark)) <= Count(hs, Did(ErrorsTotal)) <= Count(hs, Did(OpsType))
  {
    CountMonotone(hs, Did(FailedMark), Did(ErrorsTotal));
    CountMonotone(hs, Did(ErrorsTotal), Did(OpsType));
  }

  /** The chain, where `lost` result notices were sent with success and lost. */
  predicate Ordered(s: State, lost: nat) {
    var types := SumKinds(s.tally, KINDS);
    && Events(s, Running) >= s.tally.snapshots >= s.tally.total >= types >= Results(s) + lost
    && Results(s) + lost == Events(s, Completed) + Events(s, Failed) + Count(s.handlers, Unended())
    && Events(s, Failed) <= s.tally.errors <= types
  }

  lemma BalancedIsOrdered(s: State)
    requires AccountInv(s)
    ensures Ordered(s, Count(s.handlers, Did(ResultLost)))
  {
    ClosedEffects(s);
    EarlyCounts(s.handlers);
    LateCounts(s.handlers);
    ErrorCounts(s.handlers);
    AllKinds(s);
    BalancedMeasures(s);
    hide AccountInv, Closed, SumKinds, Did, IsStatus, IsResult, Count, Unended;
  }

  lemma BalancedMeasures(s: State)
    requires AccountInv(s)
    ensures Events(s, Running) == Count(s.handlers, Did(RunningMark))
    ensures s.tally.snapshots == Count(s.handlers, Did(Snapshot)) && s.tally.total == Count(s.handlers, Did(OpsTotal))
    ensures s.tally.errors == Count(s.handlers, Did(ErrorsTotal)) && Results(s) == Count(s.handlers, Did(ResultSent))
    ensures Events(s, Completed) == Count(s.handlers, Did(CompletedMark))
    ensures Events(s, Failed) == Count(s.handlers, Did(FailedMark))
  {
    hide HandlersInv, Did, IsStatus, IsResult, Count;
    assert Balanced(s, RunningMark) && Balanced(s, Snapshot) && Balanced(s, OpsTotal) && Balanced(s, ErrorsTotal);
    assert Balanced(s, ResultSent) && Balanced(s, CompletedMark) && Balanced(s, FailedMark);
  }

  /** The steps of a run that are result notices lost on their way to the broker. */
  function IsLostResult(): Step -> bool { (step: Step) => step.Work? && step.act == PublishResult(SendLost) }

  lemma {:induction false} LostIsCounted(steps: seq<Step>)
    requires Run(START, steps).Some?
    ensures Count(Run(START, steps).value.handlers, Did(ResultLost)) == Count(steps, IsLostResult())
  {
    hide Take;
    if |steps| == 0 {
    } else {
      var n := |steps| - 1;
      RunLast(START, steps);
      LostIsCounted(steps[..n]);
      HandlersAlwaysConsistent(steps[..n]);
      var m, s := Run(START, steps[..n]).value, Run(START, steps).value;
      if steps[n].Work? {
        LostByWork(m, steps[n], s);
      } else {
        OthersKeepCounts(m, steps[n], s, Did(ResultLost));
      }
    }
  }

  lemma LostByWork(s: State, step: Step, s': State)
    requires HandlersInv(s) && Take(s, step) == Some(s') && step.Work?
    ensures Count(s'.handlers, Did(ResultLost)) == Count(s.handlers, Did(ResultLost)) + Bit(IsLostResult()(step))
  {
    var i, act := step.i, step.act;
    WorkEffects(s, i, act, s', ResultLost);
    assert Adding(s.handlers[i], act) == Some(ResultLost) <==> IsLostResult()(step);
    hide Take, Adding;
    CountUpdate(s.handlers, i, s'.handlers[i], Did(ResultLost));
  }

  /** In every reachable state, whatever failed and however often messages were
      redelivered: running events, metrics rows, the total counter, the per-type
      counters and the result notices sent come in this order, and errors sit
      between failed events and the per-type counters. Notices, together with those
      that were lost, are exactly the terminal events and the deliveries that have
      sent their notice and not appended one. */
  lemma AccountingChain(steps: seq<Step>, s: State)
    requires Leads(START, steps, s)
    ensures Ordered(s, Count(steps, IsLostResult()))
  {
    LeadsIsRun(START, steps, s);
    AccountsAlwaysBalance(steps);
    LostIsCounted(steps);
    hide Take, Run;
    BalancedIsOrdered(s);
  }

  /** There are at least as many notices as terminal events exactly as long as no more
      notices were lost than deliveries are without a terminal event; in particular
      in every run in which none was lost. */
  lemma NoticesCoverTerminalEvents(steps: seq<Step>, s: State)
    requires Leads(START, steps, s)
    ensures Results(s) >= Events(s, Completed) + Events(s, Failed) <==>
            Count(steps, IsLostResult()) <= Count(s.handlers, Unended())
    ensures Count(steps, IsLostResult()) == 0 ==> Results(s) >= Events(s, Completed) + Events(s, Failed)
  {
    AccountingChain(steps, s);
    hide Leads, IsLostResult, Unended, Results, Events, Count, SumKinds;
  }

  // ----- A lost notice -----

  const MARKED: seq<Step> := [Work(0, AppendRunning(Done)), Work(0, Finished(GenOk))]
  const JOINED: seq<Step> := [Work(0, WatchExit), Work(0, Join)]
  const COUNTED: seq<Step> := [Work(0, InsertSnapshot(Done)), Work(0, IncrTotal(Done))]
  const LOST: seq<Step> := [Work(0, IncrType(Done)), Work(0, PublishResult(SendLost))]
  const ENDED: seq<Step> := [Work(0, ReadTerminal(Got(Running))), Work(0, AppendTerminal(Done))]

  /** The only handler is at a stage, and nothing but the scenario was published. */
  predicate At(s: State, stage: Stage, watcher: Watcher, log: seq<Event>) {
    && s.log == log && |s.handlers| == 1 && s.handlers[0].stage == stage && s.handlers[0].watcher == watcher
    && (watcher.Waiting? ==> s.handlers[0].cancelled) && s.handlers[0].Sid() == "a"
    && s.broker.published == [Message(QUEUE_HIGH, Scenario("a", DEMO), true)]
  }

  const RUNNING: seq<Event> := [Event("a", Queued), Event("a", Running)]

  lemma OwnStep(s: State, act: Act) returns (s': State)
    requires |s.handlers| == 1 && CanAct(s.handlers[0], act, s.log) && !(act.PublishResult? && act.send.Applied())
    ensures Take(s, Work(0, act)) == Some(s')
    ensures s'.log == s.log + Appended(s.handlers[0], act) && s'.handlers == [After(s.handlers[0], act, |s.log|)]
    ensures s'.broker == s.broker
  {
    hide After, CanAct, Appended, Counted;
    s' := Take(s, Work(0, act)).value;
  }

  lemma Marking(s: State)
    requires AboutToMark(s)
    ensures Run(s, MARKED).Some? && At(Run(s, MARKED).value, Joining(GenOk), Waiting, RUNNING)
  {
    hide Take;
    var m := OwnStep(s, MARKED[0].act);
    var m' := OwnStep(m, MARKED[1].act);
    RunTwo(s, MARKED[0], MARKED[1]);
  }

  lemma Joins(s: State)
    requires At(s, Joining(GenOk), Waiting, RUNNING)
    ensures Run(s, JOINED).Some? && At(Run(s, JOINED).value, Snapshotting(false), Exited, RUNNING)
  {
    hide Take;
    var m := OwnStep(s, JOINED[0].act);
    var m' := OwnStep(m, JOINED[1].act);
    RunTwo(s, JOINED[0], JOINED[1]);
  }

  lemma Counts(s: State)
    requires At(s, Snapshotting(false), Exited, RUNNING)
    ensures Run(s, COUNTED).Some? && At(Run(s, COUNTED).value, CountingType(false), Exited, RUNNING)
  {
    hide Take;
    var m := OwnStep(s, COUNTED[0].act);
    var m' := OwnStep(m, COUNTED[1].act);
    RunTwo(s, COUNTED[0], COUNTED[1]);
  }

  lemma Loses(s: State)
    requires At(s, CountingType(false), Exited, RUNNING)
    ensures Run(s, LOST).Some? && At(Run(s, LOST).value, GuardingTerminal(false), Exited, RUNNING)
  {
    hide Take;
    var m := OwnStep(s, LOST[0].act);
    var m' := OwnStep(m, LOST[1].act);
    RunTwo(s, LOST[0], LOST[1]);
  }

  lemma Ends(s: State)
    requires At(s, GuardingTerminal(false), Exited, RUNNING)
    ensures Run(s, ENDED).Some? && At(Run(s, ENDED).value, Returned(Ack), Exited, RUNNING + [Event("a", Completed)])
  {
    hide Take;
    var m := LastRead(s);
    var m' := OwnStep(m, ENDED[1].act);
    RunTwo(s, ENDED[0], ENDED[1]);
  }

  lemma LastRead(s: State) returns (s': State)
    requires At(s, GuardingTerminal(false), Exited, RUNNING)
    ensures Take(s, ENDED[0]) == Some(s') && At(s', MarkingTerminal(false), Exited, RUNNING)
  {
    hide Take;
    assert Newest(RUNNING, "a") == Some(Running);
    s' := OwnStep(s, ENDED[0].act);
  }

  /** A run in which the only notice is lost on its way and the scenario completes:
      there are then fewer notices than terminal events. */
  lemma LostNoticeUncovers() returns (steps: seq<Step>, s: State)
    ensures Leads(START, steps, s)
    ensures Results(s) == 0 && Events(s, Completed) + Events(s, Failed) == 1
  {
    hide Take, At, AboutToMark, Offered;
    Creating();
    s := Run(START, CREATED).value;
    Reading(s);
    steps := Onwards(CREATED, s, READ);
    s := Run(s, READ).value;
    Marking(s);
    steps := Onwards(steps, s, MARKED);
    s := Run(s, MARKED).value;
    Joins(s);
    steps := Onwards(steps, s, JOINED);
    s := Run(s, JOINED).value;
    Counts(s);
    steps := Onwards(steps, s, COUNTED);
    s := Run(s, COUNTED).value;
    Loses(s);
    steps := Onwards(steps, s, LOST);
    s := Run(s, LOST).value;
    Ends(s);
    steps := Onwards(steps, s, ENDED);
    s := Run(s, ENDED).value;
    LeadsIsRun(START, steps, s);
    Uncovered(s);
  }

  lemma Onwards(before: seq<Step>, s: State, more: seq<Step>) returns (steps: seq<Step>)
    requires Run(START, before) == Some(s)
    ensures Run(START, steps) == Run(s, more)
  {
    hide Take;
    steps := before + more;
    RunConcat(START, before, more);
  }

  lemma Uncovered(s: State)
    requires At(s, Returned(Ack), Exited, RUNNING + [Event("a", Completed)])
    ensures Results(s) == 0 && Events(s, Completed) + Events(s, Failed) == 1
  {
    assert s.log[..2] == RUNNING;
    CountZero(s.broker.published, IsResult());
    CountZero(s.log, IsStatus(Failed));
    CountZero(RUNNING, IsStatus(Completed));
    CountAppend(RUNNING, Event("a", Completed), IsStatus(Completed));
  }

  /** No counter is kept for a type the worker cannot run. */
  lemma OnlyRunnableKindsAreCounted(steps: seq<Step>, s: State, kind: string)
    requires Leads(START, steps, s) && !Runnable(kind)
    ensures TypeCount(s.tally, kind) == 0
  {
    LeadsIsRun(START, steps, s);
    AccountsAlwaysBalance(steps);
    assert KindBalanced(s, kind);
    forall i | 0 <= i < |s.handlers|
      ensures !CountedAs(kind)(s.handlers[i])
    {
      assert HandlerOk(s.handlers[i]);
    }
    CountZero(s.handlers, CountedAs(kind));
  }
}
