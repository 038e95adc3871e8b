/** What every counter, event and notice stands for: in every run each is exactly the
    steps that made it, under the type and the id in the message of the delivery that
    took the step. */
module Ledger {
  import opened Basics
  import opened Workload
  import opened Lifecycle
  import opened Handlers
  import opened Accounting
  import opened Delivery

  // ----- Whose step it is -----

  /** Delivery i is of a scenario of this workload type. */
  predicate OfType(hs: seq<Handler>, i: nat, workloadType: string) {
    i < |hs| && hs[i].body.Scenario? && hs[i].body.profile.workloadType == workloadType
  }

  /** Delivery i is of this scenario. */
  predicate OfScenario(hs: seq<Handler>, i: nat, sid: string) {
    i < |hs| && hs[i].body.Scenario? && hs[i].body.sid == sid
  }

  function SnapshotStep(): Step -> bool {
    (step: Step) => step.Work? && step.act.InsertSnapshot? && step.act.call.Applied()
  }

  function TotalStep(): Step -> bool {
    (step: Step) => step.Work? && step.act.IncrTotal? && step.act.call.Applied()
  }

  function ErrorStep(): Step -> bool {
    (step: Step) => step.Work? && step.act.IncrErrors? && step.act.call.Applied()
  }

  function TypeStep(hs: seq<Handler>, workloadType: string): Step -> bool {
    (step: Step) =>
      step.Work? && step.act.IncrType? && step.act.call.Applied() && OfType(hs, step.i, workloadType)
  }

  function NoticeStep(hs: seq<Handler>, sid: string): Step -> bool {
    (step: Step) =>
      step.Work? && step.act.PublishResult? && step.act.send.Applied() && OfScenario(hs, step.i, sid)
  }

  function RunningStep(hs: seq<Handler>, sid: string): Step -> bool {
    (step: Step) => step.Work? && step.act.AppendRunning? && step.act.call.Applied() && OfScenario(hs, step.i, sid)
  }

  function TerminalStep(hs: seq<Handler>, sid: string): Step -> bool {
    (step: Step) => step.Work? && step.act.AppendTerminal? && step.act.call.Applied() && OfScenario(hs, step.i, sid)
  }

  function QueuedStep(sid: string): Step -> bool {
    (step: Step) => step.CreateStore? && step.id == sid && step.call.Applied()
  }

  function StoppedStep(stops: seq<StopCall>, sid: string): Step -> bool {
    (step: Step) =>
      step.StopAppend? && step.call.Applied() && step.k < |stops| && stops[step.k].sid == sid
  }

  function IsEvent(sid: string, status: Status): Event -> bool { (e: Event) => e == Event(sid, status) }

  function IsTerminal(sid: string): Event -> bool {
    (e: Event) => e == Event(sid, Completed) || e == Event(sid, Failed)
  }

  function IsNotice(sid: string): Message -> bool {
    (m: Message) => m == Message("results." + sid, ResultNotice(sid), false)
  }

  // ----- Deliveries and stop calls keep their subject -----

  /** hs and stops are what s can still become, as far as subjects go. */
  predicate Agrees(s: State, hs: seq<Handler>, stops: seq<StopCall>) {
    && |s.handlers| <= |hs| && (forall i :: 0 <= i < |s.handlers| ==> hs[i].body == s.handlers[i].body)
    && |s.stops| <= |stops| && (forall k :: 0 <= k < |s.stops| ==> stops[k].sid == s.stops[k].sid)
  }

  lemma BodiesStay(s: State, step: Step, s': State)
    requires Take(s, step) == Some(s')
    ensures |s.handlers| <= |s'.handlers|
    ensures forall i :: 0 <= i < |s.handlers| ==> s'.handlers[i].body == s.handlers[i].body
  {
    if step.Work? {
      ActKeepsType(s.handlers[step.i], step.act, s.log);
      hide After, CanAct, Appended, Counted;
    } else {
      OtherSteps(s, step, s');
      hide Take;
    }
  }

  lemma StopsStay(s: State, step: Step, s': State)
    requires Take(s, step) == Some(s')
    ensures |s.stops| <= |s'.stops| && forall k :: 0 <= k < |s.stops| ==> s'.stops[k].sid == s.stops[k].sid
  {
  }

  lemma AgreedBefore(s: State, step: Step, s': State, hs: seq<Handler>, stops: seq<StopCall>)
    requires Take(s, step) == Some(s') && Agrees(s', hs, stops)
    ensures Agrees(s, hs, stops)
  {
    BodiesStay(s, step, s');
    StopsStay(s, step, s');
    hide Take;
  }

  // ----- Counters -----

  lemma TallyStep(s: State, step: Step, s': State)
    requires Take(s, step) == Some(s')
    ensures s'.tally.snapshots == s.tally.snapshots + Bit(SnapshotStep()(step))
    ensures s'.tally.total == s.tally.total + Bit(TotalStep()(step))
    ensures s'.tally.errors == s.tally.errors + Bit(ErrorStep()(step))
  {
    if step.Work? {
      hide After, CanAct, Appended, Publish;
    } else {
      OthersKeepTally(s, step, s');
      hide Take;
    }
  }

  lemma {:induction false} TallyIsSteps(steps: seq<Step>)
    requires Run(START, steps).Some?
    ensures var t := Run(START, steps).value.tally;
            && t.snapshots == Count(steps, SnapshotStep()) && t.total == Count(steps, TotalStep())
            && t.errors == Count(steps, ErrorStep())
  {
    hide Take, SnapshotStep, TotalStep, ErrorStep;
    if |steps| == 0 {
    } else {
      var n := |steps| - 1;
      RunLast(START, steps);
      TallyIsSteps(steps[..n]);
      TallyStep(Run(START, steps[..n]).value, steps[n], Run(START, steps).value);
    }
  }

  lemma TypeCountStep(s: State, step: Step, s': State, hs: seq<Handler>, stops: seq<StopCall>, workloadType: string)
    requires HandlersInv(s) && Take(s, step) == Some(s') && Agrees(s', hs, stops)
    ensures TypeCount(s'.tally, workloadType) ==
            TypeCount(s.tally, workloadType) + Bit(TypeStep(hs, workloadType)(step))
  {
    AgreedBefore(s, step, s', hs, stops);
    if step.Work? {
      assert HandlerOk(s.handlers[step.i]);
      hide After, Appended, Publish, LogFacts;
    } else {
      OthersKeepTally(s, step, s');
      hide Take;
    }
  }

  lemma {:induction false} TypesAreSteps(steps: seq<Step>, hs: seq<Handler>, stops: seq<StopCall>, workloadType: string)
    requires Run(START, steps).Some? && Agrees(Run(START, steps).value, hs, stops)
    ensures TypeCount(Run(START, steps).value.tally, workloadType) == Count(steps, TypeStep(hs, workloadType))
  {
    hide Take, TypeStep, Agrees;
    if |steps| == 0 {
    } else {
      hide TypeCount;
      var n := |steps| - 1;
      RunLast(START, steps);
      var m, s := Run(START, steps[..n]).value, Run(START, steps).value;
      AgreedBefore(m, steps[n], s, hs, stops);
      TypesAreSteps(steps[..n], hs, stops, workloadType);
      HandlersAlwaysConsistent(steps[..n]);
      TypeCountStep(m, steps[n], s, hs, stops, workloadType);
    }
  }

  /** In every run each counter is the number of increments that took effect, and the
      counter of a workload type the number of those made for deliveries whose message
      carries that type. */
  lemma CountersAreSteps(steps: seq<Step>, s: State, workloadType: string)
    requires Leads(START, steps, s)
    ensures s.tally.snapshots == Count(steps, SnapshotStep()) && s.tally.total == Count(steps, TotalStep())
    ensures s.tally.errors == Count(steps, ErrorStep())
    ensures TypeCount(s.tally, workloadType) == Count(steps, TypeStep(s.handlers, workloadType))
  {
    LeadsIsRun(START, steps, s);
    TallyIsSteps(steps);
    TypesAreSteps(steps, s.handlers, s.stops, workloadType);
  }

  // ----- The log -----

  /** The events a step appends. */
  function Appends(s: State, step: Step): seq<Event> {
    match step
    case CreateStore(_, id, call) => if call.Applied() then [Event(id, Queued)] else []
    case StopAppend(k, call) => if k < |s.stops| && call.Applied() then [Event(s.stops[k].sid, Stopped)] else []
    case Work(i, act) => if i < |s.handlers| then Appended(s.handlers[i], act) else []
    case _ => []
  }

  lemma StepAppends(s: State, step: Step, s': State)
    requires Take(s, step) == Some(s')
    ensures s'.log == s.log + Appends(s, step)
  {
    hide After, CanAct, Appended, Counted, Publish, Admitted;
    assert s.log + [] == s.log;
  }

  lemma CountAppends(log: seq<Event>, more: seq<Event>, p: Event -> bool)
    requires |more| <= 1
    ensures Count(log + more, p) == Count(log, p) + Bit(|more| == 1 && p(more[0]))
  {
    if |more| == 1 {
      CountAppend(log, more[0], p);
      assert log + more == log + [more[0]];
    } else {
      assert log + more == log;
    }
  }

  ghost predicate LogBalanced(s: State, steps: seq<Step>, hs: seq<Handler>, stops: seq<StopCall>, sid: string) {
    && Count(s.log, IsEvent(sid, Queued)) == Count(steps, QueuedStep(sid))
    && Count(s.log, IsEvent(sid, Running)) == Count(steps, RunningStep(hs, sid))
    && Count(s.log, IsTerminal(sid)) == Count(steps, TerminalStep(hs, sid))
    && Count(s.log, IsEvent(sid, Stopped)) == Count(steps, StoppedStep(stops, sid))
  }

  predicate Says(e: seq<Event>, p: Event -> bool) { |e| == 1 && p(e[0]) }

  lemma AppendsMean(s: State, step: Step, s': State, hs: seq<Handler>, stops: seq<StopCall>, sid: string)
    requires HandlersInv(s) && Take(s, step) == Some(s') && Agrees(s, hs, stops)
    ensures var e := Appends(s, step);
            && |e| <= 1
            && (Says(e, IsEvent(sid, Queued)) <==> QueuedStep(sid)(step))
            && (Says(e, IsEvent(sid, Running)) <==> RunningStep(hs, sid)(step))
            && (Says(e, IsTerminal(sid)) <==> TerminalStep(hs, sid)(step))
            && (Says(e, IsEvent(sid, Stopped)) <==> StoppedStep(stops, sid)(step))
  {
    if step.Work? {
      assert HandlerOk(s.handlers[step.i]);
      hide After, Counted, Publish, LogFacts;
    }
  }

  lemma LogStep(s: State, step: Step, s': State, steps: seq<Step>, hs: seq<Handler>, stops: seq<StopCall>, sid: string)
    requires HandlersInv(s) && Take(s, step) == Some(s') && Agrees(s, hs, stops)
    requires LogBalanced(s, steps, hs, stops, sid)
    ensures LogBalanced(s', steps + [step], hs, stops, sid)
  {
    StepAppends(s, step, s');
    AppendsMean(s, step, s', hs, stops, sid);
    var e := Appends(s, step);
    hide Take, HandlersInv, Appends, IsEvent, IsTerminal, QueuedStep, RunningStep, TerminalStep, StoppedStep, Says;
    StillEqual(s.log, e, IsEvent(sid, Queued), steps, step, QueuedStep(sid));
    StillEqual(s.log, e, IsEvent(sid, Running), steps, step, RunningStep(hs, sid));
    StillEqual(s.log, e, IsTerminal(sid), steps, step, TerminalStep(hs, sid));
    StillEqual(s.log, e, IsEvent(sid, Stopped), steps, step, StoppedStep(stops, sid));
    hide Count;
  }

  lemma StillEqual(log: seq<Event>, e: seq<Event>, p: Event -> bool, steps: seq<Step>, step: Step, q: Step -> bool)
    requires |e| <= 1 && (Says(e, p) <==> q(step)) && Count(log, p) == Count(steps, q)
    ensures Count(log + e, p) == Count(steps + [step], q)
  {
    hide Count;
    CountAppends(log, e, p);
    CountAppend(steps, step, q);
  }

  lemma {:induction false} LogIsSteps(steps: seq<Step>, hs: seq<Handler>, stops: seq<StopCall>, sid: string)
    requires Run(START, steps).Some? && Agrees(Run(START, steps).value, hs, stops)
    ensures LogBalanced(Run(START, steps).value, steps, hs, stops, sid)
  {
    hide Take, Agrees;
    if |steps| == 0 {
    } else {
      var n := |steps| - 1;
      RunLast(START, steps);
      var m, s := Run(START, steps[..n]).value, Run(START, steps).value;
      AgreedBefore(m, steps[n], s, hs, stops);
      LogIsSteps(steps[..n], hs, stops, sid);
      HandlersAlwaysConsistent(steps[..n]);
      hide LogBalanced;
      LogStep(m, steps[n], s, steps[..n], hs, stops, sid);
      assert steps == steps[..n] + [steps[n]];
    }
  }

  /** In every run the events of a scenario are exactly the inserts that took effect:
      queued by the API under its id, running and terminal by deliveries whose message
      carries its id, stopped by stop calls for it. */
  lemma EventsAreSteps(steps: seq<Step>, s: State, sid: string)
    requires Leads(START, steps, s)
    ensures Count(s.log, IsEvent(sid, Queued)) == Count(steps, QueuedStep(sid))
    ensures Count(s.log, IsEvent(sid, Running)) == Count(steps, RunningStep(s.handlers, sid))
    ensures Count(s.log, IsTerminal(sid)) == Count(steps, TerminalStep(s.handlers, sid))
    ensures Count(s.log, IsEvent(sid, Stopped)) == Count(steps, StoppedStep(s.stops, sid))
  {
    LeadsIsRun(START, steps, s);
    LogIsSteps(steps, s.handlers, s.stops, sid);
  }

  // ----- Notices -----

  lemma SendsNotice(s: State, step: Step, s': State, hs: seq<Handler>, stops: seq<StopCall>, sid: string)
    requires HandlersInv(s) && Take(s, step) == Some(s') && Agrees(s, hs, stops)
    ensures Sending(s, step).Some? && IsNotice(sid)(Sending(s, step).value) <==> NoticeStep(hs, sid)(step)
  {
    if step.Work? {
      assert HandlerOk(s.handlers[step.i]);
      SameKey(s.handlers[step.i].Sid(), sid);
      hide After, Appended, Counted, LogFacts, Publish;
    }
  }

  lemma NoticeOfStep(s: State, step: Step, s': State, hs: seq<Handler>, stops: seq<StopCall>, sid: string)
    requires HandlersInv(s) && Take(s, step) == Some(s') && Agrees(s, hs, stops)
    ensures Count(s'.broker.published, IsNotice(sid)) ==
            Count(s.broker.published, IsNotice(sid)) + Bit(NoticeStep(hs, sid)(step))
  {
    StepPublishes(s, step, s');
    SendsNotice(s, step, s', hs, stops, sid);
    hide Take, Sending, HandlersInv, IsNotice, NoticeStep, Count;
    match Sending(s, step) {
      case Some(m) => CountAppend(s.broker.published, m, IsNotice(sid));
      case None => assert s.broker.published + [] == s.broker.published;
    }
  }

  lemma SameKey(a: string, b: string)
    ensures "results." + a == "results." + b <==> a == b
  {
    if "results." + a == "results." + b {
      assert ("results." + a)[8..] == a && ("results." + b)[8..] == b;
    }
  }

  lemma {:induction false} NoticesCount(steps: seq<Step>, hs: seq<Handler>, stops: seq<StopCall>, sid: string)
    requires Run(START, steps).Some? && Agrees(Run(START, steps).value, hs, stops)
    ensures Count(Run(START, steps).value.broker.published, IsNotice(sid)) == Count(steps, NoticeStep(hs, sid))
  {
    hide Take, Agrees, NoticeStep, IsNotice;
    if |steps| == 0 {
    } else {
      var n := |steps| - 1;
      RunLast(START, steps);
      var m, s := Run(START, steps[..n]).value, Run(START, steps).value;
      AgreedBefore(m, steps[n], s, hs, stops);
      NoticesCount(steps[..n], hs, stops, sid);
      HandlersAlwaysConsistent(steps[..n]);
      NoticeOfStep(m, steps[n], s, hs, stops, sid);
    }
  }

  /** In every run the result notices of a scenario, each under the key `results.` with
      its id, are exactly the sends that took effect of deliveries whose message carries
      its id. */
  lemma NoticesAreSteps(steps: seq<Step>, s: State, sid: string)
    requires Leads(START, steps, s)
    ensures Count(s.broker.published, IsNotice(sid)) == Count(steps, NoticeStep(s.handlers, sid))
  {
    LeadsIsRun(START, steps, s);
    NoticesCount(steps, s.handlers, s.stops, sid);
  }
}
