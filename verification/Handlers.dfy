/** What holds of every message handler in every reachable state: which effects
    each stage implies, how the stop watcher and the handler depend on each other,
    and what the log looked like when the handler last read it. */
module Handlers {
  import opened Basics
  import opened Workload
  import opened Lifecycle

  /** The handler's own steps. */
  predicate OfHandler(step: Step, i: nat) { step.Work? && step.i == i }

  const STARTED: Effects := Effects(true, true, false, false, false, false, false, false, false, false)

  /** Effects come in the order of the code: none without the ones before it. */
  predicate Closed(e: Effects) {
    && (e.launch ==> e.running)
    && (e.snapshot ==> e.launch)
    && (e.total ==> e.snapshot)
    && (e.byType ==> e.total)
    && (e.errors ==> e.byType)
    && (e.sent ==> e.byType)
    && (e.lost ==> e.byType)
    && !(e.sent && e.lost)
    && (e.completed || e.failed ==> e.sent || e.lost)
    && (e.failed ==> e.errors)
    && !(e.completed && e.failed)
  }

  /** What a handler at a stage has done: everything before it, nothing after. Its
      result notice may have been lost although the send reported success. */
  function Expected(st: Stage, lost: bool): Effects {
    match st
    case Executing => STARTED
    case Joining(_) => STARTED
    case Rechecking => STARTED
    case Snapshotting(_) => STARTED
    case CountingTotal(_) => Effects(true, true, true, false, false, false, false, false, false, false)
    case CountingType(_) => Effects(true, true, true, true, false, false, false, false, false, false)
    case CountingError => Effects(true, true, true, true, true, false, false, false, false, false)
    case Publishing(err) => Effects(true, true, true, true, true, err, false, false, false, false)
    case GuardingTerminal(err) => Effects(true, true, true, true, true, err, !lost, lost, false, false)
    case MarkingTerminal(err) => Effects(true, true, true, true, true, err, !lost, lost, false, false)
    case _ => NOTHING
  }

  predicate Over(st: Stage) { st.Returned? || st.Settled? || st.Killed? }

  predicate BeforeWatch(st: Stage) { st.Decoding? || st.Guarding? || st.MarkingRunning? }

  /** Only a decoded scenario of a runnable type gets past the first step. */
  predicate Typed(h: Handler) {
    h.body.Scenario? && Runnable(h.body.profile.workloadType)
  }

  /** The handler's own state is consistent. */
  predicate HandlerOk(h: Handler) {
    && EffectsOk(h)
    && WatcherOk(h)
    && (!Over(h.stage) && !h.stage.Decoding? ==> Typed(h))
    && (h.effects != NOTHING ==> Typed(h))
  }

  predicate EffectsOk(h: Handler) {
    Closed(h.effects) && (!Over(h.stage) ==> h.effects == Expected(h.stage, h.effects.lost))
  }

  predicate WatcherOk(h: Handler) {
    && (BeforeWatch(h.stage) ==> h.watcher.NotStarted? && !h.cancelled)
    && (h.stage.Executing? ==> !h.watcher.NotStarted? && (h.cancelled <==> h.watcher.Exited?))
    && (h.stage.Joining? ==> !h.watcher.NotStarted? && h.cancelled)
    && (!BeforeWatch(h.stage) && !h.stage.Executing? && !h.stage.Joining? && !Over(h.stage) ==> h.watcher.Exited?)
    && (Over(h.stage) ==> h.watcher.NotStarted? || h.watcher.Exited?)
  }

  predicate NotStoppedAt(log: seq<Event>, sid: string, n: nat) {
    n <= |log| && Newest(log[..n], sid).Some? && Newest(log[..n], sid) != Some(Stopped)
  }

  /** What the log held when the handler read it. */
  predicate LogFacts(h: Handler, log: seq<Event>) {
    && (h.stage.MarkingRunning? || h.stage.MarkingTerminal? ==> NotStoppedAt(log, h.Sid(), h.guard))
    && (h.stage.Executing? || h.stage.Joining? ==> h.guard < |log| && NotStoppedAt(log, h.Sid(), h.guard))
    && (h.watcher.SawStop? || (h.stage.Executing? && h.cancelled) ==>
          h.guard < h.seen <= |log| && Newest(log[..h.seen], h.Sid()) == Some(Stopped))
  }

  ghost predicate HandlersInv(s: State) {
    && (forall i :: 0 <= i < |s.handlers| ==> HandlerOk(s.handlers[i]) && LogFacts(s.handlers[i], s.log))
    && (forall i :: 0 <= i < |s.log| ==> s.log[i].sid in s.used)
    && (forall k :: 0 <= k < |s.stops| ==> s.stops[k].sid in s.used)
  }

  lemma FirstCalls(h: Handler, act: Act, n: nat)
    requires EffectsOk(h) && CanAct(h, act, [])
    requires act.InsertSnapshot? || act.IncrTotal? || act.IncrType?
    ensures EffectsOk(After(h, act, n))
  {
  }

  lemma ErrorCall(h: Handler, act: Act, n: nat)
    requires EffectsOk(h) && CanAct(h, act, []) && act.IncrErrors?
    ensures EffectsOk(After(h, act, n))
  {
  }

  lemma PublishCall(h: Handler, act: Act, n: nat)
    requires EffectsOk(h) && CanAct(h, act, []) && act.PublishResult?
    ensures EffectsOk(After(h, act, n))
  {
  }

  lemma LastCall(h: Handler, act: Act, n: nat)
    requires EffectsOk(h) && CanAct(h, act, []) && act.AppendTerminal?
    ensures EffectsOk(After(h, act, n))
  {
  }

  predicate IsCall(act: Act) {
    act.InsertSnapshot? || act.IncrTotal? || act.IncrType? || act.IncrErrors? || act.PublishResult? ||
        act.AppendTerminal?
  }

  lemma OtherActs(h: Handler, act: Act, log: seq<Event>)
    requires EffectsOk(h) && WatcherOk(h) && CanAct(h, act, log) && !IsCall(act)
    ensures EffectsOk(After(h, act, |log|))
  {
  }

  lemma ActKeepsEffects(h: Handler, act: Act, log: seq<Event>)
    requires EffectsOk(h) && WatcherOk(h) && CanAct(h, act, log)
    ensures EffectsOk(After(h, act, |log|))
  {
    if act.InsertSnapshot? || act.IncrTotal? || act.IncrType? {
      FirstCalls(h, act, |log|);
    } else if act.IncrErrors? {
      ErrorCall(h, act, |log|);
    } else if act.PublishResult? {
      PublishCall(h, act, |log|);
    } else if act.AppendTerminal? {
      LastCall(h, act, |log|);
    } else {
      OtherActs(h, act, log);
    }
  }

  lemma ActKeepsWatcher(h: Handler, act: Act, log: seq<Event>)
    requires WatcherOk(h) && CanAct(h, act, log)
    ensures WatcherOk(After(h, act, |log|))
  {
  }

  lemma ActKeepsType(h: Handler, act: Act, log: seq<Event>)
    requires CanAct(h, act, log)
    ensures After(h, act, |log|).body == h.body
    ensures act.Decode? ==> Over(After(h, act, |log|).stage) || Typed(h)
  {
  }

  lemma ActKeepsOk(h: Handler, act: Act, log: seq<Event>)
    requires HandlerOk(h) && CanAct(h, act, log)
    ensures HandlerOk(After(h, act, |log|))
  {
    ActKeepsEffects(h, act, log);
    ActKeepsWatcher(h, act, log);
    ActKeepsType(h, act, log);
    var h' := After(h, act, |log|);
    if !act.Decode? {
      assert h'.effects != NOTHING || !Over(h'.stage) ==> Typed(h);
    } else {
      assert h'.effects == h.effects;
    }
  }

  /** What the log held at a handler's reads, once it has made its next step. */
  lemma ActKeepsFacts(h: Handler, act: Act, log: seq<Event>)
    requires HandlerOk(h) && LogFacts(h, log) && CanAct(h, act, log) && !act.AppendRunning?
    ensures LogFacts(After(h, act, |log|), log)
  {
    assert log[..|log|] == log;
  }

  lemma ActKeepsLogFacts(h: Handler, act: Act, log: seq<Event>)
    requires HandlerOk(h) && LogFacts(h, log) && CanAct(h, act, log)
    ensures LogFacts(After(h, act, |log|), log + Appended(h, act))
  {
    var log' := log + Appended(h, act);
    assert forall n :: 0 <= n <= |log| ==> log'[..n] == log[..n];
    if !act.AppendRunning? {
      ActKeepsFacts(h, act, log);
      hide After, CanAct, HandlerOk, Appended;
    }
  }

  lemma LogFactsStable(h: Handler, log: seq<Event>, log': seq<Event>)
    requires LogFacts(h, log) && |log| <= |log'| && log'[..|log|] == log
    ensures LogFacts(h, log')
  {
    assert forall n :: 0 <= n <= |log| ==> log'[..n] == log[..n];
  }

  /** A step that is not the handler's own leaves it alone, but may mark its
      delivery as no longer current, settle it, or kill it. */
  predicate Bystander(h: Handler, h': Handler) {
    || h' == h
    || h' == h.(current := false)
    || (h.stage.Returned? && h' == h.(stage := Settled))
    || h' == h.(current := false, stage := Killed, watcher := Exited)
  }

  lemma OtherSteps(s: State, step: Step, s': State)
    requires Take(s, step) == Some(s') && !step.Work?
    ensures |s.handlers| <= |s'.handlers| <= |s.handlers| + 1
    ensures forall i :: 0 <= i < |s.handlers| ==> Bystander(s.handlers[i], s'.handlers[i])
    ensures |s'.handlers| > |s.handlers| ==>
              var h := s'.handlers[|s.handlers|];
              h.stage.Decoding? && h.watcher.NotStarted? && !h.cancelled && h.effects == NOTHING
  {
  }

  lemma NewestIsUsed(s: State, sid: string, n: nat)
    requires HandlersInv(s) && n <= |s.log| && Newest(s.log[..n], sid).Some?
    ensures sid in s.used
  {
    var i := NewestIsLast(s.log[..n], sid);
    assert s.log[i].sid == sid;
  }

  lemma SidsStayUsed(s: State, step: Step, s': State)
    requires HandlersInv(s) && Take(s, step) == Some(s')
    ensures forall i :: 0 <= i < |s'.log| ==> s'.log[i].sid in s'.used
    ensures forall k :: 0 <= k < |s'.stops| ==> s'.stops[k].sid in s'.used
  {
    match step {
      case Work(i, act) =>
        var h := s.handlers[i];
        assert HandlerOk(h) && LogFacts(h, s.log);
        if act.AppendRunning? || act.AppendTerminal? {
          NewestIsUsed(s, h.Sid(), h.guard);
        }
      case StopRead(id) =>
        assert s.log[..|s.log|] == s.log;
        NewestIsUsed(s, id, |s.log|);
      case _ =>
    }
  }

  lemma BystanderOk(h: Handler, h': Handler, log: seq<Event>)
    requires HandlerOk(h) && LogFacts(h, log) && Bystander(h, h')
    ensures HandlerOk(h') && LogFacts(h', log)
  {
  }

  lemma StepKeepsHandlers(s: State, step: Step, s': State)
    requires HandlersInv(s) && Take(s, step) == Some(s')
    ensures HandlersInv(s')
  {
    SidsStayUsed(s, step, s');
    LogGrows(s, step, s');
    forall i | 0 <= i < |s'.handlers|
      ensures HandlerOk(s'.handlers[i]) && LogFacts(s'.handlers[i], s'.log)
    {
      if step.Work? && i == step.i {
        ActKeepsOk(s.handlers[i], step.act, s.log);
        ActKeepsLogFacts(s.handlers[i], step.act, s.log);
      } else if step.Work? {
        LogFactsStable(s.handlers[i], s.log, s'.log);
      } else {
        OtherSteps(s, step, s');
        if i < |s.handlers| {
          BystanderOk(s.handlers[i], s'.handlers[i], s.log);
          LogFactsStable(s'.handlers[i], s.log, s'.log);
        }
      }
    }
  }

  lemma {:induction false} RunKeepsHandlers(s: State, steps: seq<Step>)
    requires HandlersInv(s) && Run(s, steps).Some?
    ensures HandlersInv(Run(s, steps).value)
  {
    hide Take;
    if |steps| == 0 {
    } else {
      var n := |steps| - 1;
      RunLast(s, steps);
      RunKeepsHandlers(s, steps[..n]);
      StepKeepsHandlers(Run(s, steps[..n]).value, steps[n], Run(s, steps).value);
    }
  }

  /** In every reachable state every handler is consistent. */
  lemma HandlersAlwaysConsistent(steps: seq<Step>)
    requires Run(START, steps).Some?
    ensures HandlersInv(Run(START, steps).value)
  {
    hide Take;
    RunKeepsHandlers(START, steps);
  }

  // ----- The stop watcher -----

  predicate SeesStop(h: Handler) { h.watcher.SawStop? || (h.stage.Executing? && h.cancelled) }

  lemma SeesStopAct(h: Handler, act: Act, log: seq<Event>)
    requires WatcherOk(h) && CanAct(h, act, log) && SeesStop(After(h, act, |log|))
    ensures (act == WatchRead(Got(Stopped)) && After(h, act, |log|).seen == |log|) ||
            (SeesStop(h) && After(h, act, |log|).seen == h.seen)
  {
  }

  lemma SeesStopStep(s: State, step: Step, s': State, i: nat)
    requires HandlersInv(s) && Take(s, step) == Some(s') && i < |s'.handlers| && SeesStop(s'.handlers[i])
    ensures i < |s.handlers|
    ensures (step == Work(i, WatchRead(Got(Stopped))) && s'.handlers[i].seen == |s.log|) ||
            (SeesStop(s.handlers[i]) && s'.handlers[i].seen == s.handlers[i].seen)
  {
    if step.Work? {
      if step.i == i {
        assert HandlerOk(s.handlers[i]);
        SeesStopAct(s.handlers[i], step.act, s.log);
      }
      hide CanAct, After, SeesStop, HandlersInv, Appended, Counted, Publish;
    } else {
      OtherSteps(s, step, s');
      hide Take, HandlersInv;
    }
  }

  /** A handler whose watcher has seen a stop has a step in which it read it. */
  lemma {:induction false} SeesStopByRead(steps: seq<Step>, i: nat) returns (read: nat)
    requires Run(START, steps).Some? && i < |Run(START, steps).value.handlers|
    requires SeesStop(Run(START, steps).value.handlers[i])
    ensures read < |steps| && steps[read] == Work(i, WatchRead(Got(Stopped))) && Run(START, steps[..read]).Some?
    ensures |Run(START, steps[..read]).value.log| == Run(START, steps).value.handlers[i].seen
  {
    hide Take, SeesStop;
    if |steps| == 0 {
      assert false;
    } else {
      var n := |steps| - 1;
      RunLast(START, steps);
      HandlersAlwaysConsistent(steps[..n]);
      var m, s := Run(START, steps[..n]).value, Run(START, steps).value;
      SeesStopStep(m, steps[n], s, i);
      if steps[n] == Work(i, WatchRead(Got(Stopped))) && s.handlers[i].seen == |m.log| {
        read := n;
      } else {
        read := SeesStopByRead(steps[..n], i);
        assert steps[..n][..read] == steps[..read];
      }
    }
  }

  /** The generator's context is cancelled while it runs only because the handler's
      own watcher read a stop, and that stop was appended after the guard read. */
  lemma CancelledOnlyByStop(states: seq<State>, steps: seq<Step>, i: nat) returns (read: nat, stop: nat)
    requires IsTrace(states, steps) && states[0] == START && i < |states[|steps|].handlers|
    requires states[|steps|].handlers[i].stage.Executing? && states[|steps|].handlers[i].cancelled
    ensures read < |steps| && steps[read] == Work(i, WatchRead(Got(Stopped)))
    ensures var h := states[|steps|].handlers[i];
            h.guard <= stop < |states[read].log| && states[read].log[stop] == Event(h.Sid(), Stopped)
  {
    hide Take;
    TraceIsRun(states, steps, |steps|);
    assert steps[..|steps|] == steps;
    read := SeesStopByRead(steps, i);
    TraceIsRun(states, steps, read);
    HandlersAlwaysConsistent(steps);
    var s := states[|steps|];
    var h := s.handlers[i];
    assert HandlerOk(h) && LogFacts(h, s.log);
    stop := NewestIsLast(s.log[..h.seen], h.Sid());
    if stop < h.guard {
      assert s.log[..h.seen][..h.guard] == s.log[..h.guard];
      NewestOfLast(s.log[..h.guard], h.Sid(), stop);
    }
    LogOnlyGrows(states, steps, read);
    assert s.log[..h.seen] == states[read].log;
  }

  lemma {:induction false} LogOnlyGrows(states: seq<State>, steps: seq<Step>, k: nat)
    requires IsTrace(states, steps) && k <= |steps|
    ensures |states[k].log| <= |states[|steps|].log| && states[|steps|].log[..|states[k].log|] == states[k].log
    decreases |steps| - k
  {
    hide Take;
    if k == |steps| {
    } else {
      assert Take(states[k], steps[k]) == Some(states[k + 1]);
      LogGrows(states[k], steps[k], states[k + 1]);
      LogOnlyGrows(states, steps, k + 1);
      var log := states[|steps|].log;
      assert log[..|states[k].log|] == log[..|states[k + 1].log|][..|states[k].log|];
    }
  }

  /** A handler waiting for its watcher never waits for ever: at most two steps,
      all of the watcher's own and all enabled whatever else happens, let it go on. */
  lemma JoinNeverBlocks(steps: seq<Step>, s: State, i: nat) returns (exit: seq<Step>, s': State)
    requires Leads(START, steps, s) && i < |s.handlers| && s.handlers[i].stage.Joining?
    ensures |exit| <= 2 && forall k :: 0 <= k < |exit| ==>
            exit[k] in {Work(i, WatchCancel), Work(i, WatchExit), Work(i, Join)}
    ensures exit != [] && exit[|exit| - 1] == Work(i, Join)
    ensures Leads(s, exit, s') && i < |s'.handlers| && !s'.handlers[i].stage.Joining?
  {
    hide Take;
    LeadsIsRun(START, steps, s);
    HandlersAlwaysConsistent(steps);
    assert HandlerOk(s.handlers[i]);
    exit := WatcherLeaves(s, i);
    s' := Run(s, exit).value;
    LeadsIsRun(s, exit, s');
  }

  lemma WatcherLeaves(s: State, i: nat) returns (exit: seq<Step>)
    requires i < |s.handlers| && WatcherOk(s.handlers[i]) && s.handlers[i].stage.Joining?
    ensures |exit| <= 2 && forall k :: 0 <= k < |exit| ==>
            exit[k] in {Work(i, WatchCancel), Work(i, WatchExit), Work(i, Join)}
    ensures exit != [] && exit[|exit| - 1] == Work(i, Join)
    ensures Run(s, exit).Some? && i < |Run(s, exit).value.handlers| && !Run(s, exit).value.handlers[i].stage.Joining?
  {
    if s.handlers[i].watcher.Exited? {
      exit := [Work(i, Join)];
      RunOne(s, Work(i, Join));
    } else {
      var first := if s.handlers[i].watcher.SawStop? then Work(i, WatchCancel) else Work(i, WatchExit);
      var m := DoWork(s, i, first.act).value;
      assert m.handlers[i].watcher.Exited? && m.handlers[i].stage.Joining?;
      exit := [first, Work(i, Join)];
      RunTwo(s, first, Work(i, Join));
    }
  }

  /** Once a handler has gone past the wait, its watcher takes no step again. */
  lemma NoWatcherAfterReturn(steps: seq<Step>, s: State, i: nat, act: Act)
    requires Leads(START, steps, s) && i < |s.handlers|
    requires !s.handlers[i].stage.Executing? && !s.handlers[i].stage.Joining?
    requires act.WatchRead? || act.WatchCancel? || act.WatchExit?
    ensures !CanAct(s.handlers[i], act, s.log) && Take(s, Work(i, act)) == None
  {
    LeadsIsRun(START, steps, s);
    HandlersAlwaysConsistent(steps);
    assert HandlerOk(s.handlers[i]);
  }

  lemma OverStep(s: State, step: Step, s': State, i: nat)
    requires HandlersInv(s) && Take(s, step) == Some(s')
    requires i < |s.handlers| && Over(s.handlers[i].stage)
    ensures i < |s'.handlers| && Over(s'.handlers[i].stage) && s'.handlers[i].effects == s.handlers[i].effects
  {
    assert HandlerOk(s.handlers[i]);
    if !step.Work? {
      OtherSteps(s, step, s');
    }
  }

  lemma {:induction false} OverStaysOver(s: State, steps: seq<Step>, i: nat)
    requires HandlersInv(s) && i < |s.handlers| && Over(s.handlers[i].stage)
    requires Run(s, steps).Some?
    ensures var s' := Run(s, steps).value;
            i < |s'.handlers| && Over(s'.handlers[i].stage) && s'.handlers[i].effects == s.handlers[i].effects
  {
    hide Take;
    if |steps| == 0 {
    } else {
      var n := |steps| - 1;
      RunLast(s, steps);
      OverStaysOver(s, steps[..n], i);
      RunKeepsHandlers(s, steps[..n]);
      OverStep(Run(s, steps[..n]).value, steps[n], Run(s, steps).value, i);
    }
  }

  /** A cancelled execution whose re-read finds the stop ends there: the step
      itself changes no counter, message or event, and the handler never adds
      anything to its running mark. */
  lemma StoppedExecutionIsSilent(steps: seq<Step>, s: State, i: nat, s1: State, later: seq<Step>, s2: State)
    requires Leads(START, steps, s) && Take(s, Work(i, ReadRecheck(Got(Stopped)))) == Some(s1) && Leads(s1, later, s2)
    ensures s1 == s.(handlers := s1.handlers) && i < |s1.handlers| && s1.handlers[i].stage == Returned(Ack)
    ensures i < |s2.handlers| && Over(s2.handlers[i].stage) && s2.handlers[i].effects == STARTED
  {
    LeadsIsRun(START, steps, s);
    LeadsIsRun(s1, later, s2);
    HandlersAlwaysConsistent(steps);
    RecheckEnds(s, i, s1);
    StepKeepsHandlers(s, Work(i, ReadRecheck(Got(Stopped))), s1);
    hide Take, HandlersInv;
    OverStaysOver(s1, later, i);
  }

  lemma RecheckEnds(s: State, i: nat, s1: State)
    requires HandlersInv(s) && Take(s, Work(i, ReadRecheck(Got(Stopped)))) == Some(s1)
    ensures s1 == s.(handlers := s1.handlers) && i < |s1.handlers| && s1.handlers[i].stage == Returned(Ack)
    ensures s1.handlers[i].effects == STARTED
  {
    assert HandlerOk(s.handlers[i]);
    assert s.log + [] == s.log;
  }
}
