/** How final a stop is. A status check and the append it guards are two steps,
    so a stop can be buried by a handler that is between them; these lemmas say
    that this is the only way, and that nothing else ever follows a stop. */
module StopSafety {
  import opened Basics
  import opened Lifecycle
  import opened Handlers
  import opened Demo

  /** The two windows: the guard read saw no stop, the append is still to come. */
  predicate InWindow(h: Handler) { h.stage.MarkingRunning? || h.stage.MarkingTerminal? }

  predicate StoppedNow(s: State, sid: string) { Newest(s.log, sid) == Some(Stopped) }

  predicate NoWindow(s: State, sid: string) {
    forall i :: 0 <= i < |s.handlers| && s.handlers[i].Sid() == sid ==> !InWindow(s.handlers[i])
  }

  /** From s on, every event added for the scenario is a stop. */
  predicate OnlyStops(s: State, s': State, sid: string) {
    |s.log| <= |s'.log| && s'.log[..|s.log|] == s.log &&
    forall j :: |s.log| <= j < |s'.log| && s'.log[j].sid == sid ==> s'.log[j].status.Stopped?
  }

  /** From s on, no handler of the scenario starts its generator. */
  predicate NoNewLaunch(s: State, s': State, sid: string) {
    |s.handlers| <= |s'.handlers| &&
    forall i :: 0 <= i < |s'.handlers| && s'.handlers[i].Sid() == sid && s'.handlers[i].effects.launch ==>
                  i < |s.handlers| && s.handlers[i].Sid() == sid && s.handlers[i].effects.launch
  }

  ghost predicate Quiet(s: State, sid: string) {
    HandlersInv(s) && StoppedNow(s, sid) && NoWindow(s, sid)
  }

  lemma QuietAct(s: State, sid: string, i: nat, act: Act)
    requires Quiet(s, sid) && i < |s.handlers| && CanAct(s.handlers[i], act, s.log)
    ensures var h := s.handlers[i]; var h' := After(h, act, |s.log|);
            h.Sid() == sid ==>
              Appended(h, act) == [] && !InWindow(h') && h'.effects.launch == h.effects.launch
  {
  }

  lemma QuietLog(s: State, step: Step, s': State, sid: string)
    requires Quiet(s, sid) && Take(s, step) == Some(s')
    ensures OnlyStops(s, s', sid) && StoppedNow(s', sid)
  {
    LogGrows(s, step, s');
    assert sid in s.used by {
      assert s.log[..|s.log|] == s.log;
      NewestIsUsed(s, sid, |s.log|);
    }
    if step.Work? {
      QuietAct(s, sid, step.i, step.act);
      if |Appended(s.handlers[step.i], step.act)| == 1 {
        NewestAppend(s.log, Appended(s.handlers[step.i], step.act)[0], sid);
        assert s'.log == s.log + [Appended(s.handlers[step.i], step.act)[0]];
      } else {
        assert s'.log == s.log;
      }
    } else if step.CreateStore? {
      NewestAppend(s.log, Event(step.id, Queued), sid);
    } else if step.StopAppend? {
      NewestAppend(s.log, Event(s.stops[step.k].sid, Stopped), sid);
    }
  }

  lemma QuietWork(s: State, i: nat, act: Act, s': State, sid: string)
    requires Quiet(s, sid) && DoWork(s, i, act) == Some(s')
    ensures NoWindow(s', sid) && NoNewLaunch(s, s', sid)
  {
    QuietAct(s, sid, i, act);
    ActKeepsType(s.handlers[i], act, s.log);
    hide HandlersInv, StoppedNow, CanAct, After, Appended, Counted, Publish, InWindow;
    assert s'.handlers == s.handlers[i := After(s.handlers[i], act, |s.log|)];
  }

  lemma QuietHandlers(s: State, step: Step, s': State, sid: string)
    requires Quiet(s, sid) && Take(s, step) == Some(s')
    ensures NoWindow(s', sid) && NoNewLaunch(s, s', sid)
  {
    if step.Work? {
      QuietWork(s, step.i, step.act, s', sid);
    } else {
      OtherSteps(s, step, s');
      hide Take, HandlersInv, StoppedNow;
    }
  }

  lemma OnlyStopsTransitive(a: State, b: State, c: State, sid: string)
    requires OnlyStops(a, b, sid) && OnlyStops(b, c, sid)
    ensures OnlyStops(a, c, sid)
  {
    assert c.log[..|a.log|] == c.log[..|b.log|][..|a.log|];
    forall j | |a.log| <= j < |c.log| && c.log[j].sid == sid
      ensures c.log[j].status.Stopped?
    {
      if j < |b.log| {
        assert c.log[..|b.log|][j] == b.log[j];
      }
    }
  }

  lemma QuietStep(s: State, step: Step, s': State, sid: string)
    requires Quiet(s, sid) && Take(s, step) == Some(s')
    ensures Quiet(s', sid) && OnlyStops(s, s', sid) && NoNewLaunch(s, s', sid)
  {
    StepKeepsHandlers(s, step, s');
    QuietLog(s, step, s', sid);
    QuietHandlers(s, step, s', sid);
  }

  lemma {:induction false} QuietRun(s: State, steps: seq<Step>, sid: string)
    requires Quiet(s, sid) && Run(s, steps).Some?
    ensures var s' := Run(s, steps).value;
            Quiet(s', sid) && OnlyStops(s, s', sid) && NoNewLaunch(s, s', sid)
  {
    hide Take, HandlersInv;
    if |steps| == 0 {
      assert s.log[..|s.log|] == s.log;
    } else {
      var n := |steps| - 1;
      RunLast(s, steps);
      var m, s' := Run(s, steps[..n]).value, Run(s, steps).value;
      QuietRun(s, steps[..n], sid);
      QuietStep(m, steps[n], s', sid);
      OnlyStopsTransitive(s, m, s', sid);
    }
  }

  ghost predicate FinalFrom(s: State, sid: string) {
    forall later: seq<Step>, s': State :: Leads(s, later, s') ==> OnlyStops(s, s', sid)
  }

  lemma WindowBuries(s: State, sid: string, i: nat)
    requires StoppedNow(s, sid)
    requires i < |s.handlers| && s.handlers[i].Sid() == sid && InWindow(s.handlers[i])
    ensures !FinalFrom(s, sid)
  {
    var act := if s.handlers[i].stage.MarkingRunning? then AppendRunning(Done) else AppendTerminal(Done);
    RunOne(s, Work(i, act));
    var s' := Run(s, [Work(i, act)]).value;
    assert s'.log[|s.log|].sid == sid && !s'.log[|s.log|].status.Stopped?;
    LeadsIsRun(s, [Work(i, act)], s');
    assert !OnlyStops(s, s', sid);
  }

  /** In a reachable state in which a scenario's newest event is a stop, that stop
      is final, whatever happens later, exactly when no handler of the scenario is
      between a not-stopped read and the append it guards. */
  lemma StopIsFinalExactlyOutsideWindows(steps: seq<Step>, s: State, sid: string)
    requires Leads(START, steps, s) && StoppedNow(s, sid)
    ensures NoWindow(s, sid) <==> FinalFrom(s, sid)
  {
    hide Take;
    LeadsIsRun(START, steps, s);
    HandlersAlwaysConsistent(steps);
    if NoWindow(s, sid) {
      forall later: seq<Step>, s': State | Leads(s, later, s')
        ensures OnlyStops(s, s', sid)
      {
        LeadsIsRun(s, later, s');
        QuietRun(s, later, sid);
      }
    } else {
      var i :| 0 <= i < |s.handlers| && s.handlers[i].Sid() == sid && InWindow(s.handlers[i]);
      WindowBuries(s, sid, i);
    }
  }

  /** After such a stop no delivery, old or new, starts the generator again. */
  lemma StoppedScenarioNeverStarts(steps: seq<Step>, s: State, later: seq<Step>, s': State, sid: string)
    requires Leads(START, steps, s) && StoppedNow(s, sid) && NoWindow(s, sid) && Leads(s, later, s')
    ensures NoNewLaunch(s, s', sid)
  {
    hide Take;
    LeadsIsRun(START, steps, s);
    LeadsIsRun(s, later, s');
    HandlersAlwaysConsistent(steps);
    QuietRun(s, later, sid);
  }

  // ----- How a stop gets buried -----

  predicate SawNotStopped(act: Act) {
    (act.ReadGuard? || act.ReadTerminal?) && act.reply.Got? && !act.reply.status.Stopped?
  }

  predicate GuardedBy(append: Act, read: Act) {
    (append.AppendRunning? && read.ReadGuard?) || (append.AppendTerminal? && read.ReadTerminal?)
  }

  predicate MarksStatus(act: Act) {
    (act.AppendRunning? || act.AppendTerminal?) && act.call.Applied()
  }

  lemma GuardActs(h: Handler, act: Act, log: seq<Event>)
    requires WatcherOk(h) && CanAct(h, act, log) && InWindow(After(h, act, |log|))
    ensures SawNotStopped(act) && After(h, act, |log|).guard == |log| && Guards(act, After(h, act, |log|).stage)
  {
  }

  predicate IsRead(step: Step, i: nat) { step.Work? && step.i == i && SawNotStopped(step.act) }

  /** The read that guards an append. */
  predicate Guards(read: Act, st: Stage) {
    (st.MarkingRunning? && read.ReadGuard?) || (st.MarkingTerminal? && read.ReadTerminal?)
  }

  lemma WindowStep(s: State, step: Step, s': State, i: nat)
    requires HandlersInv(s) && Take(s, step) == Some(s')
    requires i < |s'.handlers| && InWindow(s'.handlers[i])
    ensures i < |s.handlers|
    ensures if OfHandler(step, i)
            then IsRead(step, i) && Guards(step.act, s'.handlers[i].stage) && |s.log| == s'.handlers[i].guard
            else s'.handlers[i] == s.handlers[i].(current := s'.handlers[i].current)
  {
    if step.Work? {
      if step.i == i {
        assert HandlerOk(s.handlers[i]);
        GuardActs(s.handlers[i], step.act, s.log);
      }
    } else {
      OtherSteps(s, step, s');
    }
  }

  /** A handler in a window made its last step so far by the read that guards the
      append; its guard field is the length the log had at that read. */
  lemma {:induction false} WindowHasRead(steps: seq<Step>, i: nat) returns (r: nat)
    requires Run(START, steps).Some? && i < |Run(START, steps).value.handlers|
    requires InWindow(Run(START, steps).value.handlers[i])
    ensures r < |steps| && Run(START, steps[..r]).Some?
    ensures IsRead(steps[r], i) && Guards(steps[r].act, Run(START, steps).value.handlers[i].stage)
    ensures |Run(START, steps[..r]).value.log| == Run(START, steps).value.handlers[i].guard
    ensures forall k :: r < k < |steps| ==> !OfHandler(steps[k], i)
  {
    hide Take;
    if |steps| == 0 {
      assert false;
    } else {
      var n := |steps| - 1;
      RunLast(START, steps);
      HandlersAlwaysConsistent(steps[..n]);
      WindowStep(Run(START, steps[..n]).value, steps[n], Run(START, steps).value, i);
      if OfHandler(steps[n], i) {
        r := n;
      } else {
        r := WindowHasRead(steps[..n], i);
        assert steps[..n][..r] == steps[..r];
      }
    }
  }

  /** Every event of the final log was appended by one step of the run. */
  lemma {:induction false} EventHasStep(steps: seq<Step>, j: nat) returns (k: nat)
    requires Run(START, steps).Some? && j < |Run(START, steps).value.log|
    ensures k < |steps| && Run(START, steps[..k]).Some? && Run(START, steps[..k + 1]).Some?
    ensures |Run(START, steps[..k]).value.log| == j
    ensures var l := Run(START, steps[..k + 1]).value.log;
            |l| == j + 1 && l == Run(START, steps).value.log[..j + 1]
  {
    hide Take;
    if |steps| == 0 {
      assert false;
    } else {
      var n := |steps| - 1;
      RunLast(START, steps);
      var m, s := Run(START, steps[..n]).value, Run(START, steps).value;
      LogGrows(m, steps[n], s);
      if j < |m.log| {
        k := EventHasStep(steps[..n], j);
        assert steps[..n][..k] == steps[..k] && steps[..n][..k + 1] == steps[..k + 1];
        assert s.log[..|m.log|][..j + 1] == s.log[..j + 1];
      } else {
        k := n;
        assert steps[..n + 1] == steps && s.log[..j + 1] == s.log;
      }
    }
  }

  /** log[j] directly follows log[i] among the events of their scenario. */
  predicate Follows(log: seq<Event>, i: nat, j: nat) {
    i < j < |log| && log[i].sid == log[j].sid &&
    forall m :: i < m < j ==> log[m].sid != log[j].sid
  }

  lemma PrefixNewest(log: seq<Event>, i: nat, j: nat)
    requires Follows(log, i, j)
    ensures Newest(log[..j], log[j].sid) == Some(log[i].status)
    ensures forall n :: i < n <= j ==> Newest(log[..n], log[j].sid) == Some(log[i].status)
  {
    forall n | i < n <= j
      ensures Newest(log[..n], log[j].sid) == Some(log[i].status)
    {
      NewestOfLast(log[..n], log[j].sid, i);
    }
  }

  lemma WhoMarks(s: State, step: Step, s': State, sid: string)
    requires HandlersInv(s) && Take(s, step) == Some(s') && |s'.log| == |s.log| + 1
    requires s'.log[|s.log|].sid == sid && !s'.log[|s.log|].status.Stopped?
    requires Newest(s.log, sid).Some?
    ensures step.Work? && MarksStatus(step.act) && step.i < |s.handlers|
    ensures InWindow(s.handlers[step.i]) && s.handlers[step.i].Sid() == sid
    ensures s.handlers[step.i].stage.MarkingRunning? <==> step.act.AppendRunning?
  {
    assert s.log[..|s.log|] == s.log;
    NewestIsUsed(s, sid, |s.log|);
  }

  /** The step that appends the follower of a stop is a handler's, in a window
      whose read is no younger than the stop. */
  lemma FollowerWindow(s: State, step: Step, s': State, i: nat)
    requires HandlersInv(s) && Take(s, step) == Some(s') && |s'.log| == |s.log| + 1
    requires Follows(s'.log, i, |s.log|) && s'.log[i].status.Stopped? && !s'.log[|s.log|].status.Stopped?
    ensures step.Work? && MarksStatus(step.act) && step.i < |s.handlers|
    ensures InWindow(s.handlers[step.i]) && s.handlers[step.i].guard <= i
    ensures s.handlers[step.i].stage.MarkingRunning? <==> step.act.AppendRunning?
  {
    LogGrows(s, step, s');
    var sid := s'.log[|s.log|].sid;
    PrefixNewest(s'.log, i, |s.log|);
    WhoMarks(s, step, s', sid);
    var h := s.handlers[step.i];
    assert LogFacts(h, s.log);
    assert s.log[..h.guard] == s'.log[..h.guard];
  }

  lemma BuriedByOlderRead(steps: seq<Step>, i: nat, j: nat) returns (read: nat, stop: nat, append: nat)
    requires Run(START, steps).Some?
    requires var log := Run(START, steps).value.log;
             Follows(log, i, j) && log[i].status.Stopped? && !log[j].status.Stopped?
    ensures read < stop < append < |steps|
    ensures steps[append].Work? && MarksStatus(steps[append].act) && IsRead(steps[read], steps[append].i)
    ensures GuardedBy(steps[append].act, steps[read].act)
    ensures forall k :: read < k < append ==> !OfHandler(steps[k], steps[append].i)
    ensures AppendsAt(steps, stop, i) && AppendsAt(steps, append, j)
  {
    hide Take;
    var log := Run(START, steps).value.log;
    append := EventHasStep(steps, j);
    stop := EventHasStep(steps, i);
    RunPrefix(START, steps, append);
    var s, s' := Run(START, steps[..append]).value, Run(START, steps[..append + 1]).value;
    HandlersAlwaysConsistent(steps[..append]);
    FollowsPrefix(log, s'.log, i, j);
    FollowerWindow(s, steps[append], s', i);
    read := WindowHasRead(steps[..append], steps[append].i);
    assert steps[..append][..read] == steps[..read];
    ReadBeforeStop(steps, read, stop, i);
    OrderOfAppends(steps, stop, append, i, j);
  }

  /** Whenever a stop is directly followed in its scenario's log by running,
      completed or failed, the handler that appended the later event made the read
      that guards this very append before the stop was appended, and no other step
      of its own since: read, stop, append. */
  lemma StopIsBuriedOnlyByOlderRead(states: seq<State>, steps: seq<Step>, i: nat, j: nat)
    returns (read: nat, stop: nat, append: nat)
    requires IsTrace(states, steps) && states[0] == START
    requires var log := states[|steps|].log; Follows(log, i, j) && log[i].status.Stopped? && !log[j].status.Stopped?
    ensures read < stop < append < |steps|
    ensures steps[append].Work? && MarksStatus(steps[append].act) && IsRead(steps[read], steps[append].i)
    ensures GuardedBy(steps[append].act, steps[read].act)
    ensures forall k :: read < k < append ==> !OfHandler(steps[k], steps[append].i)
    ensures |states[stop].log| == i && |states[stop + 1].log| == i + 1
    ensures |states[append].log| == j && |states[append + 1].log| == j + 1
  {
    hide Take;
    TraceIsRun(states, steps, |steps|);
    assert steps[..|steps|] == steps;
    read, stop, append := BuriedByOlderRead(steps, i, j);
    TraceIsRun(states, steps, stop);
    TraceIsRun(states, steps, stop + 1);
    TraceIsRun(states, steps, append);
    TraceIsRun(states, steps, append + 1);
  }

  /** Step k of the run appends the event at position j. */
  predicate AppendsAt(steps: seq<Step>, k: nat, j: nat) {
    k < |steps| && Run(START, steps[..k]).Some? && Run(START, steps[..k + 1]).Some? &&
    |Run(START, steps[..k]).value.log| == j && |Run(START, steps[..k + 1]).value.log| == j + 1
  }

  lemma FollowsPrefix(log: seq<Event>, prefix: seq<Event>, i: nat, j: nat)
    requires Follows(log, i, j) && prefix == log[..j + 1]
    ensures Follows(prefix, i, j) && prefix[i] == log[i] && prefix[j] == log[j]
  {
    hide Take;
  }

  lemma OrderOfAppends(steps: seq<Step>, a: nat, b: nat, i: nat, j: nat)
    requires Run(START, steps).Some? && AppendsAt(steps, a, i) && AppendsAt(steps, b, j) && i < j
    ensures a < b
  {
    hide Take;
    if b <= a {
      LogMonotone(steps, b, a);
    }
  }

  lemma ReadKeepsLog(s: State, step: Step, s': State)
    requires Take(s, step) == Some(s') && step.Work? && (step.act.ReadGuard? || step.act.ReadTerminal?)
    ensures s'.log == s.log
  {
  }

  lemma ReadBeforeStop(steps: seq<Step>, read: nat, stop: nat, i: nat)
    requires Run(START, steps).Some? && AppendsAt(steps, stop, i)
    requires read < |steps| && Run(START, steps[..read]).Some? && |Run(START, steps[..read]).value.log| <= i
    requires steps[read].Work? && (steps[read].act.ReadGuard? || steps[read].act.ReadTerminal?)
    ensures read < stop
  {
    hide Take;
    if stop < read {
      LogMonotone(steps, stop + 1, read);
    } else if stop == read {
      RunPrefix(START, steps, read);
      ReadKeepsLog(Run(START, steps[..read]).value, steps[read], Run(START, steps[..read + 1]).value);
    }
  }

  lemma {:induction false} LogMonotone(steps: seq<Step>, a: nat, b: nat)
    requires Run(START, steps).Some? && a <= b <= |steps|
    ensures Run(START, steps[..a]).Some? && Run(START, steps[..b]).Some?
    ensures |Run(START, steps[..a]).value.log| <= |Run(START, steps[..b]).value.log|
    decreases b
  {
    hide Take;
    RunPrefix(START, steps, b);
    if a == b {
    } else {
      RunPrefix(START, steps, b - 1);
      LogGrows(Run(START, steps[..b - 1]).value, steps[b - 1], Run(START, steps[..b]).value);
      LogMonotone(steps, a, b - 1);
    }
  }

  // ----- A stop is not simply final -----

  const BURIED: seq<Step> := [StopRead("a"), StopAppend(0, Done), Work(0, AppendRunning(Done))]

  lemma Burying(s: State)
    requires AboutToMark(s)
    ensures Run(s, BURIED).Some?
    ensures Run(s, BURIED).value.log == [Event("a", Queued), Event("a", Stopped), Event("a", Running)]
  {
    RunThree(s, BURIED[0], BURIED[1], BURIED[2]);
    RunTwo(s, BURIED[0], BURIED[1]);
  }

  /** A concrete run in which a stop does not last: it lands between the guard
      read and the running event, and the scenario ends up running. */
  lemma StopCanBeBuried()
    ensures Run(START, CREATED + READ + BURIED).Some?
    ensures Run(START, CREATED + READ + BURIED).value.log ==
            [Event("a", Queued), Event("a", Stopped), Event("a", Running)]
  {
    hide Take;
    Creating();
    Reading(Run(START, CREATED).value);
    RunConcat(START, CREATED, READ);
    Burying(Run(START, CREATED + READ).value);
    RunConcat(START, CREATED + READ, BURIED);
  }
}
