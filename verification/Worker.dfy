/** handleMessage and the functions it calls, as the imperative code they are
    (cmd/worker/main.go, cmd/worker/reporting.go), run beside everything else in the
    system. The calls it makes are steps of the system's run, and which calls those
    are is spelled out for every way its calls can go. */
module Worker {
  import opened Basics
  import opened Workload
  import opened Lifecycle
  import opened Handlers
  import opened BrokerSafety
  import opened Runtime

  // ----- How the calls of one delivery go -----

  datatype ReadTurn = ReadTurn(before: seq<Step>, fails: bool)

  datatype CallTurn = CallTurn(before: seq<Step>, call: Call)

  datatype SendTurn = SendTurn(before: seq<Step>, send: Send)

  /** The outcome of every call handleMessage may make, with what the others do before
      it. `ticks` are the watcher's reads before the generator returns with `finish`, and
      `late` those after, until it notices; `rest` is what the others do before the
      return. With `raced`, the return comes between the watcher's read of a stop and
      its cancellation. */
  datatype Plan = Plan(
    guard: ReadTurn, running: CallTurn,
    ticks: seq<ReadTurn>, raced: bool, rest: seq<Step>, finish: Finish, late: seq<ReadTurn>, recheck: ReadTurn,
    snapshot: CallTurn, total: CallTurn, byType: CallTurn, errors: CallTurn, notice: SendTurn,
    terminal: ReadTurn, mark: CallTurn)

  /** What its reads of the latest status returned. */
  datatype Replies = Replies(guard: Reply, ticks: seq<Reply>, late: seq<Reply>, recheck: Reply, terminal: Reply)

  predicate Passes(r: Reply) { r.Got? && !r.status.Stopped? }

  /** The last read found a stop. */
  predicate StopSeen(ticks: seq<Reply>) { |ticks| > 0 && ticks[|ticks| - 1] == Got(Stopped) }

  /** The watcher reads at every tick until it reads a stop. */
  predicate Ticked(turns: seq<ReadTurn>, ticks: seq<Reply>) {
    && |ticks| <= |turns|
    && (forall k :: 0 <= k < |ticks| ==> (ticks[k].ReadFailed? <==> turns[k].fails))
    && (forall k :: 0 <= k < |ticks| - 1 ==> ticks[k] != Got(Stopped))
    && (!StopSeen(ticks) ==> |ticks| == |turns|)
  }

  /** The watcher's reads, before and after the generator's return. */
  predicate Watched(p: Plan, r: Replies) {
    Ticked(p.ticks, r.ticks) && (if StopSeen(r.ticks) then r.late == [] else Ticked(p.late, r.late))
  }

  predicate Answers(p: Plan, r: Replies) {
    && (r.guard.ReadFailed? <==> p.guard.fails)
    && (r.recheck.ReadFailed? <==> p.recheck.fails)
    && (r.terminal.ReadFailed? <==> p.terminal.fails)
  }

  /** A generator returns the context's error only if the context was cancelled. */
  function Outcome(finish: Finish, cancelled: bool): Finish {
    if finish.GenCanceled? && !cancelled then GenError else finish
  }

  /** How the generator returns: its context was cancelled if the watcher had the time. */
  function Returns(p: Plan, ticks: seq<Reply>): Finish { Outcome(p.finish, StopSeen(ticks) && !p.raced) }

  // ----- Which calls are made -----

  function Watching(ticks: seq<Reply>): seq<Act> {
    if |ticks| == 0 then [] else Watching(ticks[..|ticks| - 1]) + [WatchRead(ticks[|ticks| - 1])]
  }

  function Execution(p: Plan, r: Replies): seq<Act> {
    var f := Returns(p, r.ticks);
    Watching(r.ticks) +
    (if !StopSeen(r.ticks) then
       [Finished(f)] + Watching(r.late) + [if StopSeen(r.late) then WatchCancel else WatchExit, Join]
     else if p.raced then [Finished(f), WatchCancel, Join]
     else [WatchCancel, Finished(f), Join])
  }

  /** reportResult: in order, up to the first call that fails. */
  function Report(p: Plan, err: bool): seq<Act> {
    [InsertSnapshot(p.snapshot.call)] + (if p.snapshot.call.Done? then Counting(p, err) else [])
  }

  function Counting(p: Plan, err: bool): seq<Act> {
    if !p.total.call.Done? then [IncrTotal(p.total.call)]
    else if !p.byType.call.Done? then [IncrTotal(Done), IncrType(p.byType.call)]
    else if !err then [IncrTotal(Done), IncrType(Done), PublishResult(p.notice.send)]
    else if !p.errors.call.Done? then [IncrTotal(Done), IncrType(Done), IncrErrors(p.errors.call)]
    else [IncrTotal(Done), IncrType(Done), IncrErrors(Done), PublishResult(p.notice.send)]
  }

  predicate Reported(p: Plan, err: bool) {
    p.snapshot.call.Done? && p.total.call.Done? && p.byType.call.Done? && (err ==> p.errors.call.Done?) &&
    p.notice.send.ReportedOk()
  }

  function Conclusion(p: Plan, terminal: Reply, err: bool): seq<Act> {
    if !Reported(p, err) then Report(p, err)
    else if !Passes(terminal) then Report(p, err) + [ReadTerminal(terminal)]
    else Report(p, err) + [ReadTerminal(terminal), AppendTerminal(p.mark.call)]
  }

  function Aftermath(p: Plan, f: Finish, recheck: Reply, terminal: Reply): seq<Act> {
    if !f.GenCanceled? then Conclusion(p, terminal, f.GenError?)
    else if Passes(recheck) then [ReadRecheck(recheck)] + Conclusion(p, terminal, true)
    else [ReadRecheck(recheck)]
  }

  function AfterExecution(p: Plan, r: Replies): seq<Act> {
    Aftermath(p, Returns(p, r.ticks), r.recheck, r.terminal)
  }

  function Opening(guard: Reply): seq<Act> { [Decode, ReadGuard(guard), AppendRunning(Done)] }

  /** The calls of handleMessage. */
  function Script(body: Body, p: Plan, r: Replies): seq<Act> {
    if !body.Scenario? || !Runnable(body.profile.workloadType) then [Decode]
    else if !Passes(r.guard) then [Decode, ReadGuard(r.guard)]
    else if !p.running.call.Done? then [Decode, ReadGuard(r.guard), AppendRunning(p.running.call)]
    else Opening(r.guard) + Execution(p, r) + AfterExecution(p, r)
  }

  /** No call fails and no read finds a stop, or no row. */
  predicate Smooth(p: Plan, r: Replies) {
    Passes(r.guard) && p.running.call.Done? && EndsSmoothly(p, r)
  }

  predicate Smoothly(p: Plan, f: Finish, recheck: Reply, terminal: Reply) {
    (f.GenCanceled? ==> Passes(recheck)) && Reported(p, !f.GenOk?) && Passes(terminal) && p.mark.call.Done?
  }

  predicate EndsSmoothly(p: Plan, r: Replies) { Smoothly(p, Returns(p, r.ticks), r.recheck, r.terminal) }

  /** The guard and the terminal read find a status other than stopped, and the calls
      that every execution makes all report success. */
  predicate AllWell(p: Plan, r: Replies) {
    && r.guard.Got? && r.guard.status != Stopped && r.terminal.Got? && r.terminal.status != Stopped
    && p.running.call == Done && p.snapshot.call == Done && p.total.call == Done && p.byType.call == Done
    && (p.notice.send == Sent || p.notice.send == SendLost) && p.mark.call == Done
  }

  lemma WellIsSmooth(p: Plan, r: Replies)
    requires AllWell(p, r) && (p.finish.GenOk? || (p.finish.GenError? && p.errors.call == Done))
    ensures Smooth(p, r) && Returns(p, r.ticks) == p.finish
  {
  }

  /** The script written out: how it ends early. */
  lemma ScriptEndsEarly(body: Body, p: Plan, r: Replies)
    ensures !body.Scenario? || !Runnable(body.profile.workloadType) ==> Script(body, p, r) == [Decode]
    ensures body.Scenario? && Runnable(body.profile.workloadType) && (!r.guard.Got? || r.guard.status == Stopped) ==>
              Script(body, p, r) == [Decode, ReadGuard(r.guard)]
    ensures body.Scenario? && Runnable(body.profile.workloadType) && r.guard.Got? && r.guard.status != Stopped &&
            p.running.call != Done ==>
              Script(body, p, r) == [Decode, ReadGuard(r.guard), AppendRunning(p.running.call)]
  {
  }

  /** The script written out: a whole execution whose watcher did not tick. */
  lemma ScriptOfExecution(body: Body, p: Plan, r: Replies)
    requires body.Scenario? && Runnable(body.profile.workloadType) && AllWell(p, r) && r.ticks == [] && r.late == []
    ensures p.finish.GenOk? ==>
              Script(body, p, r) ==
              [Decode, ReadGuard(r.guard), AppendRunning(Done), Finished(GenOk), WatchExit, Join, InsertSnapshot(Done),
               IncrTotal(Done), IncrType(Done), PublishResult(p.notice.send), ReadTerminal(r.terminal),
               AppendTerminal(Done)]
    ensures p.finish.GenError? && p.errors.call == Done ==>
              Script(body, p, r) ==
              [Decode, ReadGuard(r.guard), AppendRunning(Done), Finished(GenError), WatchExit, Join,
               InsertSnapshot(Done), IncrTotal(Done), IncrType(Done), IncrErrors(Done), PublishResult(p.notice.send),
               ReadTerminal(r.terminal), AppendTerminal(Done)]
  {
    var f, err := p.finish, p.finish.GenError?;
    assert Returns(p, []) == f || f.GenCanceled?;
    assert !f.GenCanceled? ==> Execution(p, r) == [Finished(f), WatchExit, Join];
    if f.GenOk? || (err && p.errors.call == Done) {
      assert Report(p, err) == [InsertSnapshot(Done)] + Counting(p, err);
      assert Reported(p, err);
      assert AfterExecution(p, r) == Report(p, err) + [ReadTerminal(r.terminal), AppendTerminal(Done)];
    }
    hide Runnable, Execution, AfterExecution, Report;
  }

  /** The script written out: an execution that a stop cancels, up to the re-read. */
  lemma ScriptOfStop(body: Body, p: Plan, r: Replies)
    requires body.Scenario? && Runnable(body.profile.workloadType) && r.guard.Got? && r.guard.status != Stopped
    requires p.running.call == Done && p.finish.GenCanceled? && !p.raced
    requires r.ticks == [Got(Stopped)] && r.recheck == Got(Stopped)
    ensures Script(body, p, r) ==
            [Decode, ReadGuard(r.guard), AppendRunning(Done), WatchRead(Got(Stopped)), WatchCancel,
             Finished(GenCanceled), Join, ReadRecheck(Got(Stopped))]
  {
    assert r.ticks[..0] == [] && Watching(r.ticks) == [] + [WatchRead(Got(Stopped))];
    hide Runnable;
  }

  /** The last call found a stop, or appended the terminal event. */
  predicate EndsWell(acts: seq<Act>) {
    |acts| > 0 &&
    match acts[|acts| - 1]
    case ReadGuard(r) => r == Got(Stopped)
    case ReadRecheck(r) => r == Got(Stopped)
    case ReadTerminal(r) => r == Got(Stopped)
    case AppendTerminal(c) => c.Done?
    case _ => false
  }

  // ----- The worker -----

  /** What a call did to the store, the counters and the broker. */
  predicate Performed(s: State, i: nat, act: Act, now: State) {
    i < |s.handlers| &&
    var h := s.handlers[i];
    now == s.(
      log := s.log + Appended(h, act),
      tally := Counted(s.tally, h, act),
      broker := if act.PublishResult? && act.send.Applied()
                then Publish(s.broker, Message("results." + h.Sid(), ResultNotice(h.Sid()), false))
                else s.broker)
  }

  /** The first n ticks, none of which found a stop. */
  predicate Quiet(turns: seq<ReadTurn>, ticks: seq<Reply>, n: nat) {
    && n == |ticks| <= |turns|
    && forall k :: 0 <= k < n ==> (ticks[k].ReadFailed? <==> turns[k].fails) && ticks[k] != Got(Stopped)
  }

  lemma NoTicks(turns: seq<ReadTurn>, acts: seq<Act>)
    ensures Quiet(turns, [], 0) && acts == acts + Watching([])
  {
  }

  lemma OneTick(turns: seq<ReadTurn>, ticks: seq<Reply>, n: nat, reply: Reply, before: seq<Act>)
    requires Quiet(turns, ticks, n) && n < |turns| && (reply.ReadFailed? <==> turns[n].fails)
    ensures before + Watching(ticks) + [WatchRead(reply)] == before + Watching(ticks + [reply])
    ensures if reply == Got(Stopped) then Ticked(turns, ticks + [reply]) && StopSeen(ticks + [reply])
            else Quiet(turns, ticks + [reply], n + 1)
  {
    assert (ticks + [reply])[..n] == ticks;
  }

  lemma AllTicks(turns: seq<ReadTurn>, ticks: seq<Reply>)
    requires Quiet(turns, ticks, |turns|)
    ensures Ticked(turns, ticks) && !StopSeen(ticks)
  {
  }

  predicate Local(act: Act) {
    act.Decode? || act.ReadGuard? || act.WatchRead? || act.WatchCancel? || act.WatchExit? || act.Finished? ||
    act.Join? || act.ReadRecheck? || act.ReadTerminal?
  }

  class Worker {
    const system: System
    const index: nat
    const consumer: nat
    const body: Body

    ghost const first: State
    ghost var base: seq<Step>
    ghost var since: seq<Step>
    ghost var acts: seq<Act>

    /** The handler of a delivery that its consumer has just taken. */
    constructor (system: System, index: nat, consumer: nat)
      requires system.Valid() && InHand(system.state, index, consumer)
      ensures this.system == system && this.index == index && this.consumer == consumer
      ensures base == system.history && since == [] && acts == [] && Journal()
    {
      this.system, this.index, this.consumer := system, index, consumer;
      this.body := system.state.handlers[index].body;
      this.first := system.state;
      base, since, acts := system.history, [], [];
    }

    ghost function H(): Handler
      requires index < |system.state.handlers|
      reads system
    {
      system.state.handlers[index]
    }

    /** The scenario's id; none of the calls that use it are made without one. */
    function Sid(): string { if body.Scenario? then body.sid else "" }

    function Kind(): string { if body.Scenario? then body.profile.workloadType else "" }

    /** What has happened since the delivery was taken: `acts` by this handler, none by
        its consumer, anything by others. */
    ghost predicate Kept(s: State)
      reads this, system
    {
      && Run(START, base) == Some(first) && Run(START, system.history) == Some(s) && system.history == base + since
      && OwnActs(since, index) == acts && OwnSteps(since, consumer) == []
      && InHand(s, index, consumer) && s.handlers[index].body == body
    }

    ghost predicate Journal()
      reads this, system
    {
      Kept(system.state)
    }

    twostate predicate Continues()
      reads this
    {
      base == old(base) && old(since) <= since
    }

    /** The others take steps; this handler stays as it is, though its delivery may be
        lost to it. */
    method Others(steps: seq<Step>)
      requires Journal()
      modifies system, this`since
      ensures Journal() && Continues() && SameHandler(old(system.state), system.state, index)
    {
      hide Run, BrokerInv, OwnActs, OwnSteps, OfHandler, OfConsumer;
      ghost var was := system.state;
      BrokerAlwaysConsistent(system.history);
      ghost var taken := system.Interfere(steps, step => OfHandler(step, index) || OfConsumer(consumer, step));
      HandlerKept(was, taken, index, consumer);
      Woven(base, since, taken, index, consumer);
      since := since + taken;
    }

    /** The handler goes on after a call, and the step is put on record. */
    method Proceed(act: Act, n: nat, ghost was: State)
      requires n == |was.log| && Kept(was) && CanAct(was.handlers[index], act, was.log) &&
               Performed(was, index, act, system.state)
      modifies system, this`since, this`acts
      ensures Journal() && Continues() && acts == old(acts) + [act]
      ensures H() == After(was.handlers[index], act, |was.log|) && system.state.log == old(system.state.log)
      ensures system.history == old(system.history) + [Work(index, act)]
      ensures system.state.tally == old(system.state.tally)
    {
      var h := system.state.handlers[index];
      ghost var now := system.state;
      system.state := system.state.(
        handlers := system.state.handlers[index := After(h, act, n)],
        faults := if Faulty(act) then system.state.faults + [h.tag] else system.state.faults);
      GoesOn(was, index, consumer, act, now, system.state);
      hide Take, Performed, InHand, CanAct, After, Faulty, Run, OwnActs, OwnSteps;
      Record(act, was);
    }

    /** The step is put on record. */
    ghost method Record(act: Act, was: State)
      requires Kept(was) && Take(was, Work(index, act)) == Some(system.state)
      requires InHand(system.state, index, consumer) && H().body == body
      modifies system`history, this`since, this`acts
      ensures Journal() && Continues() && acts == old(acts) + [act]
      ensures system.history == old(system.history) + [Work(index, act)]
    {
      hide Take, InHand, Run, OwnActs, OwnSteps;
      system.Note(Work(index, act), was);
      WovenStep(base, since, act, index, consumer);
      since, acts := since + [Work(index, act)], acts + [act];
    }

    /** A step that touches nothing shared. */
    method ProceedLocally(act: Act)
      requires Journal() && CanAct(H(), act, system.state.log) && Local(act)
      modifies system, this`since, this`acts
      ensures Journal() && Continues() && acts == old(acts) + [act]
      ensures H() == After(old(H()), act, |old(system.state.log)|) && system.state.log == old(system.state.log)
    {
      hide After, CanAct, Appended, Counted, Run, OwnActs, OwnSteps;
      assert system.state.log + [] == system.state.log;
      LocalChangesNothing(H(), act, system.state.tally);
      ghost var was := system.state;
      Proceed(act, |system.state.log|, was);
    }

    /** latestScenarioStatus: the newest status of the log at that time, no row, or a
        failure. */
    method LatestScenarioStatus(t: ReadTurn) returns (reply: Reply)
      requires Journal()
      modifies system, this`since
      ensures Journal() && Continues() && SameHandler(old(system.state), system.state, index)
      ensures Reports(system.state.log, H().Sid(), reply) && (reply.ReadFailed? <==> t.fails)
      ensures body.Scenario? ==>
                (reply.NoRow? ==> Newest(system.state.log, body.sid) == None) &&
                (reply.Got? ==> Newest(system.state.log, body.sid) == Some(reply.status))
    {
      hide Run, OwnActs, OwnSteps;
      Others(t.before);
      reply := system.SelectStatus(Sid(), t.fails);
    }

    /** latestScenarioStatus at one of the three guards, and the branch on it. */
    method Guard(act: Act, t: ReadTurn) returns (reply: Reply)
      requires Journal()
      requires (act == ReadGuard(ReadFailed) && H().stage.Guarding?) ||
               (act == ReadRecheck(ReadFailed) && H().stage.Rechecking?) ||
               (act == ReadTerminal(ReadFailed) && H().stage.GuardingTerminal?)
      modifies system, this`since, this`acts
      ensures Journal() && Continues() && acts == old(acts) + [act.(reply := reply)] && (reply.ReadFailed? <==> t.fails)
      ensures H().stage == Guarded(reply, if act.ReadGuard? then MarkingRunning
                                          else if act.ReadRecheck? then Snapshotting(true)
                                          else MarkingTerminal(old(H()).stage.Err()))
      ensures H().watcher == old(H()).watcher && H().cancelled == old(H()).cancelled
    {
      hide Journal;
      reply := LatestScenarioStatus(t);
      ProceedLocally(act.(reply := reply));
    }

    /** appendScenarioStatus with "running". */
    method MarkRunning(t: CallTurn) returns (ok: bool)
      requires Journal() && H().stage.MarkingRunning? && !H().cancelled
      modifies system, this`since, this`acts
      ensures Journal() && Continues() && acts == old(acts) + [AppendRunning(t.call)] && ok == t.call.Done?
      ensures if ok then H().stage.Executing? && H().watcher.Waiting? && !H().cancelled
              else H().stage == Returned(Requeue)
      ensures ok ==> NewEvent(first, system.state, Event(Sid(), Running))
    {
      hide Run, OwnActs, OwnSteps;
      Others(t.before);
      ghost var was := system.state;
      var n := |system.state.log|;
      system.InsertEvent(Event(Sid(), Running), t.call);
      assert was.log + [] == was.log;
      HistoryOnlyAppends(base, first, since, was);
      Proceed(AppendRunning(t.call), n, was);
      if t.call.Done? { assert system.state.log[|was.log|].sid == Sid(); }
      ok := t.call.Done?;
    }

    /** appendScenarioStatus with "completed" or "failed". */
    method MarkTerminal(err: bool, t: CallTurn) returns (ok: bool)
      requires Journal() && H().stage == MarkingTerminal(err)
      modifies system, this`since, this`acts
      ensures Journal() && Continues() && acts == old(acts) + [AppendTerminal(t.call)] && ok == t.call.Done?
      ensures H().stage == Returned(if ok then Ack else Requeue)
      ensures ok ==> NewEvent(first, system.state, Event(Sid(), if err then Failed else Completed))
    {
      hide Journal;
      Others(t.before);
      ok := EndScenario(err, t.call);
    }

    /** The append itself. */
    method EndScenario(err: bool, call: Call) returns (ok: bool)
      requires Journal() && H().stage == MarkingTerminal(err)
      modifies system, this`since, this`acts
      ensures Journal() && Continues() && acts == old(acts) + [AppendTerminal(call)] && ok == call.Done?
      ensures H().stage == Returned(if ok then Ack else Requeue)
      ensures ok ==> NewEvent(first, system.state, Event(Sid(), if err then Failed else Completed))
    {
      hide Run, OwnActs, OwnSteps;
      ghost var was := system.state;
      var n := |system.state.log|;
      system.InsertEvent(Event(Sid(), if err then Failed else Completed), call);
      assert was.log + [] == was.log;
      HistoryOnlyAppends(base, first, since, was);
      Proceed(AppendTerminal(call), n, was);
      if call.Done? { assert system.state.log[|was.log|].sid == Sid(); }
      ok := call.Done?;
    }

    /** One tick of the stop watcher. A failed read changes nothing. */
    method Tick(t: ReadTurn) returns (reply: Reply)
      requires Journal() && H().watcher.Waiting?
      modifies system, this`since, this`acts
      ensures Journal() && index < |system.state.handlers| && Continues() && (reply.ReadFailed? <==> t.fails)
      ensures acts == old(acts) + [WatchRead(reply)]
      ensures H().stage == old(H()).stage && H().cancelled == old(H()).cancelled
      ensures H().watcher == if reply == Got(Stopped) then SawStop else Waiting
    {
      hide Journal;
      reply := LatestScenarioStatus(t);
      ProceedLocally(WatchRead(reply));
      JournalRuns();
    }

    /** The stop watcher's loop: it reads at every tick, until it reads a stop. */
    method WatchScenarioStop(turns: seq<ReadTurn>) returns (stopped: bool, ghost ticks: seq<Reply>)
      requires Journal() && H().watcher.Waiting?
      modifies system, this`since, this`acts
      ensures Journal() && Continues() && Ticked(turns, ticks) && stopped == StopSeen(ticks)
      ensures acts == old(acts) + Watching(ticks)
      ensures H().stage == old(H()).stage && H().cancelled == old(H()).cancelled
      ensures H().watcher == if stopped then SawStop else Waiting
    {
      hide Journal, Watching, Ticked, StopSeen;
      stopped, ticks := false, [];
      NoTicks(turns, acts);
      JournalRuns();
      for n := 0 to |turns|
        invariant Journal() && index < |system.state.handlers| && Continues()
        invariant H().stage == old(H()).stage && H().watcher.Waiting? && H().cancelled == old(H()).cancelled
        invariant acts == old(acts) + Watching(ticks) && Quiet(turns, ticks, n) && !stopped
      {
        var reply := Tick(turns[n]);
        OneTick(turns, ticks, n, reply, old(acts));
        ticks := ticks + [reply];
        if reply == Got(Stopped) { return true, ticks; }
      }
      AllTicks(turns, ticks);
    }

    /** The watcher's cancel, after which it exits. */
    method CancelWork()
      requires Journal() && H().watcher.SawStop?
      modifies system, this`since, this`acts
      ensures Journal() && Continues() && acts == old(acts) + [WatchCancel]
      ensures H().stage == old(H()).stage && H().cancelled && H().watcher.Exited?
    {
      hide Journal;
      ProceedLocally(WatchCancel);
    }

    /** The generator returns, and its context is cancelled. */
    method Return(finish: Finish, rest: seq<Step>)
      requires Journal() && H().stage.Executing? && (finish.GenCanceled? ==> H().cancelled)
      modifies system, this`since, this`acts
      ensures Journal() && Continues() && acts == old(acts) + [Finished(finish)]
      ensures H().stage == Joining(finish) && H().cancelled && H().watcher == old(H()).watcher
    {
      hide Journal;
      Others(rest);
      ProceedLocally(Finished(finish));
    }

    /** The wait for the watcher, which has seen a stop or sees its context cancelled. */
    method Wait(finish: Finish)
      requires Journal() && H().stage == Joining(finish) && H().cancelled && !H().watcher.NotStarted?
      modifies system, this`since, this`acts
      ensures Journal() && Continues() && H().stage == Joining(finish).Joined()
      ensures acts == old(acts) + (match old(H()).watcher
                                   case SawStop => [WatchCancel, Join]
                                   case Waiting => [WatchExit, Join]
                                   case _ => [Join])
    {
      hide Journal, After;
      StagesOfJoin();
      JournalRuns();
      var watcher := system.state.handlers[index].watcher;
      if watcher.SawStop? {
        ProceedLocally(WatchCancel);
      } else if watcher.Waiting? {
        ProceedLocally(WatchExit);
      }
      ProceedLocally(Join);
    }

    /** The generator and its watcher, from the running mark to the wait for the watcher.
        The watcher goes on ticking until it sees a stop or that the generator is done. */
    method Execute(p: Plan) returns (finish: Finish, ghost ticks: seq<Reply>, ghost late: seq<Reply>)
      requires Journal() && H().stage.Executing? && H().watcher.Waiting? && !H().cancelled
      modifies system, this`since, this`acts
      ensures Journal() && Continues() && finish == Returns(p, ticks) && H().stage == Joining(finish).Joined()
      ensures Ticked(p.ticks, ticks) && (if StopSeen(ticks) then late == [] else Ticked(p.late, late))
      ensures forall r: Replies :: r.ticks == ticks && r.late == late ==> acts == old(acts) + Execution(p, r)
    {
      hide Journal, Ticked, Watching, StopSeen;
      late := [];
      var stopped;
      stopped, ticks := WatchScenarioStop(p.ticks);
      if stopped && !p.raced { CancelWork(); }
      finish := if p.finish.GenCanceled? && (!stopped || p.raced) then GenError else p.finish;
      Return(finish, p.rest);
      if !stopped {
        stopped, late := WatchScenarioStop(p.late);
      }
      Wait(finish);
    }

    method StoreSnapshot(err: bool, t: CallTurn) returns (ok: bool)
      requires Journal() && H().stage == Snapshotting(err)
      modifies system, this`since, this`acts
      ensures Journal() && Continues() && acts == old(acts) + [InsertSnapshot(t.call)] && ok == t.call.Done?
      ensures H().stage == if ok then CountingTotal(err) else Returned(Requeue)
    {
      hide Run, OwnActs, OwnSteps;
      Others(t.before);
      ghost var was := system.state;
      var n := |system.state.log|;
      system.InsertSnapshot(t.call);
      assert was.log + [] == was.log;
      Proceed(InsertSnapshot(t.call), n, was);
      ok := t.call.Done?;
    }

    method IncrementTotal(err: bool, t: CallTurn) returns (ok: bool)
      requires Journal() && H().stage == CountingTotal(err)
      modifies system, this`since, this`acts
      ensures Journal() && Continues() && acts == old(acts) + [IncrTotal(t.call)] && ok == t.call.Done?
      ensures H().stage == if ok then CountingType(err) else Returned(Requeue)
    {
      hide Run, OwnActs, OwnSteps;
      Others(t.before);
      ghost var was := system.state;
      var n := |system.state.log|;
      system.IncrTotal(t.call);
      assert was.log + [] == was.log;
      Proceed(IncrTotal(t.call), n, was);
      ok := t.call.Done?;
    }

    /** The counter of the scenario's workload type, and no other, goes up by one if the
        call takes effect; `before` is the state that the call finds. */
    method IncrementType(err: bool, t: CallTurn) returns (ok: bool, ghost before: State)
      requires Journal() && H().stage == CountingType(err)
      modifies system, this`since, this`acts
      ensures Journal() && Continues() && acts == old(acts) + [IncrType(t.call)] && ok == t.call.Done?
      ensures H().stage == if !ok then Returned(Requeue) else if err then CountingError else Publishing(false)
      ensures |system.history| > 0 && system.history[|system.history| - 1] == Work(index, IncrType(t.call))
      ensures Lifecycle.Run(START, system.history[..|system.history| - 1]) == Some(before)
      ensures body.Scenario? && forall w: string ::
                TypeCount(system.state.tally, w) ==
                TypeCount(before.tally, w) + Bit(t.call.Applied() && w == body.profile.workloadType)
    {
      hide Journal;
      Others(t.before);
      ok, before := CountType(err, t.call);
    }

    /** The call itself. */
    method CountType(err: bool, call: Call) returns (ok: bool, ghost before: State)
      requires Journal() && H().stage == CountingType(err)
      modifies system, this`since, this`acts
      ensures Journal() && Continues() && acts == old(acts) + [IncrType(call)] && ok == call.Done?
      ensures H().stage == if !ok then Returned(Requeue) else if err then CountingError else Publishing(false)
      ensures before == old(system.state) && system.history == old(system.history) + [Work(index, IncrType(call))]
      ensures Lifecycle.Run(START, old(system.history)) == Some(before)
      ensures Lifecycle.Run(START, system.history[..|system.history| - 1]) == Some(before)
      ensures body.Scenario? && forall w: string ::
                TypeCount(system.state.tally, w) ==
                TypeCount(before.tally, w) + Bit(call.Applied() && w == body.profile.workloadType)
    {
      hide Run, OwnActs, OwnSteps;
      before := system.state;
      TypedByNow();
      var n := |system.state.log|;
      system.IncrType(Kind(), call);
      TypeCounted(before, index, call, system.state);
      hide TypeCount, Performed, Counted;
      Proceed(IncrType(call), n, before);
      ok := call.Done?;
      assert system.history[..|system.history| - 1] == old(system.history);
    }

    /** Only a scenario gets as far as counting. */
    lemma TypedByNow()
      requires Journal() && H().stage.CountingType?
      ensures body.Scenario?
    {
      HandlersAlwaysConsistent(system.history);
      assert HandlerOk(H());
    }

    method IncrementErrors(t: CallTurn) returns (ok: bool)
      requires Journal() && H().stage.CountingError?
      modifies system, this`since, this`acts
      ensures Journal() && Continues() && acts == old(acts) + [IncrErrors(t.call)] && ok == t.call.Done?
      ensures H().stage == if ok then Publishing(true) else Returned(Requeue)
    {
      hide Run, OwnActs, OwnSteps;
      Others(t.before);
      ghost var was := system.state;
      var n := |system.state.log|;
      system.IncrErrors(t.call);
      assert was.log + [] == was.log;
      Proceed(IncrErrors(t.call), n, was);
      ok := t.call.Done?;
    }

    method PublishNotice(err: bool, t: SendTurn) returns (ok: bool)
      requires Journal() && H().stage == Publishing(err)
      modifies system, this`since, this`acts
      ensures Journal() && Continues() && acts == old(acts) + [PublishResult(t.send)] && ok == t.send.ReportedOk()
      ensures H().stage == if ok then GuardingTerminal(err) else Returned(Requeue)
    {
      hide Run, OwnActs, OwnSteps, Publish;
      Others(t.before);
      ghost var was := system.state;
      var n := |system.state.log|;
      system.Send(Message("results." + Sid(), ResultNotice(Sid()), false), t.send);
      assert was.log + [] == was.log;
      Proceed(PublishResult(t.send), n, was);
      ok := t.send.ReportedOk();
    }

    /** reportResult: stores the snapshot, counts, and publishes; the first failure ends it. */
    method ReportResult(err: bool, p: Plan) returns (ok: bool)
      requires Journal() && H().stage == Snapshotting(err)
      modifies system, this`since, this`acts
      ensures Journal() && Continues() && acts == old(acts) + Report(p, err) && ok == Reported(p, err)
      ensures H().stage == if ok then GuardingTerminal(err) else Returned(Requeue)
    {
      hide Journal;
      ok := StoreSnapshot(err, p.snapshot);
      if !ok { return; }
      ok := CountAndPublish(err, p);
    }

    method CountAndPublish(err: bool, p: Plan) returns (ok: bool)
      requires Journal() && H().stage == CountingTotal(err) && p.snapshot.call.Done?
      modifies system, this`since, this`acts
      ensures Journal() && Continues() && acts == old(acts) + Counting(p, err) && ok == Reported(p, err)
      ensures H().stage == if ok then GuardingTerminal(err) else Returned(Requeue)
    {
      hide Journal;
      ok := IncrementTotal(err, p.total);
      if !ok { return; }
      ghost var before;
      ok, before := IncrementType(err, p.byType);
      if !ok { return; }
      if err {
        ok := IncrementErrors(p.errors);
        if !ok { return; }
      }
      ok := PublishNotice(err, p.notice);
    }

    /** Decoding and the lookup of the generator. */
    method Receive() returns (runnable: bool)
      requires Journal() && H().stage.Decoding? && !H().cancelled
      modifies system, this`since, this`acts
      ensures Journal() && Continues() && acts == old(acts) + [Decode]
      ensures runnable <==> body.Scenario? && Runnable(body.profile.workloadType)
      ensures if runnable then H().stage.Guarding? && !H().cancelled else H().stage == Returned(Reject)
    {
      hide Run, OwnActs, OwnSteps;
      runnable := body.Scenario? && body.profile.workloadType in BuildGenerators();
      ProceedLocally(Decode);
    }

    /** The last part of handleMessage: report, look for a stop, mark the end. */
    method Conclude(err: bool, p: Plan) returns (verdict: Verdict, ghost reply: Reply)
      requires Journal() && H().stage == Snapshotting(err)
      modifies system, this`since, this`acts
      ensures Journal() && Continues() && H().stage == Returned(verdict) && (reply.ReadFailed? <==> p.terminal.fails)
      ensures acts == old(acts) + Conclusion(p, reply, err)
      ensures verdict ==
              if Reported(p, err) && (reply == Got(Stopped) || (Passes(reply) && p.mark.call.Done?))
              then Ack else Requeue
      ensures Reported(p, err) && Passes(reply) && p.mark.call.Done? ==>
                NewEvent(first, system.state, Event(Sid(), if err then Failed else Completed))
    {
      hide Journal, Report, Reported;
      reply := if p.terminal.fails then ReadFailed else NoRow;
      var ok := ReportResult(err, p);
      if !ok { return Requeue, reply; }
      var latest := Guard(ReadTerminal(ReadFailed), p.terminal);
      reply := latest;
      if !latest.Got? { return Requeue, reply; }
      if latest.status.Stopped? { return Ack, reply; }
      ok := MarkTerminal(err, p.mark);
      verdict := if ok then Ack else Requeue;
    }

    lemma JournalRuns()
      requires Journal()
      ensures Lifecycle.Run(START, base + since) == Some(system.state) && index < |system.state.handlers|
    {
    }

    /** handleMessage from the running mark on. */
    method FinishMessage(p: Plan, ghost guard: Reply) returns (verdict: Verdict, ghost r: Replies)
      requires Journal() && H().stage.Executing? && H().watcher.Waiting? && !H().cancelled
      modifies system, this`since, this`acts
      ensures Journal() && Continues() && H().stage == Returned(verdict) && verdict in {Ack, Requeue}
      ensures r.guard == guard && Watched(p, r)
      ensures (r.recheck.ReadFailed? <==> p.recheck.fails) && (r.terminal.ReadFailed? <==> p.terminal.fails)
      ensures acts == old(acts) + Execution(p, r) + AfterExecution(p, r)
      ensures |AfterExecution(p, r)| > 0 && (verdict.Ack? <==> EndsWell(AfterExecution(p, r)))
      ensures EndsSmoothly(p, r) ==>
                var f := Returns(p, r.ticks);
                NewEvent(first, system.state, Event(Sid(), if f.GenOk? then Completed else Failed))
    {
      hide Journal, Ticked, Execution, Aftermath, Smoothly, NewEvent, EndsWell, StopSeen, Returns;
      var finish;
      ghost var ticks, late, recheck, terminal;
      finish, ticks, late := Execute(p);
      verdict, recheck, terminal := ConcludeExecution(p, finish);
      r := Replies(guard, ticks, late, recheck, terminal);
    }

    /** handleMessage from the end of the execution on. */
    method ConcludeExecution(p: Plan, finish: Finish)
      returns (verdict: Verdict, ghost recheck: Reply, ghost terminal: Reply)
      requires Journal() && H().stage == Joining(finish).Joined()
      modifies system, this`since, this`acts
      ensures Journal() && Continues() && H().stage == Returned(verdict) && verdict in {Ack, Requeue}
      ensures (recheck.ReadFailed? <==> p.recheck.fails) && (terminal.ReadFailed? <==> p.terminal.fails)
      ensures acts == old(acts) + Aftermath(p, finish, recheck, terminal)
      ensures |Aftermath(p, finish, recheck, terminal)| > 0
      ensures verdict.Ack? <==> EndsWell(Aftermath(p, finish, recheck, terminal))
      ensures Smoothly(p, finish, recheck, terminal) ==>
                NewEvent(first, system.state, Event(Sid(), if finish.GenOk? then Completed else Failed))
    {
      hide Journal, Conclusion, Reported, NewEvent, EndsWell;
      recheck := if p.recheck.fails then ReadFailed else NoRow;
      terminal := if p.terminal.fails then ReadFailed else NoRow;
      if finish.GenCanceled? {
        var latest := Guard(ReadRecheck(ReadFailed), p.recheck);
        recheck := latest;
        ReadEnds(latest);
        if !latest.Got? { return Requeue, recheck, terminal; }
        if latest.status.Stopped? { return Ack, recheck, terminal; }
      }
      verdict, terminal := Conclude(!finish.GenOk?, p);
      ConclusionEnds(p, terminal, !finish.GenOk?);
      EndsAppended([ReadRecheck(recheck)], Conclusion(p, terminal, !finish.GenOk?));
    }

    /** handleMessage up to the running mark; it returns early without one. */
    method Start(p: Plan) returns (early: Option<Verdict>, ghost guard: Reply)
      requires Journal() && H().stage.Decoding? && !H().cancelled && acts == []
      modifies system, this`since, this`acts
      ensures Journal() && Continues() && (guard.ReadFailed? <==> p.guard.fails)
      ensures early.Some? ==> H().stage == Returned(early.value) && acts == Script(body, p, Unread(p).(guard := guard))
      ensures early == Some(Reject) <==> !body.Scenario? || !Runnable(body.profile.workloadType)
      ensures early.Some? ==> (early == Some(Ack) <==> EndsWell(acts)) && AppendRunning(Done) !in acts
      ensures early.Some? && !early.value.Reject? ==> !Passes(guard) || !p.running.call.Done?
      ensures early.None? ==>
                && acts == Opening(guard) && Passes(guard) && p.running.call.Done?
                && H().stage.Executing? && H().watcher.Waiting? && !H().cancelled
                && NewEvent(first, system.state, Event(Sid(), Running))
    {
      hide Journal, Runnable, NewEvent, EndsWell;
      guard := if p.guard.fails then ReadFailed else NoRow;
      FirstCallsEnd(guard, p.running.call);
      var runnable := Receive();
      if !runnable { return Some(Reject), guard; }
      var latest := Guard(ReadGuard(ReadFailed), p.guard);
      guard := latest;
      FirstCallsEnd(latest, p.running.call);
      if !latest.Got? { return Some(Requeue), guard; }
      if latest.status.Stopped? { return Some(Ack), guard; }
      var ok := MarkRunning(p.running);
      if !ok { return Some(Requeue), guard; }
      early := None;
    }

    /** handleMessage: it makes exactly the calls of Script with the planned outcomes,
        as steps of the run, and nothing else; it rejects exactly what cannot be decoded
        or run, and acknowledges exactly if its last call found a stop or appended the
        terminal event. If no call fails and no read finds a stop, it acknowledges and
        leaves a running and the right terminal event in the log. */
    method HandleMessage(p: Plan) returns (verdict: Verdict, ghost r: Replies)
      requires Journal() && H().stage.Decoding? && !H().cancelled && acts == []
      modifies system, this`since, this`acts
      ensures Journal() && Continues() && H().stage == Returned(verdict)
      ensures Answers(p, r) && acts == Script(body, p, r)
      ensures AppendRunning(Done) in acts ==> Watched(p, r)
      ensures verdict == Reject <==> !body.Scenario? || !Runnable(body.profile.workloadType)
      ensures verdict == Ack <==> EndsWell(acts)
      ensures !verdict.Reject? && Smooth(p, r) ==>
                var f := Returns(p, r.ticks);
                verdict == Ack && NewEvent(first, system.state, Event(Sid(), Running)) &&
                NewEvent(first, system.state, Event(Sid(), if f.GenOk? then Completed else Failed))
      ensures body.Scenario? && Runnable(body.profile.workloadType) && AllWell(p, r) && p.finish.GenOk? ==>
                verdict == Ack && NewEvent(first, system.state, Event(body.sid, Running)) &&
                NewEvent(first, system.state, Event(body.sid, Completed))
      ensures body.Scenario? && Runnable(body.profile.workloadType) && AllWell(p, r) && p.errors.call.Done? &&
              p.finish.GenError? ==>
                verdict == Ack && NewEvent(first, system.state, Event(body.sid, Running)) &&
                NewEvent(first, system.state, Event(body.sid, Failed))
    {
      hide Lifecycle.Run, Journal, Execution, AfterExecution, Watched, NewEvent, EndsWell, EndsSmoothly, AllWell;
      if body.Scenario? { assert Sid() == body.sid; }
      var early;
      ghost var guard;
      early, guard := Start(p);
      r := Unread(p).(guard := guard);
      if AllWell(p, r) && (p.finish.GenOk? || (p.finish.GenError? && p.errors.call == Done)) {
        WellIsSmooth(p, r);
      }
      if early.Some? { return early.value, r; }
      JournalRuns();
      ghost var marked, past := system.state, since;
      verdict, r := FinishMessage(p, guard);
      JournalRuns();
      assert base + past + since[|past|..] == base + since;
      EventStays(first, base + past, marked, since[|past|..], system.state, Event(Sid(), Running));
      EndsAppended(Opening(guard) + Execution(p, r), AfterExecution(p, r));
      if EndsSmoothly(p, r) { SmoothlyEnds(p, r); }
      if AllWell(p, r) && (p.finish.GenOk? || (p.finish.GenError? && p.errors.call == Done)) {
        WellIsSmooth(p, r);
      }
    }
  }

  lemma SmoothlyEnds(p: Plan, r: Replies)
    requires EndsSmoothly(p, r)
    ensures EndsWell(AfterExecution(p, r))
  {
    var f := Returns(p, r.ticks);
    ConclusionEnds(p, r.terminal, !f.GenOk?);
    EndsAppended([ReadRecheck(r.recheck)], Conclusion(p, r.terminal, !f.GenOk?));
  }

  lemma LocalChangesNothing(h: Handler, act: Act, t: Tally)
    requires Local(act)
    ensures Appended(h, act) == [] && Counted(t, h, act) == t && !act.PublishResult?
  {
  }

  /** The last stages of an execution. */
  lemma StagesOfJoin()
    ensures forall h1: Handler, n: nat ::
              After(h1, WatchExit, n).stage == h1.stage && After(h1, WatchExit, n).watcher.Exited?
    ensures forall h1: Handler, n: nat ::
              After(h1, WatchCancel, n).stage == h1.stage && After(h1, WatchCancel, n).watcher.Exited?
    ensures forall h1: Handler, n: nat :: After(h1, Join, n).stage == h1.stage.Joined()
  {
  }

  /** The increment of a delivery's own type is what its step does to the counters. */
  lemma TypeCounted(s: State, i: nat, call: Call, now: State)
    requires i < |s.handlers| && s.handlers[i].body.Scenario?
    requires var kind := s.handlers[i].body.profile.workloadType;
             now == s.(tally := if call.Applied()
                                then s.tally.(byType := s.tally.byType[kind := TypeCount(s.tally, kind) + 1])
                                else s.tally)
    ensures Performed(s, i, IncrType(call), now)
    ensures forall w: string ::
              TypeCount(now.tally, w) ==
              TypeCount(s.tally, w) + Bit(call.Applied() && w == s.handlers[i].body.profile.workloadType)
  {
    assert s.log + [] == s.log;
    OneMore(s.tally, s.handlers[i].body.profile.workloadType);
  }

  lemma OneMore(t: Tally, kind: string)
    ensures forall w: string ::
              TypeCount(t.(byType := t.byType[kind := TypeCount(t, kind) + 1]), w) == TypeCount(t, w) + Bit(w == kind)
  {
  }

  lemma FirstCallsEnd(guard: Reply, running: Call)
    ensures !EndsWell([Decode]) && (EndsWell([Decode, ReadGuard(guard)]) <==> guard == Got(Stopped))
    ensures !EndsWell([Decode, ReadGuard(guard), AppendRunning(running)])
  {
  }

  lemma EventStays(first: State, past: seq<Step>, marked: State, more: seq<Step>, now: State, e: Event)
    requires Run(START, past) == Some(marked) && Run(START, past + more) == Some(now) && NewEvent(first, marked, e)
    ensures NewEvent(first, now, e)
  {
    HistoryOnlyAppends(past, marked, more, now);
    StillNew(first, marked, now, e);
  }

  lemma Woven(base: seq<Step>, since: seq<Step>, taken: seq<Step>, i: nat, c: nat)
    requires forall k :: 0 <= k < |taken| ==> !OfHandler(taken[k], i) && !OfConsumer(c, taken[k])
    ensures OwnActs(since + taken, i) == OwnActs(since, i) && OwnSteps(since + taken, c) == OwnSteps(since, c)
    ensures base + (since + taken) == base + since + taken
  {
    NoOwnActs(taken, i);
    NoOwnSteps(taken, c);
    OwnActsConcat(since, taken, i);
    OwnStepsConcat(since, taken, c);
  }

  lemma WovenStep(base: seq<Step>, since: seq<Step>, act: Act, i: nat, c: nat)
    ensures OwnActs(since + [Work(i, act)], i) == OwnActs(since, i) + [act]
    ensures OwnSteps(since + [Work(i, act)], c) == OwnSteps(since, c)
    ensures base + (since + [Work(i, act)]) == base + since + [Work(i, act)]
  {
    OwnActsOne(Work(i, act), i);
    OwnStepsOne(Work(i, act), c);
    OwnActsConcat(since, [Work(i, act)], i);
    OwnStepsConcat(since, [Work(i, act)], c);
  }

  lemma EndsAppended(acts: seq<Act>, more: seq<Act>)
    requires |more| > 0
    ensures EndsWell(acts + more) == EndsWell(more)
  {
  }

  lemma ConclusionEnds(p: Plan, terminal: Reply, err: bool)
    ensures |Conclusion(p, terminal, err)| > 0
    ensures EndsWell(Conclusion(p, terminal, err)) <==>
            Reported(p, err) && (terminal == Got(Stopped) || (Passes(terminal) && p.mark.call.Done?))
  {
  }

  lemma ReadEnds(r: Reply)
    ensures EndsWell([ReadRecheck(r)]) <==> r == Got(Stopped)
  {
  }

  /** Replies for reads that have not been made. */
  function Unread(p: Plan): Replies {
    Replies(if p.guard.fails then ReadFailed else NoRow, [], [], if p.recheck.fails then ReadFailed else NoRow,
            if p.terminal.fails then ReadFailed else NoRow)
  }

  /** A call that did to the shared state what its act does, and whose handler has gone
      on, is a step. */
  lemma GoesOn(was: State, i: nat, c: nat, act: Act, now: State, next: State)
    requires InHand(was, i, c) && CanAct(was.handlers[i], act, was.log) && Performed(was, i, act, now)
    requires next == now.(handlers := now.handlers[i := After(now.handlers[i], act, |was.log|)],
                          faults := if Faulty(act) then now.faults + [now.handlers[i].tag] else now.faults)
    ensures Take(was, Work(i, act)) == Some(next) && InHand(next, i, c)
    ensures next.handlers[i] == After(was.handlers[i], act, |was.log|) && next.handlers[i].body == was.handlers[i].body
    ensures next.log == now.log
  {
    StaysInHand(was.handlers[i], act, |was.log|);
    hide After, CanAct, Appended, Counted, Faulty, Open, Publish;
    assert Take(was, Work(i, act)) == DoWork(was, i, act);
  }

  lemma StaysInHand(h: Handler, act: Act, n: nat)
    requires Open(h)
    ensures Open(After(h, act, n)) && After(h, act, n).body == h.body && After(h, act, n).consumer == h.consumer
  {
  }
}
