/** The scenario lifecycle as a state machine: the append-only event log, the
    counters, the broker, the consumers, any number of message handlers, and the
    API calls in flight. Every store read, store append, counter increment,
    publish and settle is a step of its own; each can fail, and steps of
    different actors interleave freely. Event order is append order. */
module Lifecycle {
  import opened Basics
  import opened Workload
  import opened Topology

  // ----- The event log -----

  datatype Status = Queued | Running | Completed | Failed | Stopped

  datatype Event = Event(sid: string, status: Status)

  /** The status the latest-event query returns for a scenario. */
  function Newest(log: seq<Event>, sid: string): Option<Status> {
    if |log| == 0 then None
    else if log[|log| - 1].sid == sid then Some(log[|log| - 1].status)
    else Newest(log[..|log| - 1], sid)
  }

  // ----- Outcomes of calls -----

  /** Sends to the broker are not confirmed, so one can also report success and
      be lost with the connection. */
  datatype Send = Sent | SendFailed | SendFailedAfter | SendLost {
    predicate Applied() { Sent? || SendFailedAfter? }
    predicate ReportedOk() { Sent? || SendLost? }
  }

  datatype Reply = Got(status: Status) | NoRow | ReadFailed

  predicate Reports(log: seq<Event>, sid: string, r: Reply) {
    match r
    case Got(st) => Newest(log, sid) == Some(st)
    case NoRow => Newest(log, sid) == None
    case ReadFailed => true
  }

  // ----- Message handlers -----

  datatype Body =
    | Undecodable
    | Scenario(sid: string, profile: LoadProfile)
    | ResultNotice(sid: string)
    | StopNotice(sid: string)

  /** How the generator's Execute returned. */
  datatype Finish = GenOk | GenError | GenCanceled

  /** What handleMessage returned: nil, an error, or an UnrecoverableError. */
  datatype Verdict = Ack | Requeue | Reject

  datatype Stage =
    | Decoding
    | Guarding
    | MarkingRunning
    | Executing
    | Joining(finish: Finish)
    | Rechecking
    | Snapshotting(err: bool)
    | CountingTotal(err: bool)
    | CountingType(err: bool)
    | CountingError
    | Publishing(err: bool)
    | GuardingTerminal(err: bool)
    | MarkingTerminal(err: bool)
    | Returned(verdict: Verdict)
    | Settled
    | Killed
  {
    /** Whether result.Error is set; it can be only from reporting on. */
    predicate Err() {
      match this
      case Snapshotting(e) => e
      case CountingTotal(e) => e
      case CountingType(e) => e
      case CountingError => true
      case Publishing(e) => e
      case GuardingTerminal(e) => e
      case MarkingTerminal(e) => e
      case _ => false
    }

    /** Where the handler goes when its watcher has exited. */
    function Joined(): Stage {
      match this
      case Joining(f) =>
        (match f
         case GenOk => Snapshotting(false)
         case GenError => Snapshotting(true)
         case GenCanceled => Rechecking)
      case _ => this
    }
  }

  datatype Watcher = NotStarted | Waiting | SawStop | Exited

  /** What a handler has done so far: a history variable, no step reads it. */
  datatype Effect =
    | RunningMark | Launch | Snapshot | OpsTotal | OpsType | ErrorsTotal | ResultSent | ResultLost
    | CompletedMark | FailedMark

  datatype Effects = Effects(
    running: bool, launch: bool, snapshot: bool, total: bool, byType: bool, errors: bool, sent: bool, lost: bool,
    completed: bool, failed: bool)
  {
    predicate Has(e: Effect) {
      match e
      case RunningMark => running
      case Launch => launch
      case Snapshot => snapshot
      case OpsTotal => total
      case OpsType => byType
      case ErrorsTotal => errors
      case ResultSent => sent
      case ResultLost => lost
      case CompletedMark => completed
      case FailedMark => failed
    }

    function With(e: Effect): Effects {
      match e
      case RunningMark => this.(running := true)
      case Launch => this.(launch := true)
      case Snapshot => this.(snapshot := true)
      case OpsTotal => this.(total := true)
      case OpsType => this.(byType := true)
      case ErrorsTotal => this.(errors := true)
      case ResultSent => this.(sent := true)
      case ResultLost => this.(lost := true)
      case CompletedMark => this.(completed := true)
      case FailedMark => this.(failed := true)
    }
  }

  const NOTHING: Effects := Effects(false, false, false, false, false, false, false, false, false, false)

  /** One delivery being handled. `current` says that the broker still holds the
      delivery as unacknowledged on the channel it came from. `guard` is the
      length of the log when the last not-stopped guard read was made, `seen` the
      length when the watcher read a stop; both are history. */
  datatype Handler = Handler(
    tag: nat, consumer: nat, body: Body, current: bool,
    stage: Stage, watcher: Watcher, cancelled: bool,
    effects: Effects, guard: nat, seen: nat)
  {
    function Sid(): string { if body.Scenario? then body.sid else "" }

    function Kind(): string { if body.Scenario? then body.profile.workloadType else "" }
  }

  /** The steps of handleMessage and of its stop watcher, with what each call
      observed. */
  datatype Act =
    | Decode
    | ReadGuard(reply: Reply)
    | AppendRunning(call: Call)
    | WatchRead(reply: Reply)
    | WatchCancel
    | WatchExit
    | Finished(finish: Finish)
    | Join
    | ReadRecheck(reply: Reply)
    | InsertSnapshot(call: Call)
    | IncrTotal(call: Call)
    | IncrType(call: Call)
    | IncrErrors(call: Call)
    | PublishResult(send: Send)
    | ReadTerminal(reply: Reply)
    | AppendTerminal(call: Call)

  predicate CanAct(h: Handler, act: Act, log: seq<Event>) {
    match act
    case Decode => h.stage.Decoding?
    case ReadGuard(r) => h.stage.Guarding? && Reports(log, h.Sid(), r)
    case AppendRunning(_) => h.stage.MarkingRunning?
    case WatchRead(r) => h.watcher.Waiting? && Reports(log, h.Sid(), r)
    case WatchCancel => h.watcher.SawStop?
    case WatchExit => h.watcher.Waiting? && h.cancelled
    case Finished(f) => h.stage.Executing? && (f.GenCanceled? ==> h.cancelled)
    case Join => h.stage.Joining? && h.watcher.Exited?
    case ReadRecheck(r) => h.stage.Rechecking? && Reports(log, h.Sid(), r)
    case InsertSnapshot(_) => h.stage.Snapshotting?
    case IncrTotal(_) => h.stage.CountingTotal?
    case IncrType(_) => h.stage.CountingType?
    case IncrErrors(_) => h.stage.CountingError?
    case PublishResult(_) => h.stage.Publishing?
    case ReadTerminal(r) => h.stage.GuardingTerminal? && Reports(log, h.Sid(), r)
    case AppendTerminal(_) => h.stage.MarkingTerminal?
  }

  /** The stage after a call: onwards when it reported success, otherwise the
      handler returns its error. */
  function Onward(c: Call, next: Stage): Stage { if c.Done? then next else Returned(Requeue) }

  /** The stage after a guard read: a stopped scenario ends the handler quietly,
      a failed read ends it with an error. */
  function Guarded(r: Reply, next: Stage): Stage {
    match r
    case Got(st) => if st.Stopped? then Returned(Ack) else next
    case NoRow => Returned(Requeue)
    case ReadFailed => Returned(Requeue)
  }

  function GuardLength(h: Handler, r: Reply, n: nat): nat {
    if r.Got? && !r.status.Stopped? then n else h.guard
  }

  /** The effect a step has, if it took effect at all. */
  function Adding(h: Handler, act: Act): Option<Effect> {
    match act
    case AppendRunning(c) => if c.Applied() then Some(RunningMark) else None
    case InsertSnapshot(c) => if c.Applied() then Some(Snapshot) else None
    case IncrTotal(c) => if c.Applied() then Some(OpsTotal) else None
    case IncrType(c) => if c.Applied() then Some(OpsType) else None
    case IncrErrors(c) => if c.Applied() then Some(ErrorsTotal) else None
    case PublishResult(s) => if s.Applied() then Some(ResultSent) else if s.SendLost? then Some(ResultLost) else None
    case AppendTerminal(c) =>
      if c.Applied() then Some(if h.stage.Err() then FailedMark else CompletedMark) else None
    case _ => None
  }

  function Effected(h: Handler, act: Act): Effects {
    var e := match Adding(h, act)
             case Some(x) => h.effects.With(x)
             case None => h.effects;
    if act == AppendRunning(Done) then e.With(Launch) else e
  }

  /** Where a step takes the handler; n is the length of the log it saw. */
  function Advance(h: Handler, act: Act, n: nat): Handler {
    match act
    case Decode =>
      h.(stage := if h.body.Scenario? && Runnable(h.body.profile.workloadType) then Guarding else Returned(Reject))
    case ReadGuard(r) => h.(stage := Guarded(r, MarkingRunning), guard := GuardLength(h, r, n))
    case AppendRunning(c) =>
      h.(stage := Onward(c, Executing), watcher := if c.Done? then Waiting else h.watcher)
    case WatchRead(r) => if r == Got(Stopped) then h.(watcher := SawStop, seen := n) else h
    case WatchCancel => h.(watcher := Exited, cancelled := true)
    case WatchExit => h.(watcher := Exited)
    case Finished(f) => h.(stage := Joining(f), cancelled := true)
    case Join => h.(stage := h.stage.Joined())
    case ReadRecheck(r) => h.(stage := Guarded(r, Snapshotting(true)))
    case InsertSnapshot(c) => h.(stage := Onward(c, CountingTotal(h.stage.Err())))
    case IncrTotal(c) => h.(stage := Onward(c, CountingType(h.stage.Err())))
    case IncrType(c) => h.(stage := Onward(c, if h.stage.Err() then CountingError else Publishing(false)))
    case IncrErrors(c) => h.(stage := Onward(c, Publishing(true)))
    case PublishResult(s) => h.(stage := if s.ReportedOk() then GuardingTerminal(h.stage.Err()) else Returned(Requeue))
    case ReadTerminal(r) => h.(stage := Guarded(r, MarkingTerminal(h.stage.Err())), guard := GuardLength(h, r, n))
    case AppendTerminal(c) => h.(stage := Onward(c, Returned(Ack)))
  }

  function After(h: Handler, act: Act, n: nat): Handler { Advance(h, act, n).(effects := Effected(h, act)) }

  /** The event a handler's step appends to the log, if any. */
  function Appended(h: Handler, act: Act): seq<Event> {
    match act
    case AppendRunning(c) => if c.Applied() then [Event(h.Sid(), Running)] else []
    case AppendTerminal(c) =>
      if c.Applied() then [Event(h.Sid(), if h.stage.Err() then Failed else Completed)] else []
    case _ => []
  }

  /** The failures that make handleMessage return an error. */
  predicate Faulty(act: Act) {
    match act
    case ReadGuard(r) => r.ReadFailed?
    case ReadRecheck(r) => r.ReadFailed?
    case ReadTerminal(r) => r.ReadFailed?
    case AppendRunning(c) => !c.Done?
    case InsertSnapshot(c) => !c.Done?
    case IncrTotal(c) => !c.Done?
    case IncrType(c) => !c.Done?
    case IncrErrors(c) => !c.Done?
    case PublishResult(s) => !s.ReportedOk()
    case AppendTerminal(c) => !c.Done?
    case _ => false
  }

  // ----- Counters -----

  /** The metrics_snapshots table (its row count) and the Redis counters. */
  datatype Tally = Tally(snapshots: nat, total: nat, byType: map<string, nat>, errors: nat)

  function TypeCount(t: Tally, kind: string): nat { if kind in t.byType then t.byType[kind] else 0 }

  function Counted(t: Tally, h: Handler, act: Act): Tally {
    match act
    case InsertSnapshot(c) => if c.Applied() then t.(snapshots := t.snapshots + 1) else t
    case IncrTotal(c) => if c.Applied() then t.(total := t.total + 1) else t
    case IncrType(c) => if c.Applied() then t.(byType := t.byType[h.Kind() := TypeCount(t, h.Kind()) + 1]) else t
    case IncrErrors(c) => if c.Applied() then t.(errors := t.errors + 1) else t
    case _ => t
  }

  // ----- The broker -----

  datatype Message = Message(key: string, body: Body, api: bool)

  datatype Lanes<T> = Lanes(high: T, low: T, chaos: T) {
    function At(l: Lane): T {
      match l
      case High => high
      case Low => low
      case Chaos => chaos
    }

    function Put(l: Lane, v: T): Lanes<T> {
      match l
      case High => this.(high := v)
      case Low => this.(low := v)
      case Chaos => this.(chaos := v)
    }
  }

  /** Messages are identified by their position in `published`. */
  datatype Broker = Broker(
    published: seq<Message>,
    ready: Lanes<multiset<nat>>,
    dead: Lanes<multiset<nat>>,
    acked: multiset<nat>)
  {
    function Enqueue(l: Lane, t: nat): Broker { this.(ready := ready.Put(l, ready.At(l) + multiset{t})) }

    function Dequeue(l: Lane, t: nat): Broker { this.(ready := ready.Put(l, ready.At(l) - multiset{t})) }

    function Bury(l: Lane, t: nat): Broker { this.(dead := dead.Put(l, dead.At(l) + multiset{t})) }
  }

  /** Publishing to the live exchange: LiveRouting in Topology shows that LaneOf
      is what the declared bindings do. */
  function Publish(b: Broker, m: Message): Broker {
    var b' := b.(published := b.published + [m]);
    match LaneOf(m.key)
    case Some(l) => b'.Enqueue(l, |b.published|)
    case None => b'
  }

  datatype Inbox = Inbox(tag: nat, current: bool)

  /** A consumer and its channel, with a prefetch of one: at most one delivery is
      unacknowledged on the channel. `inbox` is a delivery the client library has
      and Consume has not yet picked up; `busy` is the handler Consume is in. */
  datatype Consumer = Consumer(
    lane: Lane, unacked: Option<nat>, inbox: Option<Inbox>, busy: Option<nat>, alive: bool)

  // ----- API calls in flight -----

  datatype Create = Create(sid: string, profile: LoadProfile, stored: bool)

  datatype StopStage = StopAppending | StopPublishing | StopEnded

  datatype StopCall = StopCall(sid: string, stage: StopStage)

  // ----- The whole system -----

  /** `used` holds every scenario id ever generated; `pushes` and `faults` record,
      as history, the message each delivery and each attributable fault was about. */
  datatype State = State(
    log: seq<Event>, tally: Tally, broker: Broker,
    consumers: seq<Consumer>, handlers: seq<Handler>,
    creates: seq<Create>, stops: seq<StopCall>, used: set<string>,
    pushes: seq<nat>, faults: seq<nat>)

  const START: State :=
    State([], Tally(0, 0, map[], 0),
          Broker([], Lanes(multiset{}, multiset{}, multiset{}), Lanes(multiset{}, multiset{}, multiset{}), multiset{}),
          [], [], [], [], {}, [], [])

  datatype Step =
    | CreateStore(req: ScenarioRequest, id: string, call: Call)
    | CreatePublish(k: nat, send: Send)
    | StopRead(id: string)
    | StopAppend(k: nat, call: Call)
    | StopPublish(k: nat, send: Send)
    | ForeignPublish(key: string, body: Body)
    | AddConsumer(lane: Lane)
    | Push(c: nat, t: nat)
    | Begin(c: nat)
    | Settle(c: nat, send: Send)
    | Disconnect(c: nat, keep: bool)
    | Crash(c: nat)
    | Quit(c: nat)
    | Work(i: nat, act: Act)

  /** CreateScenario's insert: it happens only for a valid request, under a fresh id. */
  function DoCreateStore(s: State, req: ScenarioRequest, id: string, call: Call): Option<State> {
    if !Admitted(req) || id in s.used then None
    else Some(s.(
      log := if call.Applied() then s.log + [Event(id, Queued)] else s.log,
      creates := if call.Done? then s.creates + [Create(id, req.profile, true)] else s.creates,
      used := s.used + {id}))
  }

  /** CreateScenario's publish, after its insert reported success. */
  function DoCreatePublish(s: State, k: nat, send: Send): Option<State> {
    if k >= |s.creates| || !s.creates[k].stored then None
    else
      var c := s.creates[k];
      Some(s.(
        creates := s.creates[k := c.(stored := false)],
        broker := if send.Applied()
                  then Publish(s.broker, Message(c.profile.targetQueue, Scenario(c.sid, c.profile), true))
                  else s.broker))
  }

  /** StopScenario's lookup found a row; without one it answers 404 and is over. */
  function DoStopRead(s: State, id: string): Option<State> {
    if Newest(s.log, id).None? then None
    else Some(s.(stops := s.stops + [StopCall(id, StopAppending)]))
  }

  function DoStopAppend(s: State, k: nat, call: Call): Option<State> {
    if k >= |s.stops| || !s.stops[k].stage.StopAppending? then None
    else Some(s.(
      log := if call.Applied() then s.log + [Event(s.stops[k].sid, Stopped)] else s.log,
      stops := s.stops[k := s.stops[k].(stage := if call.Done? then StopPublishing else StopEnded)]))
  }

  function DoStopPublish(s: State, k: nat, send: Send): Option<State> {
    if k >= |s.stops| || !s.stops[k].stage.StopPublishing? then None
    else Some(s.(
      broker := if send.Applied()
                then Publish(s.broker, Message("scenario.stop", StopNotice(s.stops[k].sid), false))
                else s.broker,
      stops := s.stops[k := s.stops[k].(stage := StopEnded)]))
  }

  /** Another client of the exchange publishes something of its own. */
  function DoForeignPublish(s: State, key: string, body: Body): Option<State> {
    if body.ResultNotice? || body.StopNotice? then None
    else Some(s.(broker := Publish(s.broker, Message(key, body, false))))
  }

  /** A worker starts one more consumer; startConsumers only uses two queues. */
  function DoAddConsumer(s: State, lane: Lane): Option<State> {
    if lane.Chaos? then None
    else Some(s.(consumers := s.consumers + [Consumer(lane, None, None, None, true)]))
  }

  /** The broker delivers a ready message on an idle channel. */
  function DoPush(s: State, c: nat, t: nat): Option<State> {
    if c >= |s.consumers| then None
    else
      var cons := s.consumers[c];
      if cons.unacked.Some? || cons.inbox.Some? || cons.busy.Some? || t !in s.broker.ready.At(cons.lane) then None
      else Some(s.(
        broker := s.broker.Dequeue(cons.lane, t),
        consumers := s.consumers[c := cons.(unacked := Some(t), inbox := Some(Inbox(t, true)))],
        pushes := s.pushes + [t]))
  }

  /** Consume takes a delivery and calls the handler. */
  function DoBegin(s: State, c: nat): Option<State> {
    if c >= |s.consumers| then None
    else
      var cons := s.consumers[c];
      if !cons.alive || cons.busy.Some? || cons.inbox.None? || cons.inbox.value.tag >= |s.broker.published| then None
      else
        var t := cons.inbox.value.tag;
        var h := Handler(t, c, s.broker.published[t].body, cons.inbox.value.current,
                         Decoding, NotStarted, false, NOTHING, 0, 0);
        Some(s.(
          consumers := s.consumers[c := cons.(inbox := None, busy := Some(|s.handlers|))],
          handlers := s.handlers + [h]))
  }

  /** What an applied settle does with the message. */
  function Settling(b: Broker, lane: Lane, t: nat, v: Verdict): Broker {
    match v
    case Ack => b.(acked := b.acked + multiset{t})
    case Requeue => b.Enqueue(lane, t)
    case Reject => b.Bury(lane, t)
  }

  /** Consume acks or nacks what the handler returned for. On a lost channel the
      call can only fail; a failed call ends Consume. */
  function DoSettle(s: State, c: nat, send: Send): Option<State> {
    if c >= |s.consumers| || s.consumers[c].busy.None? || s.consumers[c].busy.value >= |s.handlers| then None
    else
      var cons := s.consumers[c];
      var i := cons.busy.value;
      var h := s.handlers[i];
      if !h.stage.Returned? || (!h.current && !send.SendFailed?) then None
      else
        var applied := h.current && send.Applied();
        Some(s.(
          broker := if applied then Settling(s.broker, cons.lane, h.tag, h.stage.verdict) else s.broker,
          consumers := s.consumers[c := cons.(
            unacked := if applied then None else cons.unacked,
            busy := None,
            alive := cons.alive && send.ReportedOk())],
          handlers := s.handlers[i := h.(stage := Settled)],
          faults := if send.Sent? then s.faults else s.faults + [h.tag]))
  }

  function Requeued(s: State, c: nat): Broker
    requires c < |s.consumers|
  {
    var cons := s.consumers[c];
    if cons.unacked.Some? then s.broker.Enqueue(cons.lane, cons.unacked.value) else s.broker
  }

  function LossFault(s: State, c: nat): seq<nat>
    requires c < |s.consumers|
  {
    if s.consumers[c].unacked.Some? then s.faults + [s.consumers[c].unacked.value] else s.faults
  }

  /** The connection goes and comes back: the broker requeues what was
      unacknowledged while a running handler goes on with a stale delivery. */
  function DoDisconnect(s: State, c: nat, keep: bool): Option<State> {
    if c >= |s.consumers| then None
    else
      var cons := s.consumers[c];
      Some(s.(
        broker := Requeued(s, c),
        consumers := s.consumers[c := cons.(
          unacked := None,
          inbox := if keep && cons.inbox.Some? then Some(cons.inbox.value.(current := false)) else None)],
        handlers := if cons.busy.Some? && cons.busy.value < |s.handlers|
                    then s.handlers[cons.busy.value := s.handlers[cons.busy.value].(current := false)]
                    else s.handlers,
        faults := LossFault(s, c)))
  }

  /** The worker process dies with the handler it was in. */
  function DoCrash(s: State, c: nat): Option<State> {
    if c >= |s.consumers| then None
    else
      var cons := s.consumers[c];
      Some(s.(
        broker := Requeued(s, c),
        consumers := s.consumers[c := Consumer(cons.lane, None, None, None, false)],
        handlers := if cons.busy.Some? && cons.busy.value < |s.handlers|
                    then s.handlers[cons.busy.value :=
                           s.handlers[cons.busy.value].(current := false, stage := Killed, watcher := Exited)]
                    else s.handlers,
        faults := LossFault(s, c)))
  }

  /** Consume returns because the worker is shutting down. */
  function DoQuit(s: State, c: nat): Option<State> {
    if c >= |s.consumers| || s.consumers[c].busy.Some? then None
    else Some(s.(consumers := s.consumers[c := s.consumers[c].(alive := false)]))
  }

  function DoWork(s: State, i: nat, act: Act): Option<State> {
    if i >= |s.handlers| || !CanAct(s.handlers[i], act, s.log) then None
    else
      var h := s.handlers[i];
      Some(s.(
        log := s.log + Appended(h, act),
        tally := Counted(s.tally, h, act),
        broker := if act.PublishResult? && act.send.Applied()
                  then Publish(s.broker, Message("results." + h.Sid(), ResultNotice(h.Sid()), false))
                  else s.broker,
        handlers := s.handlers[i := After(h, act, |s.log|)],
        faults := if Faulty(act) then s.faults + [h.tag] else s.faults))
  }

  /** One step of the system; None when the step is not enabled. */
  function Take(s: State, step: Step): Option<State> {
    match step
    case CreateStore(req, id, call) => DoCreateStore(s, req, id, call)
    case CreatePublish(k, send) => DoCreatePublish(s, k, send)
    case StopRead(id) => DoStopRead(s, id)
    case StopAppend(k, call) => DoStopAppend(s, k, call)
    case StopPublish(k, send) => DoStopPublish(s, k, send)
    case ForeignPublish(key, body) => DoForeignPublish(s, key, body)
    case AddConsumer(lane) => DoAddConsumer(s, lane)
    case Push(c, t) => DoPush(s, c, t)
    case Begin(c) => DoBegin(s, c)
    case Settle(c, send) => DoSettle(s, c, send)
    case Disconnect(c, keep) => DoDisconnect(s, c, keep)
    case Crash(c) => DoCrash(s, c)
    case Quit(c) => DoQuit(s, c)
    case Work(i, act) => DoWork(s, i, act)
  }

  /** A run: the state after the steps, or None when one was not enabled. */
  function Run(s: State, steps: seq<Step>): Option<State> {
    if |steps| == 0 then Some(s)
    else
      match Run(s, steps[..|steps| - 1])
      case None => None
      case Some(m) => Take(m, steps[|steps| - 1])
  }

  /** The states that a run goes through. */
  predicate IsTrace(states: seq<State>, steps: seq<Step>) {
    |states| == |steps| + 1 &&
    forall i {:trigger Take(states[i], steps[i])} :: 0 <= i < |steps| ==>
        Take(states[i], steps[i]) == Some(states[i + 1])
  }

  /** The steps lead from one state to the other; `Leads(START, steps, s)` says that
      s is reached. */
  ghost predicate Leads(s: State, steps: seq<Step>, s': State) {
    exists states: seq<State> :: IsTrace(states, steps) && states[0] == s && states[|steps|] == s'
  }

  lemma {:induction false} TraceIsRun(states: seq<State>, steps: seq<Step>, k: nat)
    requires IsTrace(states, steps) && k <= |steps|
    ensures Run(states[0], steps[..k]) == Some(states[k])
  {
    hide Take;
    if k == 0 {
    } else {
      TraceIsRun(states, steps, k - 1);
      RunExtend(states[0], steps[..k - 1], steps[k - 1]);
      assert steps[..k] == steps[..k - 1] + [steps[k - 1]];
      assert Take(states[k - 1], steps[k - 1]) == Some(states[k]);
    }
  }

  lemma {:induction false} RunHasTrace(s: State, steps: seq<Step>) returns (states: seq<State>)
    requires Run(s, steps).Some?
    ensures IsTrace(states, steps) && states[0] == s && states[|steps|] == Run(s, steps).value
  {
    hide Take;
    if |steps| == 0 {
      states := [s];
    } else {
      var n := |steps| - 1;
      RunLast(s, steps);
      var before := RunHasTrace(s, steps[..n]);
      states := before + [Run(s, steps).value];
      assert Take(before[n], steps[n]) == Some(states[n + 1]);
      forall i | 0 <= i < |steps|
        ensures Take(states[i], steps[i]) == Some(states[i + 1])
      {
        if i < n {
          assert Take(before[i], steps[..n][i]) == Some(before[i + 1]);
        }
      }
    }
  }

  /** A run leads exactly to the state it ends in. */
  lemma LeadsIsRun(s: State, steps: seq<Step>, s': State)
    ensures Leads(s, steps, s') <==> Run(s, steps) == Some(s')
  {
    hide Take;
    if Leads(s, steps, s') {
      var states: seq<State> :| IsTrace(states, steps) && states[0] == s && states[|steps|] == s';
      TraceIsRun(states, steps, |steps|);
      assert steps[..|steps|] == steps;
    }
    if Run(s, steps) == Some(s') {
      var states := RunHasTrace(s, steps);
    }
  }

  lemma RunExtend(s: State, steps: seq<Step>, step: Step)
    ensures Run(s, steps + [step]) ==
            (match Run(s, steps) case None => None case Some(m) => Take(m, step))
  {
    hide Take;
    assert (steps + [step])[..|steps|] == steps;
  }

  lemma RunOne(s: State, a: Step)
    ensures Run(s, [a]) == Take(s, a)
  {
    hide Take;
    RunExtend(s, [], a);
    assert [] + [a] == [a];
  }

  lemma RunTwo(s: State, a: Step, b: Step)
    ensures Run(s, [a, b]) == (match Take(s, a) case None => None case Some(m) => Take(m, b))
  {
    hide Take;
    RunOne(s, a);
    RunExtend(s, [a], b);
    assert [a] + [b] == [a, b];
  }

  lemma {:induction false} RunConcat(s: State, a: seq<Step>, b: seq<Step>)
    requires Run(s, a).Some?
    ensures Run(s, a + b) == Run(Run(s, a).value, b)
  {
    hide Take;
    if |b| == 0 {
      assert a + b == a;
    } else {
      var n := |b| - 1;
      RunConcat(s, a, b[..n]);
      assert (a + b)[..|a| + n] == a + b[..n];
    }
  }

  lemma RunLast(s: State, steps: seq<Step>)
    requires Run(s, steps).Some? && |steps| > 0
    ensures Run(s, steps[..|steps| - 1]).Some?
    ensures Take(Run(s, steps[..|steps| - 1]).value, steps[|steps| - 1]) == Run(s, steps)
  {
    hide Take;
  }

  /** Every prefix of a run is a run. */
  lemma {:induction false} RunPrefix(s: State, steps: seq<Step>, k: nat)
    requires Run(s, steps).Some? && k <= |steps|
    ensures Run(s, steps[..k]).Some?
    ensures k < |steps| ==>
              Run(s, steps[..k + 1]).Some? &&
              Take(Run(s, steps[..k]).value, steps[k]) == Run(s, steps[..k + 1])
  {
    hide Take;
    if k == |steps| {
      assert steps[..k] == steps;
    } else {
      var n := |steps| - 1;
      RunPrefix(s, steps[..n], k);
      assert steps[..n][..k] == steps[..k];
      if k < n {
        assert steps[..n][..k + 1] == steps[..k + 1];
      } else {
        assert steps[..k + 1] == steps;
      }
    }
  }

  // ----- Facts about the log -----

  lemma NewestAppend(log: seq<Event>, e: Event, sid: string)
    ensures Newest(log + [e], sid) == if e.sid == sid then Some(e.status) else Newest(log, sid)
  {
    assert (log + [e])[..|log|] == log;
  }

  /** The newest status of a scenario is that of its last event. */
  lemma {:induction false} NewestIsLast(log: seq<Event>, sid: string) returns (i: nat)
    requires Newest(log, sid).Some?
    ensures i < |log| && log[i] == Event(sid, Newest(log, sid).value)
    ensures forall j :: i < j < |log| ==> log[j].sid != sid
  {
    var n := |log| - 1;
    if log[n].sid == sid {
      i := n;
    } else {
      i := NewestIsLast(log[..n], sid);
    }
  }

  lemma {:induction false} NewestOfLast(log: seq<Event>, sid: string, i: nat)
    requires i < |log| && log[i].sid == sid
    requires forall j :: i < j < |log| ==> log[j].sid != sid
    ensures Newest(log, sid) == Some(log[i].status)
  {
    if i == |log| - 1 {
    } else {
      NewestOfLast(log[..|log| - 1], sid, i);
    }
  }

  lemma {:induction false} NewestNone(log: seq<Event>, sid: string)
    ensures Newest(log, sid).None? <==> forall j :: 0 <= j < |log| ==> log[j].sid != sid
  {
    if |log| == 0 {
    } else {
      NewestNone(log[..|log| - 1], sid);
    }
  }

  /** Steps only append to the log, one event at most. */
  lemma LogGrows(s: State, step: Step, s': State)
    requires Take(s, step) == Some(s')
    ensures s'.log == s.log || (|s'.log| == |s.log| + 1 && s'.log[..|s.log|] == s.log)
    ensures |s.log| <= |s'.log| && s'.log[..|s.log|] == s.log
  {
    if step.Work? {
      assert |Appended(s.handlers[step.i], step.act)| <= 1;
    }
  }
}
