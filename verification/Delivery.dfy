/** What becomes of the messages the API and the workers publish: notices enter no
    queue, API-created scenarios are never dead-lettered, and each message is
    delivered at most once more than it met faults. */
module Delivery {
  import opened Basics
  import opened Workload
  import opened Topology
  import opened Lifecycle
  import opened Handlers
  import opened BrokerSafety

  // ----- What was published -----

  predicate Stored(log: seq<Event>, sid: string) { Newest(log, sid).Some? }

  predicate MessageOk(m: Message, log: seq<Event>) {
    && (m.api ==> !Impossible(m.body) && Stored(log, m.body.sid))
    && (m.body.ResultNotice? ==> m.key == "results." + m.body.sid)
    && (m.body.StopNotice? ==> m.key == "scenario.stop")
  }

  predicate CreateOk(c: Create, log: seq<Event>) { Runnable(c.profile.workloadType) && Stored(log, c.sid) }

  ghost predicate PublishedInv(s: State) {
    && (forall t :: 0 <= t < |s.broker.published| ==> MessageOk(s.broker.published[t], s.log))
    && (forall k :: 0 <= k < |s.creates| ==> CreateOk(s.creates[k], s.log))
  }

  lemma StoredStays(log: seq<Event>, log': seq<Event>, sid: string)
    requires Stored(log, sid) && |log| <= |log'| && log'[..|log|] == log
    ensures Stored(log', sid)
  {
    NewestNone(log, sid);
    NewestNone(log', sid);
    var i :| 0 <= i < |log| && log[i].sid == sid;
    assert log'[..|log|][i].sid == sid;
  }

  /** The message a step publishes, if it publishes one. */
  function Sending(s: State, step: Step): Option<Message> {
    match step
    case CreatePublish(k, send) =>
      if k < |s.creates| && send.Applied()
      then Some(Message(s.creates[k].profile.targetQueue, Scenario(s.creates[k].sid, s.creates[k].profile), true))
      else None
    case StopPublish(k, send) =>
      if k < |s.stops| && send.Applied()
      then Some(Message("scenario.stop", StopNotice(s.stops[k].sid), false))
      else None
    case ForeignPublish(key, body) => Some(Message(key, body, false))
    case Work(i, act) =>
      if i < |s.handlers| && act.PublishResult? && act.send.Applied()
      then Some(Message("results." + s.handlers[i].Sid(), ResultNotice(s.handlers[i].Sid()), false))
      else None
    case _ => None
  }

  lemma StepPublishes(s: State, step: Step, s': State)
    requires Take(s, step) == Some(s')
    ensures s'.broker.published ==
            s.broker.published + (match Sending(s, step) case Some(m) => [m] case None => [])
    ensures Sending(s, step).Some? ==> s'.broker == Publish(s.broker, Sending(s, step).value)
  {
    hide After, CanAct, Counted, Appended, LaneOf, Admitted;
  }

  lemma SendingOk(s: State, step: Step, s': State)
    requires PublishedInv(s) && Take(s, step) == Some(s') && Sending(s, step).Some?
    ensures MessageOk(Sending(s, step).value, s.log)
  {
    hide Runnable, Newest, After, CanAct, Counted, Appended, Publish;
    if step.CreatePublish? {
      assert CreateOk(s.creates[step.k], s.log);
    }
  }

  lemma CreatesOk(s: State, step: Step, s': State)
    requires PublishedInv(s) && Take(s, step) == Some(s')
    ensures forall k :: 0 <= k < |s'.creates| ==> CreateOk(s'.creates[k], s'.log)
  {
    LogGrows(s, step, s');
    forall k | 0 <= k < |s'.creates|
      ensures CreateOk(s'.creates[k], s'.log)
    {
      if k < |s.creates| {
        assert CreateOk(s.creates[k], s.log);
        CreateKept(s, step, s', k);
        StoredStays(s.log, s'.log, s.creates[k].sid);
      } else {
        NewCreate(s, step, s', k);
      }
    }
  }

  lemma CreateKept(s: State, step: Step, s': State, k: nat)
    requires Take(s, step) == Some(s') && k < |s.creates|
    ensures k < |s'.creates| && s'.creates[k].sid == s.creates[k].sid && s'.creates[k].profile == s.creates[k].profile
  {
    hide After, CanAct, Counted, Appended, Publish, Admitted;
  }

  lemma NewCreate(s: State, step: Step, s': State, k: nat)
    requires Take(s, step) == Some(s') && |s.creates| <= k < |s'.creates|
    ensures CreateOk(s'.creates[k], s'.log)
  {
    assert step.CreateStore?;
    hide After, CanAct, Counted, Appended, Publish;
    AdmittedTypesAreRunnable(step.req.profile.workloadType);
    NewestAppend(s.log, Event(step.id, Queued), step.id);
  }

  lemma StepKeepsPublished(s: State, step: Step, s': State)
    requires PublishedInv(s) && Take(s, step) == Some(s')
    ensures PublishedInv(s')
  {
    CreatesOk(s, step, s');
    LogGrows(s, step, s');
    StepPublishes(s, step, s');
    hide Take, Sending;
    forall t | 0 <= t < |s'.broker.published|
      ensures MessageOk(s'.broker.published[t], s'.log)
    {
      if t < |s.broker.published| {
        assert MessageOk(s.broker.published[t], s.log);
      } else {
        SendingOk(s, step, s');
      }
      if s'.broker.published[t].api {
        StoredStays(s.log, s'.log, s'.broker.published[t].body.sid);
      }
    }
  }

  lemma {:induction false} PublishedAlwaysOk(steps: seq<Step>)
    requires Run(START, steps).Some?
    ensures PublishedInv(Run(START, steps).value)
  {
    hide Take;
    if |steps| == 0 {
    } else {
      var n := |steps| - 1;
      RunLast(START, steps);
      PublishedAlwaysOk(steps[..n]);
      StepKeepsPublished(Run(START, steps[..n]).value, steps[n], Run(START, steps).value);
    }
  }

  /** Result and stop notices never enter any queue. */
  lemma NoticesEnterNoQueue(steps: seq<Step>, s: State, t: nat, p: Place)
    requires Leads(START, steps, s) && t < |s.broker.published|
    requires s.broker.published[t].body.ResultNotice? || s.broker.published[t].body.StopNotice?
    ensures !IsAt(s, t, p)
  {
    hide Take, Run;
    LeadsIsRun(START, steps, s);
    PublishedAlwaysOk(steps);
    EveryMessageInOnePlace(steps, s, t);
    var m := s.broker.published[t];
    assert MessageOk(m, s.log);
    NoticesAreUnrouted(if m.body.ResultNotice? then m.body.sid else "");
  }

  /** In no run, with any faults, is a scenario created through the API ever
      dead-lettered. */
  lemma ApiScenariosAreNeverDeadLettered(steps: seq<Step>, s: State, t: nat, queue: string)
    requires Leads(START, steps, s) && t < |s.broker.published| && s.broker.published[t].api
    ensures !IsAt(s, t, DeadLettered(queue))
  {
    hide Take, Run;
    LeadsIsRun(START, steps, s);
    PublishedAlwaysOk(steps);
    BrokerAlwaysConsistent(steps);
    assert MessageOk(s.broker.published[t], s.log);
    assert OnlyImpossibleDead(s.broker, t);
    hide Impossible, BrokerInv;
    if IsAt(s, t, DeadLettered(queue)) {
      PlaceWeight(s, t, DeadLettered(queue));
    }
  }

  // ----- How often a message is delivered -----

  function Is(t: nat): nat -> bool { (x: nat) => x == t }

  function Owed(t: nat): Handler -> bool {
    (h: Handler) => h.tag == t && h.current && h.stage == Returned(Requeue)
  }

  /** Deliveries so far, plus those that can still come without a new fault, are
      paid for by the first one and the faults. */
  predicate Paid(s: State, t: nat) {
    Count(s.pushes, Is(t)) + Across(s.broker.ready, t) + Count(s.handlers, Owed(t)) <= 1 + Count(s.faults, Is(t))
  }

  predicate ApiTag(s: State, t: nat) { t < |s.broker.published| && s.broker.published[t].api }

  ghost predicate DeliveryInv(s: State) {
    && HandlersInv(s) && BrokerInv(s) && PublishedInv(s)
    && (forall t: nat :: ApiTag(s, t) ==> Paid(s, t))
    && (forall i :: 0 <= i < |s.pushes| ==> s.pushes[i] < |s.broker.published|)
  }

  lemma Unborn(s: State, t: nat)
    requires BrokerInv(s) && t >= |s.broker.published|
    requires forall i :: 0 <= i < |s.pushes| ==> s.pushes[i] < |s.broker.published|
    ensures Count(s.pushes, Is(t)) == 0 && Count(s.handlers, Owed(t)) == 0 && Across(s.broker.ready, t) == 0
  {
    CountZero(s.pushes, Is(t));
    forall i | 0 <= i < |s.handlers|
      ensures !Owed(t)(s.handlers[i])
    {
      assert HandlerLinked(s, i);
    }
    CountZero(s.handlers, Owed(t));
    assert Conserved(s.broker, s.consumers, t);
  }

  lemma PublishReady(b: Broker, m: Message, t: nat)
    ensures Across(Publish(b, m).ready, t) == Across(b.ready, t) + Bit(t == |b.published| && LaneOf(m.key).Some?)
  {
    hide LaneOf;
    if LaneOf(m.key).Some? {
      LaneCount(b.ready, LaneOf(m.key).value, |b.published|, t);
    }
  }

  lemma ActOwes(h: Handler, act: Act, log: seq<Event>, t: nat)
    requires CanAct(h, act, log) && WatcherOk(h)
    requires h.tag == t ==> Stored(log, h.Sid())
    ensures Bit(Owed(t)(After(h, act, |log|))) <= Bit(Owed(t)(h)) + Bit(Faulty(act) && h.tag == t)
  {
    hide Newest, Runnable;
  }

  lemma WorkPaid(s: State, i: nat, act: Act, s': State, t: nat)
    requires DeliveryInv(s) && DoWork(s, i, act) == Some(s') && ApiTag(s, t)
    ensures Paid(s', t)
  {
    var h := s.handlers[i];
    assert HandlerOk(h) && HandlerLinked(s, i) && MessageOk(s.broker.published[t], s.log) && Paid(s, t);
    ActOwes(h, act, s.log, t);
    CountUpdate(s.handlers, i, s'.handlers[i], Owed(t));
    CountAppend(s.faults, h.tag, Is(t));
    PublishReady(s.broker, Message("results." + h.Sid(), ResultNotice(h.Sid()), false), t);
    hide DeliveryInv, After, CanAct, Appended, Counted, Publish, Faulty, Newest, Owed;
  }

  lemma PushPaid(s: State, c: nat, u: nat, s': State, t: nat)
    requires DoPush(s, c, u) == Some(s') && Paid(s, t)
    ensures Paid(s', t)
  {
    LaneCount(s.broker.ready, s.consumers[c].lane, u, t);
    CountAppend(s.pushes, u, Is(t));
    hide Owed;
  }

  lemma BeginPaid(s: State, c: nat, s': State, t: nat)
    requires DoBegin(s, c) == Some(s') && Paid(s, t)
    ensures Paid(s', t)
  {
    CountAppend(s.handlers, s'.handlers[|s.handlers|], Owed(t));
  }

  lemma SettlePaid(s: State, c: nat, send: Send, s': State, t: nat)
    requires DoSettle(s, c, send) == Some(s') && Paid(s, t)
    ensures Paid(s', t)
  {
    var i := s.consumers[c].busy.value;
    var h := s.handlers[i];
    CountUpdate(s.handlers, i, s'.handlers[i], Owed(t));
    CountAppend(s.faults, h.tag, Is(t));
    LaneCount(s.broker.ready, s.consumers[c].lane, h.tag, t);
  }

  lemma LossReady(s: State, c: nat, t: nat)
    requires c < |s.consumers|
    ensures Across(Requeued(s, c).ready, t) == Across(s.broker.ready, t) + Bit(s.consumers[c].unacked == Some(t))
    ensures Count(LossFault(s, c), Is(t)) == Count(s.faults, Is(t)) + Bit(s.consumers[c].unacked == Some(t))
  {
    var cons := s.consumers[c];
    if cons.unacked.Some? {
      CountAppend(s.faults, cons.unacked.value, Is(t));
      LaneCount(s.broker.ready, cons.lane, cons.unacked.value, t);
    }
    hide Across, Count;
  }

  lemma LossOwes(s: State, step: Step, s': State, t: nat)
    requires Take(s, step) == Some(s') && (step.Disconnect? || step.Crash?)
    ensures Count(s'.handlers, Owed(t)) <= Count(s.handlers, Owed(t))
  {
    var cons := s.consumers[step.c];
    if cons.busy.Some? && cons.busy.value < |s.handlers| {
      CountUpdate(s.handlers, cons.busy.value, s'.handlers[cons.busy.value], Owed(t));
    }
    hide Count, Requeued, LossFault;
  }

  lemma LossPaid(s: State, step: Step, s': State, t: nat)
    requires Take(s, step) == Some(s') && (step.Disconnect? || step.Crash?) && Paid(s, t)
    ensures Paid(s', t)
  {
    LossOwes(s, step, s', t);
    LossReady(s, step.c, t);
    hide Across, Count, Owed, Is, Requeued, LossFault;
  }

  lemma ApiPaid(s: State, step: Step, s': State, t: nat)
    requires Take(s, step) == Some(s') && !Channelwise(step) && !step.Work? && Paid(s, t) && t < |s.broker.published|
    ensures Paid(s', t)
  {
    StepPublishes(s, step, s');
    if Sending(s, step).Some? {
      PublishReady(s.broker, Sending(s, step).value, t);
    }
    hide Publish, Owed, Admitted;
  }

  lemma OldPaid(s: State, step: Step, s': State, t: nat)
    requires DeliveryInv(s) && Take(s, step) == Some(s') && ApiTag(s, t)
    ensures Paid(s', t)
  {
    assert Paid(s, t);
    hide DeliveryInv, Paid, DoWork, DoPush, DoBegin, DoSettle;
    if step.Work? {
      WorkPaid(s, step.i, step.act, s', t);
    } else if step.Push? {
      PushPaid(s, step.c, step.t, s', t);
    } else if step.Begin? {
      BeginPaid(s, step.c, s', t);
    } else if step.Settle? {
      SettlePaid(s, step.c, step.send, s', t);
    } else if step.Disconnect? || step.Crash? {
      LossPaid(s, step, s', t);
    } else if step.Quit? {
      QuitPaid(s, step.c, s', t);
    } else {
      ApiPaid(s, step, s', t);
    }
  }

  lemma QuitPaid(s: State, c: nat, s': State, t: nat)
    requires DoQuit(s, c) == Some(s') && Paid(s, t)
    ensures Paid(s', t)
  {
  }

  lemma NewPaid(s: State, step: Step, s': State, t: nat)
    requires DeliveryInv(s) && Take(s, step) == Some(s') && ApiTag(s', t) && t >= |s.broker.published|
    ensures Paid(s', t)
  {
    StepPublishes(s, step, s');
    assert Sending(s, step).Some? && Sending(s, step).value.api;
    assert step.CreatePublish?;
    Unborn(s, t);
    PublishReady(s.broker, Sending(s, step).value, t);
    hide Publish, Owed, DeliveryInv;
  }

  lemma PushesBelow(s: State, step: Step, s': State)
    requires BrokerInv(s) && Take(s, step) == Some(s')
    requires forall i :: 0 <= i < |s.pushes| ==> s.pushes[i] < |s.broker.published|
    ensures forall i :: 0 <= i < |s'.pushes| ==> s'.pushes[i] < |s'.broker.published|
  {
    StepPublishes(s, step, s');
    if step.Push? {
      assert OwnLane(s.broker, step.t);
    }
    hide BrokerInv, Publish, LaneOf, After, CanAct, Appended, Counted, Admitted;
  }

  lemma StepKeepsDelivery(s: State, step: Step, s': State)
    requires DeliveryInv(s) && Take(s, step) == Some(s')
    ensures DeliveryInv(s')
  {
    StepKeepsHandlers(s, step, s');
    StepKeepsBroker(s, step, s');
    StepKeepsPublished(s, step, s');
    PushesBelow(s, step, s');
    StepPublishes(s, step, s');
    hide Take, HandlersInv, BrokerInv, PublishedInv, Paid;
    forall t: nat | ApiTag(s', t)
      ensures Paid(s', t)
    {
      if t < |s.broker.published| {
        OldPaid(s, step, s', t);
      } else {
        NewPaid(s, step, s', t);
      }
    }
  }

  lemma {:induction false} DeliveriesAlwaysPaid(steps: seq<Step>)
    requires Run(START, steps).Some?
    ensures DeliveryInv(Run(START, steps).value)
  {
    hide Take;
    if |steps| == 0 {
      HandlersAlwaysConsistent(steps);
      BrokerAlwaysConsistent(steps);
    } else {
      var n := |steps| - 1;
      RunLast(START, steps);
      DeliveriesAlwaysPaid(steps[..n]);
      StepKeepsDelivery(Run(START, steps[..n]).value, steps[n], Run(START, steps).value);
    }
  }

  // ----- Counted over a whole run -----

  /** The messages delivered by the steps of a run, in order. */
  function PushTags(steps: seq<Step>): seq<nat> {
    if |steps| == 0 then []
    else
      var last := steps[|steps| - 1];
      PushTags(steps[..|steps| - 1]) + (if last.Push? then [last.t] else [])
  }

  /** The steps of a run that are faults: failed or lost calls, lost connections,
      and crashes. */
  function IsFault(): Step -> bool {
    (step: Step) =>
      match step
      case Work(_, act) => Faulty(act)
      case Settle(_, send) => !send.Sent?
      case Disconnect(_, _) => true
      case Crash(_) => true
      case _ => false
  }

  lemma StepHistory(s: State, step: Step, s': State)
    requires Take(s, step) == Some(s')
    ensures s'.pushes == s.pushes + (if step.Push? then [step.t] else [])
    ensures |s'.faults| <= |s.faults| + Bit(IsFault()(step))
  {
    hide After, CanAct, Appended, Counted, Publish, Admitted, Faulty;
  }

  lemma {:induction false} HistoryIsTheRun(steps: seq<Step>)
    requires Run(START, steps).Some?
    ensures Run(START, steps).value.pushes == PushTags(steps)
    ensures |Run(START, steps).value.faults| <= Count(steps, IsFault())
  {
    hide Take;
    if |steps| == 0 {
    } else {
      var n := |steps| - 1;
      RunLast(START, steps);
      HistoryIsTheRun(steps[..n]);
      StepHistory(Run(START, steps[..n]).value, steps[n], Run(START, steps).value);
    }
  }

  function IsApi(): Message -> bool { (m: Message) => m.api }

  function ApiBelow(ms: seq<Message>, n: nat): nat -> bool { (t: nat) => t < n && t < |ms| && ms[t].api }

  function Below(n: nat): nat -> bool { (t: nat) => t < n }

  lemma {:induction false} CountAtMostLength<T>(xs: seq<T>, p: T -> bool)
    ensures Count(xs, p) <= |xs|
  {
    if |xs| == 0 {
    } else {
      CountAtMostLength(xs[..|xs| - 1], p);
    }
  }

  lemma {:induction false} SumOfPaid(s: State, n: nat)
    requires forall t: nat :: ApiTag(s, t) ==> Paid(s, t)
    requires n <= |s.broker.published|
    ensures Count(s.pushes, ApiBelow(s.broker.published, n)) <=
            Count(s.broker.published[..n], IsApi()) + Count(s.faults, Below(n))
  {
    var ms := s.broker.published;
    if n == 0 {
      CountZero(s.pushes, ApiBelow(ms, 0));
    } else {
      var m := n - 1;
      SumOfPaid(s, m);
      CountSplit(s.faults, Below(m), Is(m), Below(n));
      assert ms[..n][..m] == ms[..m];
      if ms[m].api {
        assert ApiTag(s, m) && Paid(s, m);
        CountSplit(s.pushes, ApiBelow(ms, m), Is(m), ApiBelow(ms, n));
      } else {
        CountMonotone(s.pushes, ApiBelow(ms, n), ApiBelow(ms, m));
      }
    }
  }

  /** Over any run, an API-created message is delivered at most once more than the
      faults that hit its own deliveries. */
  lemma DeliveriesOfOneMessage(steps: seq<Step>, s: State, t: nat)
    requires Leads(START, steps, s) && ApiTag(s, t)
    ensures Count(PushTags(steps), Is(t)) <= 1 + Count(s.faults, Is(t))
  {
    hide Take, Run, HandlersInv, BrokerInv, PublishedInv;
    LeadsIsRun(START, steps, s);
    DeliveriesAlwaysPaid(steps);
    HistoryIsTheRun(steps);
    assert Paid(s, t);
  }

  /** Over any run, N API-created messages and F faults make at most N + F
      deliveries of those messages. */
  lemma DeliveryBound(steps: seq<Step>, s: State)
    requires Leads(START, steps, s)
    ensures var ms := s.broker.published;
            Count(PushTags(steps), ApiBelow(ms, |ms|)) <= Count(ms, IsApi()) + Count(steps, IsFault())
  {
    hide Take, Run, HandlersInv, BrokerInv, PublishedInv, Paid;
    LeadsIsRun(START, steps, s);
    DeliveriesAlwaysPaid(steps);
    HistoryIsTheRun(steps);
    SumOfPaid(s, |s.broker.published|);
    assert s.broker.published[..|s.broker.published|] == s.broker.published;
    CountAtMostLength(s.faults, Below(|s.broker.published|));
  }
}
