/** Where messages are. Every routed message is in exactly one place at all times,
    never leaves its own lane, and is dead-lettered only if no worker could ever
    run it; no scenario created through the API is. */
module BrokerSafety {
  import opened Basics
  import opened Workload
  import opened Topology
  import opened Lifecycle

  // ----- Counting places -----

  function Holding(t: nat): Consumer -> bool { (c: Consumer) => c.unacked == Some(t) }

  function Across(ms: Lanes<multiset<nat>>, t: nat): nat { ms.high[t] + ms.low[t] + ms.chaos[t] }

  /** How many places a message is in: ready in some queue, unacknowledged on some
      channel, acknowledged, or in some dead-letter queue. */
  function Places(b: Broker, cs: seq<Consumer>, t: nat): nat {
    Across(b.ready, t) + Count(cs, Holding(t)) + b.acked[t] + Across(b.dead, t)
  }

  predicate InLane(b: Broker, t: nat, l: Lane) {
    t < |b.published| && LaneOf(b.published[t].key) == Some(l)
  }

  predicate Routed(b: Broker, t: nat) { t < |b.published| && LaneOf(b.published[t].key).Some? }

  predicate Conserved(b: Broker, cs: seq<Consumer>, t: nat) { Places(b, cs, t) == Bit(Routed(b, t)) }

  predicate OwnLane(b: Broker, t: nat) {
    forall l: Lane :: (t in b.ready.At(l) ==> InLane(b, t, l)) && (t in b.dead.At(l) ==> InLane(b, t, l))
  }

  predicate Impossible(body: Body) { !body.Scenario? || !Runnable(body.profile.workloadType) }

  predicate OnlyImpossibleDead(b: Broker, t: nat) {
    t < |b.published| && Across(b.dead, t) > 0 ==> Impossible(b.published[t].body)
  }

  // ----- Consumers and handlers -----

  predicate Open(h: Handler) { !h.stage.Settled? && !h.stage.Killed? }

  predicate HandlerLinked(s: State, i: nat)
    requires i < |s.handlers|
  {
    var h := s.handlers[i];
    && h.tag < |s.broker.published| && h.body == s.broker.published[h.tag].body
    && (h.stage == Returned(Reject) ==> Impossible(h.body))
    && (h.current && Open(h) ==>
          h.consumer < |s.consumers| && s.consumers[h.consumer].busy == Some(i) &&
          s.consumers[h.consumer].unacked == Some(h.tag))
  }

  predicate ConsumerLinked(s: State, c: nat)
    requires c < |s.consumers|
  {
    var cons := s.consumers[c];
    && (cons.busy.Some? ==> cons.busy.value < |s.handlers| && s.handlers[cons.busy.value].consumer == c
                            && Open(s.handlers[cons.busy.value]))
    && (cons.busy.Some? ==> cons.inbox.None?)
    && (cons.inbox.Some? ==> cons.inbox.value.tag < |s.broker.published|)
    && (cons.inbox.Some? && cons.inbox.value.current ==> cons.unacked == Some(cons.inbox.value.tag))
    && (cons.unacked.Some? ==> InLane(s.broker, cons.unacked.value, cons.lane))
  }

  predicate Linked(s: State) {
    && (forall i :: 0 <= i < |s.handlers| ==> HandlerLinked(s, i))
    && (forall c :: 0 <= c < |s.consumers| ==> ConsumerLinked(s, c))
  }

  ghost predicate BrokerInv(s: State) {
    && Linked(s)
    && (forall t: nat :: Conserved(s.broker, s.consumers, t))
    && (forall t: nat :: OwnLane(s.broker, t))
    && (forall t: nat :: OnlyImpossibleDead(s.broker, t))
  }

  // ----- Moving one message -----

  lemma LaneCount(ms: Lanes<multiset<nat>>, l: Lane, t: nat, u: nat)
    ensures Across(ms.Put(l, ms.At(l) + multiset{t}), u) == Across(ms, u) + Bit(u == t)
    ensures t in ms.At(l) ==> Across(ms.Put(l, ms.At(l) - multiset{t}), u) == Across(ms, u) - Bit(u == t)
  {
  }

  lemma PublishPlaces(b: Broker, m: Message, cs: seq<Consumer>, t: nat)
    requires Conserved(b, cs, t) && OwnLane(b, t) && OnlyImpossibleDead(b, t)
    ensures var b' := Publish(b, m); Conserved(b', cs, t) && OwnLane(b', t) && OnlyImpossibleDead(b', t)
  {
    hide Impossible, LaneOf;
    if LaneOf(m.key).Some? {
      LaneCount(b.ready, LaneOf(m.key).value, |b.published|, t);
    }
    PublishLane(b, m, t);
    hide OwnLane;
  }

  lemma PublishLane(b: Broker, m: Message, t: nat)
    requires OwnLane(b, t)
    ensures OwnLane(Publish(b, m), t)
  {
    hide LaneOf;
    var b' := Publish(b, m);
    forall k: Lane
      ensures (t in b'.ready.At(k) ==> InLane(b', t, k)) && (t in b'.dead.At(k) ==> InLane(b', t, k))
    {
      assert t in b.ready.At(k) ==> InLane(b, t, k);
    }
  }

  lemma PublishKeepsLinks(s: State, m: Message, s': State)
    requires Linked(s) && s'.broker == Publish(s.broker, m)
    requires s'.handlers == s.handlers && s'.consumers == s.consumers
    ensures Linked(s')
  {
    hide Impossible, LaneOf;
    assert forall t :: 0 <= t < |s.broker.published| ==> s'.broker.published[t] == s.broker.published[t];
    forall i | 0 <= i < |s'.handlers|
      ensures HandlerLinked(s', i)
    {
      assert HandlerLinked(s, i);
    }
    forall c | 0 <= c < |s'.consumers|
      ensures ConsumerLinked(s', c)
    {
      assert ConsumerLinked(s, c);
    }
  }

  lemma PublishKeeps(s: State, m: Message, s': State)
    requires BrokerInv(s) && s'.broker == Publish(s.broker, m)
    requires s'.handlers == s.handlers && s'.consumers == s.consumers
    ensures BrokerInv(s')
  {
    PublishKeepsLinks(s, m, s');
    hide Linked, Publish;
    forall t: nat
      ensures Conserved(s'.broker, s'.consumers, t) && OwnLane(s'.broker, t) && OnlyImpossibleDead(s'.broker, t)
    {
      PublishPlaces(s.broker, m, s.consumers, t);
    }
  }

  lemma SettlingCount(b: Broker, l: Lane, u: nat, v: Verdict, t: nat)
    ensures var b' := Settling(b, l, u, v);
            && b'.published == b.published
            && Across(b'.ready, t) + b'.acked[t] + Across(b'.dead, t) ==
               Across(b.ready, t) + b.acked[t] + Across(b.dead, t) + Bit(t == u)
            && (Across(b'.dead, t) > Across(b.dead, t) ==> v.Reject? && t == u)
  {
    LaneCount(b.ready, l, u, t);
    LaneCount(b.dead, l, u, t);
  }

  lemma SettlingLane(b: Broker, l: Lane, u: nat, v: Verdict, t: nat)
    requires InLane(b, u, l) && OwnLane(b, t)
    ensures OwnLane(Settling(b, l, u, v), t)
  {
    hide LaneOf;
    var b' := Settling(b, l, u, v);
    assert b'.published == b.published;
    forall k: Lane
      ensures (t in b'.ready.At(k) ==> InLane(b', t, k)) && (t in b'.dead.At(k) ==> InLane(b', t, k))
    {
      assert t in b'.ready.At(k) ==> t in b.ready.At(k) || (t == u && k == l);
      assert t in b'.dead.At(k) ==> t in b.dead.At(k) || (t == u && k == l);
    }
  }

  /** A consumer gives up the message it holds, and the broker puts it somewhere. */
  lemma Released(b: Broker, cs: seq<Consumer>, c: nat, cons: Consumer, v: Verdict, t: nat)
    requires c < |cs| && cs[c].unacked.Some? && cons.unacked.None? && InLane(b, cs[c].unacked.value, cs[c].lane)
    requires v.Reject? ==> Impossible(b.published[cs[c].unacked.value].body)
    requires Conserved(b, cs, t) && OwnLane(b, t) && OnlyImpossibleDead(b, t)
    ensures var b' := Settling(b, cs[c].lane, cs[c].unacked.value, v); var cs' := cs[c := cons];
            Conserved(b', cs', t) && OwnLane(b', t) && OnlyImpossibleDead(b', t)
  {
    CountUpdate(cs, c, cons, Holding(t));
    SettlingCount(b, cs[c].lane, cs[c].unacked.value, v, t);
    SettlingLane(b, cs[c].lane, cs[c].unacked.value, v, t);
    hide Impossible, LaneOf, Settling, OwnLane, Across;
  }

  lemma TakenLane(b: Broker, l: Lane, u: nat, t: nat)
    requires u in b.ready.At(l) && OwnLane(b, t)
    ensures OwnLane(b.Dequeue(l, u), t)
    ensures Across(b.Dequeue(l, u).ready, t) + Bit(t == u) == Across(b.ready, t)
  {
    LaneCount(b.ready, l, u, t);
    hide LaneOf, Across;
    var b' := b.Dequeue(l, u);
    assert b'.published == b.published && b'.dead == b.dead;
    forall k: Lane
      ensures (t in b'.ready.At(k) ==> InLane(b', t, k)) && (t in b'.dead.At(k) ==> InLane(b', t, k))
    {
      assert t in b'.ready.At(k) ==> t in b.ready.At(k);
    }
  }

  lemma Taken(b: Broker, cs: seq<Consumer>, c: nat, cons: Consumer, u: nat, t: nat)
    requires c < |cs| && cs[c].unacked.None? && cons.unacked == Some(u) && u in b.ready.At(cs[c].lane)
    requires Conserved(b, cs, t) && OwnLane(b, t) && OnlyImpossibleDead(b, t)
    ensures var b' := b.Dequeue(cs[c].lane, u); var cs' := cs[c := cons];
            Conserved(b', cs', t) && OwnLane(b', t) && OnlyImpossibleDead(b', t)
  {
    CountUpdate(cs, c, cons, Holding(t));
    TakenLane(b, cs[c].lane, u, t);
    assert b.Dequeue(cs[c].lane, u).published == b.published && b.Dequeue(cs[c].lane, u).dead == b.dead;
    assert b.Dequeue(cs[c].lane, u).acked == b.acked;
    hide Impossible, LaneOf, OwnLane, Across, Broker.Dequeue;
  }

  lemma Untouched(b: Broker, cs: seq<Consumer>, c: nat, cons: Consumer, t: nat)
    requires c < |cs| && cs[c].unacked == cons.unacked && Conserved(b, cs, t)
    ensures Conserved(b, cs[c := cons], t)
  {
    CountUpdate(cs, c, cons, Holding(t));
  }

  // ----- One step -----

  predicate Channelwise(step: Step) {
    step.Push? || step.Begin? || step.Settle? || step.Disconnect? || step.Crash? || step.Quit?
  }

  predicate Placed(b: Broker, cs: seq<Consumer>, t: nat) {
    Conserved(b, cs, t) && OwnLane(b, t) && OnlyImpossibleDead(b, t)
  }

  lemma PushPlaces(s: State, c: nat, u: nat, s': State, t: nat)
    requires DoPush(s, c, u) == Some(s') && Placed(s.broker, s.consumers, t)
    ensures Placed(s'.broker, s'.consumers, t)
  {
    Taken(s.broker, s.consumers, c, s'.consumers[c], u, t);
  }

  lemma SettlePlaces(s: State, c: nat, send: Send, s': State, t: nat)
    requires DoSettle(s, c, send) == Some(s') && Placed(s.broker, s.consumers, t) && Linked(s)
    ensures Placed(s'.broker, s'.consumers, t)
  {
    assert ConsumerLinked(s, c);
    var i := s.consumers[c].busy.value;
    assert HandlerLinked(s, i);
    hide Conserved, OwnLane, OnlyImpossibleDead, Settling, LaneOf;
    if s.handlers[i].current && send.Applied() {
      Released(s.broker, s.consumers, c, s'.consumers[c], s.handlers[i].stage.verdict, t);
    } else {
      Untouched(s.broker, s.consumers, c, s'.consumers[c], t);
    }
  }

  lemma LossPlaces(s: State, c: nat, cons: Consumer, t: nat)
    requires c < |s.consumers| && cons.unacked.None? && Placed(s.broker, s.consumers, t) && Linked(s)
    ensures Placed(Requeued(s, c), s.consumers[c := cons], t)
  {
    assert ConsumerLinked(s, c);
    hide Conserved, OwnLane, OnlyImpossibleDead, LaneOf;
    if s.consumers[c].unacked.Some? {
      Released(s.broker, s.consumers, c, cons, Requeue, t);
    } else {
      Untouched(s.broker, s.consumers, c, cons, t);
    }
  }

  lemma PlacesKept(s: State, step: Step, s': State, t: nat)
    requires BrokerInv(s) && Take(s, step) == Some(s') && Channelwise(step)
    ensures Placed(s'.broker, s'.consumers, t)
  {
    hide Linked, Conserved, OwnLane, OnlyImpossibleDead, Requeued;
    var c := step.c;
    assert Placed(s.broker, s.consumers, t);
    if step.Push? {
      PushPlaces(s, c, step.t, s', t);
    } else if step.Settle? {
      SettlePlaces(s, c, step.send, s', t);
    } else if step.Disconnect? || step.Crash? {
      LossPlaces(s, c, s'.consumers[c], t);
    } else {
      Untouched(s.broker, s.consumers, c, s'.consumers[c], t);
    }
  }

  lemma ChannelKeepsPublished(s: State, step: Step, s': State)
    requires Take(s, step) == Some(s') && Channelwise(step)
    ensures s'.broker.published == s.broker.published
  {
  }

  lemma HandlerLinksKept(s: State, step: Step, s': State)
    requires Linked(s) && Take(s, step) == Some(s') && Channelwise(step)
    ensures forall i :: 0 <= i < |s'.handlers| ==> HandlerLinked(s', i)
  {
    ChannelKeepsPublished(s, step, s');
    hide Impossible, LaneOf, Settling;
    assert ConsumerLinked(s, step.c);
    forall i | 0 <= i < |s'.handlers|
      ensures HandlerLinked(s', i)
    {
      if i < |s.handlers| {
        assert HandlerLinked(s, i);
      }
    }
  }

  lemma ConsumerLinksKept(s: State, step: Step, s': State)
    requires Linked(s) && Take(s, step) == Some(s') && Channelwise(step)
    requires forall t: nat :: OwnLane(s.broker, t)
    ensures forall c :: 0 <= c < |s'.consumers| ==> ConsumerLinked(s', c)
  {
    ChannelKeepsPublished(s, step, s');
    hide Impossible, LaneOf, Settling;
    assert ConsumerLinked(s, step.c);
    if step.Push? {
      assert OwnLane(s.broker, step.t);
    }
    forall c | 0 <= c < |s'.consumers|
      ensures ConsumerLinked(s', c)
    {
      assert ConsumerLinked(s, c);
    }
  }

  lemma ChannelStep(s: State, step: Step, s': State)
    requires BrokerInv(s) && Take(s, step) == Some(s') && Channelwise(step)
    ensures BrokerInv(s')
  {
    HandlerLinksKept(s, step, s');
    ConsumerLinksKept(s, step, s');
    hide Take, HandlerLinked, ConsumerLinked, Conserved, OwnLane, OnlyImpossibleDead;
    forall t: nat
      ensures Conserved(s'.broker, s'.consumers, t) && OwnLane(s'.broker, t) && OnlyImpossibleDead(s'.broker, t)
    {
      PlacesKept(s, step, s', t);
    }
  }

  lemma ActKeepsIdentity(h: Handler, act: Act, log: seq<Event>)
    requires CanAct(h, act, log)
    ensures var h' := After(h, act, |log|);
            && h'.tag == h.tag && h'.consumer == h.consumer && h'.body == h.body && h'.current == h.current
            && (Open(h') <==> Open(h))
            && (h'.stage == Returned(Reject) ==> h.stage == Returned(Reject) || Impossible(h.body))
  {
    hide Runnable;
  }

  lemma ActKeepsLinks(s: State, i: nat, act: Act, m: State)
    requires Linked(s) && i < |s.handlers| && CanAct(s.handlers[i], act, s.log)
    requires m == s.(handlers := s.handlers[i := After(s.handlers[i], act, |s.log|)])
    ensures Linked(m)
  {
    ActKeepsIdentity(s.handlers[i], act, s.log);
    hide After, CanAct, Impossible, LaneOf;
    forall j | 0 <= j < |m.handlers|
      ensures HandlerLinked(m, j)
    {
      assert HandlerLinked(s, j);
    }
    forall c | 0 <= c < |m.consumers|
      ensures ConsumerLinked(m, c)
    {
      assert ConsumerLinked(s, c);
    }
  }

  /** The links and places only depend on these parts of the state. */
  lemma SameBroker(s: State, s': State)
    requires BrokerInv(s)
    requires s'.broker == s.broker && s'.consumers == s.consumers && s'.handlers == s.handlers
    ensures BrokerInv(s')
  {
    hide Conserved, OwnLane, OnlyImpossibleDead, Impossible, LaneOf;
    forall i | 0 <= i < |s'.handlers|
      ensures HandlerLinked(s', i)
    {
      assert HandlerLinked(s, i);
    }
    forall c | 0 <= c < |s'.consumers|
      ensures ConsumerLinked(s', c)
    {
      assert ConsumerLinked(s, c);
    }
  }

  lemma WorkStep(s: State, i: nat, act: Act, s': State)
    requires BrokerInv(s) && DoWork(s, i, act) == Some(s')
    ensures BrokerInv(s')
  {
    var h := s.handlers[i];
    var m := s.(handlers := s'.handlers);
    ActKeepsLinks(s, i, act, m);
    hide After, CanAct, Linked, Conserved, OwnLane, OnlyImpossibleDead, Publish;
    assert BrokerInv(m);
    if act.PublishResult? && act.send.Applied() {
      PublishKeeps(m, Message("results." + h.Sid(), ResultNotice(h.Sid()), false), m.(broker := s'.broker));
      SameBroker(m.(broker := s'.broker), s');
    } else {
      SameBroker(m, s');
    }
  }

  lemma ConsumerAdded(s: State, lane: Lane, s': State)
    requires BrokerInv(s) && DoAddConsumer(s, lane) == Some(s')
    ensures BrokerInv(s')
  {
    hide OwnLane, OnlyImpossibleDead, Impossible, LaneOf;
    forall t: nat
      ensures Conserved(s'.broker, s'.consumers, t)
    {
      assert Conserved(s.broker, s.consumers, t);
      CountAppend(s.consumers, s'.consumers[|s.consumers|], Holding(t));
    }
    forall i | 0 <= i < |s'.handlers|
      ensures HandlerLinked(s', i)
    {
      assert HandlerLinked(s, i);
    }
    forall c | 0 <= c < |s'.consumers|
      ensures ConsumerLinked(s', c)
    {
      if c < |s.consumers| {
        assert ConsumerLinked(s, c);
      }
    }
  }

  lemma ApiStep(s: State, step: Step, s': State)
    requires BrokerInv(s) && Take(s, step) == Some(s')
    requires step.CreateStore? || step.CreatePublish? || step.StopRead? || step.StopAppend? || step.StopPublish? ||
             step.ForeignPublish?
    ensures BrokerInv(s')
  {
    hide BrokerInv, Publish, Admitted;
    var m := s.(broker := s'.broker);
    if step.CreatePublish? && step.send.Applied() {
      var c := s.creates[step.k];
      PublishKeeps(s, Message(c.profile.targetQueue, Scenario(c.sid, c.profile), true), m);
    } else if step.StopPublish? && step.send.Applied() {
      PublishKeeps(s, Message("scenario.stop", StopNotice(s.stops[step.k].sid), false), m);
    } else if step.ForeignPublish? {
      PublishKeeps(s, Message(step.key, step.body, false), m);
    }
    SameBroker(m, s');
  }

  lemma StepKeepsBroker(s: State, step: Step, s': State)
    requires BrokerInv(s) && Take(s, step) == Some(s')
    ensures BrokerInv(s')
  {
    hide BrokerInv;
    if Channelwise(step) {
      ChannelStep(s, step, s');
    } else if step.Work? {
      WorkStep(s, step.i, step.act, s');
    } else if step.AddConsumer? {
      ConsumerAdded(s, step.lane, s');
    } else {
      ApiStep(s, step, s');
    }
  }

  lemma {:induction false} BrokerAlwaysConsistent(steps: seq<Step>)
    requires Run(START, steps).Some?
    ensures BrokerInv(Run(START, steps).value)
  {
    hide Take;
    if |steps| == 0 {
      forall t: nat
        ensures Conserved(START.broker, START.consumers, t)
      {
        CountZero(START.consumers, Holding(t));
      }
    } else {
      var n := |steps| - 1;
      RunLast(START, steps);
      BrokerAlwaysConsistent(steps[..n]);
      StepKeepsBroker(Run(START, steps[..n]).value, steps[n], Run(START, steps).value);
    }
  }

  // ----- What it means -----

  datatype Place = Ready(queue: string) | Unacked(consumer: nat) | Acked | DeadLettered(queue: string)

  /** The places of the broker, in terms of the declared queues. */
  predicate IsAt(s: State, t: nat, p: Place) {
    match p
    case Ready(q) => exists l: Lane :: q == QueueName(l) && t in s.broker.ready.At(l)
    case Unacked(c) => c < |s.consumers| && s.consumers[c].unacked == Some(t)
    case Acked => t in s.broker.acked
    case DeadLettered(q) => exists l: Lane :: q == DlqName(l) && t in s.broker.dead.At(l)
  }

  /** The only queue the topology lets a message with this key into, and the only
      dead-letter queue it can be rejected to. */
  predicate AllowedPlace(key: string, p: Place) {
    match p
    case Ready(q) => Route(BINDINGS, EXCHANGE, key) == {q}
    case DeadLettered(q) => Route(BINDINGS, DLX, key) == {q}
    case _ => Route(BINDINGS, EXCHANGE, key) != {}
  }

  lemma LaneRoutes(key: string, l: Lane)
    requires LaneOf(key) == Some(l)
    ensures Route(BINDINGS, EXCHANGE, key) == {QueueName(l)} && Route(BINDINGS, DLX, key) == {DlqName(l)}
  {
    LiveRouting(key);
    DeadLetterRouting(l);
    DeclaredArguments(l);
    LaneKey(l, key);
  }

  lemma PlaceCounts(s: State, t: nat, p: Place)
    requires BrokerInv(s) && IsAt(s, t, p)
    ensures Places(s.broker, s.consumers, t) >= 1 && t < |s.broker.published|
    ensures AllowedPlace(s.broker.published[t].key, p)
  {
    hide Route, QueueName, DlqName, LaneOf, Linked;
    assert Conserved(s.broker, s.consumers, t) && OwnLane(s.broker, t);
    match p {
      case Ready(q) =>
        var l: Lane :| q == QueueName(l) && t in s.broker.ready.At(l);
        LaneRoutes(s.broker.published[t].key, l);
      case Unacked(c) =>
        CountPositive(s.consumers, c, Holding(t));
        LaneRoutes(s.broker.published[t].key, LaneOf(s.broker.published[t].key).value);
      case Acked =>
        LaneRoutes(s.broker.published[t].key, LaneOf(s.broker.published[t].key).value);
      case DeadLettered(q) =>
        var l: Lane :| q == DlqName(l) && t in s.broker.dead.At(l);
        LaneRoutes(s.broker.published[t].key, l);
    }
  }

  lemma {:induction false} CountTwo<T>(xs: seq<T>, i: nat, j: nat, p: T -> bool)
    requires i < j < |xs| && p(xs[i]) && p(xs[j])
    ensures Count(xs, p) >= 2
  {
    var n := |xs| - 1;
    if j == n {
      CountPositive(xs[..n], i, p);
    } else {
      CountTwo(xs[..n], i, j, p);
    }
  }

  lemma SameHolder(s: State, t: nat, p: Place, q: Place)
    requires IsAt(s, t, p) && IsAt(s, t, q) && p.Unacked? && q.Unacked? && Count(s.consumers, Holding(t)) <= 1
    ensures p == q
  {
    hide Count;
    if p.consumer < q.consumer {
      CountTwo(s.consumers, p.consumer, q.consumer, Holding(t));
    } else if q.consumer < p.consumer {
      CountTwo(s.consumers, q.consumer, p.consumer, Holding(t));
    }
  }

  lemma SameQueue(key: string, p: Place, q: Place)
    requires AllowedPlace(key, p) && AllowedPlace(key, q)
    requires (p.Ready? && q.Ready?) || (p.DeadLettered? && q.DeadLettered?)
    ensures p == q
  {
    hide Route, QueueName, DlqName, LaneOf;
    assert p.queue in {p.queue} && {p.queue} == {q.queue};
  }

  lemma OnePlaceAtMost(s: State, t: nat, p: Place, q: Place)
    requires BrokerInv(s) && IsAt(s, t, p) && IsAt(s, t, q)
    ensures p == q
  {
    PlaceCounts(s, t, p);
    PlaceCounts(s, t, q);
    assert Conserved(s.broker, s.consumers, t);
    PlaceWeight(s, t, p);
    PlaceWeight(s, t, q);
    hide BrokerInv, IsAt, AllowedPlace, Across, Count;
    if p.Unacked? && q.Unacked? {
      SameHolder(s, t, p, q);
    } else if (p.Ready? && q.Ready?) || (p.DeadLettered? && q.DeadLettered?) {
      SameQueue(s.broker.published[t].key, p, q);
    }
  }

  lemma PlaceWeight(s: State, t: nat, p: Place)
    requires IsAt(s, t, p)
    ensures p.Ready? ==> Across(s.broker.ready, t) >= 1
    ensures p.Unacked? ==> Count(s.consumers, Holding(t)) >= 1
    ensures p.Acked? ==> s.broker.acked[t] >= 1
    ensures p.DeadLettered? ==> Across(s.broker.dead, t) >= 1
  {
    hide QueueName, DlqName;
    match p {
      case Ready(q) => var l: Lane :| q == QueueName(l) && t in s.broker.ready.At(l);
      case Unacked(c) => CountPositive(s.consumers, c, Holding(t));
      case Acked =>
      case DeadLettered(q) => var l: Lane :| q == DlqName(l) && t in s.broker.dead.At(l);
    }
  }

  lemma SomePlace(s: State, t: nat) returns (p: Place)
    requires Places(s.broker, s.consumers, t) >= 1
    ensures IsAt(s, t, p)
  {
    hide QueueName, DlqName;
    var b := s.broker;
    if t in b.acked {
      p := Acked;
    } else if l: Lane :| t in b.ready.At(l) {
      p := Ready(QueueName(l));
    } else if l: Lane :| t in b.dead.At(l) {
      p := DeadLettered(DlqName(l));
    } else {
      assert t !in b.ready.At(High) && t !in b.ready.At(Low) && t !in b.ready.At(Chaos);
      assert t !in b.dead.At(High) && t !in b.dead.At(Low) && t !in b.dead.At(Chaos);
      var c := CountWitness(s.consumers, Holding(t));
      p := Unacked(c);
    }
  }

  /** What Routed says is what the declared bindings do. */
  lemma RoutedByBindings(b: Broker, t: nat)
    requires t < |b.published|
    ensures Routed(b, t) <==> Route(BINDINGS, EXCHANGE, b.published[t].key) != {}
  {
    LiveRouting(b.published[t].key);
  }

  ghost predicate OnlyAt(s: State, t: nat, p: Place) { IsAt(s, t, p) && forall q: Place :: IsAt(s, t, q) ==> q == p }

  /** In every reachable state every message that was routed anywhere is in exactly
      one place, and its key allows that place; one that was not routed is in none.
      In particular a rejected message is in its own queue's dead-letter queue. */
  lemma EveryMessageInOnePlace(steps: seq<Step>, s: State, t: nat)
    requires Leads(START, steps, s) && t < |s.broker.published|
    ensures if Routed(s.broker, t) then exists p: Place :: OnlyAt(s, t, p) && AllowedPlace(s.broker.published[t].key, p)
            else forall p: Place :: !IsAt(s, t, p)
    ensures Places(s.broker, s.consumers, t) == Bit(Routed(s.broker, t))
  {
    LeadsIsRun(START, steps, s);
    BrokerAlwaysConsistent(steps);
    hide Take, Run, AllowedPlace, IsAt;
    var key := s.broker.published[t].key;
    assert Conserved(s.broker, s.consumers, t);
    if LaneOf(key).None? {
      forall p: Place | IsAt(s, t, p)
        ensures false
      {
        PlaceCounts(s, t, p);
      }
    } else {
      var p := SomePlace(s, t);
      PlaceCounts(s, t, p);
      forall q: Place | IsAt(s, t, q)
        ensures q == p
      {
        OnePlaceAtMost(s, t, p, q);
      }
      assert OnlyAt(s, t, p);
    }
  }
}
