/** The loop that takes deliveries, has them handled, and settles them
    (internal/messaging/rabbitmq.go, Consume), as code that runs beside everything
    else in the system. */
module Consumption {
  import opened Basics
  import opened Lifecycle
  import opened BrokerSafety
  import opened Runtime
  import opened Worker

  /** What the loops meet next: the end of the context; a channel that cannot be set up
      or is closed, both of which go with a reconnect, whose effect on deliveries is a
      Disconnect among the others' steps; or room for a delivery, with how its handling
      and its settle go. */
  datatype Turn =
    | Cancelled
    | SetUpFailed(meanwhile: seq<Step>)
    | Closed(meanwhile: seq<Step>)
    | Delivery(before: seq<Step>, plan: Plan, send: Send)

  /** How Consume ended, or that it waits for more. */
  datatype End = ByContext | SettleFailed | Consuming

  // ----- What a turn leaves behind -----

  /** What happened in a turn: Consume quit; it had nothing to settle; no delivery was
      there; or delivery i was taken, handled during `during` with these replies and
      this verdict, and settled, when it was still current on its channel or not. */
  datatype What =
    | Ended
    | Away
    | Nothing
    | Served(i: nat, body: Body, during: seq<Step>, replies: Replies, verdict: Verdict, current: bool)

  /** A turn's place in the run: from where it began to where it ended. */
  datatype Pass = Pass(from: seq<Step>, to: seq<Step>, what: What)

  function Ours(c: nat): Step -> bool { (step: Step) => OfConsumer(c, step) }

  /** The run after the others have taken the steps they can. */
  function Meanwhile(past: seq<Step>, others: seq<Step>, c: nat): seq<Step> {
    match Run(START, past)
    case Some(s) => past + Doable(s, others, Ours(c))
    case None => past
  }

  ghost predicate NothingThere(past: seq<Step>, c: nat) {
    match Run(START, past)
    case Some(s) => c < |s.consumers| && s.consumers[c].inbox.None?
    case None => false
  }

  ghost predicate TakenBy(past: seq<Step>, c: nat, i: nat, body: Body) {
    match Run(START, past)
    case Some(s) =>
      c < |s.consumers| && s.consumers[c].busy == Some(i) && i < |s.handlers| && s.handlers[i].body == body
    case None => false
  }

  ghost predicate ReturnedWith(past: seq<Step>, i: nat, verdict: Verdict, current: bool) {
    match Run(START, past)
    case Some(s) => i < |s.handlers| && s.handlers[i].stage == Returned(verdict) && s.handlers[i].current == current
    case None => false
  }

  /** A delivery that is no longer current can only be settled in vain. */
  function SettledBy(current: bool, send: Send): Send { if current then send else SendFailed }

  /** The turn went as the pass says: the others took their steps, and then the
      delivery that was there was taken, handled and settled. */
  ghost predicate Passed(c: nat, turn: Turn, pass: Pass) {
    match turn
    case Cancelled => pass.what.Ended? && pass.to == pass.from + [Quit(c)]
    case SetUpFailed(others) => pass.what.Away? && pass.to == Meanwhile(pass.from, others, c)
    case Closed(others) => pass.what.Away? && pass.to == Meanwhile(pass.from, others, c)
    case Delivery(others, plan, send) =>
      var before := Meanwhile(pass.from, others, c);
      match pass.what
      case Nothing => pass.to == before && NothingThere(before, c)
      case Served(i, body, during, replies, verdict, current) =>
        && pass.to == before + [Begin(c)] + during + [Settle(c, SettledBy(current, send))]
        && TakenBy(before + [Begin(c)], c, i, body)
        && OwnActs(during, i) == Script(body, plan, replies) && Answers(plan, replies)
        && ReturnedWith(before + [Begin(c)] + during, i, verdict, current)
      case _ => false
  }

  /** The consumer's own steps in a turn. */
  function Mark(c: nat, turn: Turn, pass: Pass): seq<Step> {
    if pass.what.Ended? then [Quit(c)]
    else if pass.what.Served? && turn.Delivery? then [Begin(c), Settle(c, SettledBy(pass.what.current, turn.send))]
    else []
  }

  function Marks(c: nat, turns: seq<Turn>, passes: seq<Pass>): seq<Step>
    requires |passes| <= |turns|
  {
    if |passes| == 0 then []
    else
      var n := |passes| - 1;
      Marks(c, turns, passes[..n]) + Mark(c, turns[n], passes[n])
  }

  /** How a turn ends Consume, if it does. */
  function Ends(turn: Turn, pass: Pass): End {
    if turn.Cancelled? then ByContext
    else if turn.Delivery? && pass.what.Served? && !SettledBy(pass.what.current, turn.send).ReportedOk()
    then SettleFailed
    else Consuming
  }

  /** The run reached by the passes, which began at `start`. */
  function Reached(start: seq<Step>, passes: seq<Pass>): seq<Step> {
    if passes == [] then start else passes[|passes| - 1].to
  }

  /** The run from `start` to `history` is these turns, one after the other, each gone
      as its pass says; the consumer took no other step, and none but the last of them
      can have ended it. */
  ghost predicate Going(history: seq<Step>, start: seq<Step>, c: nat, turns: seq<Turn>, passes: seq<Pass>) {
    && |passes| <= |turns| && start <= history && history == Reached(start, passes)
    && (forall k :: 0 <= k < |passes| ==>
          Passed(c, turns[k], passes[k]) && passes[k].from == Reached(start, passes[..k]))
    && OwnSteps(history[|start|..], c) == Marks(c, turns, passes)
    && (forall k :: 0 <= k < |passes| - 1 ==> Ends(turns[k], passes[k]).Consuming?)
  }

  lemma OneMorePass(history: seq<Step>, more: seq<Step>, start: seq<Step>, c: nat, turns: seq<Turn>,
                    passes: seq<Pass>, pass: Pass)
    requires Going(history, start, c, turns, passes) && |passes| < |turns| && Ending(turns, passes).Consuming?
    requires Passed(c, turns[|passes|], pass) && pass.from == history && pass.to == history + more
    requires OwnSteps(more, c) == Mark(c, turns[|passes|], pass)
    ensures Going(history + more, start, c, turns, passes + [pass])
  {
    var n := |passes|;
    hide Passed, OwnSteps, Mark;
    forall k | 0 <= k <= n
      ensures (passes + [pass])[..k] == passes[..k]
    {
    }
    assert passes[..n] == passes;
    assert (history + more)[|start|..] == history[|start|..] + more;
    OwnStepsConcat(history[|start|..], more, c);
  }

  // ----- The code -----

  class Consumer {
    const system: System
    const index: nat

    constructor (system: System, index: nat)
      ensures this.system == system && this.index == index
    {
      this.system, this.index := system, index;
    }

    ghost predicate Idle()
      reads this, system
    {
      && system.Valid() && index < |system.state.consumers|
      && system.state.consumers[index].alive && system.state.consumers[index].busy.None?
    }

    method Others(steps: seq<Step>) returns (ghost taken: seq<Step>)
      requires system.Valid() && index < |system.state.consumers|
      modifies system
      ensures system.Valid() && SameConsumer(old(system.state), system.state, index)
      ensures system.history == old(system.history) + taken && OwnSteps(taken, index) == []
      ensures system.history == Meanwhile(old(system.history), steps, index)
    {
      hide Run;
      taken := system.Interfere(steps, Ours(index));
      ConsumerKept(old(system.state), taken, index);
      NoOwnSteps(taken, index);
    }

    /** Takes the delivery the client library has, if there is one. */
    method Take() returns (i: Option<nat>)
      requires Idle()
      modifies system
      ensures i.None? ==> system.state == old(system.state) && system.history == old(system.history)
      ensures i.None? <==> old(system.state.consumers[index].inbox.None?)
      ensures i.Some? ==>
                && system.Valid() && system.history == old(system.history) + [Begin(index)]
                && InHand(system.state, i.value, index)
                && system.state.handlers[i.value].stage.Decoding? && !system.state.handlers[i.value].cancelled
                && index < |system.state.consumers|
                && system.state.consumers[index].busy == i && system.state.consumers[index].alive
    {
      BrokerAlwaysConsistent(system.history);
      assert ConsumerLinked(system.state, index);
      var cons := system.state.consumers[index];
      if cons.inbox.None? { return None; }
      ghost var was := system.state;
      var t := cons.inbox.value.tag;
      i := Some(|system.state.handlers|);
      var h := Handler(t, index, system.state.broker.published[t].body, cons.inbox.value.current,
                       Decoding, NotStarted, false, NOTHING, 0, 0);
      system.state := system.state.(
        consumers := system.state.consumers[index := cons.(inbox := None, busy := i)],
        handlers := system.state.handlers + [h]);
      hide Run, BrokerInv;
      system.Note(Begin(index), was);
    }

    /** Acks or nacks what the handler returned for, on the channel the delivery came
        from: nil is acked, an UnrecoverableError is nacked without and any other error
        with requeueing. A lost delivery can only be settled in vain. */
    method Settle(i: nat, verdict: Verdict, send: Send) returns (ok: bool)
      requires system.Valid() && index < |system.state.consumers|
      requires system.state.consumers[index].busy == Some(i) && i < |system.state.handlers|
      requires system.state.handlers[i].stage == Returned(verdict)
      modifies system
      ensures system.Valid()
      ensures var sent := SettledBy(old(system.state.handlers[i].current), send);
              ok == sent.ReportedOk() && system.history == old(system.history) + [Lifecycle.Settle(index, sent)]
      ensures ok <==> old(system.state.handlers[i].current) && send.ReportedOk()
      ensures system.history == old(system.history) +
              [Lifecycle.Settle(index, if old(system.state.handlers[i].current) then send else SendFailed)]
      ensures |system.state.handlers| == |old(system.state.handlers)| && system.state.handlers[i].stage.Settled?
      ensures |system.state.consumers| == |old(system.state.consumers)| && system.state.consumers[index].busy.None?
      ensures system.state.consumers[index].alive <==> old(system.state.consumers[index].alive) && ok
      ensures var h := old(system.state.handlers[i]); var cons := old(system.state.consumers[index]);
              var b := old(system.state.broker);
              if h.current && send.Applied() then
                system.state.consumers[index].unacked.None? && system.state.broker ==
                (match verdict
                 case Ack => b.(acked := b.acked + multiset{h.tag})
                 case Requeue => b.Enqueue(cons.lane, h.tag)
                 case Reject => b.Bury(cons.lane, h.tag))
              else system.state.consumers[index].unacked == cons.unacked && system.state.broker == b
    {
      ghost var was := system.state;
      var s, cons, h := system.state, system.state.consumers[index], system.state.handlers[i];
      var call := if h.current then send else SendFailed;
      if h.current && call.Applied() {
        var b := s.broker;
        if verdict.Reject? {
          b := b.Bury(cons.lane, h.tag);
        } else if verdict.Requeue? {
          b := b.Enqueue(cons.lane, h.tag);
        } else {
          b := b.(acked := b.acked + multiset{h.tag});
        }
        s := s.(broker := b);
        cons := cons.(unacked := None);
      }
      ok := call.ReportedOk();
      s := s.(consumers := s.consumers[index := cons.(busy := None, alive := cons.alive && ok)],
              handlers := s.handlers[i := h.(stage := Settled)]);
      if !call.Sent? { s := s.(faults := s.faults + [h.tag]); }
      system.state := s;
      hide Run;
      system.Note(Lifecycle.Settle(index, call), was);
    }

    method Quit() returns (ghost steps: seq<Step>)
      requires Idle()
      modifies system
      ensures system.Valid() && steps == [Lifecycle.Quit(index)] && system.history == old(system.history) + steps
      ensures OwnSteps(steps, index) == steps
      ensures index < |system.state.consumers| && !system.state.consumers[index].alive &&
              system.state.consumers[index].busy.None?
    {
      ghost var was := system.state;
      system.state := system.state.(
        consumers := system.state.consumers[index := system.state.consumers[index].(alive := false)]);
      hide Run;
      steps := [Lifecycle.Quit(index)];
      system.Note(Lifecycle.Quit(index), was);
      OwnStepsOne(Lifecycle.Quit(index), index);
    }

    /** The handler of delivery i, from its start to its return. */
    method Handle(i: nat, plan: Plan) returns (verdict: Verdict, ghost replies: Replies, ghost during: seq<Step>)
      requires system.Valid() && InHand(system.state, i, index) && index < |system.state.consumers|
      requires system.state.handlers[i].stage.Decoding? && !system.state.handlers[i].cancelled
      modifies system
      ensures system.Valid() && system.history == old(system.history) + during &&
              SameConsumer(old(system.state), system.state, index)
      ensures i < |system.state.handlers| && system.state.handlers[i].stage == Returned(verdict)
      ensures OwnSteps(during, index) == [] && Answers(plan, replies)
      ensures OwnActs(during, i) == Script(old(system.state.handlers[i].body), plan, replies)
    {
      hide Run, Script, Answers;
      var worker := new Worker(system, i, index);
      verdict, replies := worker.HandleMessage(plan);
      during := worker.since;
      OnlyOthers(during, index);
      worker.JournalRuns();
      RunConcat(START, old(system.history), during);
      ConsumerKept(old(system.state), during, index);
    }

    /** One delivery, if there is one, from its arrival to its settle. */
    method Serve(turn: Turn) returns (ok: bool, ghost pass: Pass, ghost steps: seq<Step>)
      requires Idle() && turn.Delivery?
      modifies system
      ensures system.Valid() && system.history == old(system.history) + steps
      ensures index < |system.state.consumers| && system.state.consumers[index].busy.None?
      ensures system.state.consumers[index].alive <==> ok
      ensures ok <==> Ends(turn, pass).Consuming?
      ensures Passed(index, turn, pass) && pass.from == old(system.history) && pass.to == system.history
      ensures OwnSteps(steps, index) == Mark(index, turn, pass)
    {
      hide Run, Script, Answers, OwnSteps, OwnActs, Meanwhile, BrokerInv;
      steps := Others(turn.before);
      ghost var before := system.history;
      var i := Take();
      if i.None? {
        pass := Pass(old(system.history), system.history, Nothing);
        return true, pass, steps;
      }
      ghost var body := system.state.handlers[i.value].body;
      var verdict;
      ghost var replies, during;
      verdict, replies, during := Handle(i.value, turn.plan);
      ghost var current := system.state.handlers[i.value].current;
      ok := Settle(i.value, verdict, turn.send);
      pass := Pass(old(system.history), system.history, Served(i.value, body, during, replies, verdict, current));
      ghost var sent := Lifecycle.Settle(index, SettledBy(current, turn.send));
      ServedSteps(steps, Begin(index), during, sent, index);
      steps := steps + [Begin(index)] + during + [sent];
      assert old(system.history) + steps == before + [Begin(index)] + during + [sent];
    }

    /** What one turn brings, whatever it is. */
    method Go(turn: Turn) returns (end: End, ghost pass: Pass, ghost steps: seq<Step>)
      requires Idle()
      modifies system
      ensures system.Valid() && system.history == old(system.history) + steps
      ensures index < |system.state.consumers| && system.state.consumers[index].busy.None?
      ensures end == Ends(turn, pass) && (system.state.consumers[index].alive <==> end.Consuming?)
      ensures Passed(index, turn, pass) && pass.from == old(system.history) && pass.to == system.history
      ensures OwnSteps(steps, index) == Mark(index, turn, pass)
    {
      hide Run, Passed, OwnSteps;
      match turn {
        case Cancelled =>
          steps := Quit();
          pass := Pass(old(system.history), system.history, Ended);
          QuitPass(pass, index);
          end := ByContext;
        case Delivery(_, _, _) =>
          var ok;
          ok, pass, steps := Serve(turn);
          end := if ok then Consuming else SettleFailed;
        case _ =>
          steps := Others(turn.meanwhile);
          pass := Pass(old(system.history), system.history, Away);
          AwayPass(pass, index, turn);
          end := Consuming;
      }
    }

    /** Consume: every turn goes as its pass says, so each delivery that is there is
        taken, handled with the planned outcomes, and settled as the handler returned,
        before the next one; a turn without one finds none. It ends with the context or
        a failed settle and not otherwise, and then takes no more. */
    method Consume(turns: seq<Turn>) returns (end: End, ghost passes: seq<Pass>)
      requires Idle()
      modifies system
      ensures system.Valid() && old(system.history) <= system.history
      ensures Going(system.history, old(system.history), index, turns, passes)
      ensures end == Ending(turns, passes) && (end.Consuming? ==> |passes| == |turns|)
      ensures end.ByContext? <==> passes != [] && turns[|passes| - 1].Cancelled?
      ensures end.SettleFailed? <==>
                passes != [] && turns[|passes| - 1].Delivery? && passes[|passes| - 1].what.Served? &&
                (!passes[|passes| - 1].what.current || !turns[|passes| - 1].send.ReportedOk())
      ensures index < |system.state.consumers| && system.state.consumers[index].busy.None?
      ensures system.state.consumers[index].alive <==> end.Consuming?
    {
      hide Run, Going, Passed, Mark, OwnSteps, Ends;
      ghost var start := system.history;
      passes, end := [], Consuming;
      NotGone(system.history, index, turns);
      var n := 0;
      while n < |turns| && end.Consuming?
        invariant n == |passes| <= |turns| && old(system.history) <= system.history
        invariant Going(system.history, start, index, turns, passes) && end == Ending(turns, passes)
        invariant end.Consuming? ==> Idle()
        invariant system.Valid() && index < |system.state.consumers| && system.state.consumers[index].busy.None?
        invariant system.state.consumers[index].alive <==> end.Consuming?
        decreases |turns| - n
      {
        if turns[n].Cancelled? || turns[n].SetUpFailed? {
          ghost var past := system.history;
          ghost var pass, steps;
          end, pass, steps := Go(turns[n]);
          OneMorePass(past, steps, start, index, turns, passes, pass);
          passes, n := passes + [pass], n + 1;
        } else {
          n, end, passes := Drain(turns, n, start, passes);
        }
      }
      EndsMean(turns, passes);
    }

    /** The inner loop, over the deliveries of one channel until it closes. */
    method Drain(turns: seq<Turn>, first: nat, ghost start: seq<Step>, ghost done: seq<Pass>)
      returns (n: nat, end: End, ghost passes: seq<Pass>)
      requires Idle() && first == |done| < |turns| && !turns[first].SetUpFailed?
      requires Going(system.history, start, index, turns, done) && Ending(turns, done).Consuming?
      modifies system
      ensures system.Valid() && old(system.history) <= system.history
      ensures first < n == |passes| <= |turns| && done <= passes && Going(system.history, start, index, turns, passes)
      ensures end == Ending(turns, passes)
      ensures end.ByContext? <==> passes != [] && turns[|passes| - 1].Cancelled?
      ensures end.SettleFailed? <==>
                passes != [] && turns[|passes| - 1].Delivery? && passes[|passes| - 1].what.Served? &&
                (!passes[|passes| - 1].what.current || !turns[|passes| - 1].send.ReportedOk())
      ensures end.Consuming? && n < |turns| ==> turns[n - 1].Closed? || turns[n].SetUpFailed?
      ensures index < |system.state.consumers| && system.state.consumers[index].busy.None?
      ensures system.state.consumers[index].alive <==> end.Consuming?
    {
      hide Run, Going, Passed, Mark, OwnSteps, Ends;
      n, passes, end := first, done, Consuming;
      var open := true;
      while open && n < |turns| && !turns[n].SetUpFailed? && end.Consuming?
        invariant first <= n == |passes| <= |turns| && done <= passes && old(system.history) <= system.history
        invariant Going(system.history, start, index, turns, passes) && end == Ending(turns, passes)
        invariant end.Consuming? ==> Idle()
        invariant (n == first ==> open && end.Consuming?) && (!open ==> turns[n - 1].Closed?)
        invariant system.Valid() && index < |system.state.consumers| && system.state.consumers[index].busy.None?
        invariant system.state.consumers[index].alive <==> end.Consuming?
        decreases |turns| - n
      {
        ghost var past := system.history;
        ghost var pass, steps;
        end, pass, steps := Go(turns[n]);
        OneMorePass(past, steps, start, index, turns, passes, pass);
        open := !turns[n].Closed?;
        passes, n := passes + [pass], n + 1;
      }
      EndsMean(turns, passes);
    }
  }

  /** How the last turn so far ends Consume, if it does. */
  function Ending(turns: seq<Turn>, passes: seq<Pass>): End
    requires |passes| <= |turns|
  {
    if passes == [] then Consuming else Ends(turns[|passes| - 1], passes[|passes| - 1])
  }

  /** What the ends mean, in terms of the last turn. */
  lemma EndsMean(turns: seq<Turn>, passes: seq<Pass>)
    requires |passes| <= |turns|
    ensures var end := Ending(turns, passes); var k := |passes| - 1;
            && (end.ByContext? <==> passes != [] && turns[k].Cancelled?)
            && (end.SettleFailed? <==>
                  passes != [] && turns[k].Delivery? && passes[k].what.Served? &&
                  (!passes[k].what.current || !turns[k].send.ReportedOk()))
  {
  }

  lemma NotGone(history: seq<Step>, c: nat, turns: seq<Turn>)
    ensures Going(history, history, c, turns, [])
  {
  }

  lemma QuitPass(pass: Pass, c: nat)
    requires pass.what.Ended? && pass.to == pass.from + [Quit(c)]
    ensures Passed(c, Cancelled, pass) && Mark(c, Cancelled, pass) == [Quit(c)]
  {
  }

  lemma AwayPass(pass: Pass, c: nat, turn: Turn)
    requires (turn.SetUpFailed? || turn.Closed?) && pass.what.Away? &&
             pass.to == Meanwhile(pass.from, turn.meanwhile, c)
    ensures Passed(c, turn, pass) && Mark(c, turn, pass) == []
  {
  }

  lemma {:induction false} OnlyOthers(steps: seq<Step>, c: nat)
    requires OwnSteps(steps, c) == []
    ensures forall k :: 0 <= k < |steps| ==> !OfConsumer(c, steps[k])
  {
    if |steps| == 0 {
    } else {
      OnlyOthers(steps[..|steps| - 1], c);
    }
  }

  lemma ServedSteps(a: seq<Step>, begin: Step, during: seq<Step>, settle: Step, c: nat)
    requires OwnSteps(a, c) == [] && OwnSteps(during, c) == [] && OfConsumer(c, begin) && OfConsumer(c, settle)
    ensures OwnSteps(a + [begin] + during + [settle], c) == [begin, settle]
  {
    OwnStepsConcat(a, [begin], c);
    OwnStepsConcat(a + [begin], during, c);
    OwnStepsConcat(a + [begin] + during, [settle], c);
    OwnStepsOne(begin, c);
    OwnStepsOne(settle, c);
  }
}
