/** The running system as one actor's code sees it: the state of the lifecycle,
    the run that led to it, and the other actors, who take steps of their own
    between any two calls that code makes. */
module Runtime {
  import opened Basics
  import opened Lifecycle
  import opened Handlers
  import opened BrokerSafety

  class System {
    var state: State
    ghost var history: seq<Step>

    constructor ()
      ensures Valid() && state == START && history == []
    {
      state, history := START, [];
    }

    /** The state is reached by the run so far: everything that is proved of every
        run holds of it. */
    ghost predicate Valid()
      reads this
    {
      Run(START, history) == Some(state)
    }

    /** The actor has done in its own terms what `step` does; it is put on record. */
    ghost method Note(step: Step, was: State)
      requires Run(START, history) == Some(was) && Take(was, step) == Some(state)
      modifies this`history
      ensures Valid() && history == old(history) + [step]
    {
      RunExtend(START, history, step);
      history := history + [step];
    }

    // The services: each call may take effect or not, and what it reports is the
    // caller's to act on. The state is that of a run again when the caller has put
    // its step on record.

    method InsertEvent(e: Event, call: Call)
      modifies this`state
      ensures state == old(state).(log := if call.Applied() then old(state).log + [e] else old(state).log)
    {
      if call.Applied() { state := state.(log := state.log + [e]); }
    }

    method InsertSnapshot(call: Call)
      modifies this`state
      ensures state == old(state).(tally := old(state).tally.(
                         snapshots := old(state).tally.snapshots + Bit(call.Applied())))
    {
      if call.Applied() { state := state.(tally := state.tally.(snapshots := state.tally.snapshots + 1)); }
    }

    method IncrTotal(call: Call)
      modifies this`state
      ensures state == old(state).(tally := old(state).tally.(total := old(state).tally.total + Bit(call.Applied())))
    {
      if call.Applied() { state := state.(tally := state.tally.(total := state.tally.total + 1)); }
    }

    method IncrType(kind: string, call: Call)
      modifies this`state
      ensures var t := old(state).tally;
              state == old(state).(tally :=
                if call.Applied() then t.(byType := t.byType[kind := TypeCount(t, kind) + 1]) else t)
    {
      if call.Applied() {
        var n := if kind in state.tally.byType then state.tally.byType[kind] else 0;
        state := state.(tally := state.tally.(byType := state.tally.byType[kind := n + 1]));
      }
    }

    method IncrErrors(call: Call)
      modifies this`state
      ensures state == old(state).(tally := old(state).tally.(errors := old(state).tally.errors + Bit(call.Applied())))
    {
      if call.Applied() { state := state.(tally := state.tally.(errors := state.tally.errors + 1)); }
    }

    method Send(m: Message, send: Lifecycle.Send)
      modifies this`state
      ensures var b := old(state).broker;
              state == old(state).(broker := if send.Applied() then Publish(b, m) else b)
    {
      if send.Applied() { state := state.(broker := Publish(state.broker, m)); }
    }

    /** The latest-status query. */
    method SelectStatus(sid: string, fails: bool) returns (reply: Reply)
      ensures Reports(state.log, sid, reply) && (reply.ReadFailed? <==> fails)
    {
      if fails { return ReadFailed; }
      var newest := Newest(state.log, sid);
      reply := if newest.Some? then Got(newest.value) else NoRow;
    }

    /** The others take those of their steps that are enabled and not one of `ours`. */
    method Interfere(others: seq<Step>, ours: Step -> bool) returns (ghost taken: seq<Step>)
      requires Valid()
      modifies this
      ensures Valid() && history == old(history) + taken && Run(old(state), taken) == Some(state)
      ensures taken == Doable(old(state), others, ours) && forall i :: 0 <= i < |taken| ==> !ours(taken[i])
    {
      hide Take;
      taken := [];
      assert history == history + [] && others[..0] == [];
      for i := 0 to |others|
        invariant Valid() && history == old(history) + taken && Run(old(state), taken) == Some(state)
        invariant taken == Doable(old(state), others[..i], ours) && forall k :: 0 <= k < |taken| ==> !ours(taken[k])
      {
        assert others[..i + 1][..i] == others[..i] && others[..i + 1][i] == others[i];
        var next := Take(state, others[i]);
        if next.Some? && !ours(others[i]) {
          ghost var was := state;
          RunExtend(old(state), taken, others[i]);
          state := next.value;
          Note(others[i], was);
          taken := taken + [others[i]];
        }
      }
      assert others[..|others|] == others;
    }
  }

  /** The steps that are taken when each is tried in turn. */
  function Doable(s: State, others: seq<Step>, ours: Step -> bool): seq<Step> {
    if |others| == 0 then []
    else
      var n := |others| - 1;
      var before := Doable(s, others[..n], ours);
      match Run(s, before)
      case Some(m) => if Take(m, others[n]).Some? && !ours(others[n]) then before + [others[n]] else before
      case None => before
  }

  // ----- What the others leave alone -----

  predicate Prefix<T(==)>(xs: seq<T>, ys: seq<T>) { |xs| <= |ys| && ys[..|xs|] == xs }

  lemma PrefixAt<T>(xs: seq<T>, ys: seq<T>, i: nat)
    requires Prefix(xs, ys) && i < |xs|
    ensures ys[i] == xs[i]
  {
    assert ys[..|xs|][i] == ys[i];
  }

  lemma PrefixTrans<T>(xs: seq<T>, ys: seq<T>, zs: seq<T>)
    requires Prefix(xs, ys) && Prefix(ys, zs)
    ensures Prefix(xs, zs)
  {
    assert zs[..|xs|] == zs[..|ys|][..|xs|];
  }

  lemma PrefixSelf<T>(xs: seq<T>)
    ensures Prefix(xs, xs)
  {
    assert xs[..|xs|] == xs;
  }

  lemma PublishedGrows(s: State, step: Step, s': State)
    requires Take(s, step) == Some(s')
    ensures Prefix(s.broker.published, s'.broker.published)
  {
    PrefixSelf(s.broker.published);
  }

  /** Events stay where they are in the log, and messages in the list of messages. */
  lemma {:induction false} RunOnlyAppends(s: State, steps: seq<Step>)
    requires Run(s, steps).Some?
    ensures var s' := Run(s, steps).value;
            Prefix(s.log, s'.log) && Prefix(s.broker.published, s'.broker.published)
  {
    hide Take, Prefix;
    if |steps| == 0 {
      PrefixSelf(s.log);
      PrefixSelf(s.broker.published);
    } else {
      var n := |steps| - 1;
      RunLast(s, steps);
      var m, s' := Run(s, steps[..n]).value, Run(s, steps).value;
      RunOnlyAppends(s, steps[..n]);
      LogPrefix(m, steps[n], s');
      PublishedGrows(m, steps[n], s');
      PrefixTrans(s.log, m.log, s'.log);
      PrefixTrans(s.broker.published, m.broker.published, s'.broker.published);
    }
  }

  lemma LogPrefix(s: State, step: Step, s': State)
    requires Take(s, step) == Some(s')
    ensures Prefix(s.log, s'.log)
  {
    LogGrows(s, step, s');
  }

  /** The API calls in flight that a run without their own steps leaves as they were. */
  predicate OnCreate(k: nat, step: Step) { step.CreatePublish? && step.k == k }

  predicate OnStop(k: nat, step: Step) { (step.StopAppend? || step.StopPublish?) && step.k == k }

  lemma CreateStepKeeps(s: State, step: Step, s': State, k: nat)
    requires Take(s, step) == Some(s') && k < |s.creates| && !OnCreate(k, step)
    ensures k < |s'.creates| && s'.creates[k] == s.creates[k]
  {
  }

  lemma StopStepKeeps(s: State, step: Step, s': State, k: nat)
    requires Take(s, step) == Some(s') && k < |s.stops| && !OnStop(k, step)
    ensures k < |s'.stops| && s'.stops[k] == s.stops[k]
  {
  }

  lemma {:induction false} CreateKept(s: State, steps: seq<Step>, k: nat)
    requires Run(s, steps).Some? && k < |s.creates|
    requires forall i :: 0 <= i < |steps| ==> !OnCreate(k, steps[i])
    ensures var s' := Run(s, steps).value; k < |s'.creates| && s'.creates[k] == s.creates[k]
  {
    hide Take, OnCreate;
    if |steps| == 0 {
    } else {
      var n := |steps| - 1;
      RunLast(s, steps);
      CreateKept(s, steps[..n], k);
      CreateStepKeeps(Run(s, steps[..n]).value, steps[n], Run(s, steps).value, k);
    }
  }

  lemma {:induction false} StopKept(s: State, steps: seq<Step>, k: nat)
    requires Run(s, steps).Some? && k < |s.stops|
    requires forall i :: 0 <= i < |steps| ==> !OnStop(k, steps[i])
    ensures var s' := Run(s, steps).value; k < |s'.stops| && s'.stops[k] == s.stops[k]
  {
    hide Take, OnStop;
    if |steps| == 0 {
    } else {
      var n := |steps| - 1;
      RunLast(s, steps);
      StopKept(s, steps[..n], k);
      StopStepKeeps(Run(s, steps[..n]).value, steps[n], Run(s, steps).value, k);
    }
  }

  /** The steps that are a consumer's own: taking a delivery, settling, ending. */
  predicate OfConsumer(c: nat, step: Step) {
    (step.Begin? || step.Settle? || step.Crash? || step.Quit?) && step.c == c
  }

  ghost predicate SameConsumer(s: State, s': State, c: nat) {
    && c < |s.consumers| && c < |s'.consumers|
    && s'.consumers[c].busy == s.consumers[c].busy && s'.consumers[c].alive == s.consumers[c].alive
    && s'.consumers[c].lane == s.consumers[c].lane
  }

  lemma ConsumerStepKeeps(s: State, step: Step, s': State, c: nat)
    requires Take(s, step) == Some(s') && c < |s.consumers| && !OfConsumer(c, step)
    ensures SameConsumer(s, s', c)
  {
  }

  lemma {:induction false} ConsumerKept(s: State, steps: seq<Step>, c: nat)
    requires Run(s, steps).Some? && c < |s.consumers|
    requires forall i :: 0 <= i < |steps| ==> !OfConsumer(c, steps[i])
    ensures SameConsumer(s, Run(s, steps).value, c)
  {
    hide Take, OfConsumer;
    if |steps| == 0 {
    } else {
      var n := |steps| - 1;
      RunLast(s, steps);
      ConsumerKept(s, steps[..n], c);
      ConsumerStepKeeps(Run(s, steps[..n]).value, steps[n], Run(s, steps).value, c);
    }
  }

  lemma SettledStep(s: State, step: Step, s': State, i: nat)
    requires Take(s, step) == Some(s') && Linked(s) && i < |s.handlers| && s.handlers[i].stage.Settled?
    ensures i < |s'.handlers| && s'.handlers[i].stage.Settled?
  {
    if step.Crash? {
      assert ConsumerLinked(s, step.c);
    } else if !step.Work? {
      OtherSteps(s, step, s');
    }
  }

  /** A delivery that has been settled stays settled. */
  lemma {:induction false} SettledStays(s: State, steps: seq<Step>, i: nat)
    requires BrokerInv(s) && Run(s, steps).Some? && i < |s.handlers| && s.handlers[i].stage.Settled?
    ensures BrokerInv(Run(s, steps).value)
    ensures i < |Run(s, steps).value.handlers| && Run(s, steps).value.handlers[i].stage.Settled?
  {
    hide Take;
    if |steps| == 0 {
    } else {
      var n := |steps| - 1;
      RunLast(s, steps);
      SettledStays(s, steps[..n], i);
      StepKeepsBroker(Run(s, steps[..n]).value, steps[n], Run(s, steps).value);
      SettledStep(Run(s, steps[..n]).value, steps[n], Run(s, steps).value, i);
    }
  }

  // ----- What is new -----

  predicate NewEvent(a: State, b: State, e: Event) {
    exists i :: |a.log| <= i < |b.log| && b.log[i] == e
  }

  predicate NewMessage(a: State, b: State, m: Message) {
    exists t :: |a.broker.published| <= t < |b.broker.published| && b.broker.published[t] == m
  }

  lemma AppendedIsNew(a: State, b: State, c: State, e: Event)
    requires |a.log| < |b.log| && b.log[|b.log| - 1] == e && Prefix(b.log, c.log)
    ensures NewEvent(a, c, e)
  {
    PrefixAt(b.log, c.log, |b.log| - 1);
  }

  lemma StillNew(a: State, b: State, c: State, e: Event)
    requires NewEvent(a, b, e) && Prefix(b.log, c.log)
    ensures NewEvent(a, c, e)
  {
    var i :| |a.log| <= i < |b.log| && b.log[i] == e;
    PrefixAt(b.log, c.log, i);
  }

  lemma HistoryOnlyAppends(past: seq<Step>, a: State, more: seq<Step>, b: State)
    requires Run(START, past) == Some(a) && Run(START, past + more) == Some(b)
    ensures Prefix(a.log, b.log) && Prefix(a.broker.published, b.broker.published) && Run(a, more) == Some(b)
  {
    hide Take, Prefix;
    RunConcat(START, past, more);
    RunOnlyAppends(a, more);
  }

  // ----- The steps of one actor -----

  /** The acts of handler i among the steps. */
  function OwnActs(steps: seq<Step>, i: nat): seq<Act> {
    if |steps| == 0 then []
    else
      var n := |steps| - 1;
      OwnActs(steps[..n], i) + (if OfHandler(steps[n], i) then [steps[n].act] else [])
  }

  /** The steps of consumer c among the steps. */
  function OwnSteps(steps: seq<Step>, c: nat): seq<Step> {
    if |steps| == 0 then []
    else
      var n := |steps| - 1;
      OwnSteps(steps[..n], c) + (if OfConsumer(c, steps[n]) then [steps[n]] else [])
  }

  lemma {:induction false} OwnActsConcat(a: seq<Step>, b: seq<Step>, i: nat)
    ensures OwnActs(a + b, i) == OwnActs(a, i) + OwnActs(b, i)
  {
    if |b| == 0 {
      assert a + b == a;
    } else {
      var n := |b| - 1;
      OwnActsConcat(a, b[..n], i);
      assert (a + b)[..|a| + n] == a + b[..n] && (a + b)[|a| + n] == b[n];
      var x, y, all := OwnActs(a, i), OwnActs(b[..n], i), OwnActs(a + b, i);
      var z := OwnActs(b, i)[|y|..];
      assert OwnActs(b, i) == y + z && all == (x + y) + z;
      hide OwnActs;
      assert (x + y) + z == x + (y + z);
    }
  }

  lemma {:induction false} OwnStepsConcat(a: seq<Step>, b: seq<Step>, c: nat)
    ensures OwnSteps(a + b, c) == OwnSteps(a, c) + OwnSteps(b, c)
  {
    if |b| == 0 {
      assert a + b == a;
    } else {
      var n := |b| - 1;
      OwnStepsConcat(a, b[..n], c);
      assert (a + b)[..|a| + n] == a + b[..n] && (a + b)[|a| + n] == b[n];
      var x, y, all := OwnSteps(a, c), OwnSteps(b[..n], c), OwnSteps(a + b, c);
      var z := OwnSteps(b, c)[|y|..];
      assert OwnSteps(b, c) == y + z && all == (x + y) + z;
      hide OwnSteps;
      assert (x + y) + z == x + (y + z);
    }
  }

  lemma OwnActsOne(step: Step, i: nat)
    ensures OwnActs([step], i) == if OfHandler(step, i) then [step.act] else []
  {
    assert [step][..0] == [];
  }

  lemma OwnStepsOne(step: Step, c: nat)
    ensures OwnSteps([step], c) == if OfConsumer(c, step) then [step] else []
  {
    assert [step][..0] == [];
  }

  lemma {:induction false} NoOwnActs(steps: seq<Step>, i: nat)
    requires forall k :: 0 <= k < |steps| ==> !OfHandler(steps[k], i)
    ensures OwnActs(steps, i) == []
  {
    if |steps| == 0 {
    } else {
      NoOwnActs(steps[..|steps| - 1], i);
    }
  }

  lemma {:induction false} NoOwnSteps(steps: seq<Step>, c: nat)
    requires forall k :: 0 <= k < |steps| ==> !OfConsumer(c, steps[k])
    ensures OwnSteps(steps, c) == []
  {
    if |steps| == 0 {
    } else {
      NoOwnSteps(steps[..|steps| - 1], c);
    }
  }

  /** A handler in the hands of consumer c, still to be settled. */
  predicate InHand(s: State, i: nat, c: nat) {
    i < |s.handlers| && s.handlers[i].consumer == c && Open(s.handlers[i])
  }

  predicate SameHandler(s: State, s': State, i: nat) {
    i < |s.handlers| && i < |s'.handlers| && s'.handlers[i] == s.handlers[i].(current := s'.handlers[i].current)
  }

  lemma HandlerStepKeeps(s: State, step: Step, s': State, i: nat, c: nat)
    requires Take(s, step) == Some(s') && Linked(s) && InHand(s, i, c)
    requires !OfHandler(step, i) && !OfConsumer(c, step)
    ensures SameHandler(s, s', i)
  {
    if step.Settle? || step.Disconnect? || step.Crash? {
      assert ConsumerLinked(s, step.c);
    }
  }

  /** Steps of others leave a handler as it is, but may take the delivery from it. */
  lemma {:induction false} HandlerKept(s: State, steps: seq<Step>, i: nat, c: nat)
    requires Run(s, steps).Some? && BrokerInv(s) && InHand(s, i, c)
    requires forall k :: 0 <= k < |steps| ==> !OfHandler(steps[k], i) && !OfConsumer(c, steps[k])
    ensures SameHandler(s, Run(s, steps).value, i) && BrokerInv(Run(s, steps).value)
  {
    hide Take, OfHandler, OfConsumer;
    if |steps| == 0 {
    } else {
      var n := |steps| - 1;
      RunLast(s, steps);
      HandlerKept(s, steps[..n], i, c);
      StepKeepsBroker(Run(s, steps[..n]).value, steps[n], Run(s, steps).value);
      HandlerStepKeeps(Run(s, steps[..n]).value, steps[n], Run(s, steps).value, i, c);
    }
  }
}
