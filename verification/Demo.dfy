/** The beginning of the runs that serve as examples: a scenario is created,
    published, delivered, and its handler has made its first guard read. */
module Demo {
  import opened Basics
  import opened Workload
  import opened Topology
  import opened Lifecycle

  const DEMO: LoadProfile := LoadProfile(1, 1, 0, 1, QUEUE_HIGH, CPU_BURN)

  const CREATED: seq<Step> :=
    [CreateStore(ScenarioRequest("n", DEMO), "a", Done), CreatePublish(0, Sent), AddConsumer(High)]

  const READ: seq<Step> := [Push(0, 0), Begin(0), Work(0, Decode), Work(0, ReadGuard(Got(Queued)))]

  predicate Offered(s: State) {
    && s.log == [Event("a", Queued)] && s.handlers == [] && s.stops == []
    && s.consumers == [Consumer(High, None, None, None, true)]
    && s.broker.published == [Message(QUEUE_HIGH, Scenario("a", DEMO), true)]
    && s.broker.ready.high == multiset{0}
  }

  predicate AboutToMark(s: State) {
    && s.log == [Event("a", Queued)] && s.stops == []
    && s.broker.published == [Message(QUEUE_HIGH, Scenario("a", DEMO), true)]
    && |s.handlers| == 1 && s.handlers[0].stage.MarkingRunning? && s.handlers[0].Sid() == "a"
  }

  lemma RunThree(s: State, a: Step, b: Step, c: Step)
    ensures Run(s, [a, b, c]) ==
            (match Run(s, [a, b]) case None => None case Some(m) => Take(m, c))
  {
    hide Take;
    RunExtend(s, [a, b], c);
    assert [a, b] + [c] == [a, b, c];
  }

  lemma Creating()
    ensures Run(START, CREATED).Some? && Offered(Run(START, CREATED).value)
  {
    RunThree(START, CREATED[0], CREATED[1], CREATED[2]);
    RunTwo(START, CREATED[0], CREATED[1]);
    assert Admitted(CREATED[0].req);
    var s1 := Take(START, CREATED[0]).value;
    assert s1.log == [Event("a", Queued)] && s1.creates == [Create("a", DEMO, true)];
    var s2 := Take(s1, CREATED[1]).value;
    assert LaneOf(QUEUE_HIGH) == Some(High);
    assert s2.broker.ready.high == multiset{0};
  }

  lemma Reading(s: State)
    requires Offered(s)
    ensures Run(s, READ).Some? && AboutToMark(Run(s, READ).value)
  {
    assert READ == READ[..2] + READ[2..] && READ[..2] == [READ[0], READ[1]] && READ[2..] == [READ[2], READ[3]];
    Delivering(s);
    RunConcat(s, READ[..2], READ[2..]);
    Guarding(Run(s, READ[..2]).value);
  }

  predicate Delivered(s: State) {
    && s.log == [Event("a", Queued)] && s.stops == []
    && s.broker.published == [Message(QUEUE_HIGH, Scenario("a", DEMO), true)]
    && |s.handlers| == 1 && s.handlers[0].stage.Decoding? && s.handlers[0].body == Scenario("a", DEMO)
  }

  lemma Delivering(s: State)
    requires Offered(s)
    ensures READ[..2] == [READ[0], READ[1]]
    ensures Run(s, READ[..2]).Some? && Delivered(Run(s, READ[..2]).value)
  {
    RunTwo(s, READ[0], READ[1]);
  }

  lemma Guarding(s: State)
    requires Delivered(s)
    ensures READ[2..] == [READ[2], READ[3]]
    ensures Run(s, READ[2..]).Some? && AboutToMark(Run(s, READ[2..]).value)
  {
    RunTwo(s, READ[2], READ[3]);
    assert Runnable(CPU_BURN);
  }
}
