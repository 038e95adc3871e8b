/** The exchanges, queues and bindings that DeclareTopology sets up
    (internal/messaging/rabbitmq.go), and topic routing over them as section
    3.1.3.3 of the AMQP 0-9-1 specification defines it. */
module Topology {
  import opened Basics

  const EXCHANGE := "clusterprobe.events"
  const DLX := "clusterprobe.events.dlx"
  const QUEUE_HIGH := "workload.high"
  const QUEUE_LOW := "workload.low"
  const QUEUE_CHAOS := "workload.chaos"

  datatype Lane = High | Low | Chaos

  function QueueName(l: Lane): string {
    match l
    case High => QUEUE_HIGH
    case Low => QUEUE_LOW
    case Chaos => QUEUE_CHAOS
  }

  function DlqName(l: Lane): string { QueueName(l) + ".dlq" }

  /** The lane whose queue is named by the routing key, if there is one. */
  function LaneOf(key: string): Option<Lane> {
    if key == QUEUE_HIGH then Some(High)
    else if key == QUEUE_LOW then Some(Low)
    else if key == QUEUE_CHAOS then Some(Chaos)
    else None
  }

  // ----- Topic matching -----

  /** The words of a routing key or binding pattern, separated by dots. */
  function Words(s: string): (ws: seq<string>)
    ensures |ws| >= 1
  {
    if s == "" then [""]
    else if s[0] == '.' then [""] + Words(s[1..])
    else var ws := Words(s[1..]); [[s[0]] + ws[0]] + ws[1..]
  }

  predicate Matches(pattern: seq<string>, key: seq<string>)
    decreases |pattern| + |key|
  {
    if |pattern| == 0 then |key| == 0
    else if pattern[0] == "#" then
      Matches(pattern[1..], key) || (|key| > 0 && Matches(pattern, key[1..]))
    else
      |key| > 0 && (pattern[0] == "*" || pattern[0] == key[0]) && Matches(pattern[1..], key[1..])
  }

  predicate Literal(s: string) { '*' !in s && '#' !in s }

  lemma {:induction false} WordsInjective(a: string, b: string)
    requires Words(a) == Words(b)
    ensures a == b
  {
    if a != "" && b != "" {
      if a[0] == '.' || b[0] == '.' {
        FirstWord(a);
        FirstWord(b);
        assert Words(a)[1..] == Words(b)[1..];
        assert a[0] == '.' ==> Words(a[1..]) == Words(a)[1..];
        assert b[0] == '.' ==> Words(b[1..]) == Words(b)[1..];
        WordsInjective(a[1..], b[1..]);
      } else {
        var x, y := Words(a[1..]), Words(b[1..]);
        assert Words(a)[0][1..] == x[0] && Words(b)[0][1..] == y[0];
        assert Words(a)[1..] == x[1..] && Words(b)[1..] == y[1..];
        assert x == [x[0]] + x[1..] && y == [y[0]] + y[1..];
        WordsInjective(a[1..], b[1..]);
      }
      assert a == [a[0]] + a[1..] && b == [b[0]] + b[1..];
    } else {
      FirstWord(a);
      FirstWord(b);
    }
  }

  lemma FirstWord(s: string)
    ensures Words(s)[0] == "" <==> s == "" || s[0] == '.'
    ensures |Words(s)| == 1 && Words(s)[0] == "" ==> s == ""
  {
    if s != "" && s[0] == '.' {
      assert |Words(s)| == 1 + |Words(s[1..])|;
    }
  }

  lemma {:induction false} LiteralWords(s: string)
    requires Literal(s)
    ensures forall w :: w in Words(s) ==> Literal(w)
  {
    if s == "" {
    } else {
      assert s == [s[0]] + s[1..];
      LiteralWords(s[1..]);
      forall w | w in Words(s)
        ensures Literal(w)
      {
        if s[0] != '.' && w == Words(s)[0] {
          assert Words(s[1..])[0] in Words(s[1..]);
        }
      }
    }
  }

  lemma {:induction false} LiteralMatches(pattern: seq<string>, key: seq<string>)
    requires forall w :: w in pattern ==> Literal(w)
    ensures Matches(pattern, key) <==> pattern == key
  {
    if |pattern| == 0 {
    } else {
      assert Literal(pattern[0]);
      assert pattern[0] != "#" by { assert '#' in "#"; }
      assert pattern[0] != "*" by { assert '*' in "*"; }
      if |key| > 0 {
        LiteralMatches(pattern[1..], key[1..]);
        assert pattern == [pattern[0]] + pattern[1..] && key == [key[0]] + key[1..];
      }
    }
  }

  /** A binding without wildcards accepts its own key and no other. */
  lemma TopicWithoutWildcards(pattern: string, key: string)
    requires Literal(pattern)
    ensures Matches(Words(pattern), Words(key)) <==> pattern == key
  {
    LiteralWords(pattern);
    LiteralMatches(Words(pattern), Words(key));
    if Words(pattern) == Words(key) {
      WordsInjective(pattern, key);
    }
  }

  // ----- The declared topology -----

  datatype Binding = Binding(queue: string, pattern: string, exchange: string)

  /** Dead-letter arguments of a queue: exchange and routing key. */
  datatype QueueArgs = Plain | DeadLetter(exchange: string, key: string)

  function LiveBinding(l: Lane): Binding { Binding(QueueName(l), QueueName(l), EXCHANGE) }

  function DlqBinding(l: Lane): Binding { Binding(DlqName(l), QueueName(l), DLX) }

  function LaneBindings(l: Lane): set<Binding> { {DlqBinding(l), LiveBinding(l)} }

  const BINDINGS: set<Binding> :=
    {LiveBinding(High), LiveBinding(Low), LiveBinding(Chaos),
     DlqBinding(High), DlqBinding(Low), DlqBinding(Chaos)}

  function QueueTable(l: Lane): map<string, QueueArgs> {
    map[DlqName(l) := Plain, QueueName(l) := DeadLetter(DLX, QueueName(l))]
  }

  const QUEUES: map<string, QueueArgs> := QueueTable(High) + QueueTable(Low) + QueueTable(Chaos)

  const EXCHANGES: map<string, string> := map[EXCHANGE := "topic", DLX := "topic"]

  /** The queues that receive a message published to a topic exchange. */
  function Route(bindings: set<Binding>, exchange: string, key: string): set<string> {
    set b | b in bindings && b.exchange == exchange && Matches(Words(b.pattern), Words(key)) :: b.queue
  }

  lemma NamesDiffer()
    ensures QUEUE_HIGH != QUEUE_LOW && QUEUE_HIGH != QUEUE_CHAOS && QUEUE_LOW != QUEUE_CHAOS
    ensures EXCHANGE != DLX
    ensures forall l, m: Lane :: QueueName(l) != DlqName(m)
    ensures forall l, m: Lane :: DlqName(l) == DlqName(m) ==> l == m
    ensures forall l: Lane :: Literal(QueueName(l)) && LaneOf(QueueName(l)) == Some(l)
  {
    assert |QUEUE_HIGH| == 13 && |QUEUE_LOW| == 12 && |QUEUE_CHAOS| == 14;
    assert |EXCHANGE| == 19 && |DLX| == 23;
    forall l, m: Lane
      ensures QueueName(l) != DlqName(m) && (DlqName(l) == DlqName(m) ==> l == m)
    {
      assert |DlqName(m)| == |QueueName(m)| + 4 >= 16;
      assert |QueueName(l)| <= 14;
      assert |DlqName(l)| == |QueueName(l)| + 4;
    }
  }

  lemma BindingCases(b: Binding)
    ensures b in BINDINGS <==> exists l: Lane :: b == LiveBinding(l) || b == DlqBinding(l)
  {
    if l: Lane :| b == LiveBinding(l) || b == DlqBinding(l) {
      match l {
        case High =>
        case Low =>
        case Chaos =>
      }
    }
  }

  lemma LaneKey(l: Lane, key: string)
    ensures Matches(Words(QueueName(l)), Words(key)) <==> LaneOf(key) == Some(l)
    ensures QueueName(l) == key <==> LaneOf(key) == Some(l)
  {
    NamesDiffer();
    TopicWithoutWildcards(QueueName(l), key);
  }

  lemma RouteMember(exchange: string, key: string, q: string)
    requires q in Route(BINDINGS, exchange, key)
    ensures exists l: Lane :: LaneOf(key) == Some(l) &&
              ((exchange == EXCHANGE && q == QueueName(l)) || (exchange == DLX && q == DlqName(l)))
  {
    var b :| b in BINDINGS && b.exchange == exchange && Matches(Words(b.pattern), Words(key)) && b.queue == q;
    BindingCases(b);
    var l: Lane :| b == LiveBinding(l) || b == DlqBinding(l);
    LaneKey(l, key);
  }

  lemma RouteOfBinding(b: Binding, key: string)
    requires b in BINDINGS && Matches(Words(b.pattern), Words(key))
    ensures b.queue in Route(BINDINGS, b.exchange, key)
  {
  }

  /** A live publish reaches the queue its key names, or no queue at all. */
  lemma LiveRouting(key: string)
    ensures Route(BINDINGS, EXCHANGE, key) ==
            (match LaneOf(key) case Some(l) => {QueueName(l)} case None => {})
  {
    assert EXCHANGE != DLX by { NamesDiffer(); }
    forall q | q in Route(BINDINGS, EXCHANGE, key)
      ensures LaneOf(key).Some? && q == QueueName(LaneOf(key).value)
    {
      RouteMember(EXCHANGE, key, q);
    }
    if LaneOf(key).Some? {
      var l := LaneOf(key).value;
      LaneKey(l, key);
      BindingCases(LiveBinding(l));
      RouteOfBinding(LiveBinding(l), key);
    }
  }

  lemma DeclaredArguments(l: Lane)
    ensures QueueName(l) in QUEUES && QUEUES[QueueName(l)] == DeadLetter(DLX, QueueName(l))
    ensures DlqName(l) in QUEUES && QUEUES[DlqName(l)] == Plain
  {
    NamesDiffer();
  }

  /** A message rejected from a lane's queue is routed, through the arguments
      that queue was declared with, to that lane's dead-letter queue only. */
  lemma DeadLetterRouting(l: Lane)
    ensures QueueName(l) in QUEUES && QUEUES[QueueName(l)].DeadLetter?
    ensures var a := QUEUES[QueueName(l)]; Route(BINDINGS, a.exchange, a.key) == {DlqName(l)}
  {
    DeclaredArguments(l);
    hide QueueName, DlqName, LaneOf, Words, Matches;
    var key := QueueName(l);
    LaneKey(l, key);
    assert EXCHANGE != DLX by { NamesDiffer(); }
    forall q | q in Route(BINDINGS, DLX, key)
      ensures q == DlqName(l)
    {
      RouteMember(DLX, key, q);
    }
    BindingCases(DlqBinding(l));
    RouteOfBinding(DlqBinding(l), key);
  }

  lemma ForeignFirstLetter(key: string)
    requires |key| > 0 && key[0] != 'w'
    ensures LaneOf(key) == None
  {
    assert QUEUE_HIGH[0] == 'w' && QUEUE_LOW[0] == 'w' && QUEUE_CHAOS[0] == 'w';
  }

  /** Result and stop notices are published to the live exchange with keys no
      binding accepts, whatever the scenario id contains. */
  lemma NoticesAreUnrouted(id: string)
    ensures LaneOf("results." + id) == None && LaneOf("scenario.stop") == None
    ensures Route(BINDINGS, EXCHANGE, "results." + id) == {}
    ensures Route(BINDINGS, EXCHANGE, "scenario.stop") == {}
  {
    assert ("results." + id)[0] == 'r';
    ForeignFirstLetter("results." + id);
    ForeignFirstLetter("scenario.stop");
    LiveRouting("results." + id);
    LiveRouting("scenario.stop");
  }

  lemma NamesWrittenOut()
    ensures EXCHANGE == "clusterprobe.events" && DLX == "clusterprobe.events.dlx"
    ensures QueueName(High) == "workload.high" && DlqName(High) == "workload.high.dlq"
    ensures QueueName(Low) == "workload.low" && DlqName(Low) == "workload.low.dlq"
    ensures QueueName(Chaos) == "workload.chaos" && DlqName(Chaos) == "workload.chaos.dlq"
  {
  }

  lemma LaneRoute(l: Lane)
    ensures Route(BINDINGS, EXCHANGE, QueueName(l)) == {QueueName(l)}
    ensures Route(BINDINGS, DLX, QueueName(l)) == {DlqName(l)}
  {
    NamesDiffer();
    LiveRouting(QueueName(l));
    DeadLetterRouting(l);
    DeclaredArguments(l);
  }

  /** The routes, written out: of a live publish under each of the three keys, and of
      what is rejected from each queue. */
  lemma RoutesWrittenOut()
    ensures Route(BINDINGS, "clusterprobe.events", "workload.high") == {"workload.high"}
    ensures Route(BINDINGS, "clusterprobe.events", "workload.low") == {"workload.low"}
    ensures Route(BINDINGS, "clusterprobe.events", "workload.chaos") == {"workload.chaos"}
    ensures Route(BINDINGS, "clusterprobe.events.dlx", "workload.high") == {"workload.high.dlq"}
    ensures Route(BINDINGS, "clusterprobe.events.dlx", "workload.low") == {"workload.low.dlq"}
    ensures Route(BINDINGS, "clusterprobe.events.dlx", "workload.chaos") == {"workload.chaos.dlq"}
  {
    hide Route, QueueName, DlqName;
    NamesWrittenOut();
    LaneRoute(High);
    LaneRoute(Low);
    LaneRoute(Chaos);
  }

  /** The wildcards: a star stands for one word, a hash for any number. */
  lemma {:induction false} Wildcards(key: seq<string>)
    ensures Matches(["*"], key) <==> |key| == 1
    ensures Matches(["#"], key)
  {
    assert ["*"][1..] == [] && ["#"][1..] == [];
    if |key| == 0 {
    } else {
      Wildcards(key[1..]);
    }
  }

  // ----- DeclareTopology -----

  function TablesOf(lanes: seq<Lane>): map<string, QueueArgs> {
    if |lanes| == 0 then map[] else TablesOf(lanes[..|lanes| - 1]) + QueueTable(lanes[|lanes| - 1])
  }

  function BoundBy(lanes: seq<Lane>): set<Binding> {
    if |lanes| == 0 then {}
    else BoundBy(lanes[..|lanes| - 1]) + LaneBindings(lanes[|lanes| - 1])
  }

  lemma TwoExchanges(m: map<string, string>)
    ensures m[EXCHANGE := "topic"][DLX := "topic"] == m + EXCHANGES
  {
  }

  lemma UnionAssociates<K, V>(a: map<K, V>, b: map<K, V>, c: map<K, V>)
    ensures a + b + c == a + (b + c)
  {
  }

  lemma MoreTables(lanes: seq<Lane>, i: nat, queues: map<string, QueueArgs>)
    requires i < |lanes|
    ensures queues + TablesOf(lanes[..i]) + QueueTable(lanes[i]) == queues + TablesOf(lanes[..i + 1])
  {
    hide QueueTable;
    assert lanes[..i + 1][..i] == lanes[..i];
    var table := QueueTable(lanes[i]);
    assert TablesOf(lanes[..i + 1]) == TablesOf(lanes[..i]) + table;
    UnionAssociates(queues, TablesOf(lanes[..i]), table);
  }

  lemma MoreBindings(lanes: seq<Lane>, i: nat, bindings: set<Binding>)
    requires i < |lanes|
    ensures bindings + BoundBy(lanes[..i]) + LaneBindings(lanes[i]) == bindings + BoundBy(lanes[..i + 1])
    ensures BoundBy(lanes[..i + 1]) <= BoundBy(lanes)
  {
    hide LaneBindings;
    assert lanes[..i + 1][..i] == lanes[..i];
    BoundByPrefix(lanes, i + 1);
  }

  lemma BoundByAll(lanes: seq<Lane>)
    requires lanes == [High, Low, Chaos]
    ensures TablesOf(lanes) == QUEUES && BoundBy(lanes) == BINDINGS
  {
    assert lanes[..2] == [High, Low] && [High, Low][..1] == [High] && [High][..0] == [];
    assert TablesOf([High]) == QueueTable(High);
    assert BoundBy([High]) == {DlqBinding(High), LiveBinding(High)};
    assert BoundBy([High, Low]) == BoundBy([High]) + {DlqBinding(Low), LiveBinding(Low)};
  }

  lemma {:induction false} BoundByPrefix(lanes: seq<Lane>, i: nat)
    requires i <= |lanes|
    ensures BoundBy(lanes[..i]) <= BoundBy(lanes)
  {
    if i < |lanes| {
      var n := |lanes| - 1;
      BoundByPrefix(lanes[..n], i);
      assert lanes[..n][..i] == lanes[..i];
    } else {
      assert lanes[..i] == lanes;
    }
  }

  /** Whether one of the next n calls is refused. */
  predicate AnyRefused(refusals: seq<bool>, n: nat) { exists i :: 0 <= i < n && i < |refusals| && refusals[i] }

  function Skip(refusals: seq<bool>, n: nat): seq<bool> { if n <= |refusals| then refusals[n..] else [] }

  /** What is declared does not contradict what is there. */
  predicate Fits<V(==)>(there: map<string, V>, declared: map<string, V>) {
    forall k :: k in there && k in declared ==> there[k] == declared[k]
  }

  lemma SkipTwice(refusals: seq<bool>, m: nat, n: nat)
    ensures Skip(Skip(refusals, m), n) == Skip(refusals, m + n)
    ensures AnyRefused(refusals, m + n) <==> AnyRefused(refusals, m) || AnyRefused(Skip(refusals, m), n)
  {
    var rest := Skip(refusals, m);
    if i :| 0 <= i < m + n && i < |refusals| && refusals[i] {
      if i >= m { assert rest[i - m]; }
    }
    if j :| 0 <= j < n && j < |rest| && rest[j] {
      assert refusals[m + j];
    }
  }

  lemma OneRefused(refusals: seq<bool>)
    ensures AnyRefused(refusals, 1) <==> |refusals| > 0 && refusals[0]
  {
    if |refusals| > 0 && refusals[0] { assert 0 <= 0 < 1; }
  }

  lemma FitsMore(there: map<string, QueueArgs>, lanes: seq<Lane>, i: nat)
    requires i < |lanes| && Fits(there, TablesOf(lanes[..i]))
    ensures Fits(there + TablesOf(lanes[..i]), QueueTable(lanes[i])) <==> Fits(there, TablesOf(lanes[..i + 1]))
  {
    assert lanes[..i + 1][..i] == lanes[..i];
    TablesAgree(lanes[..i], lanes[i]);
    var before, table, after := TablesOf(lanes[..i]), QueueTable(lanes[i]), TablesOf(lanes[..i + 1]);
    hide QueueTable, TablesOf;
    assert after == before + table;
    if Fits(there + before, table) {
      forall k | k in there && k in after
        ensures there[k] == after[k]
      {
        assert k in table ==> k in there + before;
      }
    }
    if Fits(there, after) {
      forall k | k in there + before && k in table
        ensures (there + before)[k] == table[k]
      {
        assert k in after;
      }
    }
  }

  lemma {:induction false} TablesAgree(lanes: seq<Lane>, l: Lane)
    ensures Fits(TablesOf(lanes), QueueTable(l))
  {
    if |lanes| == 0 {
    } else {
      TablesAgree(lanes[..|lanes| - 1], l);
      TwoTablesAgree(lanes[|lanes| - 1], l);
    }
  }

  lemma TwoTablesAgree(l: Lane, m: Lane)
    ensures Fits(QueueTable(l), QueueTable(m))
  {
    NamesDiffer();
    hide DlqName;
    assert QueueName(l) == QueueName(m) ==> LaneOf(QueueName(l)) == LaneOf(QueueName(m));
  }

  lemma {:induction false} FitsPrefix(there: map<string, QueueArgs>, lanes: seq<Lane>, i: nat)
    requires i <= |lanes| && Fits(there, TablesOf(lanes))
    ensures Fits(there, TablesOf(lanes[..i]))
  {
    if i < |lanes| {
      var n := |lanes| - 1;
      TablesAgree(lanes[..n], lanes[n]);
      forall k | k in there && k in TablesOf(lanes[..n])
        ensures there[k] == TablesOf(lanes[..n])[k]
      {
        assert k in TablesOf(lanes);
      }
      FitsPrefix(there, lanes[..n], i);
      assert lanes[..n][..i] == lanes[..i];
    } else {
      assert lanes[..i] == lanes;
    }
  }

  /** The broker objects reachable through one channel. Declaring something that
      already exists with other arguments is refused, as is any call the oracle
      refuses; each call uses up one of its answers. */
  class Channel {
    var exchanges: map<string, string>
    var queues: map<string, QueueArgs>
    var bindings: set<Binding>
    var refusals: seq<bool>

    method Refused() returns (refused: bool)
      modifies this`refusals
      ensures refused == AnyRefused(old(refusals), 1) && refusals == Skip(old(refusals), 1)
    {
      OneRefused(refusals);
      refused := false;
      if |refusals| > 0 {
        refused := refusals[0];
        refusals := refusals[1..];
      }
    }

    method ExchangeDeclare(name: string, kind: string) returns (ok: bool)
      modifies this`exchanges, this`refusals
      ensures ok <==> !AnyRefused(old(refusals), 1) && (name in old(exchanges) ==> old(exchanges)[name] == kind)
      ensures refusals == Skip(old(refusals), 1)
      ensures exchanges == if ok then old(exchanges)[name := kind] else old(exchanges)
    {
      var refused := Refused();
      ok := !refused && (name in exchanges ==> exchanges[name] == kind);
      if ok {
        exchanges := exchanges[name := kind];
      }
    }

    method QueueDeclare(name: string, args: QueueArgs) returns (ok: bool)
      modifies this`queues, this`refusals
      ensures ok <==> !AnyRefused(old(refusals), 1) && (name in old(queues) ==> old(queues)[name] == args)
      ensures refusals == Skip(old(refusals), 1)
      ensures queues == if ok then old(queues)[name := args] else old(queues)
    {
      var refused := Refused();
      ok := !refused && (name in queues ==> queues[name] == args);
      if ok {
        queues := queues[name := args];
      }
    }

    method QueueBind(queue: string, pattern: string, exchange: string) returns (ok: bool)
      modifies this`bindings, this`refusals
      ensures ok <==> !AnyRefused(old(refusals), 1) && queue in queues && exchange in exchanges
      ensures refusals == Skip(old(refusals), 1)
      ensures bindings == if ok then old(bindings) + {Binding(queue, pattern, exchange)} else old(bindings)
    {
      var refused := Refused();
      ok := !refused && queue in queues && exchange in exchanges;
      if ok {
        bindings := bindings + {Binding(queue, pattern, exchange)};
      }
    }

    /** One turn of the loop over the three queues: the dead-letter queue and its
        binding first, then the queue that refers to it. It succeeds exactly if no call
        is refused and what is there does not contradict it. */
    method DeclareLane(l: Lane) returns (ok: bool)
      requires EXCHANGE in exchanges && DLX in exchanges
      modifies this`queues, this`bindings, this`refusals
      ensures ok <==> !AnyRefused(old(refusals), 4) && Fits(old(queues), QueueTable(l))
      ensures ok ==> queues == old(queues) + QueueTable(l) && refusals == Skip(old(refusals), 4)
      ensures ok ==> bindings == old(bindings) + LaneBindings(l)
      ensures old(bindings) <= bindings <= old(bindings) + LaneBindings(l)
    {
      NamesDiffer();
      FourCalls(refusals);
      LaneFits(queues, l);
      hide AnyRefused, Skip, Fits, Literal;
      ok := QueueDeclare(DlqName(l), Plain);
      if !ok { return; }
      ok := QueueBind(DlqName(l), QueueName(l), DLX);
      if !ok { return; }
      ok := QueueDeclare(QueueName(l), DeadLetter(DLX, QueueName(l)));
      if !ok { return; }
      ok := QueueBind(QueueName(l), QueueName(l), EXCHANGE);
    }

    method DeclareQueues(lanes: seq<Lane>) returns (ok: bool)
      requires EXCHANGE in exchanges && DLX in exchanges
      modifies this`queues, this`bindings, this`refusals
      ensures ok <==> !AnyRefused(old(refusals), 4 * |lanes|) && Fits(old(queues), TablesOf(lanes))
      ensures ok ==> queues == old(queues) + TablesOf(lanes)
      ensures ok ==> bindings == old(bindings) + BoundBy(lanes)
      ensures old(bindings) <= bindings <= old(bindings) + BoundBy(lanes)
    {
      ok := true;
      assert lanes[..0] == [];
      for i := 0 to |lanes|
        invariant ok
        invariant queues == old(queues) + TablesOf(lanes[..i]) && Fits(old(queues), TablesOf(lanes[..i]))
        invariant bindings == old(bindings) + BoundBy(lanes[..i])
        invariant refusals == Skip(old(refusals), 4 * i) && !AnyRefused(old(refusals), 4 * i)
      {
        MoreTables(lanes, i, old(queues));
        MoreBindings(lanes, i, old(bindings));
        SkipTwice(old(refusals), 4 * i, 4);
        FitsMore(old(queues), lanes, i);
        ok := DeclareLane(lanes[i]);
        if !ok {
          LaterFails(old(refusals), old(queues), lanes, i);
          return;
        }
      }
      assert lanes[..|lanes|] == lanes;
    }

    /** It succeeds exactly if none of its fourteen calls is refused and nothing that is
        there contradicts it. Then the whole topology is there on top of what was; a
        failed call leaves no binding that is neither old nor part of the topology. */
    method DeclareTopology() returns (ok: bool)
      modifies this
      ensures ok <==> !AnyRefused(old(refusals), 14) && Fits(old(exchanges), EXCHANGES) && Fits(old(queues), QUEUES)
      ensures ok ==> exchanges == old(exchanges) + EXCHANGES
      ensures ok ==> queues == old(queues) + QUEUES
      ensures ok ==> bindings == old(bindings) + BINDINGS
      ensures old(bindings) <= bindings <= old(bindings) + BINDINGS
    {
      TwoCalls(refusals);
      NamesDiffer();
      TwoExchanges(old(exchanges));
      ExchangesFit(exchanges);
      BoundByAll([High, Low, Chaos]);
      hide AnyRefused, Skip, Literal, QueueTable, TablesOf, BoundBy, Fits, LaneBindings, LiveBinding, DlqBinding;
      ok := ExchangeDeclare(EXCHANGE, "topic");
      if !ok { return; }
      ok := ExchangeDeclare(DLX, "topic");
      if !ok { return; }
      ok := DeclareQueues([High, Low, Chaos]);
    }
  }

  lemma ExchangesFit(there: map<string, string>)
    ensures Fits(there, EXCHANGES) <==>
            (EXCHANGE in there ==> there[EXCHANGE] == "topic") && (DLX in there ==> there[DLX] == "topic")
  {
    assert EXCHANGE in EXCHANGES && DLX in EXCHANGES;
  }

  lemma FourCalls(refusals: seq<bool>)
    ensures var r1 := Skip(refusals, 1); var r2 := Skip(r1, 1); var r3 := Skip(r2, 1);
            AnyRefused(refusals, 4) <==>
            AnyRefused(refusals, 1) || AnyRefused(r1, 1) || AnyRefused(r2, 1) || AnyRefused(r3, 1)
    ensures Skip(refusals, 4) == Skip(Skip(Skip(Skip(refusals, 1), 1), 1), 1)
  {
    SkipTwice(refusals, 1, 3);
    SkipTwice(Skip(refusals, 1), 1, 2);
    SkipTwice(Skip(Skip(refusals, 1), 1), 1, 1);
  }

  lemma TwoCalls(refusals: seq<bool>)
    ensures AnyRefused(refusals, 14) <==>
            AnyRefused(refusals, 1) || AnyRefused(Skip(refusals, 1), 1) || AnyRefused(Skip(Skip(refusals, 1), 1), 12)
  {
    SkipTwice(refusals, 1, 13);
    SkipTwice(Skip(refusals, 1), 1, 12);
  }

  lemma LaneFits(there: map<string, QueueArgs>, l: Lane)
    ensures Fits(there, QueueTable(l)) <==>
            (DlqName(l) in there ==> there[DlqName(l)] == Plain) &&
            (QueueName(l) in there ==> there[QueueName(l)] == DeadLetter(DLX, QueueName(l)))
  {
    NamesDiffer();
    hide DlqName, QueueName;
    assert DlqName(l) in QueueTable(l) && QueueName(l) in QueueTable(l);
  }

  lemma LaterFails(refusals: seq<bool>, there: map<string, QueueArgs>, lanes: seq<Lane>, i: nat)
    requires i < |lanes| && (AnyRefused(refusals, 4 * (i + 1)) || !Fits(there, TablesOf(lanes[..i + 1])))
    ensures AnyRefused(refusals, 4 * |lanes|) || !Fits(there, TablesOf(lanes))
  {
    hide AnyRefused, Skip, Fits, TablesOf;
    if AnyRefused(refusals, 4 * (i + 1)) {
      var rest := 4 * (|lanes| - i - 1);
      SkipTwice(refusals, 4 * (i + 1), rest);
      assert 4 * (i + 1) + rest == 4 * |lanes|;
    } else if Fits(there, TablesOf(lanes)) {
      FitsPrefix(there, lanes, i + 1);
    }
  }
}
