/** A producer's or consumer's end of its connections together with the goroutine
    that monitors it (internal/messaging/rabbitmq.go, monitorReconnect), and how final
    Close is beside it. */
module Monitoring {
  import opened Basics
  import opened Connection

  const MAX_ATTEMPTS: nat := 10

  /** The goroutine that NewProducer and NewConsumer start: it reads the installed
      connection, watches it until it is gone, and reconnects, in up to ten attempts,
      each of which may be in the middle of a connect with connection c. */
  datatype Monitor =
    | Reading
    | Watching(c: nat)
    | Reconnecting(left: nat)
    | Connecting(left: nat, c: nat)
    | Ended

  /** `dropped` holds the connections that were lost without a Close; at a `shared` end
      other goroutines connect too, as the loop of Consume does. */
  datatype Endpoint = Endpoint(link: Link, monitor: Monitor, dropped: set<nat>, cancelled: bool, shared: bool)

  /** The constructor connects once before it starts the monitor. */
  function Created(shared: bool): Endpoint { Endpoint(UNCONNECTED, Reconnecting(1), {}, false, shared) }

  datatype Move =
    | DialOk
    | DialFails
    | Channel(ok: bool)
    | Installs
    | GivesUp
    | Looks
    | Notices
    | Leaves
    | Drops(c: nat)
    | Cancels
    | Closes
    | Elsewhere(step: Step)

  /** The moves that are not the monitor's. */
  predicate Foreign(move: Move) { move.Drops? || move.Cancels? || move.Closes? || move.Elsewhere? }

  predicate Gone(p: Endpoint, c: nat) { c in p.dropped || c in p.link.closes }

  function OnLink(p: Endpoint, step: Step, monitor: Monitor): Option<Endpoint> {
    match Next(p.link, step)
    case Some(l) => Some(p.(link := l, monitor := monitor))
    case None => None
  }

  /** Another goroutine's step of connect; it cannot touch what the monitor has in hand. */
  function OnOther(p: Endpoint, step: Step): Option<Endpoint> {
    var m := p.monitor;
    if !p.shared || step.Close? || (!step.Dial? && m.Connecting? && step.c == m.c) then None
    else OnLink(p, step, m)
  }

  /** The monitor's moves, and what happens to it: the loss of a connection, the end of
      its context, Close, and the other goroutines. Closing a connection wakes whoever
      watches it, also when it is Close that does it. */
  function Moves(p: Endpoint, move: Move): Option<Endpoint> {
    var m := p.monitor;
    match move
    case DialOk =>
      if m.Reconnecting? && m.left > 0 then OnLink(p, Dial, Connecting(m.left - 1, p.link.dialled)) else None
    case DialFails =>
      if m.Reconnecting? && m.left > 0 then Some(p.(monitor := Reconnecting(m.left - 1))) else None
    case Channel(ok) =>
      if m.Connecting? then OnLink(p, OpenChannel(m.c, ok), if ok then m else Reconnecting(m.left)) else None
    case Installs => if m.Connecting? then OnLink(p, Install(m.c), Reading) else None
    case GivesUp =>
      if m.Reconnecting? && (m.left == 0 || (p.cancelled && m.left < MAX_ATTEMPTS))
      then Some(p.(monitor := Reading)) else None
    case Looks =>
      if !m.Reading? then None
      else Some(p.(monitor := match p.link.conn case Some(c) => Watching(c) case None => Ended))
    case Notices => if m.Watching? && Gone(p, m.c) then Some(p.(monitor := Reconnecting(MAX_ATTEMPTS))) else None
    case Leaves => if m.Watching? && p.cancelled then Some(p.(monitor := Ended)) else None
    case Drops(c) => if c < p.link.dialled then Some(p.(dropped := p.dropped + {c})) else None
    case Cancels => Some(p.(cancelled := true))
    case Closes => OnLink(p, Close, m)
    case Elsewhere(step) => OnOther(p, step)
  }

  function Life(p: Endpoint, moves: seq<Move>): Option<Endpoint> {
    if |moves| == 0 then Some(p)
    else
      match Life(p, moves[..|moves| - 1])
      case None => None
      case Some(q) => Moves(q, moves[|moves| - 1])
  }

  lemma LifeExtend(p: Endpoint, moves: seq<Move>, move: Move)
    ensures Life(p, moves + [move]) == (match Life(p, moves) case Some(q) => Moves(q, move) case None => None)
  {
    hide Moves;
    assert (moves + [move])[..|moves|] == moves;
  }

  lemma LifeOne(p: Endpoint, move: Move)
    ensures Life(p, [move]) == Moves(p, move)
  {
    hide Moves;
    LifeExtend(p, [], move);
    assert [] + [move] == [move];
  }

  lemma {:induction false} LifeConcat(p: Endpoint, a: seq<Move>, b: seq<Move>)
    requires Life(p, a).Some?
    ensures Life(p, a + b) == Life(Life(p, a).value, b)
  {
    hide Moves;
    if |b| == 0 {
      assert a + b == a;
    } else {
      var n := |b| - 1;
      LifeConcat(p, a, b[..n]);
      assert (a + b)[..|a| + n] == a + b[..n];
    }
  }

  // ----- What holds of it -----

  ghost predicate EndpointInv(p: Endpoint) {
    && Ownership(p.link)
    && (p.monitor.Connecting? ==> p.monitor.c in p.link.dialling || p.monitor.c in p.link.ready)
    && (!p.shared ==> p.link.dialling + p.link.ready <= (if p.monitor.Connecting? then {p.monitor.c} else {}))
    && (p.monitor.Watching? ==>
          p.monitor.c < p.link.dialled && p.monitor.c !in p.link.dialling && p.monitor.c !in p.link.ready)
  }

  /** The step on the link that a move is, if it is one. */
  function LinkStep(p: Endpoint, move: Move): Option<Step> {
    match move
    case DialOk => Some(Dial)
    case Channel(ok) => if p.monitor.Connecting? then Some(OpenChannel(p.monitor.c, ok)) else None
    case Installs => if p.monitor.Connecting? then Some(Install(p.monitor.c)) else None
    case Closes => Some(Close)
    case Elsewhere(step) => Some(step)
    case _ => None
  }

  lemma MoveIsLinkStep(p: Endpoint, move: Move, q: Endpoint)
    requires Moves(p, move) == Some(q)
    ensures q.link == p.link || (LinkStep(p, move).Some? && Next(p.link, LinkStep(p, move).value) == Some(q.link))
    ensures LinkStep(p, move).None? ==> q.link == p.link
  {
    hide Next;
  }

  lemma MoveKeepsEndpoint(p: Endpoint, move: Move, q: Endpoint)
    requires EndpointInv(p) && Moves(p, move) == Some(q)
    ensures EndpointInv(q)
  {
    assert Owned(p.link, p.link.dialled);
    if p.link.conn.Some? { assert Owned(p.link, p.link.conn.value); }
    if p.monitor.Connecting? { assert Owned(p.link, p.monitor.c); }
    MoveIsLinkStep(p, move, q);
    if q.link != p.link {
      StepKeepsOwnership(p.link, LinkStep(p, move).value, q.link);
    }
    hide Ownership, Owned;
  }

  lemma {:induction false} EndpointAlwaysOk(shared: bool, moves: seq<Move>)
    requires Life(Created(shared), moves).Some?
    ensures EndpointInv(Life(Created(shared), moves).value) && Life(Created(shared), moves).value.shared == shared
  {
    hide Moves;
    if |moves| == 0 {
    } else {
      var n := |moves| - 1;
      EndpointAlwaysOk(shared, moves[..n]);
      var p, q := Life(Created(shared), moves[..n]).value, Life(Created(shared), moves).value;
      MoveKeepsEndpoint(p, moves[n], q);
      MoveKeepsShared(p, moves[n], q);
    }
  }

  lemma MoveKeepsShared(p: Endpoint, move: Move, q: Endpoint)
    requires Moves(p, move) == Some(q)
    ensures q.shared == p.shared && q.link.dialled >= p.link.dialled
  {
  }

  /** Every life of an end is, on the link, an interleaving as EveryConnectionHasOneOwner
      has it. */
  lemma {:induction false} LifeIsInterleaving(shared: bool, moves: seq<Move>) returns (steps: seq<Step>)
    requires Life(Created(shared), moves).Some?
    ensures Run(UNCONNECTED, steps) == Some(Life(Created(shared), moves).value.link)
  {
    hide Moves, Next;
    if |moves| == 0 {
      steps := [];
    } else {
      var n := |moves| - 1;
      steps := LifeIsInterleaving(shared, moves[..n]);
      var p, q := Life(Created(shared), moves[..n]).value, Life(Created(shared), moves).value;
      MoveIsLinkStep(p, moves[n], q);
      if q.link != p.link {
        var step := LinkStep(p, moves[n]).value;
        assert (steps + [step])[..|steps|] == steps;
        steps := steps + [step];
      }
    }
  }

  // ----- How final Close is -----

  ghost predicate StaysClosed(p: Endpoint) {
    forall later: seq<Move> :: Life(p, later).Some? ==> Life(p, later).value.link.conn.None?
  }

  predicate Flying(p: Endpoint) { p.link.dialling != {} || p.link.ready != {} }

  /** The monitor has attempts left, or the connection it watches is gone. */
  predicate CanWake(p: Endpoint) {
    (p.monitor.Reconnecting? && p.monitor.left > 0) || (p.monitor.Watching? && Gone(p, p.monitor.c))
  }

  predicate Finished(p: Endpoint) {
    && p.link.conn.None? && p.link.dialling == {} && p.link.ready == {} && !p.shared
    && (p.monitor.Reading? || p.monitor.Ended? || p.monitor == Reconnecting(0))
  }

  lemma FinishedMove(p: Endpoint, move: Move, q: Endpoint)
    requires Finished(p) && Moves(p, move) == Some(q)
    ensures Finished(q)
  {
  }

  lemma {:induction false} FinishedForGood(p: Endpoint, later: seq<Move>)
    requires Finished(p) && Life(p, later).Some?
    ensures Finished(Life(p, later).value)
  {
    hide Moves, Finished;
    if |later| == 0 {
    } else {
      var n := |later| - 1;
      FinishedForGood(p, later[..n]);
      FinishedMove(Life(p, later[..n]).value, later[n], Life(p, later).value);
    }
  }

  /** A watched connection of an end without one is gone: whoever installed the next one
      closed it, or Close did. */
  lemma WatchedIsGone(p: Endpoint)
    requires EndpointInv(p) && p.link.conn.None? && p.monitor.Watching?
    ensures Gone(p, p.monitor.c)
  {
    assert Owned(p.link, p.monitor.c);
    var i := CountWitness(p.link.closes, Is(p.monitor.c));
  }

  lemma FromReady(p: Endpoint) returns (later: seq<Move>)
    requires p.monitor.Connecting? && p.monitor.c in p.link.ready
    ensures Life(p, later).Some? && Life(p, later).value.link.conn == Some(p.monitor.c)
  {
    later := [Installs];
    LifeOne(p, Installs);
  }

  /** What comes after a first move comes after it. */
  lemma AfterMove(p: Endpoint, move: Move, q: Endpoint, rest: seq<Move>)
    requires Moves(p, move) == Some(q)
    ensures Life(p, [move] + rest) == Life(q, rest)
  {
    hide Moves;
    LifeOne(p, move);
    LifeConcat(p, [move], rest);
  }

  lemma FromConnecting(p: Endpoint) returns (later: seq<Move>)
    requires EndpointInv(p) && p.monitor.Connecting?
    ensures Life(p, later).Some? && Life(p, later).value.link.conn == Some(p.monitor.c)
  {
    if p.monitor.c in p.link.ready {
      later := FromReady(p);
    } else {
      var q := Moves(p, Channel(true)).value;
      var rest := FromReady(q);
      AfterMove(p, Channel(true), q, rest);
      later := [Channel(true)] + rest;
    }
  }

  lemma FromReconnecting(p: Endpoint) returns (later: seq<Move>)
    requires EndpointInv(p) && p.monitor.Reconnecting? && p.monitor.left > 0
    ensures Life(p, later).Some? && Life(p, later).value.link.conn.Some?
  {
    var q := Moves(p, DialOk).value;
    MoveKeepsEndpoint(p, DialOk, q);
    var rest := FromConnecting(q);
    AfterMove(p, DialOk, q, rest);
    later := [DialOk] + rest;
  }

  lemma FromWatching(p: Endpoint) returns (later: seq<Move>)
    requires EndpointInv(p) && p.monitor.Watching? && Gone(p, p.monitor.c)
    ensures Life(p, later).Some? && Life(p, later).value.link.conn.Some?
  {
    var q := Moves(p, Notices).value;
    MoveKeepsEndpoint(p, Notices, q);
    var rest := FromReconnecting(q);
    AfterMove(p, Notices, q, rest);
    later := [Notices] + rest;
  }

  lemma FromElsewhere(p: Endpoint) returns (later: seq<Move>)
    requires EndpointInv(p) && p.shared
    ensures Life(p, later).Some? && Life(p, later).value.link.conn.Some?
  {
    var c := p.link.dialled;
    assert Owned(p.link, c);
    var dial, open, install := Elsewhere(Dial), Elsewhere(OpenChannel(c, true)), Elsewhere(Install(c));
    var a := Moves(p, dial).value;
    assert c in a.link.dialling && a.monitor == p.monitor && a.shared;
    var b := Moves(a, open).value;
    assert c in b.link.ready && b.monitor == p.monitor && b.shared;
    var d := Moves(b, install).value;
    LifeOne(b, install);
    AfterMove(a, open, b, [install]);
    AfterMove(p, dial, a, [open] + [install]);
    later := [dial] + ([open] + [install]);
  }

  /** In every reachable state without a connection: the end stays closed, whatever
      happens, exactly when no other goroutine connects, no connect is in flight, and
      the monitor cannot wake. */
  lemma CloseIsFinalExactlyWhenQuiet(shared: bool, moves: seq<Move>, p: Endpoint)
    requires Life(Created(shared), moves) == Some(p) && p.link.conn.None?
    ensures StaysClosed(p) <==> !shared && !Flying(p) && !CanWake(p)
  {
    EndpointAlwaysOk(shared, moves);
    hide Moves, Ownership, Life;
    if shared {
      var later := FromElsewhere(p);
    } else if p.monitor.Connecting? {
      var later := FromConnecting(p);
    } else if CanWake(p) {
      if p.monitor.Reconnecting? {
        var later := FromReconnecting(p);
      } else {
        var later := FromWatching(p);
      }
    } else {
      if p.monitor.Watching? { WatchedIsGone(p); }
      assert p.link.dialling + p.link.ready == {};
      assert Finished(p);
      forall later: seq<Move> | Life(p, later).Some?
        ensures Life(p, later).value.link.conn.None?
      {
        FinishedForGood(p, later);
      }
    }
  }

  /** So an ordinary Close, of an end whose monitor watches its connection, is never
      final: closing that connection is what wakes the monitor. */
  lemma CloseOfWatchedIsUndone(shared: bool, moves: seq<Move>, p: Endpoint, q: Endpoint)
    requires Life(Created(shared), moves) == Some(p) && p.monitor.Watching? && Moves(p, Closes) == Some(q)
    ensures q.link.conn.None? && !StaysClosed(q)
  {
    LifeExtend(Created(shared), moves, Closes);
    EndpointAlwaysOk(shared, moves + [Closes]);
    assert q.monitor == p.monitor && q.link.conn.None?;
    hide Moves, Life, Ownership, StaysClosed;
    WatchedIsGone(q);
    CloseIsFinalExactlyWhenQuiet(shared, moves + [Closes], q);
  }

  // ----- A run in which Close is undone -----

  const UP: seq<Move> := [DialOk, Channel(true), Installs, Looks]

  const REOPENED: seq<Move> := [Closes, Notices, DialOk, Channel(true), Installs]

  /** A producer with one connection, which its monitor watches. */
  const OPEN: Endpoint :=
    Endpoint(Link(1, {}, {}, Some(0), Some(0), [], []), Watching(0), {}, false, false)

  lemma GoesUp()
    ensures Life(Created(false), UP) == Some(OPEN)
  {
    var a := Endpoint(Link(1, {0}, {}, None, None, [], []), Connecting(0, 0), {}, false, false);
    var b := Endpoint(Link(1, {}, {0}, None, None, [], []), Connecting(0, 0), {}, false, false);
    var c := Endpoint(Link(1, {}, {}, Some(0), Some(0), [], []), Reading, {}, false, false);
    assert Moves(Created(false), DialOk) == Some(a) by { assert {} + {0} == {0}; }
    assert Moves(a, Channel(true)) == Some(b) by { assert {0} - {0} == {} && {} + {0} == {0}; }
    assert Moves(b, Installs) == Some(c) by { assert {0} - {0} == {} && UNCONNECTED.closes + Closing(None) == []; }
    assert Moves(c, Looks) == Some(OPEN);
    hide Moves, Life;
    LifeOne(c, Looks);
    AfterMove(b, Installs, c, [Looks]);
    AfterMove(a, Channel(true), b, [Installs] + [Looks]);
    AfterMove(Created(false), DialOk, a, [Channel(true)] + ([Installs] + [Looks]));
    assert UP == [DialOk] + ([Channel(true)] + ([Installs] + [Looks]));
  }

  lemma Reopens() returns (p: Endpoint)
    ensures Life(OPEN, REOPENED) == Some(p) && p.link.conn == Some(1)
  {
    var a := Endpoint(Link(1, {}, {}, None, None, [0], [0]), Watching(0), {}, false, false);
    var b := a.(monitor := Reconnecting(MAX_ATTEMPTS));
    var c := Endpoint(Link(2, {1}, {}, None, None, [0], [0]), Connecting(9, 1), {}, false, false);
    var d := Endpoint(Link(2, {}, {1}, None, None, [0], [0]), Connecting(9, 1), {}, false, false);
    p := Endpoint(Link(2, {}, {}, Some(1), Some(1), [0], [0]), Reading, {}, false, false);
    assert Moves(OPEN, Closes) == Some(a) by { assert [] + [0] == [0]; }
    assert Moves(a, Notices) == Some(b) by { assert 0 in [0]; }
    assert Moves(b, DialOk) == Some(c) by { assert {} + {1} == {1}; }
    assert Moves(c, Channel(true)) == Some(d) by { assert {1} - {1} == {} && {} + {1} == {1}; }
    assert Moves(d, Installs) == Some(p) by { assert {1} - {1} == {} && [0] + [] == [0]; }
    hide Moves, Life;
    LifeOne(d, Installs);
    AfterMove(c, Channel(true), d, [Installs]);
    AfterMove(b, DialOk, c, [Channel(true)] + [Installs]);
    AfterMove(a, Notices, b, [DialOk] + ([Channel(true)] + [Installs]));
    AfterMove(OPEN, Closes, a, [Notices] + ([DialOk] + ([Channel(true)] + [Installs])));
    assert REOPENED == [Closes] + ([Notices] + ([DialOk] + ([Channel(true)] + [Installs])));
  }

  /** A producer comes up, its monitor watches its only connection, and it is closed;
      the monitor then installs another. */
  lemma CloseUndone()
    ensures Life(Created(false), UP) == Some(OPEN) && OPEN.monitor == Watching(0)
    ensures Life(OPEN, REOPENED).Some? && Life(OPEN, REOPENED).value.link.conn == Some(1)
  {
    GoesUp();
    var p := Reopens();
  }
}
