/** Who owns a RabbitMQ connection (internal/messaging/rabbitmq.go): connect,
    reconnect and Close of Producer and Consumer, run by several goroutines that
    share one connection and one channel behind a lock. */
module Connection {
  import opened Basics

  // ----- The shared state and its atomic steps -----

  /** Connections are numbered as they are dialled. `dialling` and `ready` are in
      flight: some goroutine holds them, without and with a channel. `conn` is the
      installed connection and `channel` the connection the installed channel came
      from; `closes` and `channelCloses` record the Close calls made. */
  datatype Link = Link(
    dialled: nat, dialling: set<nat>, ready: set<nat>,
    conn: Option<nat>, channel: Option<nat>,
    closes: seq<nat>, channelCloses: seq<nat>)

  const UNCONNECTED: Link := Link(0, {}, {}, None, None, [], [])

  datatype Step =
    | Dial
    | OpenChannel(c: nat, ok: bool)
    | Install(c: nat)
    | Close

  function Closing(of: Option<nat>): seq<nat> {
    match of
    case Some(c) => [c]
    case None => []
  }

  function Next(s: Link, step: Step): Option<Link> {
    match step
    case Dial => Some(s.(dialled := s.dialled + 1, dialling := s.dialling + {s.dialled}))
    case OpenChannel(c, ok) =>
      if c !in s.dialling then None
      else if ok then Some(s.(dialling := s.dialling - {c}, ready := s.ready + {c}))
      else Some(s.(dialling := s.dialling - {c}, closes := s.closes + [c]))
    case Install(c) =>
      if c !in s.ready then None
      else Some(s.(
        ready := s.ready - {c}, conn := Some(c), channel := Some(c),
        closes := s.closes + Closing(s.conn), channelCloses := s.channelCloses + Closing(s.channel)))
    case Close =>
      Some(s.(
        conn := None, channel := None,
        closes := s.closes + Closing(s.conn), channelCloses := s.channelCloses + Closing(s.channel)))
  }

  function Run(s: Link, steps: seq<Step>): Option<Link> {
    if |steps| == 0 then Some(s)
    else
      match Run(s, steps[..|steps| - 1])
      case None => None
      case Some(m) => Next(m, steps[|steps| - 1])
  }

  // ----- Ownership -----

  function Is(c: nat): nat -> bool { (x: nat) => x == c }

  /** How many owners a connection has had: in flight, installed, or closed. */
  function Owners(s: Link, c: nat): nat {
    Bit(c in s.dialling) + Bit(c in s.ready) + Bit(s.conn == Some(c)) + Count(s.closes, Is(c))
  }

  predicate Owned(s: Link, c: nat) { Owners(s, c) == Bit(c < s.dialled) }

  ghost predicate Ownership(s: Link) {
    && (forall c: nat :: Owned(s, c))
    && s.channel == s.conn
  }

  lemma ClosingCounts(closes: seq<nat>, of: Option<nat>, c: nat)
    ensures Count(closes + Closing(of), Is(c)) == Count(closes, Is(c)) + Bit(of == Some(c))
  {
    match of {
      case Some(d) => CountAppend(closes, d, Is(c));
      case None => assert closes + [] == closes;
    }
  }

  lemma StepKeepsOwner(s: Link, step: Step, s': Link, c: nat)
    requires Next(s, step) == Some(s') && Owned(s, c) && Owned(s, s.dialled)
    ensures Owned(s', c)
  {
    hide Count;
    match step {
      case Dial =>
      case OpenChannel(d, ok) => CountAppend(s.closes, d, Is(c));
      case Install(d) => ClosingCounts(s.closes, s.conn, c);
      case Close => ClosingCounts(s.closes, s.conn, c);
    }
  }

  lemma StepKeepsOwnership(s: Link, step: Step, s': Link)
    requires Ownership(s) && Next(s, step) == Some(s')
    ensures Ownership(s')
  {
    assert Owned(s, s.dialled);
    forall c: nat
      ensures Owned(s', c)
    {
      assert Owned(s, c);
      StepKeepsOwner(s, step, s', c);
    }
  }

  lemma {:induction false} RunKeepsOwnership(s: Link, steps: seq<Step>)
    requires Ownership(s) && Run(s, steps).Some?
    ensures Ownership(Run(s, steps).value)
  {
    if |steps| == 0 {
    } else {
      var n := |steps| - 1;
      RunKeepsOwnership(s, steps[..n]);
      StepKeepsOwnership(Run(s, steps[..n]).value, steps[n], Run(s, steps).value);
    }
  }

  lemma StartOwned()
    ensures Ownership(UNCONNECTED)
  {
  }

  datatype Fate = InFlight | Installed | ClosedOnce

  predicate HasFate(s: Link, c: nat, f: Fate) {
    match f
    case InFlight => c in s.dialling || c in s.ready
    case Installed => s.conn == Some(c)
    case ClosedOnce => Count(s.closes, Is(c)) == 1
  }

  /** However connect, reconnect and Close interleave: every dialled connection has
      exactly one fate, none is closed twice, and the installed channel always came
      from the installed connection, so one is missing exactly when the other is. */
  lemma EveryConnectionHasOneOwner(steps: seq<Step>, c: nat)
    requires Run(UNCONNECTED, steps).Some?
    ensures var s := Run(UNCONNECTED, steps).value;
            && s.channel == s.conn
            && Count(s.closes, Is(c)) <= 1
            && (c < s.dialled ==> exists f: Fate :: HasFate(s, c, f) && forall g: Fate :: HasFate(s, c, g) ==> g == f)
            && (c >= s.dialled ==> forall f: Fate :: !HasFate(s, c, f))
  {
    StartOwned();
    RunKeepsOwnership(UNCONNECTED, steps);
    var s := Run(UNCONNECTED, steps).value;
    assert Owned(s, c);
    if c < s.dialled {
      var f := if c in s.dialling || c in s.ready then InFlight
               else if s.conn == Some(c) then Installed else ClosedOnce;
      assert HasFate(s, c, f);
    }
  }

  /** A connect that was past its dial when Close came installs its connection after it. */
  lemma CloseCanBeOvertaken()
    ensures var steps := [Dial, OpenChannel(0, true), Close, Install(0)];
            Run(UNCONNECTED, steps).Some? && Run(UNCONNECTED, steps).value.conn == Some(0)
  {
    var steps := [Dial, OpenChannel(0, true), Close, Install(0)];
    assert steps[..3] == [Dial, OpenChannel(0, true), Close];
    assert steps[..3][..2] == [Dial, OpenChannel(0, true)];
    assert steps[..3][..2][..1] == [Dial];
    assert [Dial][..0] == [];
    var s1 := Run(UNCONNECTED, [Dial]).value;
    assert s1.dialling == {0};
    var s2 := Run(UNCONNECTED, [Dial, OpenChannel(0, true)]).value;
    assert s2.ready == {0};
  }
}
