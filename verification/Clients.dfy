/** connect, reconnect, monitorReconnect and Close (internal/messaging/rabbitmq.go) as
    the code they are: what they do is the life of an endpoint, beside whatever other
    goroutines and the network do. */
module Clients {
  import opened Basics
  import opened Connection
  import opened Monitoring

  /** The wait after a failed attempt: doubled until it reaches five seconds. */
  function Backoff(attempt: nat): nat {
    if attempt == 0 then 500
    else if Backoff(attempt - 1) < 5000 then 2 * Backoff(attempt - 1)
    else Backoff(attempt - 1)
  }

  function TotalWait(attempts: nat): nat {
    if attempts == 0 then 0 else TotalWait(attempts - 1) + Backoff(attempts - 1)
  }

  /** What the oracle decides for one connect: whether dialling and opening the channel
      work, what the others do between its steps and during the wait that
      follows a failure, and whether the context ends in that wait. */
  datatype Luck = Luck(
    dials: bool, opens: bool, afterDial: seq<Move>, afterOpen: seq<Move>, waiting: seq<Move>, leaves: bool)

  /** What the monitor meets while it watches a connection: the others' moves, and then
      the end of its context or the loss of the connection. */
  datatype Watch = Watch(others: seq<Move>, leaves: bool, lucks: seq<Luck>)

  // ----- Which moves are made -----

  predicate Works(luck: Luck) { luck.dials && luck.opens }

  /** connect: dial, open a channel, install; a connection without a channel is closed. */
  function Attempt(luck: Luck): seq<Move> {
    if !luck.dials then [DialFails]
    else if !luck.opens then [DialOk, Channel(false)]
    else [DialOk, Channel(true), Installs]
  }

  function Attempts(lucks: seq<Luck>): seq<Move> {
    if |lucks| == 0 then [] else Attempts(lucks[..|lucks| - 1]) + Attempt(lucks[|lucks| - 1])
  }

  /** How many attempts reconnect makes from the k-th on: until one works, the context
      ends, or there are none left. */
  function Tries(lucks: seq<Luck>, k: nat): (n: nat)
    requires k < MAX_ATTEMPTS <= |lucks|
    ensures k < n <= MAX_ATTEMPTS
    decreases MAX_ATTEMPTS - k
  {
    if Works(lucks[k]) || lucks[k].leaves || k == MAX_ATTEMPTS - 1 then k + 1 else Tries(lucks, k + 1)
  }

  /** reconnect. */
  function Reconnection(lucks: seq<Luck>): seq<Move>
    requires |lucks| >= MAX_ATTEMPTS
  {
    var n := Tries(lucks, 0);
    Attempts(lucks[..n]) + (if Works(lucks[n - 1]) then [] else [GivesUp])
  }

  /** One round of monitorReconnect: watching a connection until it is gone, and
      reconnecting. */
  function Round(watch: Watch): seq<Move>
    requires |watch.lucks| >= MAX_ATTEMPTS
  {
    [Looks, Notices] + Reconnection(watch.lucks)
  }

  function Rounds(watches: seq<Watch>): seq<Move>
    requires forall k :: 0 <= k < |watches| ==> |watches[k].lucks| >= MAX_ATTEMPTS
  {
    if |watches| == 0 then []
    else
      var n := |watches| - 1;
      Rounds(watches[..n]) + Round(watches[n])
  }

  /** How monitorReconnect ended, or that it goes on. */
  datatype End = NothingToWatch | ContextDone | OnAndOn

  function LastMoves(end: End): seq<Move> {
    match end
    case NothingToWatch => [Looks]
    case ContextDone => [Looks, Leaves]
    case OnAndOn => []
  }

  // ----- The monitor's moves in a life -----

  function OwnMoves(moves: seq<Move>): seq<Move> {
    if |moves| == 0 then []
    else
      var n := |moves| - 1;
      OwnMoves(moves[..n]) + (if Foreign(moves[n]) then [] else [moves[n]])
  }

  lemma OwnMovesExtend(moves: seq<Move>, move: Move)
    ensures OwnMoves(moves + [move]) == OwnMoves(moves) + (if Foreign(move) then [] else [move])
  {
    assert (moves + [move])[..|moves|] == moves;
  }

  /** The foreign moves that are made when each is tried in turn. */
  function Possible(p: Endpoint, others: seq<Move>): seq<Move> {
    if |others| == 0 then []
    else
      var n := |others| - 1;
      var before := Possible(p, others[..n]);
      match Life(p, before)
      case Some(q) => if Foreign(others[n]) && Moves(q, others[n]).Some? then before + [others[n]] else before
      case None => before
  }

  // ----- The code -----

  class Client {
    var state: Endpoint
    ghost var history: seq<Move>
    const shared: bool

    constructor (shared: bool)
      ensures Valid() && this.shared == shared && history == []
    {
      this.shared := shared;
      state, history := Created(shared), [];
    }

    /** The state is that of the life so far. */
    ghost predicate Valid()
      reads this
    {
      Life(Created(shared), history) == Some(state)
    }

    /** The code has done in its own terms what the move does; it is put on record. */
    ghost method Note(move: Move, was: Endpoint)
      requires Life(Created(shared), history) == Some(was) && Moves(was, move) == Some(state)
      modifies this`history
      ensures Valid() && history == old(history) + [move]
      ensures OwnMoves(history) == OwnMoves(old(history)) + (if Foreign(move) then [] else [move])
    {
      LifeExtend(Created(shared), history, move);
      OwnMovesExtend(history, move);
      history := history + [move];
    }

    /** Others make those of their moves that are possible; they cannot touch what the
        monitor has in hand. */
    method Others(others: seq<Move>)
      requires Valid()
      modifies this
      ensures Valid() && history == old(history) + Possible(old(state), others)
      ensures OwnMoves(history) == OwnMoves(old(history)) && Undisturbed(old(state), state)
    {
      hide Moves, Foreign, Life, Possible, OwnMoves, Undisturbed;
      ghost var taken: seq<Move> := [];
      NothingYet(state, others);
      assert history + taken == history;
      for i := 0 to |others|
        invariant Valid() && history == old(history) + taken && Life(old(state), taken) == Some(state)
        invariant taken == Possible(old(state), others[..i]) && OwnMoves(history) == OwnMoves(old(history))
        invariant Undisturbed(old(state), state)
      {
        OneMorePossible(old(state), others, i, taken, state);
        var next := Moves(state, others[i]);
        if Foreign(others[i]) && next.Some? {
          ghost var was := state;
          ForeignDisturbsNothing(was, others[i], next.value);
          StillUndisturbed(old(state), was, next.value);
          state := next.value;
          Note(others[i], was);
          assert old(history) + (taken + [others[i]]) == old(history) + taken + [others[i]];
          taken := taken + [others[i]];
        }
      }
      assert others[..|others|] == others;
    }

    /** One move of the world: the context ends, or a connection is lost. */
    method World(move: Move)
      requires Valid() && (move.Cancels? || (move.Drops? && move.c < state.link.dialled))
      modifies this
      ensures Valid() && history == old(history) + [move] && OwnMoves(history) == OwnMoves(old(history))
      ensures Undisturbed(old(state), state) && state.link == old(state.link)
      ensures if move.Cancels? then state.cancelled else Gone(state, move.c)
    {
      ghost var was := state;
      state := if move.Cancels? then state.(cancelled := true) else state.(dropped := state.dropped + {move.c});
      Note(move, was);
    }

    method DialConn() returns (c: nat)
      requires Valid() && state.monitor.Reconnecting? && state.monitor.left > 0
      modifies this
      ensures Valid() && history == old(history) + [DialOk] && OwnMoves(history) == OwnMoves(old(history)) + [DialOk]
      ensures c == old(state.link.dialled) && state.monitor == Connecting(old(state.monitor.left) - 1, c)
      ensures c in state.link.dialling && state.link.dialled == c + 1
    {
      ghost var was := state;
      var l := state.link;
      c := l.dialled;
      state := state.(link := l.(dialled := c + 1, dialling := l.dialling + {c}),
                      monitor := Connecting(state.monitor.left - 1, c));
      Note(DialOk, was);
    }

    /** Opens a channel; a connection on which that fails is closed. */
    method Open(c: nat, ok: bool)
      requires Valid() && state.monitor.Connecting? && state.monitor.c == c && c in state.link.dialling
      modifies this
      ensures Valid() && history == old(history) + [Channel(ok)]
      ensures OwnMoves(history) == OwnMoves(old(history)) + [Channel(ok)]
      ensures state.monitor == if ok then old(state.monitor) else Reconnecting(old(state.monitor.left))
      ensures state.link.dialled == old(state.link.dialled) && (ok ==> c in state.link.ready)
      ensures state.link.closes == if ok then old(state.link.closes) else old(state.link.closes) + [c]
    {
      ghost var was := state;
      var l := state.link;
      l := l.(dialling := l.dialling - {c});
      if ok {
        state := state.(link := l.(ready := l.ready + {c}));
      } else {
        state := state.(link := l.(closes := l.closes + [c]), monitor := Reconnecting(state.monitor.left));
      }
      Note(Channel(ok), was);
    }

    /** The section of connect under the lock: what was installed is closed. */
    method InstallConn(c: nat)
      requires Valid() && state.monitor.Connecting? && state.monitor.c == c && c in state.link.ready
      modifies this
      ensures Valid() && history == old(history) + [Installs]
      ensures OwnMoves(history) == OwnMoves(old(history)) + [Installs]
      ensures state.monitor.Reading? && state.link.conn == Some(c) && state.link.channel == Some(c)
      ensures state.link.dialled == old(state.link.dialled)
      ensures state.link.closes == old(state.link.closes) + Closing(old(state.link.conn))
    {
      ghost var was := state;
      var l := state.link;
      assert l.closes + [] == l.closes && l.channelCloses + [] == l.channelCloses;
      if l.channel.Some? { l := l.(channelCloses := l.channelCloses + [l.channel.value]); }
      if l.conn.Some? { l := l.(closes := l.closes + [l.conn.value]); }
      state := state.(link := l.(ready := l.ready - {c}, conn := Some(c), channel := Some(c)), monitor := Reading);
      Note(Installs, was);
    }

    /** Close of a Producer. */
    method CloseAll()
      requires Valid()
      modifies this
      ensures Valid() && history == old(history) + [Closes]
      ensures state.link.conn.None? && state.link.channel.None?
      ensures state.link.closes == old(state.link.closes) + Closing(old(state.link.conn))
    {
      ghost var was := state;
      var l := state.link;
      assert l.closes + [] == l.closes && l.channelCloses + [] == l.channelCloses;
      if l.channel.Some? { l := l.(channelCloses := l.channelCloses + [l.channel.value], channel := None); }
      if l.conn.Some? { l := l.(closes := l.closes + [l.conn.value], conn := None); }
      state := state.(link := l);
      Note(Closes, was);
    }

    /** connect: it dials, opens a channel and installs, in this order and up to the first
        that fails. On success the connection it dialled is the installed one; one
        without a channel has been closed. */
    method Connect(luck: Luck) returns (ok: bool, ghost mine: Option<nat>)
      requires Valid() && state.monitor.Reconnecting? && state.monitor.left > 0
      modifies this
      ensures Valid() && old(history) <= history && OwnMoves(history) == OwnMoves(old(history)) + Attempt(luck)
      ensures Ownership(state.link) && state.link.dialled >= old(state.link.dialled)
      ensures (ok <==> Works(luck)) && (!luck.dials ==> state.link == old(state.link))
      ensures state.monitor == if ok then Reading else Reconnecting(old(state.monitor.left) - 1)
      ensures ok ==> mine.Some? && mine.value >= old(state.link.dialled) &&
                     state.link.conn == mine && state.link.channel == mine
      ensures luck.dials && !luck.opens ==> mine.Some? && mine.value >= old(state.link.dialled) &&
                                            Count(state.link.closes, Is(mine.value)) == 1
    {
      hide Life, Moves, OwnMoves, Ownership;
      mine := None;
      if !luck.dials {
        DialFailed();
        return false, mine;
      }
      var c := DialConn();
      mine := Some(c);
      Others(luck.afterDial);
      Open(c, luck.opens);
      InOrder();
      if !luck.opens {
        ClosedOnce(c);
        return false, mine;
      }
      Others(luck.afterOpen);
      InstallConn(c);
      InOrder();
      ok := true;
    }

    method DialFailed()
      requires Valid() && state.monitor.Reconnecting? && state.monitor.left > 0
      modifies this
      ensures Valid() && history == old(history) + [DialFails]
      ensures OwnMoves(history) == OwnMoves(old(history)) + [DialFails]
      ensures Ownership(state.link) && state.link == old(state.link)
      ensures state.monitor == Reconnecting(old(state.monitor.left) - 1)
    {
      ghost var was := state;
      state := state.(monitor := Reconnecting(state.monitor.left - 1));
      Note(DialFails, was);
      InOrder();
    }

    lemma InOrder()
      requires Valid()
      ensures EndpointInv(state) && Ownership(state.link) && state.shared == shared
    {
      EndpointAlwaysOk(shared, history);
    }

    lemma ClosedOnce(c: nat)
      requires Valid() && c in state.link.closes
      ensures Count(state.link.closes, Is(c)) == 1
    {
      InOrder();
      assert Owned(state.link, c);
      var k :| 0 <= k < |state.link.closes| && state.link.closes[k] == c;
      CountPositive(state.link.closes, k, Is(c));
    }

    /** One attempt of reconnect and, if it fails, the wait after it, which the end of the
        context cuts short. */
    method Try(luck: Luck) returns (ok: bool)
      requires Valid() && state.monitor.Reconnecting? && state.monitor.left > 0
      modifies this
      ensures Valid() && old(history) <= history && OwnMoves(history) == OwnMoves(old(history)) + Attempt(luck)
      ensures Ownership(state.link) && state.link.dialled >= old(state.link.dialled)
      ensures ok <==> Works(luck)
      ensures ok ==> state.link.conn.Some? && state.link.conn.value >= old(state.link.dialled)
      ensures state.monitor == if ok then Reading else Reconnecting(old(state.monitor.left) - 1)
      ensures !ok && luck.leaves ==> state.cancelled
    {
      hide Life, Moves, OwnMoves, Ownership, Attempt;
      ghost var mine;
      ok, mine := Connect(luck);
      if !ok {
        Others(luck.waiting);
        if luck.leaves { World(Cancels); }
        InOrder();
      }
    }

    /** reconnect: up to ten attempts with a growing wait between them; each dials, and
        they go on until one works or the context ends. */
    method Reconnect(lucks: seq<Luck>) returns (ok: bool, attempts: nat, waited: nat)
      requires Valid() && state.monitor == Reconnecting(MAX_ATTEMPTS) && |lucks| >= MAX_ATTEMPTS
      modifies this
      ensures Valid() && old(history) <= history && OwnMoves(history) == OwnMoves(old(history)) + Reconnection(lucks)
      ensures Ownership(state.link) && state.link.dialled >= old(state.link.dialled) && state.monitor.Reading?
      ensures attempts == Tries(lucks, 0) && (ok <==> Works(lucks[attempts - 1]))
      ensures ok ==> state.link.conn.Some? && state.link.conn.value >= old(state.link.dialled)
      ensures forall k :: 0 <= k < attempts - 1 ==> !Works(lucks[k]) && !lucks[k].leaves
      ensures !ok && attempts < MAX_ATTEMPTS ==> lucks[attempts - 1].leaves
      ensures waited == TotalWait(if ok || lucks[attempts - 1].leaves then attempts - 1 else attempts) <= 55500
      ensures ok <==> exists n :: 0 <= n < 10 && lucks[n].dials && lucks[n].opens && !LeavesBefore(lucks, n)
      ensures (forall k :: 0 <= k < 10 ==> !(lucks[k].dials && lucks[k].opens) && !lucks[k].leaves) ==>
                attempts == 10 && waited == 55500
    {
      WaitBound();
      hide Life, Moves, OwnMoves, Ownership, TotalWait, Backoff, Works, Attempts, Attempt, Tries, Valid, LeavesBefore;
      InOrder();
      var backoff, n := 500, 0;
      ok, waited := false, 0;
      NoAttempts(lucks, OwnMoves(history));
      WaitsStart();
      while n < MAX_ATTEMPTS
        invariant Valid() && old(history) <= history && 0 <= n <= MAX_ATTEMPTS && !ok
        invariant OwnMoves(history) == OwnMoves(old(history)) + Attempts(lucks[..n])
        invariant Ownership(state.link) && state.link.dialled >= old(state.link.dialled)
        invariant backoff == Backoff(n) && waited == TotalWait(n)
        invariant state.monitor == Reconnecting(MAX_ATTEMPTS - n)
        invariant forall k :: 0 <= k < n ==> !Works(lucks[k]) && !lucks[k].leaves
      {
        OneAttemptMore(lucks, n, OwnMoves(old(history)));
        ok := Try(lucks[n]);
        n := n + 1;
        if ok || lucks[n - 1].leaves { break; }
        OneWaitMore(n);
        waited := waited + backoff;
        if backoff < 5000 { backoff := backoff * 2; }
      }
      attempts := n;
      TriesAre(lucks, 0, attempts);
      TenAttempts(lucks);
      if !ok { GiveUp(); }
    }

    method GiveUp()
      requires Valid() && state.monitor.Reconnecting?
      requires state.monitor.left == 0 || (state.cancelled && state.monitor.left < MAX_ATTEMPTS)
      modifies this
      ensures Valid() && history == old(history) + [GivesUp] && OwnMoves(history) == OwnMoves(old(history)) + [GivesUp]
      ensures state == old(state).(monitor := Reading) && Ownership(state.link)
    {
      ghost var was := state;
      state := state.(monitor := Reading);
      Note(GivesUp, was);
      InOrder();
    }

    /** monitorReconnect: as long as there is a connection it watches it, and each time it
        is gone it reconnects; it ends when there is none to watch, or its context ends
        while it watches. */
    method MonitorReconnect(watches: seq<Watch>) returns (rounds: nat, end: End)
      requires Valid() && state.monitor.Reading?
      requires forall k :: 0 <= k < |watches| ==> |watches[k].lucks| >= MAX_ATTEMPTS
      modifies this
      ensures Valid() && old(history) <= history && rounds <= |watches|
      ensures OwnMoves(history) == OwnMoves(old(history)) + (Rounds(watches[..rounds]) + LastMoves(end))
      ensures Ownership(state.link) && state.link.dialled >= old(state.link.dialled)
      ensures end.NothingToWatch? ==> state.link.conn.None? && state.monitor.Ended?
      ensures end.ContextDone? ==> rounds < |watches| && watches[rounds].leaves && state.monitor.Ended?
      ensures end.OnAndOn? ==> rounds == |watches| && state.monitor.Reading?
      ensures forall k :: 0 <= k < rounds ==> !watches[k].leaves
      ensures old(state.link.conn).None? && |watches| > 0 ==> end.NothingToWatch? && rounds == 0
      ensures end.NothingToWatch? && rounds == 0 ==> state.link == old(state.link)
      ensures rounds > 0 && end.OnAndOn? && Succeeds(watches[rounds - 1].lucks) ==>
                state.link.conn.Some? && state.link.conn.value >= old(state.link.dialled)
    {
      hide Life, Moves, OwnMoves, Ownership, Round, Rounds, Succeeds, Valid;
      rounds, end := 0, OnAndOn;
      InOrder();
      NoRounds(watches, OwnMoves(history));
      while rounds < |watches|
        invariant rounds <= |watches| && Valid() && old(history) <= history && state.monitor.Reading? && end.OnAndOn?
        invariant OwnMoves(history) == OwnMoves(old(history)) + Rounds(watches[..rounds])
        invariant Ownership(state.link) && state.link.dialled >= old(state.link.dialled)
        invariant forall k :: 0 <= k < rounds ==> !watches[k].leaves
        invariant old(state.link.conn).None? ==> rounds == 0
        invariant rounds == 0 ==> state.link == old(state.link)
        invariant rounds > 0 && Succeeds(watches[rounds - 1].lucks) ==>
                    state.link.conn.Some? && state.link.conn.value >= old(state.link.dialled)
      {
        OneRoundMore(watches, rounds, OwnMoves(old(history)));
        end := WatchOnce(watches[rounds]);
        if !end.OnAndOn? {
          Associates(OwnMoves(old(history)), Rounds(watches[..rounds]), LastMoves(end));
          return;
        }
        rounds := rounds + 1;
      }
      AllRounds(watches, OwnMoves(old(history)));
    }

    /** One round: it looks for a connection, watches it, and reconnects when it is gone. */
    method WatchOnce(watch: Watch) returns (end: End)
      requires Valid() && state.monitor.Reading? && |watch.lucks| >= MAX_ATTEMPTS
      modifies this
      ensures Valid() && old(history) <= history
      ensures OwnMoves(history) ==
              OwnMoves(old(history)) + (if end.OnAndOn? then Round(watch) else LastMoves(end))
      ensures Ownership(state.link) && state.link.dialled >= old(state.link.dialled)
      ensures end.NothingToWatch? <==> old(state.link.conn).None?
      ensures end.NothingToWatch? ==> state.link == old(state.link) && state.monitor.Ended?
      ensures !end.NothingToWatch? ==> (end.ContextDone? <==> watch.leaves)
      ensures if end.OnAndOn? then state.monitor.Reading? else state.monitor.Ended?
      ensures end.OnAndOn? && Succeeds(watch.lucks) ==>
                state.link.conn.Some? && state.link.conn.value >= old(state.link.dialled)
    {
      hide Life, Moves, OwnMoves, Ownership, Reconnection, Succeeds, Valid;
      RoundInSteps(watch, OwnMoves(history));
      var watching := Look();
      if !watching { return NothingToWatch; }
      var gone := AwaitLoss(watch);
      if !gone { return ContextDone; }
      var ok, _, _ := Reconnect(watch.lucks);
      SucceedsMeans(watch.lucks);
      end := OnAndOn;
    }

    method Look() returns (watching: bool)
      requires Valid() && state.monitor.Reading?
      modifies this
      ensures Valid() && history == old(history) + [Looks] && OwnMoves(history) == OwnMoves(old(history)) + [Looks]
      ensures state.link == old(state.link) && Ownership(state.link) && (watching <==> state.link.conn.Some?)
      ensures state.monitor == if watching then Watching(state.link.conn.value) else Ended
    {
      ghost var was := state;
      watching := state.link.conn.Some?;
      state := state.(monitor := if watching then Watching(state.link.conn.value) else Ended);
      Note(Looks, was);
      InOrder();
    }

    /** Waits until the watched connection is gone or the context ends. */
    method AwaitLoss(watch: Watch) returns (gone: bool)
      requires Valid() && state.monitor.Watching?
      modifies this
      ensures Valid() && old(history) <= history && gone == !watch.leaves
      ensures OwnMoves(history) == OwnMoves(old(history)) + [if gone then Notices else Leaves]
      ensures state.monitor == if gone then Reconnecting(MAX_ATTEMPTS) else Ended
      ensures Ownership(state.link) && state.link.dialled >= old(state.link.dialled)
    {
      hide Life, OwnMoves, Ownership;
      Others(watch.others);
      InOrder();
      if watch.leaves {
        World(Cancels);
      } else if !Gone(state, state.monitor.c) {
        World(Drops(state.monitor.c));
      }
      gone := !watch.leaves;
      ghost var was := state;
      state := state.(monitor := if gone then Reconnecting(MAX_ATTEMPTS) else Ended);
      Note(if gone then Notices else Leaves, was);
      InOrder();
    }
  }

  /** What others cannot change: the monitor, and the connection it has in hand. */
  predicate Undisturbed(p: Endpoint, q: Endpoint) {
    && q.monitor == p.monitor && q.shared == p.shared && (p.cancelled ==> q.cancelled)
    && p.link.dialled <= q.link.dialled
    && (p.monitor.Connecting? && p.monitor.c < p.link.dialled ==>
          (p.monitor.c in p.link.dialling ==> p.monitor.c in q.link.dialling) &&
          (p.monitor.c in p.link.ready ==> p.monitor.c in q.link.ready))
  }

  lemma ForeignDisturbsNothing(p: Endpoint, move: Move, q: Endpoint)
    requires Foreign(move) && Moves(p, move) == Some(q)
    ensures Undisturbed(p, q)
  {
  }

  lemma StillUndisturbed(p: Endpoint, q: Endpoint, r: Endpoint)
    requires Undisturbed(p, q) && Undisturbed(q, r)
    ensures Undisturbed(p, r)
  {
  }

  lemma NothingYet(p: Endpoint, others: seq<Move>)
    ensures Possible(p, others[..0]) == [] && Life(p, []) == Some(p) && Undisturbed(p, p)
  {
  }

  lemma OneMorePossible(p: Endpoint, others: seq<Move>, i: nat, taken: seq<Move>, q: Endpoint)
    requires i < |others| && taken == Possible(p, others[..i]) && Life(p, taken) == Some(q)
    ensures Possible(p, others[..i + 1]) ==
            if Foreign(others[i]) && Moves(q, others[i]).Some? then taken + [others[i]] else taken
    ensures Life(p, taken + [others[i]]) == Moves(q, others[i])
  {
    hide Moves, Foreign;
    assert others[..i + 1][..i] == others[..i] && others[..i + 1][i] == others[i];
    LifeExtend(p, taken, others[i]);
  }

  lemma NoAttempts(lucks: seq<Luck>, before: seq<Move>)
    ensures Attempts(lucks[..0]) == [] && before == before + Attempts(lucks[..0])
  {
  }

  lemma OneAttemptMore(lucks: seq<Luck>, k: nat, before: seq<Move>)
    requires k < |lucks|
    ensures before + Attempts(lucks[..k]) + Attempt(lucks[k]) == before + Attempts(lucks[..k + 1])
  {
    assert lucks[..k + 1][..k] == lucks[..k] && lucks[..k + 1][k] == lucks[k];
    var x, y := Attempts(lucks[..k]), Attempt(lucks[k]);
    assert before + x + y == before + (x + y);
  }

  lemma NoRounds(watches: seq<Watch>, before: seq<Move>)
    requires forall k :: 0 <= k < |watches| ==> |watches[k].lucks| >= MAX_ATTEMPTS
    ensures Rounds(watches[..0]) == [] && before + Rounds(watches[..0]) == before
  {
  }

  lemma OneRoundMore(watches: seq<Watch>, k: nat, before: seq<Move>)
    requires k < |watches| && forall i :: 0 <= i < |watches| ==> |watches[i].lucks| >= MAX_ATTEMPTS
    ensures before + Rounds(watches[..k]) + Round(watches[k]) == before + Rounds(watches[..k + 1])
  {
    assert watches[..k + 1][..k] == watches[..k] && watches[..k + 1][k] == watches[k];
    var x, y := Rounds(watches[..k]), Round(watches[k]);
    assert Rounds(watches[..k + 1]) == x + y;
    Associates(before, x, y);
  }

  lemma Associates(a: seq<Move>, b: seq<Move>, c: seq<Move>)
    ensures a + b + c == a + (b + c)
  {
  }

  lemma AllRounds(watches: seq<Watch>, before: seq<Move>)
    requires forall i :: 0 <= i < |watches| ==> |watches[i].lucks| >= MAX_ATTEMPTS
    ensures before + Rounds(watches[..|watches|]) == before + (Rounds(watches[..|watches|]) + LastMoves(OnAndOn))
  {
    hide Rounds;
  }

  lemma RoundInSteps(watch: Watch, before: seq<Move>)
    requires |watch.lucks| >= MAX_ATTEMPTS
    ensures before + [Looks] + [Notices] + Reconnection(watch.lucks) == before + Round(watch)
    ensures before + [Looks] + [Leaves] == before + LastMoves(ContextDone)
  {
    hide Reconnection;
    var y := Reconnection(watch.lucks);
    assert before + [Looks] + [Notices] == before + [Looks, Notices];
    Associates(before, [Looks, Notices], y);
  }

  lemma {:induction false} TriesAre(lucks: seq<Luck>, k: nat, n: nat)
    requires k < n <= MAX_ATTEMPTS <= |lucks|
    requires forall i :: k <= i < n - 1 ==> !Works(lucks[i]) && !lucks[i].leaves
    requires n == MAX_ATTEMPTS || Works(lucks[n - 1]) || lucks[n - 1].leaves
    ensures Tries(lucks, k) == n
    decreases n - k
  {
    if k == n - 1 {
    } else {
      TriesAre(lucks, k + 1, n);
    }
  }

  /** Some attempt works, and the context does not end before it. */
  predicate Succeeds(lucks: seq<Luck>)
    requires |lucks| >= MAX_ATTEMPTS
  {
    exists n :: 0 <= n < MAX_ATTEMPTS && Works(lucks[n]) && forall k :: 0 <= k < n ==> !lucks[k].leaves
  }

  lemma SucceedsMeans(lucks: seq<Luck>)
    requires |lucks| >= MAX_ATTEMPTS
    ensures Succeeds(lucks) <==> Works(lucks[Tries(lucks, 0) - 1])
  {
    TriesStop(lucks, 0);
    var n := Tries(lucks, 0);
    if Works(lucks[n - 1]) {
      assert forall k :: 0 <= k < n - 1 ==> !lucks[k].leaves;
    }
  }

  lemma {:induction false} TriesStop(lucks: seq<Luck>, k: nat)
    requires k < MAX_ATTEMPTS <= |lucks|
    ensures var n := Tries(lucks, k);
            && (forall i :: k <= i < n - 1 ==> !Works(lucks[i]) && !lucks[i].leaves)
            && (n == MAX_ATTEMPTS || Works(lucks[n - 1]) || lucks[n - 1].leaves)
    decreases MAX_ATTEMPTS - k
  {
    if Works(lucks[k]) || lucks[k].leaves || k == MAX_ATTEMPTS - 1 {
    } else {
      TriesStop(lucks, k + 1);
    }
  }

  predicate LeavesBefore(lucks: seq<Luck>, n: nat)
    requires n <= |lucks|
  {
    exists k :: 0 <= k < n && lucks[k].leaves
  }

  /** Ten attempts, unless one works or the context ends; ten waits take 55.5 seconds. */
  lemma TenAttempts(lucks: seq<Luck>)
    requires |lucks| >= MAX_ATTEMPTS
    ensures MAX_ATTEMPTS == 10 && TotalWait(10) == 55500
    ensures Works(lucks[Tries(lucks, 0) - 1]) <==>
            exists n :: 0 <= n < 10 && lucks[n].dials && lucks[n].opens && !LeavesBefore(lucks, n)
    ensures (forall k :: 0 <= k < 10 ==> !(lucks[k].dials && lucks[k].opens) && !lucks[k].leaves) ==>
              Tries(lucks, 0) == 10
  {
    TenWaits();
    TriesStop(lucks, 0);
    SucceedsMeans(lucks);
    hide Tries, TotalWait;
    if n :| 0 <= n < 10 && lucks[n].dials && lucks[n].opens && !LeavesBefore(lucks, n) {
      assert Succeeds(lucks);
    }
    if Works(lucks[Tries(lucks, 0) - 1]) {
      var n := Tries(lucks, 0) - 1;
      assert lucks[n].dials && lucks[n].opens && !LeavesBefore(lucks, n);
    }
  }

  /** The waits, in milliseconds. */
  lemma TenWaits()
    ensures TotalWait(1) == 500 && TotalWait(2) == 1500 && TotalWait(3) == 3500 && TotalWait(4) == 7500
    ensures TotalWait(5) == 15500 && TotalWait(6) == 23500 && TotalWait(7) == 31500 && TotalWait(8) == 39500
    ensures TotalWait(9) == 47500 && TotalWait(10) == 55500
  {
    assert Backoff(1) == 1000 && Backoff(2) == 2000 && Backoff(3) == 4000 && Backoff(4) == 8000;
    assert Backoff(5) == 8000 && Backoff(6) == 8000 && Backoff(7) == 8000 && Backoff(8) == 8000 && Backoff(9) == 8000;
    assert TotalWait(4) == 7500 && TotalWait(8) == 39500;
  }

  lemma WaitsStart()
    ensures TotalWait(0) == 0 && Backoff(0) == 500
  {
  }

  lemma OneWaitMore(attempts: nat)
    requires attempts > 0
    ensures TotalWait(attempts) == TotalWait(attempts - 1) + Backoff(attempts - 1)
    ensures Backoff(attempts) ==
            if Backoff(attempts - 1) < 5000 then 2 * Backoff(attempts - 1) else Backoff(attempts - 1)
  {
  }

  lemma WaitBound()
    ensures forall n :: 0 <= n <= MAX_ATTEMPTS ==> TotalWait(n) <= 55500
  {
    TenWaits();
    hide Backoff;
    assert TotalWait(0) == 0;
  }
}
