/** The start-up migration of lifecycle rows from load_events to scenario_events
    (internal/db/schema/postgres.sql), beside the DB-write generator that keeps
    adding samples to load_events (internal/workload/db_write.go). */
module Migration {
  import opened Basics
  import opened LogViews

  // ----- The statement -----

  /** The NOT EXISTS condition looks for an equal row under any id. */
  predicate SameContent(a: Row, b: Row) { a.sid == b.sid && a.payload == b.payload && a.created == b.created }

  predicate Matched(r: Row, events: seq<Row>) { exists k :: 0 <= k < |events| && SameContent(events[k], r) }

  predicate Migrates(r: Row, events: seq<Row>) { r.payload.status.Some? && !Matched(r, events) }

  /** What the SELECT yields, on the table as it was when the statement began. */
  function Candidates(load: seq<Row>, events: seq<Row>): seq<Row> {
    if |load| == 0 then []
    else
      var n := |load| - 1;
      Candidates(load[..n], events) + (if Migrates(load[n], events) then [load[n]] else [])
  }

  /** Inserted rows keep everything but their id, which the sequence gives. */
  function Renumbered(rows: seq<Row>, next: nat): seq<Row> {
    if |rows| == 0 then []
    else
      var n := |rows| - 1;
      Renumbered(rows[..n], next) + [rows[n].(id := next + n)]
  }

  lemma {:induction false} RenumberedAt(rows: seq<Row>, next: nat)
    ensures |Renumbered(rows, next)| == |rows|
    ensures forall k :: 0 <= k < |rows| ==> Renumbered(rows, next)[k] == rows[k].(id := next + k)
  {
    if |rows| == 0 {
    } else {
      RenumberedAt(rows[..|rows| - 1], next);
    }
  }

  lemma {:induction false} CandidatesMean(load: seq<Row>, events: seq<Row>)
    ensures forall r :: r in Candidates(load, events) <==> r in load && Migrates(r, events)
  {
    if |load| == 0 {
    } else {
      var n := |load| - 1;
      CandidatesMean(load[..n], events);
      assert load == load[..n] + [load[n]];
    }
  }

  // ----- The database -----

  /** Ids come from a sequence, so the next one is above all that were given. */
  class Database {
    var load: seq<Row>
    var events: seq<Row>
    var nextLoad: nat
    var nextEvent: nat

    ghost predicate Valid()
      reads this
    {
      && UniqueIds(load) && UniqueIds(events)
      && (forall i :: 0 <= i < |load| ==> load[i].id < nextLoad)
      && (forall i :: 0 <= i < |events| ==> events[i].id < nextEvent)
    }

    constructor ()
      ensures Valid() && load == [] && events == []
    {
      load, events, nextLoad, nextEvent := [], [], 0, 0;
    }

    method InsertLoadEvent(sid: string, payload: Payload, created: int)
      requires Valid()
      modifies this`load, this`nextLoad
      ensures Valid() && load == old(load) + [Row(old(nextLoad), sid, payload, created)]
    {
      load := load + [Row(nextLoad, sid, payload, created)];
      nextLoad := nextLoad + 1;
    }

    /** The INSERT ... SELECT: it reads the events as they were at its start. */
    method Migrate()
      requires Valid()
      modifies this`events, this`nextEvent
      ensures Valid()
      ensures events == old(events) + Renumbered(Candidates(load, old(events)), old(nextEvent))
    {
      var snapshot := events;
      var first := nextEvent;
      var chosen: seq<Row> := [];
      assert snapshot + [] == snapshot;
      for i := 0 to |load|
        invariant Valid() && chosen == Candidates(load[..i], snapshot)
        invariant events == snapshot + Renumbered(chosen, first) && nextEvent == first + |chosen|
      {
        assert load[..i + 1][..i] == load[..i];
        if Migrates(load[i], snapshot) {
          var row := load[i].(id := nextEvent);
          assert (chosen + [load[i]])[..|chosen|] == chosen;
          assert events + [row] == snapshot + Renumbered(chosen + [load[i]], first);
          events := events + [row];
          nextEvent := nextEvent + 1;
          chosen := chosen + [load[i]];
        }
      }
      assert load[..|load|] == load;
    }

    /** One batch of inserts of the same sample; the first failure ends it. An insert
        may reach the table and still be reported as failed. */
    method WriteBatch(sid: string, payload: Payload, turn: WriteTurn, size: nat) returns (ops: nat, ok: bool)
      requires Valid()
      modifies this`load, this`nextLoad
      ensures old(load) <= load && forall i :: |old(load)| <= i < |load| ==> IsSample(load[i], sid, payload)
      ensures Valid() && StopsAt(turn, size, ops) && (ok <==> ops == size) && (ok <==> Succeeds(turn, size))
      ensures |load| == |old(load)| + ops + Bit(!ok && turn.inserts[ops].FailedAfter?)
    {
      ops := 0;
      while ops < size
        invariant Valid() && ops <= size && |load| == |old(load)| + ops
        invariant old(load) <= load && forall j :: |old(load)| <= j < |load| ==> IsSample(load[j], sid, payload)
        invariant forall i :: 0 <= i < ops && i < |turn.inserts| ==> turn.inserts[i].Done?
      {
        var call := if ops < |turn.inserts| then turn.inserts[ops] else Done;
        if call.Applied() {
          InsertLoadEvent(sid, payload, turn.now);
        }
        if !call.Done? { return ops, false; }
        ops := ops + 1;
      }
      ok := true;
    }

    /** DBWriteGenerator.Execute: batches of samples until the deadline, the context
        or a failed insert ends it. Every row it adds is a sample without a status,
        and the operations it reports are the inserts that reported success. */
    method GenerateLoad(sid: string, durationMs: int, batch: int, turns: seq<WriteTurn>)
      returns (ops: nat, batches: nat, error: Option<WriteError>)
      requires Valid()
      modifies this`load, this`nextLoad
      ensures Valid() && old(load) <= load
      ensures forall i :: |old(load)| <= i < |load| ==> load[i].sid == sid && load[i].payload.status.None?
      ensures |old(load)| + ops <= |load| <= |old(load)| + ops + Bit(error == Some(InsertFailed))
      ensures durationMs <= 0 ==> ops == 0 && batches == 0 && error == Some(BadDuration)
      ensures durationMs > 0 ==> batches == Batches(turns, BatchSize(batch)) && error == Stop(turns, batches)
      ensures error != Some(InsertFailed) ==> ops == batches * BatchSize(batch)
      ensures error != Some(InsertFailed) ==> ops == batches * (if batch <= 0 then 10 else batch)
      ensures durationMs > 0 ==>
                && batches <= |turns|
                && (forall k :: 0 <= k < batches ==> !turns[k].expired && !turns[k].cancelled)
                && (error == None <==> batches == |turns| || turns[batches].expired)
                && (error == Some(ContextDone) <==>
                      batches < |turns| && !turns[batches].expired && turns[batches].cancelled)
      ensures error == Some(InsertFailed) ==>
                ops >= batches * BatchSize(batch) &&
                StopsAt(turns[batches], BatchSize(batch), ops - batches * BatchSize(batch))
    {
      if durationMs <= 0 { return 0, 0, Some(BadDuration); }
      ops, batches := 0, 0;
      assert turns[0..] == turns;
      var size := BatchSize(batch);
      hide BatchSize, UniqueIds;
      while batches < |turns| && !turns[batches].expired
        invariant batches <= |turns| && Valid() && old(load) <= load
        invariant forall i :: |old(load)| <= i < |load| ==> load[i].sid == sid && load[i].payload.status.None?
        invariant |load| == |old(load)| + ops && ops == batches * size
        invariant Batches(turns, size) == batches + Batches(turns[batches..], size)
        invariant forall k :: 0 <= k < batches ==> !turns[k].expired && !turns[k].cancelled
      {
        assert turns[batches..][0] == turns[batches] && turns[batches..][1..] == turns[batches + 1..];
        assert !turns[batches].expired;
        OneBatchMore(batches, size);
        if turns[batches].cancelled { return ops, batches, Some(ContextDone); }
        var n, ok := WriteBatch(sid, Payload(None, turns[batches].sample), turns[batches], size);
        ops := ops + n;
        if !ok { return ops, batches, Some(InsertFailed); }
        batches := batches + 1;
      }
      error := None;
    }
  }

  lemma OneBatchMore(batches: nat, size: nat)
    ensures (batches + 1) * size == batches * size + size
  {
  }

  /** A batch without a failed insert. */
  predicate Succeeds(turn: WriteTurn, size: nat) {
    forall i :: 0 <= i < size && i < |turn.inserts| ==> turn.inserts[i].Done?
  }

  /** n inserts report success, and the next one, if any is left, does not. */
  predicate StopsAt(turn: WriteTurn, size: nat, n: nat) {
    && n <= size && (forall i :: 0 <= i < n && i < |turn.inserts| ==> turn.inserts[i].Done?)
    && (n < size ==> n < |turn.inserts| && !turn.inserts[n].Done?)
  }

  /** How many whole batches are written before something ends the loop. */
  function Batches(turns: seq<WriteTurn>, size: nat): (n: nat)
    ensures n <= |turns|
  {
    if |turns| == 0 || turns[0].expired || turns[0].cancelled || !Succeeds(turns[0], size) then 0
    else 1 + Batches(turns[1..], size)
  }

  /** What ends the loop at that turn: the deadline, the context, or an insert. */
  function Stop(turns: seq<WriteTurn>, n: nat): Option<WriteError>
    requires n <= |turns|
  {
    if n == |turns| || turns[n].expired then None
    else if turns[n].cancelled then Some(ContextDone)
    else Some(InsertFailed)
  }

  ghost predicate IsSample(r: Row, sid: string, payload: Payload) { r.sid == sid && r.payload == payload }

  /** One turn of the generator's loop: what the clock and the context say, the
      sample, and how the inserts of the batch go. */
  datatype WriteTurn = WriteTurn(expired: bool, cancelled: bool, sample: string, now: int, inserts: seq<Call>)

  datatype WriteError = BadDuration | ContextDone | InsertFailed

  function BatchSize(batch: int): (n: nat)
    ensures n > 0
  {
    if batch <= 0 then 10 else batch
  }

  // ----- Idempotence -----

  function Migrated(load: seq<Row>, events: seq<Row>, next: nat): seq<Row> {
    events + Renumbered(Candidates(load, events), next)
  }

  predicate AllMatched(load: seq<Row>, events: seq<Row>) {
    forall i :: 0 <= i < |load| && load[i].payload.status.Some? ==> Matched(load[i], events)
  }

  lemma {:induction false} NothingLeft(load: seq<Row>, events: seq<Row>)
    ensures AllMatched(load, events) <==> Candidates(load, events) == []
  {
    if |load| == 0 {
    } else {
      var n := |load| - 1;
      NothingLeft(load[..n], events);
      assert load[n].payload.status.Some? && AllMatched(load, events) ==> Matched(load[n], events);
    }
  }

  /** After one run every row that carries a status has its lifecycle row. */
  lemma OneRunMatchesAll(load: seq<Row>, events: seq<Row>, next: nat)
    ensures AllMatched(load, Migrated(load, events, next))
  {
    var chosen := Candidates(load, events);
    var after := Migrated(load, events, next);
    CandidatesMean(load, events);
    RenumberedAt(chosen, next);
    forall i | 0 <= i < |load| && load[i].payload.status.Some?
      ensures Matched(load[i], after)
    {
      if Matched(load[i], events) {
        var k :| 0 <= k < |events| && SameContent(events[k], load[i]);
        assert after[k] == events[k];
      } else {
        assert load[i] in chosen;
        var k :| 0 <= k < |chosen| && chosen[k] == load[i];
        assert after[|events| + k] == chosen[k].(id := next + k);
      }
    }
  }

  /** What happens to the two tables between migrations: samples, which carry no
      status, lifecycle rows written by the API and the workers, and other starts. */
  datatype Op = Sample(row: Row) | Lifecycle(row: Row) | Restart(next: nat)

  datatype Tables = Tables(load: seq<Row>, events: seq<Row>)

  function Apply(t: Tables, op: Op): Tables {
    match op
    case Sample(r) => if r.payload.status.Some? then t else t.(load := t.load + [r])
    case Lifecycle(r) => t.(events := t.events + [r])
    case Restart(next) => t.(events := Migrated(t.load, t.events, next))
  }

  function ApplyAll(t: Tables, ops: seq<Op>): Tables {
    if |ops| == 0 then t else Apply(ApplyAll(t, ops[..|ops| - 1]), ops[|ops| - 1])
  }

  lemma MatchedStays(r: Row, events: seq<Row>, more: seq<Row>)
    requires Matched(r, events)
    ensures Matched(r, events + more)
  {
    var k :| 0 <= k < |events| && SameContent(events[k], r);
    assert (events + more)[k] == events[k];
  }

  lemma OpKeepsMatched(t: Tables, op: Op)
    requires AllMatched(t.load, t.events)
    ensures AllMatched(Apply(t, op).load, Apply(t, op).events)
  {
    var t' := Apply(t, op);
    forall i | 0 <= i < |t'.load| && t'.load[i].payload.status.Some?
      ensures Matched(t'.load[i], t'.events)
    {
      assert t'.load[i] == t.load[i];
      match op {
        case Sample(_) =>
        case Lifecycle(r) => MatchedStays(t.load[i], t.events, [r]);
        case Restart(next) => MatchedStays(t.load[i], t.events, Renumbered(Candidates(t.load, t.events), next));
      }
    }
  }

  /** Once the migration has run, it never inserts anything again, whatever samples
      and lifecycle rows are written and however often the services restart. */
  lemma {:induction false} MigrationRunsOnce(t: Tables, next: nat, ops: seq<Op>)
    ensures var later := ApplyAll(t.(events := Migrated(t.load, t.events, next)), ops);
            AllMatched(later.load, later.events) && Candidates(later.load, later.events) == []
  {
    var start := t.(events := Migrated(t.load, t.events, next));
    if |ops| == 0 {
      OneRunMatchesAll(t.load, t.events, next);
    } else {
      MigrationRunsOnce(t, next, ops[..|ops| - 1]);
      OpKeepsMatched(ApplyAll(start, ops[..|ops| - 1]), ops[|ops| - 1]);
    }
    var later := ApplyAll(start, ops);
    NothingLeft(later.load, later.events);
  }

  // ----- Non-interference -----

  lemma MigratedIds(load: seq<Row>, events: seq<Row>, next: nat)
    requires UniqueIds(events) && forall i :: 0 <= i < |events| ==> events[i].id < next
    ensures UniqueIds(Migrated(load, events, next))
  {
    RenumberedAt(Candidates(load, events), next);
  }

  predicate Displaces(c: Row, sid: string, latest: Option<Row>) {
    c.sid == sid && (latest.None? || c.created >= latest.value.created)
  }

  lemma InMigrated(load: seq<Row>, events: seq<Row>, next: nat, r: Row)
    requires r in Migrated(load, events, next)
    ensures r in events || (r.id >= next && exists c :: c in Candidates(load, events) && SameContent(c, r))
  {
    var chosen := Candidates(load, events);
    RenumberedAt(chosen, next);
    if r !in events {
      var k :| 0 <= k < |chosen| && Renumbered(chosen, next)[k] == r;
      assert chosen[k] in chosen && SameContent(chosen[k], r);
    }
  }

  /** A migration changes which row is a scenario's latest exactly when it brings in
      a row of that scenario that is not older than the latest so far: a strictly
      newer latest event is never displaced, one with the same timestamp is, by the
      migrated row's higher id. */
  lemma MigrationDisplacesExactlyNotOlder(load: seq<Row>, events: seq<Row>, next: nat, sid: string)
    requires UniqueIds(events) && forall i :: 0 <= i < |events| ==> events[i].id < next
    ensures Get(Migrated(load, events, next), sid) != Get(events, sid) <==>
            exists c :: c in Candidates(load, events) && Displaces(c, sid, Get(events, sid))
  {
    var chosen, after := Candidates(load, events), Migrated(load, events, next);
    MigratedIds(load, events, next);
    RenumberedAt(chosen, next);
    GetIsLatest(events, sid);
    GetIsLatest(after, sid);
    var was := Get(events, sid);
    hide Candidates, Migrated, Get, UniqueIds;
    if c :| c in chosen && Displaces(c, sid, was) {
      var r := Inserted(load, events, next, c);
      if was.Some? {
        assert was.value.id < next;
        assert Newer(r, was.value);
      }
    } else {
      StaysLatest(load, events, next, sid);
    }
  }

  lemma Inserted(load: seq<Row>, events: seq<Row>, next: nat, c: Row) returns (r: Row)
    requires c in Candidates(load, events)
    ensures r in Migrated(load, events, next) && r == c.(id := r.id) && r.id >= next
  {
    var chosen := Candidates(load, events);
    RenumberedAt(chosen, next);
    var k :| 0 <= k < |chosen| && chosen[k] == c;
    r := c.(id := next + k);
    assert Migrated(load, events, next)[|events| + k] == r;
  }

  lemma StaysLatest(load: seq<Row>, events: seq<Row>, next: nat, sid: string)
    requires UniqueIds(events) && forall i :: 0 <= i < |events| ==> events[i].id < next
    requires forall c :: c in Candidates(load, events) ==> !Displaces(c, sid, Get(events, sid))
    ensures Get(Migrated(load, events, next), sid) == Get(events, sid)
  {
    var after := Migrated(load, events, next);
    MigratedIds(load, events, next);
    GetIsLatest(events, sid);
    GetIsLatest(after, sid);
    var was, now := Get(events, sid), Get(after, sid);
    forall q | q in after && q.sid == sid
      ensures was.Some? && (q == was.value || Newer(was.value, q))
    {
      InMigrated(load, events, next, q);
    }
    if was.Some? {
      assert was.value in after;
      LatestIsUnique(after, sid, was.value, now.value);
    }
  }

  /** Two rows with the same timestamp: the migrated one takes the place of the latest,
      although it is not newer. */
  lemma EqualTimestampDisplaces()
    ensures var latest := Row(1, "a", Payload(Some("stopped"), "x"), 7);
            var other := Row(0, "a", Payload(Some("running"), "x"), 7);
            Get([latest], "a") == Some(latest) && Get(Migrated([other], [latest], 2), "a") != Some(latest)
  {
    var latest := Row(1, "a", Payload(Some("stopped"), "x"), 7);
    var older := Row(0, "a", Payload(Some("running"), "x"), 7);
    assert UniqueIds([latest]) && latest in [latest] && older in [older];
    GetIsLatest([latest], "a");
    SelectedRows([older], [latest], older);
    hide Get, Candidates, Migrated, UniqueIds;
    assert Get([latest], "a") == Some(latest);
    assert older in Candidates([older], [latest]);
    MigrationDisplacesExactlyNotOlder([older], [latest], 2, "a");
    assert Displaces(older, "a", Get([latest], "a"));
  }

  /** Which rows the statement selects, written out. */
  lemma SelectedRows(load: seq<Row>, events: seq<Row>, r: Row)
    ensures r in Candidates(load, events) <==>
            && r in load && r.payload.status.Some?
            && forall e :: e in events ==> !(e.sid == r.sid && e.payload == r.payload && e.created == r.created)
  {
    CandidatesMean(load, events);
    if e :| e in events && e.sid == r.sid && e.payload == r.payload && e.created == r.created {
      var k :| 0 <= k < |events| && events[k] == e;
      assert SameContent(events[k], r);
    }
  }

  /** What one run leaves for a row with a status: a lifecycle row of the same scenario
      with the same payload and the same timestamp. */
  lemma MigratedRow(load: seq<Row>, events: seq<Row>, next: nat, r: Row) returns (e: Row)
    requires r in load && r.payload.status.Some?
    ensures e in Migrated(load, events, next) && e.sid == r.sid && e.payload == r.payload && e.created == r.created
  {
    OneRunMatchesAll(load, events, next);
    var after := Migrated(load, events, next);
    var i :| 0 <= i < |load| && load[i] == r;
    assert Matched(load[i], after);
    var k :| 0 <= k < |after| && SameContent(after[k], r);
    e := after[k];
  }
}
