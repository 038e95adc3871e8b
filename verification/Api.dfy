/** The API's two writing handlers, CreateScenario and StopScenario
    (cmd/api/handlers/scenarios.go), as code that runs beside everything else in
    the system: what each HTTP answer promises, and that the calls they make are
    steps of the lifecycle. */
module Api {
  import opened Basics
  import opened Workload
  import opened Lifecycle
  import opened Handlers
  import opened StopSafety
  import opened Accounting
  import opened Runtime

  /** The answer's HTTP code and, on success, the status and id in its body. */
  datatype Answer = Answer(code: nat, body: Option<Event>)

  /** How the calls of one request go, whether a stored payload that is read decodes, and
      what the others do between the calls. */
  datatype Turn = Turn(
    readFails: bool, decodes: bool, meanwhile: seq<Step>, store: Call, between: seq<Step>, send: Send)

  /** The answers by the outcome of the calls. */
  function CreateCode(input: Option<ScenarioRequest>, turn: Turn): nat {
    if input.None? || !Admitted(input.value) then 400
    else if !turn.store.Done? then 500
    else if !turn.send.ReportedOk() then 502
    else 202
  }

  function StopCode(id: string, log: seq<Event>, turn: Turn): nat {
    if id == "" then 400
    else if turn.readFails || Newest(log, id).None? then 404
    else if !turn.decodes || !turn.store.Done? then 500
    else if !turn.send.ReportedOk() then 502
    else 200
  }

  lemma Announced(a: State, b: Broker, s: State, m: Message)
    requires Prefix(a.broker.published, b.published) && s.broker == Publish(b, m)
    ensures NewMessage(a, s, m)
  {
    PublishCounts(b, m);
    assert s.broker.published[|b.published|] == m;
  }

  class ScenarioHandler {
    const system: System

    constructor (system: System)
      ensures this.system == system
    {
      this.system := system;
    }

    /** The insert of a queued event for a scenario that is new to the store. */
    method StoreQueued(req: ScenarioRequest, id: string, call: Call)
      requires system.Valid() && Admitted(req) && id !in system.state.used
      modifies system
      ensures system.Valid() && system.history == old(system.history) + [CreateStore(req, id, call)]
      ensures call.Applied() ==> system.state.log == old(system.state.log) + [Event(id, Queued)]
      ensures system.state.broker == old(system.state.broker)
      ensures call.Done? ==> system.state.creates == old(system.state.creates) + [Create(id, req.profile, true)]
    {
      ghost var was := system.state;
      system.InsertEvent(Event(id, Queued), call);
      if call.Done? {
        system.state := system.state.(creates := system.state.creates + [Create(id, req.profile, true)]);
      }
      system.state := system.state.(used := system.state.used + {id});
      system.Note(CreateStore(req, id, call), was);
    }

    method PublishScenario(id: string, profile: LoadProfile, k: nat, send: Send)
      requires system.Valid() && k < |system.state.creates| && system.state.creates[k] == Create(id, profile, true)
      modifies system
      ensures system.Valid() && system.history == old(system.history) + [CreatePublish(k, send)]
      ensures system.state.log == old(system.state.log)
      ensures var m := Message(profile.targetQueue, Scenario(id, profile), true);
              send.Applied() ==> system.state.broker == Publish(old(system.state.broker), m)
    {
      ghost var was := system.state;
      system.Send(Message(profile.targetQueue, Scenario(id, profile), true), send);
      system.state := system.state.(creates := system.state.creates[k := Create(id, profile, false)]);
      system.Note(CreatePublish(k, send), was);
    }

    /** POST /api/v1/scenarios. Its steps are the insert and, if that reported success,
        the publish; the code tells how they went. A 400 has no effect and a 500
        publishes nothing; a 202 and a 502 both leave the queued event in the log, and
        the message after it unless the send did not take effect. */
    method CreateScenario(input: Option<ScenarioRequest>, id: string, turn: Turn)
      returns (answer: Answer, ghost between: seq<Step>)
      requires system.Valid() && id !in system.state.used
      modifies system
      ensures system.Valid()
      ensures var code := CreateCode(input, turn);
              answer == Answer(code, if code == 202 then Some(Event(id, Queued)) else None)
      ensures answer.code == 400 <==> input.None? || !Admitted(input.value)
      ensures answer.code == 500 <==> input.Some? && Admitted(input.value) && turn.store != Done
      ensures answer.code == 502 <==>
                input.Some? && Admitted(input.value) && turn.store == Done &&
                (turn.send == SendFailed || turn.send == SendFailedAfter)
      ensures answer.code == 202 <==>
                input.Some? && Admitted(input.value) && turn.store == Done &&
                (turn.send == Sent || turn.send == SendLost)
      ensures answer.body == Some(Event(id, Queued)) <==>
                input.Some? && Admitted(input.value) && turn.store == Done &&
                (turn.send == Sent || turn.send == SendLost)
      ensures answer.code == 400 ==> system.state == old(system.state) && system.history == old(system.history)
      ensures answer.code == 500 ==>
                system.history == old(system.history) + [CreateStore(input.value, id, turn.store)] &&
                system.state.broker == old(system.state.broker)
      ensures answer.code in {202, 502} ==>
                var k := |old(system.state.creates)|;
                system.history == old(system.history) + [CreateStore(input.value, id, turn.store)] + between
                                  + [CreatePublish(k, turn.send)] &&
                forall j :: 0 <= j < |between| ==> !OnCreate(k, between[j])
      ensures answer.code in {202, 502} ==> NewEvent(old(system.state), system.state, Event(id, Queued))
      ensures answer.code in {202, 502} && turn.send.Applied() ==>
                NewMessage(old(system.state), system.state,
                           Message(input.value.profile.targetQueue, Scenario(id, input.value.profile), true))
    {
      hide Publish, Run;
      between := [];
      if input.None? || ValidateRequest(input.value).Some? { return Answer(400, None), []; }
      var req := input.value;

      StoreQueued(req, id, turn.store);
      if !turn.store.Done? { return Answer(500, None), []; }
      ghost var stored := system.state;
      var k := |system.state.creates| - 1;

      between := system.Interfere(turn.between, step => OnCreate(k, step));
      RunOnlyAppends(stored, between);
      CreateKept(stored, between, k);
      PrefixAt(stored.log, system.state.log, |stored.log| - 1);

      ghost var before := system.state.broker;
      PublishScenario(id, req.profile, k, turn.send);
      if turn.send.Applied() {
        Announced(stored, before, system.state, Message(req.profile.targetQueue, Scenario(id, req.profile), true));
      }
      answer := if turn.send.ReportedOk() then Answer(202, Some(Event(id, Queued))) else Answer(502, None);
    }

    /** The lookup by id: it finds a row unless it fails or there is none, and goes on
        with the row's payload if that decodes. */
    method LookUp(id: string, fails: bool, decodes: bool) returns (found: bool, readable: bool)
      requires system.Valid()
      modifies system
      ensures system.Valid()
      ensures found <==> !fails && Newest(old(system.state.log), id).Some?
      ensures readable <==> found && decodes
      ensures !readable ==> system.state == old(system.state) && system.history == old(system.history)
      ensures readable ==>
                && system.state == old(system.state).(stops := old(system.state.stops) + [StopCall(id, StopAppending)])
                && system.history == old(system.history) + [StopRead(id)]
    {
      found := !fails && Newest(system.state.log, id).Some?;
      readable := found && decodes;
      if readable {
        ghost var was := system.state;
        system.state := system.state.(stops := system.state.stops + [StopCall(id, StopAppending)]);
        system.Note(StopRead(id), was);
      }
    }

    method StoreStopped(id: string, k: nat, call: Call)
      requires system.Valid() && k < |system.state.stops| && system.state.stops[k] == StopCall(id, StopAppending)
      modifies system
      ensures system.Valid() && system.history == old(system.history) + [StopAppend(k, call)]
      ensures call.Applied() ==> system.state.log == old(system.state.log) + [Event(id, Stopped)]
      ensures system.state.broker == old(system.state.broker) && |system.state.stops| == |old(system.state.stops)|
      ensures call.Done? ==> system.state.stops[k] == StopCall(id, StopPublishing)
    {
      ghost var was := system.state;
      system.InsertEvent(Event(id, Stopped), call);
      var stage := if call.Done? then StopPublishing else StopEnded;
      system.state := system.state.(stops := system.state.stops[k := StopCall(id, stage)]);
      system.Note(StopAppend(k, call), was);
    }

    method PublishStop(id: string, k: nat, send: Send)
      requires system.Valid() && k < |system.state.stops| && system.state.stops[k] == StopCall(id, StopPublishing)
      modifies system
      ensures system.Valid() && system.history == old(system.history) + [StopPublish(k, send)]
      ensures system.state.log == old(system.state.log)
      ensures send.Applied() ==> system.state.broker ==
                                 Publish(old(system.state.broker), Message("scenario.stop", StopNotice(id), false))
    {
      ghost var was := system.state;
      system.Send(Message("scenario.stop", StopNotice(id), false), send);
      system.state := system.state.(stops := system.state.stops[k := StopCall(id, StopEnded)]);
      system.Note(StopPublish(k, send), was);
    }

    /** PUT /api/v1/scenarios/{id}/stop. Its steps are the lookup, the append and, if
        that reported success, the publish; the code tells how they went. A 200 and a
        502 both mean that this call's stop is in the log, and that by the time of the
        answer every event of the scenario that came after it is a stop too, unless a
        handler was in a window when the stop was appended. */
    method StopScenario(id: string, turn: Turn)
      returns (answer: Answer, ghost meanwhile: seq<Step>, ghost between: seq<Step>)
      requires system.Valid()
      modifies system
      ensures system.Valid()
      ensures var code := StopCode(id, old(system.state.log), turn);
              answer == Answer(code, if code == 200 then Some(Event(id, Stopped)) else None)
      ensures answer.code == 400 <==> id == ""
      ensures answer.code == 404 <==> id != "" && (turn.readFails || Newest(old(system.state.log), id) == None)
      ensures var found := id != "" && !turn.readFails && Newest(old(system.state.log), id) != None;
              && (answer.code == 500 <==> found && (!turn.decodes || turn.store != Done))
              && (answer.code == 502 <==>
                    found && turn.decodes && turn.store == Done &&
                    (turn.send == SendFailed || turn.send == SendFailedAfter))
              && (answer.code == 200 <==>
                    found && turn.decodes && turn.store == Done && (turn.send == Sent || turn.send == SendLost))
              && (answer.body == Some(Event(id, Stopped)) <==> answer.code == 200)
      ensures answer.code in {400, 404} || (answer.code == 500 && !turn.decodes) ==>
                system.state == old(system.state) && system.history == old(system.history)
      ensures var k := |old(system.state.stops)|;
              && (forall j :: 0 <= j < |meanwhile| ==> !OnStop(k, meanwhile[j]))
              && (forall j :: 0 <= j < |between| ==> !OnStop(k, between[j]))
      ensures answer.code == 500 && turn.decodes ==>
                system.history == Stopping(old(system.history), id, meanwhile, |old(system.state.stops)|, turn.store)
      ensures answer.code in {200, 502} ==>
                var k := |old(system.state.stops)|;
                var appended := Stopping(old(system.history), id, meanwhile, k, turn.store);
                system.history == appended + between + [StopPublish(k, turn.send)] &&
                StopTookHold(appended, system.history, system.state, id)
      ensures answer.code in {200, 502} ==> NewEvent(old(system.state), system.state, Event(id, Stopped))
      ensures answer.code in {200, 502} && turn.send.Applied() ==>
                NewMessage(old(system.state), system.state, Message("scenario.stop", StopNotice(id), false))
    {
      hide Publish, Run, StopTookHold, NewEvent, NewMessage, StoppedNow, OnStop, Newest;
      meanwhile, between := [], [];
      if id == "" { return Answer(400, None), [], []; }
      ghost var first := system.state;
      var found, readable := LookUp(id, turn.readFails, turn.decodes);
      if !found { return Answer(404, None), [], []; }
      if !readable { return Answer(500, None), [], []; }
      var k := |system.state.stops| - 1;
      ghost var read := system.state;

      meanwhile := system.Interfere(turn.meanwhile, step => OnStop(k, step));
      RunOnlyAppends(read, meanwhile);
      StopKept(read, meanwhile, k);
      StoreStopped(id, k, turn.store);
      if !turn.store.Done? { return Answer(500, None), meanwhile, []; }
      StopIsNewest(system.state, id);
      between := Announce(id, k, turn, first);
      answer := if turn.send.ReportedOk() then Answer(200, Some(Event(id, Stopped))) else Answer(502, None);
    }

    /** What follows a stop that was just appended. */
    method Announce(id: string, k: nat, turn: Turn, ghost first: State) returns (ghost between: seq<Step>)
      requires system.Valid() && k < |system.state.stops| && system.state.stops[k] == StopCall(id, StopPublishing)
      requires StoppedNow(system.state, id) && |first.log| < |system.state.log|
      requires system.state.log[|system.state.log| - 1] == Event(id, Stopped)
      requires Prefix(first.broker.published, system.state.broker.published)
      modifies system
      ensures system.Valid() && system.history == old(system.history) + between + [StopPublish(k, turn.send)]
      ensures forall j :: 0 <= j < |between| ==> !OnStop(k, between[j])
      ensures StopTookHold(old(system.history), system.history, system.state, id)
      ensures NewEvent(first, system.state, Event(id, Stopped))
      ensures turn.send.Applied() ==>
                NewMessage(first, system.state, Message("scenario.stop", StopNotice(id), false))
    {
      hide Publish, Run, StopTookHold, NewEvent, NewMessage, StoppedNow;
      ghost var stored, appended := system.state, system.history;
      between := system.Interfere(turn.between, step => OnStop(k, step));
      RunOnlyAppends(stored, between);
      StopKept(stored, between, k);
      ghost var before := system.state.broker;
      PublishStop(id, k, turn.send);
      AppendedIsNew(first, stored, system.state, Event(id, Stopped));
      if turn.send.Applied() {
        PrefixTrans(first.broker.published, stored.broker.published, before.published);
        Announced(first, before, system.state, Message("scenario.stop", StopNotice(id), false));
      }
      assert system.history == appended + (between + [StopPublish(k, turn.send)]);
      TookHold(appended, between + [StopPublish(k, turn.send)], id);
    }
  }

  /** A run up to the append of a stop call. */
  function Stopping(past: seq<Step>, id: string, meanwhile: seq<Step>, k: nat, store: Call): seq<Step> {
    past + [StopRead(id)] + meanwhile + [StopAppend(k, store)]
  }

  lemma StopIsNewest(s: State, id: string)
    requires |s.log| > 0 && s.log[|s.log| - 1] == Event(id, Stopped)
    ensures StoppedNow(s, id)
  {
  }

  /** The run `appended` ends with the stop as the newest event; from there to
      `later` only stops followed, and no delivery started the generator, if no
      handler was in a window then. */
  ghost predicate StopTookHold(appended: seq<Step>, history: seq<Step>, later: State, id: string) {
    && Prefix(appended, history) && Run(START, appended).Some?
    && (var at := Run(START, appended).value;
        StoppedNow(at, id) && (NoWindow(at, id) ==> OnlyStops(at, later, id) && NoNewLaunch(at, later, id)))
  }

  lemma TookHold(appended: seq<Step>, since: seq<Step>, id: string)
    requires Run(START, appended + since).Some? && Run(START, appended).Some?
    requires StoppedNow(Run(START, appended).value, id)
    ensures StopTookHold(appended, appended + since, Run(START, appended + since).value, id)
  {
    hide Take, StoppedNow, OnlyStops, NoNewLaunch, NoWindow;
    var at := Run(START, appended).value;
    RunConcat(START, appended, since);
    HandlersAlwaysConsistent(appended);
    assert (appended + since)[..|appended|] == appended;
    if NoWindow(at, id) {
      QuietRun(at, since, id);
    }
  }
}
