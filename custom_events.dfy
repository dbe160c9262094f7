/** The custom-event migrator (`EventsMigrator`): each source event
    specification with a name is created in the target, unless its query
    refers to ids of the source system, or a target event already has that
    name, in which case the user chooses to skip it, update the target
    event, or cancel the run. The source id is deleted from the event in
    place before it is written. */
module CustomEvents {
  import opened Json
  import opened Tally
  import opened Prompts
  import opened Migration
  import AppConfig

  const EventsPath := "/api/events/settings/event-specifications/custom"

  /** `event_query and isinstance(event_query, str) and ".id" in event_query`:
      the query names an id of the source system, which the target would
      not know. */
  predicate ReferencesSourceIds(query: Json) {
    query.JStr? && IsSubstring(".id", query.s)
  }

  /** `_get_source_events`: the file named by `events_file_path` when
      `events_source` is "file" in any case, the source API otherwise; None
      when that read failed. */
  function SourceEvents(s: AppConfig.Settings, fromFile: Option<seq<Obj>>, fromApi: Option<seq<Obj>>): (r: Option<seq<Obj>>)
    ensures Lower(s.eventsSource) == "file" ==> r == fromFile
    ensures Lower(s.eventsSource) != "file" ==> r == fromApi
  {
    if Lower(s.eventsSource) == "file" then fromFile else fromApi
  }

  /** The target `_update_event` writes to: the FIRST target event whose
      name equals `str(name)`, when that one has an id. The rendering of a
      list or an object name is not modelled, and such a name finds no
      target. */
  function EventTarget(name: Json, targets: seq<Obj>): Option<Json> {
    match PyStr(name)
    case None => None
    case Some(text) => IdOfFirst(targets, "name", JStr(text))
  }

  /** `_update_event`: the PUT of the event without its id to the target's
      id, successful when the reply has an id. */
  function UpdateResult(event: Obj, name: Json, targets: seq<Obj>, api: WriteApi): Result<bool> {
    match EventTarget(name, targets)
    case None => Ok(false)
    case Some(id) => IdReturned(api.put(id, event - {"id"}))
  }

  /** `_update_event` on the dict the loop holds: the id is deleted in place
      once a target is found, before the PUT. */
  method UpdateEvent(event: JsonDict, name: Json, targets: seq<Obj>, api: WriteApi) returns (r: Result<bool>)
    modifies event
    ensures r == UpdateResult(old(event.fields), name, targets, api)
    ensures event.fields == if EventTarget(name, targets).Some? then old(event.fields) - {"id"} else old(event.fields)
  {
    if targets == [] {
      return Ok(false);
    }
    var text := PyStr(name);
    if text.None? {
      return Ok(false);
    }
    var k := FirstWith(targets, "name", JStr(text.value));
    if k.None? || targets[k.value] == map[] || "id" !in targets[k.value] {
      return Ok(false);
    }
    var targetId := targets[k.value]["id"];
    if "id" in event.fields {
      event.Discard("id");
    }
    assert event.fields == old(event.fields) - {"id"};
    r := IdReturned(api.put(targetId, event.fields));
  }

  /** No PUT is sent for a string name no target event carries: the result
      is the same whatever the target answers. */
  lemma UpdateWithoutMatch(event: Obj, name: string, targets: seq<Obj>, api: WriteApi)
    requires forall i :: 0 <= i < |targets| ==> Get(targets[i], "name") != JStr(name)
    ensures UpdateResult(event, JStr(name), targets, api) == Ok(false)
  {
  }

  /** An update goes to the first target event with that name, and the body
      never carries the source id. */
  lemma UpdateGoesToFirstMatch(event: Obj, name: string, targets: seq<Obj>, api: WriteApi, k: nat)
    requires k < |targets| && Get(targets[k], "name") == JStr(name) && "id" in targets[k]
    requires forall j :: 0 <= j < k ==> Get(targets[j], "name") != JStr(name)
    ensures UpdateResult(event, JStr(name), targets, api) == IdReturned(api.put(targets[k]["id"], event - {"id"}))
  {
    assert FirstWith(targets, "name", JStr(name)) == Some(k);
  }

  /** `_create_event`: the POST of the event without its id, successful when
      the reply has an id. */
  function CreateResult(event: Obj, api: WriteApi): Result<bool> {
    IdReturned(api.post(event - {"id"}))
  }

  /** What the loop needs besides the events and the typed lines: the names
      taken in the target, the target listing and the target's answers. */
  datatype EventContext = EventContext(names: seq<Json>, targets: seq<Obj>, api: WriteApi)

  function CreateStep(event: Obj, ctx: EventContext, typed: seq<string>): ItemStep {
    match CreateResult(event, ctx.api)
    case Raised(e) => Escape(e)
    case Ok(ok) => Next(if ok then AddMigrated else AddNothing, typed)
  }

  /** The menu for a taken name and what each answer leads to; an update
      that fails falls through to a create. */
  function DuplicateStep(event: Obj, ctx: EventContext, name: Json, typed: seq<string>): ItemStep {
    match FirstAnswer(typed, DuplicateAnswer)
    case InputExhausted => Escape("EOFError")
    case Answered(choice, n) =>
      match choice
      case Skip => Next(AddSkipped, typed[n..])
      case Cancel => Stop
      case Update =>
        match UpdateResult(event, name, ctx.targets, ctx.api)
        case Raised(e) => Escape(e)
        case Ok(ok) => if ok then Next(AddUpdated, typed[n..]) else CreateStep(event, ctx, typed[n..])
  }

  /** One iteration of the loop in `migrate`. The query test comes before
      the name is looked up, so such an event is skipped without a prompt
      even when its name is taken. */
  function EventItem(event: Obj, ctx: EventContext, typed: seq<string>): ItemStep {
    var name := Get(event, "name");
    if !Truthy(name) then Next(AddNothing, typed)
    else if ReferencesSourceIds(Get(event, "query")) then Next(AddSkipped, typed)
    else if name !in ctx.names then CreateStep(event, ctx, typed)
    else DuplicateStep(event, ctx, name, typed)
  }

  /** Whether the iteration sends a write (and so deletes the source id
      first): every create, and every update whose target was found. */
  predicate Writes(event: Obj, ctx: EventContext, typed: seq<string>) {
    var name := Get(event, "name");
    Truthy(name) && !ReferencesSourceIds(Get(event, "query")) &&
    (name !in ctx.names ||
     (FirstAnswer(typed, DuplicateAnswer).Answered? && FirstAnswer(typed, DuplicateAnswer).answer == Update))
  }

  function Handler(ctx: EventContext): (Obj, seq<string>) -> ItemStep {
    (event, typed) => EventItem(event, ctx, typed)
  }

  /** The create at the end of the loop body: `if 'id' in event: del
      event['id']`, then the POST. */
  method CreateEvent(event: JsonDict, ctx: EventContext, typed: seq<string>) returns (step: ItemStep)
    modifies event
    ensures step == CreateStep(old(event.fields), ctx, typed)
    ensures event.fields == old(event.fields) - {"id"}
  {
    if "id" in event.fields {
      event.Discard("id");
    }
    assert event.fields == old(event.fields) - {"id"};
    var created := IdReturned(ctx.api.post(event.fields));
    step := if created.Raised? then Escape(created.error) else Next(if created.value then AddMigrated else AddNothing, typed);
  }

  /** Deleting the id first changes nothing about a create. */
  lemma CreateIgnoresId(event: Obj, ctx: EventContext, typed: seq<string>)
    ensures CreateStep(event - {"id"}, ctx, typed) == CreateStep(event, ctx, typed)
  {
    assert (event - {"id"}) - {"id"} == event - {"id"};
  }

  /** The body of `if event_name in target_event_names`, and the create an
      update that fails falls through to. */
  method DuplicateEvent(event: JsonDict, ctx: EventContext, name: Json, typed: seq<string>) returns (step: ItemStep)
    modifies event
    ensures step == DuplicateStep(old(event.fields), ctx, name, typed)
    ensures event.fields ==
      if FirstAnswer(typed, DuplicateAnswer).Answered? && FirstAnswer(typed, DuplicateAnswer).answer == Update
      then old(event.fields) - {"id"} else old(event.fields)
  {
    var choice := Ask(typed, DuplicateAnswer);
    if choice.InputExhausted? {
      return Escape("EOFError");
    }
    var rest := typed[choice.used..];
    if choice.answer == Skip {
      return Next(AddSkipped, rest);
    }
    if choice.answer == Cancel {
      return Stop;
    }
    var updated := UpdateEvent(event, name, ctx.targets, ctx.api);
    if updated.Raised? {
      return Escape(updated.error);
    }
    if updated.value {
      return Next(AddUpdated, rest);
    }
    CreateIgnoresId(old(event.fields), ctx, rest);
    step := CreateEvent(event, ctx, rest);
  }

  /** The loop body as the source writes it, on the dict the source list
      holds: the source id is gone afterwards exactly when a write was
      sent. */
  method MigrateEvent(event: JsonDict, ctx: EventContext, typed: seq<string>) returns (step: ItemStep)
    modifies event
    ensures step == EventItem(old(event.fields), ctx, typed)
    ensures event.fields == if Writes(old(event.fields), ctx, typed) then old(event.fields) - {"id"} else old(event.fields)
  {
    var name := Get(event.fields, "name");
    if !Truthy(name) {
      return Next(AddNothing, typed);
    }
    if ReferencesSourceIds(Get(event.fields, "query")) {
      return Next(AddSkipped, typed);
    }
    if name in ctx.names {
      step := DuplicateEvent(event, ctx, name, typed);
    } else {
      step := CreateEvent(event, ctx, typed);
    }
  }

  /** Everything a run reads besides the configuration: the typed lines, the
      three listings (None when the read failed) and the target's answers. */
  datatype EventsIo = EventsIo(typed: seq<string>, fileEvents: Option<seq<Obj>>, apiEvents: Option<seq<Obj>>,
                               targetEvents: Option<seq<Obj>>, api: WriteApi)

  function Context(io: EventsIo, targets: seq<Obj>): EventContext {
    EventContext(TruthyValues(targets, "name"), targets, io.api)
  }

  /** The three-key dict of the early returns: it has no `updated`. */
  function Unstarted(source: nat): (r: map<string, int>)
    ensures r.Keys == {"source", "migrated", "skipped"}
    ensures r["source"] == source && r["migrated"] == 0 && r["skipped"] == 0
  {
    map["source" := source, "migrated" := 0, "skipped" := 0]
  }

  /** `migrate` */
  function EventsRun(s: AppConfig.Settings, io: EventsIo): (r: RunOutcome)
    ensures r.Finished? ==> r.result.Keys == {"source", "migrated", "skipped"} ||
                            r.result.Keys == {"source", "migrated", "updated", "skipped"}
  {
    match AppConfig.ValidationError(s)
    case Some(msg) => Crashed("ValueError: " + msg)
    case None =>
      match SourceEvents(s, io.fileEvents, io.apiEvents)
      case None => Finished(Unstarted(0))
      case Some(source) =>
        if io.targetEvents.None? then Finished(Unstarted(|source|))
        else Reported(|source|, RunLoop(source, Handler(Context(io, io.targetEvents.value)), io.typed, Counters(0, 0, 0)))
  }

  /** The `for event in source_events` loop; each event is the dict the
      source list holds, changed in place. */
  method MigrateLoop(source: seq<Obj>, ctx: EventContext, typed: seq<string>) returns (end: LoopEnd)
    ensures end == RunLoop(source, Handler(ctx), typed, Counters(0, 0, 0))
  {
    var migrated: nat, updated: nat, skipped: nat := 0, 0, 0;
    var rest := typed;
    var i := 0;
    while i < |source|
      invariant 0 <= i <= |source|
      invariant RunLoop(source, Handler(ctx), typed, Counters(0, 0, 0)) ==
                RunLoop(source[i..], Handler(ctx), rest, Counters(migrated, updated, skipped))
    {
      assert source[i..][0] == source[i] && source[i..][1..] == source[i + 1..];
      var event := new JsonDict(source[i]);
      var step := MigrateEvent(event, ctx, rest);
      match step {
        case Escape(e) => return LoopRaised(e);
        case Stop => return Ended(Counters(migrated, updated, skipped), true);
        case Next(effect, r) =>
          var c := Apply(Counters(migrated, updated, skipped), effect);
          migrated, updated, skipped, rest := c.migrated, c.updated, c.skipped, r;
      }
      i := i + 1;
    }
    end := Ended(Counters(migrated, updated, skipped), false);
  }

  method MigrateEvents(s: AppConfig.Settings, io: EventsIo) returns (outcome: RunOutcome)
    ensures outcome == EventsRun(s, io)
  {
    var invalid := AppConfig.ValidationError(s);
    if invalid.Some? {
      return Crashed("ValueError: " + invalid.value);
    }
    var sourceEvents := SourceEvents(s, io.fileEvents, io.apiEvents);
    if sourceEvents.None? {
      return Finished(Unstarted(0));
    }
    var source := sourceEvents.value;
    if io.targetEvents.None? {
      return Finished(Unstarted(|source|));
    }
    var end := MigrateLoop(source, Context(io, io.targetEvents.value), io.typed);
    match end {
      case LoopRaised(e) => outcome := Crashed(e);
      case Ended(c, _) => outcome := Finished(Summary(|source|, c.migrated, c.updated, c.skipped));
    }
  }

  /** With valid settings and both listings read, the run reports what the
      loop ends with. */
  lemma RunIsLoop(s: AppConfig.Settings, io: EventsIo)
    requires AppConfig.ValidationError(s) == None
    requires SourceEvents(s, io.fileEvents, io.apiEvents).Some? && io.targetEvents.Some?
    ensures var source := SourceEvents(s, io.fileEvents, io.apiEvents).value;
      EventsRun(s, io) == Reported(|source|, RunLoop(source, Handler(Context(io, io.targetEvents.value)), io.typed, Counters(0, 0, 0)))
  {
  }

  /** A failed source read gives zeros; a failed target read reports only
      the number of source events. Neither result has an `updated` key. */
  lemma EventsEarlyReturns(s: AppConfig.Settings, io: EventsIo)
    requires AppConfig.ValidationError(s) == None
    ensures SourceEvents(s, io.fileEvents, io.apiEvents).None? ==> EventsRun(s, io) == Finished(Unstarted(0))
    ensures SourceEvents(s, io.fileEvents, io.apiEvents).Some? && io.targetEvents.None? ==>
      EventsRun(s, io) == Finished(Unstarted(|SourceEvents(s, io.fileEvents, io.apiEvents).value|))
    ensures EventsRun(s, io).Finished? && "updated" !in EventsRun(s, io).result ==> EventsRun(s, io).result["migrated"] == 0
  {
  }

  /** Reading from a file ignores the source API entirely, and the other
      way round. */
  lemma SourceChoice(s: AppConfig.Settings, io: EventsIo, other: Option<seq<Obj>>)
    ensures Lower(s.eventsSource) == "file" ==> EventsRun(s, io) == EventsRun(s, io.(apiEvents := other))
    ensures Lower(s.eventsSource) != "file" ==> EventsRun(s, io) == EventsRun(s, io.(fileEvents := other))
  {
  }

  /** No event is counted twice: the counters never exceed the source. */
  lemma EventsTallyBounded(s: AppConfig.Settings, io: EventsIo)
    requires EventsRun(s, io).Finished? && "updated" in EventsRun(s, io).result
    ensures var r := EventsRun(s, io).result;
      r["migrated"] + r["updated"] + r["skipped"] <= r["source"]
  {
    var listing := SourceEvents(s, io.fileEvents, io.apiEvents);
    if listing.Some? && io.targetEvents.Some? {
      var source := listing.value;
      var handler := Handler(Context(io, io.targetEvents.value));
      var end := RunLoop(source, handler, io.typed, Counters(0, 0, 0));
      RunIsLoop(s, io);
      assert end.Ended?;
      var c := end.counters;
      assert EventsRun(s, io).result == Summary(|source|, c.migrated, c.updated, c.skipped);
      RunLoopCounts(source, handler, io.typed, Counters(0, 0, 0));
    }
  }

  /** An event whose query refers to source ids is skipped without a prompt
      and without a request, whatever its name. */
  lemma IdReferenceSkipped(event: Obj, ctx: EventContext, typed: seq<string>)
    requires Truthy(Get(event, "name")) && ReferencesSourceIds(Get(event, "query"))
    ensures EventItem(event, ctx, typed) == Next(AddSkipped, typed)
    ensures !Writes(event, ctx, typed)
  {
  }

  /** How an event with a name and a harmless query is counted: a new name
      as migrated when the create succeeds; a known name by the menu answer,
      where an update that fails falls through to a create. */
  lemma EventOutcomes(event: Obj, ctx: EventContext, typed: seq<string>)
    requires Truthy(Get(event, "name")) && !ReferencesSourceIds(Get(event, "query"))
    ensures Get(event, "name") !in ctx.names ==> EventItem(event, ctx, typed) == CreateStep(event, ctx, typed)
    ensures Get(event, "name") in ctx.names ==>
      var answer := FirstAnswer(typed, DuplicateAnswer);
      (answer.InputExhausted? ==> EventItem(event, ctx, typed) == Escape("EOFError")) &&
      (answer.Answered? && answer.answer == Skip ==> EventItem(event, ctx, typed) == Next(AddSkipped, typed[answer.used..])) &&
      (answer.Answered? && answer.answer == Cancel ==> EventItem(event, ctx, typed) == Stop) &&
      (answer.Answered? && answer.answer == Update &&
       UpdateResult(event, Get(event, "name"), ctx.targets, ctx.api) == Ok(false) ==>
         EventItem(event, ctx, typed) == CreateStep(event, ctx, typed[answer.used..]))
  {
  }

  /** An event is counted as updated only when its name is taken in the
      target, the user chose update, and a target event of that name with
      an id answered the PUT with a JSON object carrying an id. */
  lemma UpdatedMeansFound(event: Obj, ctx: EventContext, typed: seq<string>)
    requires EventItem(event, ctx, typed).Next? && EventItem(event, ctx, typed).effect == AddUpdated
    ensures Get(event, "name") in ctx.names && !ReferencesSourceIds(Get(event, "query"))
    ensures FirstAnswer(typed, DuplicateAnswer).Answered? && FirstAnswer(typed, DuplicateAnswer).answer == Update
    ensures EventTarget(Get(event, "name"), ctx.targets).Some?
    ensures UpdateResult(event, Get(event, "name"), ctx.targets, ctx.api) == Ok(true)
    ensures HasId(ctx.api.put(EventTarget(Get(event, "name"), ctx.targets).value, event - {"id"}))
  {
  }

  /** An event counted anywhere except skipped was written, so its source id
      was deleted. */
  lemma CountedMeansWritten(event: Obj, ctx: EventContext, typed: seq<string>)
    requires EventItem(event, ctx, typed).Next?
    requires EventItem(event, ctx, typed).effect == AddMigrated || EventItem(event, ctx, typed).effect == AddUpdated
    ensures Writes(event, ctx, typed)
  {
  }

  /** New, harmless events that the target all accepts are all migrated,
      and the typed lines are never read. */
  lemma AllNewEventsMigrated(source: seq<Obj>, ctx: EventContext, typed: seq<string>)
    requires forall i :: 0 <= i < |source| ==>
      Truthy(Get(source[i], "name")) && !ReferencesSourceIds(Get(source[i], "query")) &&
      Get(source[i], "name") !in ctx.names && CreateResult(source[i], ctx.api) == Ok(true)
    ensures RunLoop(source, Handler(ctx), typed, Counters(0, 0, 0)) == Ended(Counters(|source|, 0, 0), false)
  {
    var h := Handler(ctx);
    forall i, t | 0 <= i < |source| ensures h(source[i], t) == Next(AddMigrated, t) {
      assert EventItem(source[i], ctx, t) == CreateStep(source[i], ctx, t);
    }
    RunLoopAllMigrated(source, h, typed, Counters(0, 0, 0));
  }
}
