/** The alert-configuration migrator (`AlertConfigsMigrator`): each source
    configuration with an `alertName` is written to the target by a PUT to
    its own id, unless a target configuration already has that name, in
    which case the user chooses to skip it, update the target configuration
    (a PUT to the target's id), or cancel the run. Payloads are normalised
    before they are sent. */
module AlertConfigs {
  import opened Json
  import opened Tally
  import opened Prompts
  import opened Migration
  import AppConfig

  const AlertsPath := "/api/events/settings/alerts"

  /** The fields the target computes itself and refuses to be sent, in the
      order `_format_config_for_api` deletes them. */
  const ReadOnlyFields: seq<string> := ["lastUpdated", "invalid", "alertChannelNames", "applicationNames"]

  const ReadOnly: set<string> := {"lastUpdated", "invalid", "alertChannelNames", "applicationNames"}

  /** The event filter a configuration without one is given. */
  const DefaultFilter: Json := JObj(map[
    "query" := JNull, "ruleIds" := JArr([]), "eventTypes" := JArr([]),
    "applicationAlertConfigIds" := JArr([]), "validVersion" := JInt(1)])

  /** The fields `_format_config_for_api` adds when they are absent. */
  const ConfigDefaults: Obj := map[
    "eventFilteringConfiguration" := DefaultFilter,
    "customPayloadFields" := JArr([]),
    "integrationIds" := JArr([]),
    "muteUntil" := JInt(0),
    "includeEntityNameInLegacyAlerts" := JBool(false)]

  const DefaultKeys: set<string> := {"eventFilteringConfiguration", "customPayloadFields", "integrationIds",
                                     "muteUntil", "includeEntityNameInLegacyAlerts"}

  const MissingId := "ValueError: Alert configuration must have an 'id' field"
  const MissingName := "ValueError: Alert configuration must have an 'alertName' field"

  /** `if k not in d: d[k] = v` */
  function SetDefault(m: Obj, k: string, v: Json): Obj {
    if k in m then m else m[k := v]
  }

  /** The five defaults, each assigned only when its key is absent. */
  function WithDefaults(s: Obj): Obj {
    var f1 := SetDefault(s, "eventFilteringConfiguration", DefaultFilter);
    var f2 := SetDefault(f1, "customPayloadFields", JArr([]));
    var f3 := SetDefault(f2, "integrationIds", JArr([]));
    var f4 := SetDefault(f3, "muteUntil", JInt(0));
    SetDefault(f4, "includeEntityNameInLegacyAlerts", JBool(false))
  }

  /** `_format_config_for_api`: a copy without the read-only fields, which
      raises ValueError without an `id` (checked first) or an `alertName`,
      and which then gains each default it lacks. */
  function FormatConfig(c: Obj): (r: Result<Obj>)
    ensures r.Raised? <==> "id" !in c || "alertName" !in c
    ensures "id" !in c ==> r == Raised(MissingId)
    ensures "id" in c && "alertName" !in c ==> r == Raised(MissingName)
  {
    var stripped := c - ReadOnly;
    if "id" !in stripped then Raised(MissingId)
    else if "alertName" !in stripped then Raised(MissingName)
    else Ok(WithDefaults(stripped))
  }

  /** The payload has the configuration's keys, less the read-only ones,
      plus the defaulted ones. */
  lemma FormattedKeys(c: Obj)
    requires FormatConfig(c).Ok?
    ensures FormatConfig(c).value.Keys == (c.Keys - ReadOnly) + DefaultKeys
  {
  }

  /** A read-only field is never sent. */
  lemma ReadOnlyNeverSent(c: Obj, f: string)
    requires FormatConfig(c).Ok? && f in ReadOnly
    ensures f !in FormatConfig(c).value
  {
    FormattedKeys(c);
    DefaultsNotReadOnly();
  }

  /** Every other field the configuration has is sent as it is, also when
      a default exists for it. */
  lemma FormattedKeeps(c: Obj, k: string)
    requires FormatConfig(c).Ok? && k in c && k !in ReadOnly
    ensures FormatConfig(c).value[k] == c[k]
  {
  }

  lemma WithDefaultsAdds(s: Obj)
    ensures "eventFilteringConfiguration" !in s ==> WithDefaults(s)["eventFilteringConfiguration"] == DefaultFilter
    ensures "customPayloadFields" !in s ==> WithDefaults(s)["customPayloadFields"] == JArr([])
    ensures "integrationIds" !in s ==> WithDefaults(s)["integrationIds"] == JArr([])
    ensures "muteUntil" !in s ==> WithDefaults(s)["muteUntil"] == JInt(0)
    ensures "includeEntityNameInLegacyAlerts" !in s ==> WithDefaults(s)["includeEntityNameInLegacyAlerts"] == JBool(false)
  {
  }

  /** A field with a default that the configuration lacks gets the default. */
  lemma FormattedDefaults(c: Obj, k: string)
    requires FormatConfig(c).Ok? && k in DefaultKeys && k !in c
    ensures FormatConfig(c).value[k] == ConfigDefaults[k]
  {
    WithDefaultsAdds(c - ReadOnly);
  }

  lemma DefaultsNotReadOnly()
    ensures DefaultKeys !! ReadOnly
  {
  }

  lemma WithDefaultsComplete(s: Obj)
    requires DefaultKeys <= s.Keys
    ensures WithDefaults(s) == s
  {
    assert "eventFilteringConfiguration" in s && "customPayloadFields" in s && "integrationIds" in s;
    assert "muteUntil" in s && "includeEntityNameInLegacyAlerts" in s;
  }

  lemma StripNothing(m: Obj)
    requires m.Keys !! ReadOnly
    ensures m - ReadOnly == m
  {
  }

  /** Formatting a formatted configuration changes nothing more. */
  lemma FormatIdempotent(c: Obj)
    requires FormatConfig(c).Ok?
    ensures FormatConfig(FormatConfig(c).value) == FormatConfig(c)
  {
    var once := FormatConfig(c).value;
    FormattedKeys(c);
    DefaultsNotReadOnly();
    StripNothing(once);
    WithDefaultsComplete(once);
  }

  /** The deletion loop of `_format_config_for_api`: each read-only field
      present in the copy is deleted from it. */
  method StripReadOnly(c: Obj) returns (formatted: Obj)
    ensures formatted == c - ReadOnly
  {
    formatted := c;
    var i := 0;
    while i < |ReadOnlyFields|
      invariant 0 <= i <= |ReadOnlyFields|
      invariant formatted == c - set f | f in ReadOnlyFields[..i]
    {
      if ReadOnlyFields[i] in formatted {
        formatted := formatted - {ReadOnlyFields[i]};
      }
      assert ReadOnlyFields[..i + 1] == ReadOnlyFields[..i] + [ReadOnlyFields[i]];
      i := i + 1;
    }
    assert ReadOnlyFields[..i] == ReadOnlyFields;
    assert (set f | f in ReadOnlyFields) == ReadOnly;
  }

  /** One `if key not in formatted: formatted[key] = value`. */
  method AddDefault(m: Obj, k: string, v: Json) returns (formatted: Obj)
    ensures formatted == SetDefault(m, k, v)
  {
    formatted := m;
    if k !in formatted {
      formatted := formatted[k := v];
    }
  }

  /** The five assignments of a default, in the source's order. */
  method AddDefaults(stripped: Obj) returns (formatted: Obj)
    ensures formatted == WithDefaults(stripped)
  {
    formatted := AddDefault(stripped, "eventFilteringConfiguration", DefaultFilter);
    formatted := AddDefault(formatted, "customPayloadFields", JArr([]));
    formatted := AddDefault(formatted, "integrationIds", JArr([]));
    formatted := AddDefault(formatted, "muteUntil", JInt(0));
    formatted := AddDefault(formatted, "includeEntityNameInLegacyAlerts", JBool(false));
  }

  /** `_format_config_for_api` as the source writes it: the read-only fields
      deleted from the copy, then the checks, then each missing default
      assigned. The argument is a value, so the caller's dict is never
      changed. */
  method FormatConfigForApi(c: Obj) returns (r: Result<Obj>)
    ensures r == FormatConfig(c)
  {
    var formatted := StripReadOnly(c);
    if "id" !in formatted {
      return Raised(MissingId);
    }
    if "alertName" !in formatted {
      return Raised(MissingName);
    }
    formatted := AddDefaults(formatted);
    r := Ok(formatted);
  }

  /** A reply to a PUT counts as success when it is a JSON object: the
      `result.get('id', ...)` that follows fails on anything else, and every
      exception is caught and turned into False. */
  predicate Accepted(reply: Reply) {
    reply.Body? && reply.json.JObj?
  }

  /** The PUT `_create_config` sends: the formatted configuration, to the
      path of its own (source) id; none when formatting raises. */
  function CreateRequest(c: Obj): (r: Option<(Json, Obj)>)
    ensures r.Some? <==> "id" in c && "alertName" in c
    ensures r.Some? ==> r.value.0 == c["id"] && FormatConfig(c) == Ok(r.value.1)
  {
    match FormatConfig(c)
    case Raised(_) => None
    case Ok(f) => Some((f["id"], f))
  }

  /** The PUT `_update_config` sends: the formatted configuration, to the
      path of the target's id; none when formatting raises. */
  function UpdateRequest(c: Obj, targetId: Json): (r: Option<(Json, Obj)>)
    ensures r.Some? <==> "id" in c && "alertName" in c
    ensures r.Some? ==> r.value.0 == targetId && FormatConfig(c) == Ok(r.value.1)
  {
    match FormatConfig(c)
    case Raised(_) => None
    case Ok(f) => Some((targetId, f))
  }

  /** A PUT that is sent and answered with an object. */
  predicate Succeeds(request: Option<(Json, Obj)>, api: WriteApi) {
    request.Some? && Accepted(api.put(request.value.0, request.value.1))
  }

  /** What the loop needs besides the configurations and the typed lines:
      the set of taken names, the target listing and the target's answers. */
  datatype ConfigContext = ConfigContext(names: set<Json>, targets: seq<Obj>, api: WriteApi)

  /** The entry a target adds to the set of taken names: its truthy name. */
  function NamePair(c: Obj): Option<(Json, Json)> {
    var name := Get(c, "alertName");
    if Truthy(name) then Some((name, JNull)) else None
  }

  /** `{config.get('alertName') for config in target_configs if config.get('alertName')}`,
      or the TypeError of a list or dict name; the set is the key set of the
      same comprehension written as a dict. */
  function NameSet(targets: seq<Obj>): (r: Result<set<Json>>)
    ensures r.Raised? <==>
      exists i | 0 <= i < |targets| :: Truthy(Get(targets[i], "alertName")) && !Hashable(Get(targets[i], "alertName"))
    ensures r.Raised? ==> r.error == UnhashableType
    ensures r.Ok? ==> HashableKeys(r.value)
  {
    assert forall i | 0 <= i < |targets| :: NamePair(targets[i]).Some? <==> Truthy(Get(targets[i], "alertName"));
    match DictComp(targets, NamePair)
    case Raised(e) => Raised(e)
    case Ok(m) => Ok(m.Keys)
  }

  /** When the set is built, a name is taken exactly when it is truthy and
      some target carries it. */
  lemma NameSetMeaning(targets: seq<Obj>, x: Json)
    ensures NameSet(targets).Ok? ==>
      (x in NameSet(targets).value <==> Truthy(x) && exists i | 0 <= i < |targets| :: Get(targets[i], "alertName") == x)
  {
    IndexByKeys(targets, NamePair, x);
  }

  /** A context as `migrate` builds it from the target listing. */
  predicate Built(ctx: ConfigContext) {
    NameSet(ctx.targets) == Ok(ctx.names)
  }

  /** `_update_config` for a taken name: the FIRST target with that name,
      when it is a non-empty dict, receives the PUT; counted as updated
      exactly when that succeeds. */
  function UpdateEffect(c: Obj, ctx: ConfigContext, name: Json): Effect {
    match FirstWith(ctx.targets, "alertName", name)
    case None => AddNothing
    case Some(k) =>
      var target := ctx.targets[k];
      if target != map[] && Succeeds(UpdateRequest(c, Get(target, "id")), ctx.api) then AddUpdated else AddNothing
  }

  /** `_create_config`: counted as migrated exactly when the PUT succeeds. */
  function CreateEffect(c: Obj, api: WriteApi): Effect {
    if Succeeds(CreateRequest(c), api) then AddMigrated else AddNothing
  }

  /** The prompt for a taken name and what each answer leads to; a failed
      update is not followed by a create. */
  function DuplicateStep(c: Obj, ctx: ConfigContext, name: Json, typed: seq<string>): ItemStep {
    match FirstAnswer(typed, DuplicateAnswerStripped)
    case InputExhausted => Escape("EOFError")
    case Answered(choice, n) =>
      match choice
      case Skip => Next(AddSkipped, typed[n..])
      case Cancel => Stop
      case Update => Next(UpdateEffect(c, ctx, name), typed[n..])
  }

  /** One iteration of the loop in `migrate`. The name is compared as it is
      (not through `str`) both against the taken names and when the
      target to update is looked up, so a taken name always finds it. A
      list or dict name raises TypeError at the membership test. */
  function ConfigItem(c: Obj, ctx: ConfigContext, typed: seq<string>): ItemStep {
    var name := Get(c, "alertName");
    if !Truthy(name) then Next(AddNothing, typed)
    else match Member(name, ctx.names)
      case Raised(e) => Escape(e)
      case Ok(taken) => if !taken then Next(CreateEffect(c, ctx.api), typed) else DuplicateStep(c, ctx, name, typed)
  }

  function Handler(ctx: ConfigContext): (Obj, seq<string>) -> ItemStep {
    (c, typed) => ConfigItem(c, ctx, typed)
  }

  /** `_update_config` after a "u": the PUT to the first target with the name. */
  method UpdateConfig(c: Obj, ctx: ConfigContext, name: Json) returns (effect: Effect)
    ensures effect == UpdateEffect(c, ctx, name)
  {
    var k := FirstWith(ctx.targets, "alertName", name);
    var ok := false;
    if k.Some? && ctx.targets[k.value] != map[] {
      ok := Succeeds(UpdateRequest(c, Get(ctx.targets[k.value], "id")), ctx.api);
    }
    effect := if ok then AddUpdated else AddNothing;
  }

  /** `_create_config`. */
  method CreateConfig(c: Obj, api: WriteApi) returns (effect: Effect)
    ensures effect == CreateEffect(c, api)
  {
    var created := Succeeds(CreateRequest(c), api);
    effect := if created then AddMigrated else AddNothing;
  }

  /** The loop body as the source writes it. */
  method MigrateConfig(c: Obj, ctx: ConfigContext, typed: seq<string>) returns (step: ItemStep)
    ensures step == ConfigItem(c, ctx, typed)
  {
    var name := Get(c, "alertName");
    if !Truthy(name) {
      return Next(AddNothing, typed);
    }
    var taken := Member(name, ctx.names);
    if taken.Raised? {
      return Escape(taken.error);
    }
    if taken.value {
      var choice := Ask(typed, DuplicateAnswerStripped);
      if choice.InputExhausted? {
        return Escape("EOFError");
      }
      var rest := typed[choice.used..];
      match choice.answer {
        case Skip => return Next(AddSkipped, rest);
        case Cancel => return Stop;
        case Update =>
          var effect := UpdateConfig(c, ctx, name);
          return Next(effect, rest);
      }
    }
    var effect := CreateConfig(c, ctx.api);
    step := Next(effect, typed);
  }

  /** Everything a run reads besides the configuration: the typed lines, the
      two listings (None when the read failed) and the target's answers. */
  datatype ConfigIo = ConfigIo(typed: seq<string>, sourceConfigs: Option<seq<Obj>>,
                               targetConfigs: Option<seq<Obj>>, api: WriteApi)

  /** The three-key result dict of `migrate`: it has no `source`. */
  function Counts(c: Counters): (r: map<string, int>)
    ensures r.Keys == {"migrated", "updated", "skipped"}
    ensures r["migrated"] == c.migrated && r["updated"] == c.updated && r["skipped"] == c.skipped
  {
    map["migrated" := c.migrated, "updated" := c.updated, "skipped" := c.skipped]
  }

  /** `migrate`: a listing that could not be read is an empty one; a list or
      dict name among the targets ends the run before the loop. */
  function ConfigRun(s: AppConfig.Settings, io: ConfigIo): (r: RunOutcome)
    ensures r.Finished? ==> r.result.Keys == {"migrated", "updated", "skipped"}
  {
    match AppConfig.ValidationError(s)
    case Some(msg) => Crashed("ValueError: " + msg)
    case None =>
      var source := OrEmpty(io.sourceConfigs);
      var targets := OrEmpty(io.targetConfigs);
      match NameSet(targets)
      case Raised(e) => Crashed(e)
      case Ok(names) =>
        match RunLoop(source, Handler(ConfigContext(names, targets, io.api)), io.typed, Counters(0, 0, 0))
        case LoopRaised(e) => Crashed(e)
        case Ended(c, _) => Finished(Counts(c))
  }

  /** The `for config in source_configs` loop. */
  method MigrateLoop(source: seq<Obj>, ctx: ConfigContext, typed: seq<string>) returns (end: LoopEnd)
    ensures end == RunLoop(source, Handler(ctx), typed, Counters(0, 0, 0))
  {
    var migrated: nat, updated: nat, skipped: nat := 0, 0, 0;
    var rest := typed;
    var i := 0;
    while i < |source|
      invariant 0 <= i <= |source|
      invariant RunLoop(source, Handler(ctx), typed, Counters(0, 0, 0)) ==
                RunLoop(source[i..], Handler(ctx), rest, Counters(migrated, updated, skipped))
    {
      assert source[i..][0] == source[i] && source[i..][1..] == source[i + 1..];
      var step := MigrateConfig(source[i], ctx, rest);
      match step {
        case Escape(e) => return LoopRaised(e);
        case Stop => return Ended(Counters(migrated, updated, skipped), true);
        case Next(effect, r) =>
          var c := Apply(Counters(migrated, updated, skipped), effect);
          migrated, updated, skipped, rest := c.migrated, c.updated, c.skipped, r;
      }
      i := i + 1;
    }
    end := Ended(Counters(migrated, updated, skipped), false);
  }

  method MigrateConfigs(s: AppConfig.Settings, io: ConfigIo) returns (outcome: RunOutcome)
    ensures outcome == ConfigRun(s, io)
  {
    var invalid := AppConfig.ValidationError(s);
    if invalid.Some? {
      return Crashed("ValueError: " + invalid.value);
    }
    var source := OrEmpty(io.sourceConfigs);
    var targets := OrEmpty(io.targetConfigs);
    var names := NameSet(targets);
    if names.Raised? {
      return Crashed(names.error);
    }
    var end := MigrateLoop(source, ConfigContext(names.value, targets, io.api), io.typed);
    match end {
      case LoopRaised(e) => outcome := Crashed(e);
      case Ended(c, _) => outcome := Finished(Counts(c));
    }
  }

  /** An unreadable listing behaves exactly like an empty one: the run never
      stops early and never reports a failure for it. With no source the
      set of taken names is still built, and can still raise. */
  lemma UnreadableListingIsEmpty(s: AppConfig.Settings, io: ConfigIo)
    ensures io.sourceConfigs.None? ==> ConfigRun(s, io) == ConfigRun(s, io.(sourceConfigs := Some([])))
    ensures io.targetConfigs.None? ==> ConfigRun(s, io) == ConfigRun(s, io.(targetConfigs := Some([])))
    ensures AppConfig.ValidationError(s).None? && io.sourceConfigs.None? ==>
      ConfigRun(s, io) ==
        if NameSet(OrEmpty(io.targetConfigs)).Raised? then Crashed(UnhashableType) else Finished(Counts(Counters(0, 0, 0)))
  {
  }

  /** With valid settings, a truthy list or dict name among the targets
      ends the run with TypeError, whatever the source holds. */
  lemma UnhashableTargetNameCrashes(s: AppConfig.Settings, io: ConfigIo, i: nat)
    requires AppConfig.ValidationError(s).None?
    requires i < |OrEmpty(io.targetConfigs)|
    requires Truthy(Get(OrEmpty(io.targetConfigs)[i], "alertName")) && !Hashable(Get(OrEmpty(io.targetConfigs)[i], "alertName"))
    ensures ConfigRun(s, io) == Crashed(UnhashableType)
  {
  }

  /** No configuration is counted twice. */
  lemma ConfigTallyBounded(s: AppConfig.Settings, io: ConfigIo)
    requires ConfigRun(s, io).Finished?
    ensures var r := ConfigRun(s, io).result;
      r["migrated"] + r["updated"] + r["skipped"] <= |OrEmpty(io.sourceConfigs)|
  {
    var source := OrEmpty(io.sourceConfigs);
    var targets := OrEmpty(io.targetConfigs);
    var handler := Handler(ConfigContext(NameSet(targets).value, targets, io.api));
    RunLoopCounts(source, handler, io.typed, Counters(0, 0, 0));
  }

  /** A taken name is always found among the targets: the update goes to
      the first target that has it. */
  lemma TakenNameFound(c: Obj, ctx: ConfigContext, k: nat)
    requires k < |ctx.targets| && Truthy(Get(c, "alertName")) && Get(ctx.targets[k], "alertName") == Get(c, "alertName")
    requires forall j :: 0 <= j < k ==> Get(ctx.targets[j], "alertName") != Get(c, "alertName")
    ensures UpdateEffect(c, ctx, Get(c, "alertName")) ==
      if Succeeds(UpdateRequest(c, Get(ctx.targets[k], "id")), ctx.api) then AddUpdated else AddNothing
  {
    assert FirstWith(ctx.targets, "alertName", Get(c, "alertName")) == Some(k);
    assert "alertName" in ctx.targets[k];
  }

  /** How a configuration whose name is taken is counted: by the answer;
      an update goes to the FIRST target with that name, and a failed update
      is counted nowhere and is not followed by a create. */
  lemma DuplicateOutcomes(c: Obj, ctx: ConfigContext, typed: seq<string>, k: nat)
    requires Built(ctx)
    requires k < |ctx.targets| && Truthy(Get(c, "alertName")) && Get(ctx.targets[k], "alertName") == Get(c, "alertName")
    requires forall j :: 0 <= j < k ==> Get(ctx.targets[j], "alertName") != Get(c, "alertName")
    requires FirstAnswer(typed, DuplicateAnswerStripped).Answered?
    ensures var a := FirstAnswer(typed, DuplicateAnswerStripped);
      ConfigItem(c, ctx, typed) ==
        match a.answer
        case Skip => Next(AddSkipped, typed[a.used..])
        case Cancel => Stop
        case Update =>
          Next(if Succeeds(UpdateRequest(c, Get(ctx.targets[k], "id")), ctx.api) then AddUpdated else AddNothing, typed[a.used..])
  {
    NameSetMeaning(ctx.targets, Get(c, "alertName"));
    TakenNameFound(c, ctx, k);
  }

  /** A configuration without a name is counted nowhere; a list or dict
      name ends the run with TypeError; a new name is counted as migrated
      exactly when its PUT succeeds. */
  lemma NewConfigOutcomes(c: Obj, ctx: ConfigContext, typed: seq<string>)
    ensures !Truthy(Get(c, "alertName")) ==> ConfigItem(c, ctx, typed) == Next(AddNothing, typed)
    ensures Truthy(Get(c, "alertName")) && !Hashable(Get(c, "alertName")) ==> ConfigItem(c, ctx, typed) == Escape(UnhashableType)
    ensures Truthy(Get(c, "alertName")) && Hashable(Get(c, "alertName")) && Get(c, "alertName") !in ctx.names ==>
      ConfigItem(c, ctx, typed) == Next(if Succeeds(CreateRequest(c), ctx.api) then AddMigrated else AddNothing, typed)
  {
  }

  /** The answer `u` is recognised as update, so a first typed line `u`
      answers after one line whatever follows. */
  lemma AnswerU(rest: seq<string>)
    ensures DuplicateAnswerStripped("u") == Some(Update)
    ensures FirstAnswer(["u"] + rest, DuplicateAnswerStripped) == Answered(Update, 1)
  {
    assert Lower("u") == "u";
    assert StripLeft("u") == "u";
    assert StripRight("u") == "u";
    FirstAnswerAt(["u"] + rest, DuplicateAnswerStripped, 0, Update);
  }

  /** A target that answers every PUT with an object. */
  ghost predicate AcceptsAll(api: WriteApi) {
    forall id, body :: Accepted(api.put(id, body))
  }

  /** A taken name answered with "u" is updated when the target accepts
      the PUT. */
  lemma DuplicateUpdated(dup: Obj, ctx: ConfigContext, rest: seq<string>)
    requires Built(ctx) && AcceptsAll(ctx.api)
    requires "id" in dup && Truthy(Get(dup, "alertName")) && Get(dup, "alertName") in ctx.names
    ensures ConfigItem(dup, ctx, ["u"] + rest) == Next(AddUpdated, rest)
  {
    var typed := ["u"] + rest;
    AnswerU(rest);
    assert typed[1..] == rest;
    var name := Get(dup, "alertName");
    NameSetMeaning(ctx.targets, name);
    var i :| 0 <= i < |ctx.targets| && Get(ctx.targets[i], "alertName") == name;
    var k := FirstWith(ctx.targets, "alertName", name).value;
    var request := UpdateRequest(dup, Get(ctx.targets[k], "id"));
    assert Accepted(ctx.api.put(request.value.0, request.value.1));
    DuplicateOutcomes(dup, ctx, typed, k);
  }

  /** `test_migrate_with_update`-style run: against a target that accepts
      every PUT, a configuration whose name the target has, updated on "u",
      then a new configuration created, gives one updated and one migrated. */
  lemma UpdateThenCreate(dup: Obj, created: Obj, ctx: ConfigContext, rest: seq<string>)
    requires Built(ctx) && AcceptsAll(ctx.api)
    requires "id" in dup && Truthy(Get(dup, "alertName")) && Get(dup, "alertName") in ctx.names
    requires "id" in created && Truthy(Get(created, "alertName")) && Hashable(Get(created, "alertName"))
    requires Get(created, "alertName") !in ctx.names
    ensures RunLoop([dup, created], Handler(ctx), ["u"] + rest, Counters(0, 0, 0)) == Ended(Counters(1, 1, 0), false)
  {
    DuplicateUpdated(dup, ctx, rest);
    var request := CreateRequest(created);
    assert Accepted(ctx.api.put(request.value.0, request.value.1));
    NewConfigOutcomes(created, ctx, rest);
    RunLoopTwo(dup, created, Handler(ctx), ["u"] + rest, Counters(0, 0, 0), AddUpdated, rest, AddMigrated, rest);
    UpdatedThenMigrated();
  }

  lemma UpdatedThenMigrated()
    ensures Apply(Apply(Counters(0, 0, 0), AddUpdated), AddMigrated) == Counters(1, 1, 0)
  {
  }
}
