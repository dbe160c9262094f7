/** The alert-channel migrator (`AlertChannelsMigrator`): each source channel
    with a name is created in the target, unless a target channel already
    has that name, in which case the user chooses to skip it, update the
    target channel, or cancel the run. Payloads are normalised per channel
    kind before they are sent. */
module AlertChannels {
  import opened Json
  import opened Tally
  import opened Prompts
  import opened Migration
  import AppConfig

  const ChannelsPath := "/api/events/settings/alertingChannels"

  /** The kinds `_format_channel_for_api` knows. */
  const KnownKinds: set<string> := {"EMAIL", "SLACK", "WEB_HOOK", "BIDIRECTIONAL_SLACK", "BIDIRECTIONAL_MS_TEAMS",
                                    "GOOGLE_CHAT", "OFFICE_365", "OPS_GENIE", "PAGER_DUTY"}

  /** The placeholder fields a channel of a known kind must carry. */
  function KindDefaults(kind: Json): (d: Obj)
    ensures "rbacTags" !in d && "kind" !in d
    ensures !(kind.JStr? && kind.s in KnownKinds) ==> d == map[]
  {
    if kind == JStr("EMAIL") then
      map["emails" := JArr([JStr("example@example.com")]), "customEmailSubjectPrefix" := JNull]
    else if kind == JStr("SLACK") then
      map["webhookUrl" := JStr("https://example.com/webhook"), "channel" := JStr("alerts"),
          "emojiRendering" := JBool(false)]
    else if kind == JStr("WEB_HOOK") then
      map["webhookUrls" := JArr([JStr("https://webhook.example.com")]), "headers" := JArr([])]
    else if kind == JStr("BIDIRECTIONAL_SLACK") then
      map["appId" := JStr("placeholder_app_id"), "teamId" := JStr("placeholder_team_id"),
          "channelId" := JStr("placeholder_channel_id"), "channelName" := JStr("alerts"),
          "emojiRendering" := JBool(false)]
    else if kind == JStr("BIDIRECTIONAL_MS_TEAMS") then
      map["apiTokenId" := JStr("placeholder_token_id"), "channelId" := JStr("placeholder_channel_id"),
          "channelName" := JStr("alerts"), "instanaUrl" := JStr("https://instana.example.com"),
          "serviceUrl" := JStr("https://teams.example.com"), "teamId" := JStr("placeholder_team_id"),
          "teamName" := JStr("placeholder_team"), "tenantId" := JStr("placeholder_tenant_id"),
          "tenantName" := JStr("placeholder_tenant")]
    else if kind == JStr("GOOGLE_CHAT") then
      map["webhookUrl" := JStr("https://chat.googleapis.com/webhook")]
    else if kind == JStr("OFFICE_365") then
      map["webhookUrl" := JStr("https://webhook.office365.com/webhook")]
    else if kind == JStr("OPS_GENIE") then
      map["apiKey" := JStr("placeholder_api_key"), "region" := JStr("US"), "alias" := JStr(""), "tags" := JStr("")]
    else if kind == JStr("PAGER_DUTY") then
      map["serviceIntegrationKey" := JStr("placeholder_integration_key")]
    else
      map[]
  }

  /** `_format_channel_for_api`: a copy of the channel without `rbacTags`,
      with the placeholders of its kind added for the fields it lacks. */
  function FormatChannel(channel: Obj): (r: Obj)
    ensures r.Keys == (channel.Keys - {"rbacTags"}) + KindDefaults(Get(channel, "kind")).Keys
    ensures forall k :: k in channel && k != "rbacTags" ==> r[k] == channel[k]
    ensures forall k :: k in r && k !in channel ==> r[k] == KindDefaults(Get(channel, "kind"))[k]
    ensures Get(r, "kind") == Get(channel, "kind")
  {
    KindDefaults(Get(channel, "kind")) + (channel - {"rbacTags"})
  }

  /** Formatting a formatted channel changes nothing more. */
  lemma FormatIdempotent(channel: Obj)
    ensures FormatChannel(FormatChannel(channel)) == FormatChannel(channel)
  {
    var once := FormatChannel(channel);
    assert FormatChannel(once).Keys == once.Keys;
  }

  /** A channel of an unknown kind, or without one, loses only `rbacTags`. */
  lemma UnknownKindOnlyDropsRbacTags(channel: Obj)
    requires !(Get(channel, "kind").JStr? && Get(channel, "kind").s in KnownKinds)
    ensures FormatChannel(channel) == channel - {"rbacTags"}
  {
  }

  /** The target `_update_channel` writes to: the first target channel whose
      name equals `str(name)`, when it has an id. The rendering of a list or
      an object name is not modelled, and such a name finds no target. */
  function ChannelTarget(name: Json, targets: seq<Obj>): Option<Json> {
    match PyStr(name)
    case None => None
    case Some(text) => IdOfFirst(targets, "name", JStr(text))
  }

  /** `_update_channel`: the PUT of the formatted channel to the target's
      id, successful when the reply has an id. */
  function UpdateResult(channel: Obj, name: Json, targets: seq<Obj>, api: WriteApi): Result<bool> {
    match ChannelTarget(name, targets)
    case None => Ok(false)
    case Some(id) => IdReturned(api.put(id, FormatChannel(channel)))
  }

  method UpdateChannel(channel: Obj, name: Json, targets: seq<Obj>, api: WriteApi) returns (r: Result<bool>)
    ensures r == UpdateResult(channel, name, targets, api)
  {
    if targets == [] {
      return Ok(false);
    }
    var text := PyStr(name);
    if text.None? {
      return Ok(false);
    }
    var k := FirstWith(targets, "name", JStr(text.value));
    if k.None? || "id" !in targets[k.value] {
      return Ok(false);
    }
    r := IdReturned(api.put(targets[k.value]["id"], FormatChannel(channel)));
  }

  /** A string name no target channel carries finds nothing to update, and
      no PUT is sent: the result is the same whatever the target answers. */
  lemma UpdateWithoutMatch(channel: Obj, name: string, targets: seq<Obj>, api: WriteApi)
    requires forall i :: 0 <= i < |targets| ==> Get(targets[i], "name") != JStr(name)
    ensures UpdateResult(channel, JStr(name), targets, api) == Ok(false)
  {
  }

  /** An update goes to the first target channel with that name. */
  lemma UpdateGoesToFirstMatch(channel: Obj, name: string, targets: seq<Obj>, api: WriteApi, k: nat)
    requires k < |targets| && Get(targets[k], "name") == JStr(name) && "id" in targets[k]
    requires forall j :: 0 <= j < k ==> Get(targets[j], "name") != JStr(name)
    ensures UpdateResult(channel, JStr(name), targets, api) == IdReturned(api.put(targets[k]["id"], FormatChannel(channel)))
  {
    assert FirstWith(targets, "name", JStr(name)) == Some(k);
  }

  /** `_create_channel`: the POST of the formatted channel, successful when
      the reply has an id. */
  function CreateResult(channel: Obj, api: WriteApi): Result<bool> {
    IdReturned(api.post(FormatChannel(channel)))
  }

  /** What the loop needs besides the channels and the typed lines: the names
      taken in the target, the target listing and the target's answers. */
  datatype ChannelContext = ChannelContext(names: seq<Json>, targets: seq<Obj>, api: WriteApi)

  function CreateStep(channel: Obj, ctx: ChannelContext, typed: seq<string>): ItemStep {
    match CreateResult(channel, ctx.api)
    case Raised(e) => Escape(e)
    case Ok(ok) => Next(if ok then AddMigrated else AddNothing, typed)
  }

  /** One iteration of the loop in `migrate`. */
  function ChannelItem(channel: Obj, ctx: ChannelContext, typed: seq<string>): ItemStep {
    var name := Get(channel, "name");
    if !Truthy(name) then Next(AddNothing, typed)
    else if name !in ctx.names then CreateStep(channel, ctx, typed)
    else match FirstAnswer(typed, DuplicateAnswer)
      case InputExhausted => Escape("EOFError")
      case Answered(choice, n) =>
        match choice
        case Skip => Next(AddSkipped, typed[n..])
        case Cancel => Stop
        case Update =>
          match UpdateResult(channel, name, ctx.targets, ctx.api)
          case Raised(e) => Escape(e)
          case Ok(ok) => if ok then Next(AddUpdated, typed[n..]) else CreateStep(channel, ctx, typed[n..])
  }

  function Handler(ctx: ChannelContext): (Obj, seq<string>) -> ItemStep {
    (channel, typed) => ChannelItem(channel, ctx, typed)
  }

  /** The loop body as the source writes it. */
  method MigrateChannel(channel: Obj, ctx: ChannelContext, typed: seq<string>) returns (step: ItemStep)
    ensures step == ChannelItem(channel, ctx, typed)
  {
    var name := Get(channel, "name");
    if !Truthy(name) {
      return Next(AddNothing, typed);
    }
    var rest := typed;
    if name in ctx.names {
      var choice := Ask(typed, DuplicateAnswer);
      if choice.InputExhausted? {
        return Escape("EOFError");
      }
      rest := typed[choice.used..];
      if choice.answer == Skip {
        return Next(AddSkipped, rest);
      }
      if choice.answer == Update {
        var updated := UpdateChannel(channel, name, ctx.targets, ctx.api);
        if updated.Raised? {
          return Escape(updated.error);
        }
        if updated.value {
          return Next(AddUpdated, rest);
        }
      } else {
        return Stop;
      }
    }
    var created := CreateResult(channel, ctx.api);
    step := if created.Raised? then Escape(created.error) else Next(if created.value then AddMigrated else AddNothing, rest);
  }

  /** Everything a run reads besides the configuration: the typed lines, the
      two listings (None when the read failed) and the target's answers. */
  datatype ChannelIo = ChannelIo(typed: seq<string>, sourceChannels: Option<seq<Obj>>,
                                 targetChannels: Option<seq<Obj>>, api: WriteApi)

  function Context(io: ChannelIo, targets: seq<Obj>): ChannelContext {
    ChannelContext(TruthyValues(targets, "name"), targets, io.api)
  }

  /** `migrate` */
  function ChannelRun(s: AppConfig.Settings, io: ChannelIo): (r: RunOutcome)
    ensures r.Finished? ==> r.result.Keys == {"source", "migrated", "updated", "skipped"}
  {
    match AppConfig.ValidationError(s)
    case Some(msg) => Crashed("ValueError: " + msg)
    case None =>
      if io.sourceChannels.None? then Finished(Summary(0, 0, 0, 0))
      else
        var source := io.sourceChannels.value;
        if io.targetChannels.None? then Finished(Summary(|source|, 0, 0, 0))
        else Reported(|source|, RunLoop(source, Handler(Context(io, io.targetChannels.value)), io.typed, Counters(0, 0, 0)))
  }

  /** The `for channel in source_channels` loop. */
  method MigrateLoop(source: seq<Obj>, ctx: ChannelContext, typed: seq<string>) returns (end: LoopEnd)
    ensures end == RunLoop(source, Handler(ctx), typed, Counters(0, 0, 0))
  {
    var migrated: nat, updated: nat, skipped: nat := 0, 0, 0;
    var rest := typed;
    var i := 0;
    while i < |source|
      invariant 0 <= i <= |source|
      invariant RunLoop(source, Handler(ctx), typed, Counters(0, 0, 0)) ==
                RunLoop(source[i..], Handler(ctx), rest, Counters(migrated, updated, skipped))
    {
      assert source[i..][0] == source[i] && source[i..][1..] == source[i + 1..];
      var step := MigrateChannel(source[i], ctx, rest);
      match step {
        case Escape(e) => return LoopRaised(e);
        case Stop => return Ended(Counters(migrated, updated, skipped), true);
        case Next(effect, r) =>
          var c := Apply(Counters(migrated, updated, skipped), effect);
          migrated, updated, skipped, rest := c.migrated, c.updated, c.skipped, r;
      }
      i := i + 1;
    }
    end := Ended(Counters(migrated, updated, skipped), false);
  }

  method MigrateChannels(s: AppConfig.Settings, io: ChannelIo) returns (outcome: RunOutcome)
    ensures outcome == ChannelRun(s, io)
  {
    var invalid := AppConfig.ValidationError(s);
    if invalid.Some? {
      return Crashed("ValueError: " + invalid.value);
    }
    if io.sourceChannels.None? {
      return Finished(Summary(0, 0, 0, 0));
    }
    var source := io.sourceChannels.value;
    if io.targetChannels.None? {
      return Finished(Summary(|source|, 0, 0, 0));
    }
    var end := MigrateLoop(source, Context(io, io.targetChannels.value), io.typed);
    match end {
      case LoopRaised(e) => outcome := Crashed(e);
      case Ended(c, _) => outcome := Finished(Summary(|source|, c.migrated, c.updated, c.skipped));
    }
  }

  /** With valid settings and both listings read, the run reports what the
      loop ends with. */
  lemma RunIsLoop(s: AppConfig.Settings, io: ChannelIo)
    requires AppConfig.ValidationError(s) == None && io.sourceChannels.Some? && io.targetChannels.Some?
    ensures ChannelRun(s, io) == Reported(|io.sourceChannels.value|,
      RunLoop(io.sourceChannels.value, Handler(Context(io, io.targetChannels.value)), io.typed, Counters(0, 0, 0)))
  {
  }

  /** A failed source read gives the zero tally; a failed target read
      reports only the number of source channels. */
  lemma ChannelEarlyReturns(s: AppConfig.Settings, io: ChannelIo)
    requires AppConfig.ValidationError(s) == None
    ensures io.sourceChannels.None? ==> ChannelRun(s, io) == Finished(Summary(0, 0, 0, 0))
    ensures io.sourceChannels.Some? && io.targetChannels.None? ==>
      ChannelRun(s, io) == Finished(Summary(|io.sourceChannels.value|, 0, 0, 0))
  {
  }

  /** No channel is counted twice: the counters never exceed the source. */
  lemma ChannelTallyBounded(s: AppConfig.Settings, io: ChannelIo)
    requires ChannelRun(s, io).Finished?
    ensures var r := ChannelRun(s, io).result;
      r["migrated"] + r["updated"] + r["skipped"] <= r["source"]
  {
    if io.sourceChannels.Some? && io.targetChannels.Some? {
      var source := io.sourceChannels.value;
      var handler := Handler(Context(io, io.targetChannels.value));
      var end := RunLoop(source, handler, io.typed, Counters(0, 0, 0));
      RunIsLoop(s, io);
      assert end.Ended?;
      var c := end.counters;
      assert ChannelRun(s, io).result == Summary(|source|, c.migrated, c.updated, c.skipped);
      RunLoopCounts(source, handler, io.typed, Counters(0, 0, 0));
    }
  }

  /** How one channel is counted: a channel without a name nowhere, a new
      name as migrated when the create succeeds, a known name by the menu
      answer; an update that fails falls through to a create, so it is
      never counted as skipped. */
  lemma ChannelOutcomes(channel: Obj, ctx: ChannelContext, typed: seq<string>)
    ensures !Truthy(Get(channel, "name")) ==> ChannelItem(channel, ctx, typed) == Next(AddNothing, typed)
    ensures Truthy(Get(channel, "name")) && Get(channel, "name") !in ctx.names ==>
      ChannelItem(channel, ctx, typed) == CreateStep(channel, ctx, typed)
    ensures Truthy(Get(channel, "name")) && Get(channel, "name") in ctx.names ==>
      var answer := FirstAnswer(typed, DuplicateAnswer);
      (answer.InputExhausted? ==> ChannelItem(channel, ctx, typed) == Escape("EOFError")) &&
      (answer.Answered? && answer.answer == Skip ==> ChannelItem(channel, ctx, typed) == Next(AddSkipped, typed[answer.used..])) &&
      (answer.Answered? && answer.answer == Cancel ==> ChannelItem(channel, ctx, typed) == Stop) &&
      (answer.Answered? && answer.answer == Update &&
       UpdateResult(channel, Get(channel, "name"), ctx.targets, ctx.api) == Ok(false) ==>
         ChannelItem(channel, ctx, typed) == CreateStep(channel, ctx, typed[answer.used..]))
  {
  }

  /** A channel is counted as updated only when its name is taken in the
      target, the user chose update, and a target channel of that name with
      an id answered the PUT with a JSON object carrying an id. */
  lemma UpdatedMeansFound(channel: Obj, ctx: ChannelContext, typed: seq<string>)
    requires ChannelItem(channel, ctx, typed).Next? && ChannelItem(channel, ctx, typed).effect == AddUpdated
    ensures Get(channel, "name") in ctx.names
    ensures FirstAnswer(typed, DuplicateAnswer).Answered? && FirstAnswer(typed, DuplicateAnswer).answer == Update
    ensures ChannelTarget(Get(channel, "name"), ctx.targets).Some?
    ensures UpdateResult(channel, Get(channel, "name"), ctx.targets, ctx.api) == Ok(true)
    ensures HasId(ctx.api.put(ChannelTarget(Get(channel, "name"), ctx.targets).value, FormatChannel(channel)))
  {
  }
}
