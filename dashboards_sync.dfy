/** The synchronous custom-dashboards migrator (`CustomDashboardsMigrator`):
    the dashboards are handled one at a time, with the preparation steps of
    the asynchronous migrator inlined, a per-dashboard duplicate prompt and
    three running counters. `migrate()` hands the run to the asynchronous
    migrator whenever its dependencies import. Every HTTP reply is given as a
    function of the request it answers. */
module DashboardsSync {
  import opened Json
  import opened Tally
  import opened Migration
  import opened Prompts
  import opened Users
  import opened DashboardPrepare
  import AppConfig
  import DashboardsAsync

  /** How one dashboard is counted. */
  datatype Outcome = Migrated | Updated | Skipped

  /** `_update_dashboard`: the PUT of the dashboard without its id to the
      first target with that title, successful when the reply has an id. */
  function UpdateResult(d: Obj, title: Json, targets: seq<Obj>, api: WriteApi): Result<bool> {
    match IdOfFirst(targets, "title", title)
    case None => Ok(false)
    case Some(id) => IdReturned(api.put(id, d - {"id"}))
  }

  /** `_update_dashboard` on the dict the loop holds; the id is deleted in
      place once a target is found, before the PUT. */
  method UpdateDashboard(dashboard: JsonDict, title: Json, targets: seq<Obj>, api: WriteApi) returns (r: Result<bool>)
    modifies dashboard
    ensures r == UpdateResult(old(dashboard.fields), title, targets, api)
    ensures dashboard.fields == if IdOfFirst(targets, "title", title).Some? then old(dashboard.fields) - {"id"} else old(dashboard.fields)
  {
    if targets == [] {
      return Ok(false);
    }
    var k := FirstWith(targets, "title", title);
    if k.None? || "id" !in targets[k.value] {
      return Ok(false);
    }
    var targetId := targets[k.value]["id"];
    if "id" in dashboard.fields {
      dashboard.Discard("id");
    }
    assert dashboard.fields == old(dashboard.fields) - {"id"};
    r := IdReturned(api.put(targetId, dashboard.fields));
  }

  /** `_create_dashboard`: the POST of the dashboard as it is, id included. */
  function CreateResult(d: Obj, api: WriteApi): Result<bool> {
    IdReturned(api.post(d))
  }

  /** `_prompt_for_duplicate_dashboard`: the configured `on_duplicate` word
      when it is not "ask"; "skip" on a non-interactive run; otherwise the
      first menu answer typed. */
  function DuplicateChoice(onDuplicate: string, interactive: bool, typed: seq<string>): (r: Asked<string>)
    ensures r.Answered? ==> r.used <= |typed|
  {
    if onDuplicate != "ask" then Answered(onDuplicate, 0)
    else if !interactive then Answered("skip", 0)
    else match FirstAnswer(typed, DuplicateAnswer)
      case InputExhausted => InputExhausted
      case Answered(c, n) => Answered(ChoiceWord(c), n)
  }

  method PromptForDuplicateDashboard(onDuplicate: string, interactive: bool, typed: seq<string>) returns (r: Asked<string>)
    ensures r == DuplicateChoice(onDuplicate, interactive, typed)
  {
    if onDuplicate != "ask" {
      return Answered(onDuplicate, 0);
    }
    if !interactive {
      return Answered("skip", 0);
    }
    var a := Ask(typed, DuplicateAnswer);
    match a {
      case InputExhausted => r := InputExhausted;
      case Answered(c, n) => r := Answered(ChoiceWord(c), n);
    }
  }

  /** The prompt answers "ask" with the line typed at `k`, every line before
      it having been rejected; any other configured word is passed through,
      and a non-interactive run skips. */
  lemma DuplicateChoiceMeaning(onDuplicate: string, interactive: bool, typed: seq<string>, k: nat)
    requires k < |typed| && DuplicateAnswer(typed[k]).Some?
    requires forall j :: 0 <= j < k ==> DuplicateAnswer(typed[j]).None?
    ensures onDuplicate == "ask" && interactive ==>
      DuplicateChoice(onDuplicate, interactive, typed) == Answered(ChoiceWord(DuplicateAnswer(typed[k]).value), k + 1)
    ensures onDuplicate != "ask" ==> DuplicateChoice(onDuplicate, interactive, typed).answer == onDuplicate
    ensures onDuplicate == "ask" && !interactive ==> DuplicateChoice(onDuplicate, interactive, typed).answer == "skip"
  {
    FirstAnswerAt(typed, DuplicateAnswer, k, DuplicateAnswer(typed[k]).value);
  }

  /** What the loop needs besides the dashboards and the typed lines. */
  datatype SyncContext = SyncContext(onDuplicate: string, interactive: bool, targets: seq<Obj>,
                                     titles: seq<Json>, api: WriteApi)

  /** What one dashboard does to the loop: a counter and the typed lines
      left, the `break` of a cancel, or an escaping exception. */
  datatype Step = Counted(outcome: Outcome, rest: seq<string>) | CancelLoop | StepRaised(error: string)

  function CreateStep(p: Obj, ctx: SyncContext, typed: seq<string>): Step {
    match CreateResult(p, ctx.api)
    case Raised(e) => StepRaised(e)
    case Ok(ok) => Counted(if ok then Migrated else Skipped, typed)
  }

  function UpdateStep(p: Obj, title: Json, ctx: SyncContext, typed: seq<string>): Step {
    match UpdateResult(p, title, ctx.targets, ctx.api)
    case Raised(e) => StepRaised(e)
    case Ok(ok) => Counted(if ok then Updated else Skipped, typed)
  }

  /** One iteration of the `_migrate_sync` loop on a source dashboard. */
  function SyncItem(d: Obj, ctx: SyncContext, typed: seq<string>): Step {
    match PrepareVerdict(d)
    case Raises(e) => StepRaised(e)
    case Refused(_) => Counted(Skipped, typed)
    case Accepted =>
      var p := Shared(d);
      var title := Get(d, "title");
      if title !in ctx.titles then CreateStep(p, ctx, typed)
      else if ctx.onDuplicate == "update" then UpdateStep(p, title, ctx, typed)
      else if ctx.onDuplicate == "skip" then Counted(Skipped, typed)
      else match DuplicateChoice(ctx.onDuplicate, ctx.interactive, typed)
        case InputExhausted => StepRaised("EOFError")
        case Answered(choice, n) =>
          if choice == "skip" then Counted(Skipped, typed[n..])
          else if choice == "update" then UpdateStep(p, title, ctx, typed[n..])
          else if choice == "cancel" then CancelLoop
          else CreateStep(p, ctx, typed[n..])
  }

  /** The loop body on the dict the source list holds. */
  method MigrateItem(dashboard: JsonDict, ctx: SyncContext, typed: seq<string>,
                     userMap: map<Json, Json>, targetUsers: seq<Obj>) returns (step: Step)
    modifies dashboard
    ensures step == SyncItem(old(dashboard.fields), ctx, typed)
  {
    var title := Get(dashboard.fields, "title");
    var verdict := PrepareDashboard(dashboard, userMap, targetUsers);
    if verdict.Raises? {
      return StepRaised(verdict.error);
    } else if verdict.Refused? {
      return Counted(Skipped, typed);
    }
    ghost var p := dashboard.fields;
    assert p == Shared(old(dashboard.fields));
    if title in ctx.titles {
      if ctx.onDuplicate == "update" {
        var ok := UpdateDashboard(dashboard, title, ctx.targets, ctx.api);
        return if ok.Raised? then StepRaised(ok.error) else Counted(if ok.value then Updated else Skipped, typed);
      } else if ctx.onDuplicate == "skip" {
        return Counted(Skipped, typed);
      }
      var choice := PromptForDuplicateDashboard(ctx.onDuplicate, ctx.interactive, typed);
      if choice.InputExhausted? {
        return StepRaised("EOFError");
      }
      var rest := typed[choice.used..];
      if choice.answer == "skip" {
        return Counted(Skipped, rest);
      } else if choice.answer == "update" {
        var ok := UpdateDashboard(dashboard, title, ctx.targets, ctx.api);
        return if ok.Raised? then StepRaised(ok.error) else Counted(if ok.value then Updated else Skipped, rest);
      } else if choice.answer == "cancel" {
        return CancelLoop;
      }
      var created := CreateResult(dashboard.fields, ctx.api);
      return if created.Raised? then StepRaised(created.error) else Counted(if created.value then Migrated else Skipped, rest);
    }
    var created := CreateResult(dashboard.fields, ctx.api);
    step := if created.Raised? then StepRaised(created.error) else Counted(if created.value then Migrated else Skipped, typed);
  }

  function Bump(c: Counters, o: Outcome): (r: Counters)
    ensures r.Total() == c.Total() + 1
  {
    match o
    case Migrated => c.(migrated := c.migrated + 1)
    case Updated => c.(updated := c.updated + 1)
    case Skipped => c.(skipped := c.skipped + 1)
  }

  /** The `for dashboard in source_dashboards` loop from counters `c`. */
  function SyncLoop(items: seq<Obj>, ctx: SyncContext, typed: seq<string>, c: Counters): LoopEnd
    decreases |items|
  {
    if items == [] then Ended(c, false)
    else match SyncItem(items[0], ctx, typed)
      case StepRaised(e) => LoopRaised(e)
      case CancelLoop => Ended(c, true)
      case Counted(o, rest) => SyncLoop(items[1..], ctx, rest, Bump(c, o))
  }

  /** Everything a synchronous run reads besides the configuration. */
  datatype SyncIo = SyncIo(
    interactive: bool,
    typed: seq<string>,
    sourceDashboards: Option<seq<Obj>>,
    targetDashboards: Option<seq<Obj>>,
    sourceUsers: Option<seq<Obj>>,
    targetUsers: Option<seq<Obj>>,
    api: WriteApi)

  function Context(s: AppConfig.Settings, io: SyncIo, targets: seq<Obj>): SyncContext {
    SyncContext(s.onDuplicate, io.interactive, targets, TruthyValues(targets, "title"), io.api)
  }

  /** `_migrate_sync` */
  function SyncRun(s: AppConfig.Settings, io: SyncIo): (r: RunOutcome)
    ensures r.Finished? ==> r.result.Keys == {"source", "migrated", "updated", "skipped"}
  {
    match AppConfig.ValidationError(s)
    case Some(msg) => Crashed("ValueError: " + msg)
    case None =>
      if io.sourceDashboards.None? then Finished(Summary(0, 0, 0, 0))
      else
        var source := io.sourceDashboards.value;
        if io.targetDashboards.None? then Finished(Summary(|source|, 0, 0, 0))
        else if io.sourceUsers.None? then Finished(Summary(0, 0, 0, 0))
        else if io.targetUsers.None? then Finished(Summary(|source|, 0, 0, 0))
        else if UserMap(io.sourceUsers.value, io.targetUsers.value).Raised? then
          Crashed(UserMap(io.sourceUsers.value, io.targetUsers.value).error)
        else Reported(|source|, SyncLoop(source, Context(s, io, io.targetDashboards.value), io.typed, Counters(0, 0, 0)))
  }

  /** The loop of `_migrate_sync` over the source list. */
  method MigrateLoop(source: seq<Obj>, ctx: SyncContext, typed: seq<string>,
                     userMap: map<Json, Json>, targetUsers: seq<Obj>) returns (end: LoopEnd)
    ensures end == SyncLoop(source, ctx, typed, Counters(0, 0, 0))
  {
    var migrated, updated, skipped := 0, 0, 0;
    var rest := typed;
    var i := 0;
    while i < |source|
      invariant 0 <= i <= |source|
      invariant SyncLoop(source, ctx, typed, Counters(0, 0, 0)) == SyncLoop(source[i..], ctx, rest, Counters(migrated, updated, skipped))
    {
      assert source[i..][0] == source[i] && source[i..][1..] == source[i + 1..];
      var dashboard := new JsonDict(source[i]);
      var step := MigrateItem(dashboard, ctx, rest, userMap, targetUsers);
      match step {
        case StepRaised(e) => return LoopRaised(e);
        case CancelLoop => return Ended(Counters(migrated, updated, skipped), true);
        case Counted(o, r) =>
          match o {
            case Migrated => migrated := migrated + 1;
            case Updated => updated := updated + 1;
            case Skipped => skipped := skipped + 1;
          }
          rest := r;
      }
      i := i + 1;
    }
    end := Ended(Counters(migrated, updated, skipped), false);
  }

  /** `_migrate_sync` as a method. */
  method MigrateSync(s: AppConfig.Settings, io: SyncIo) returns (outcome: RunOutcome)
    ensures outcome == SyncRun(s, io)
  {
    var invalid := AppConfig.ValidationError(s);
    if invalid.Some? {
      return Crashed("ValueError: " + invalid.value);
    }
    if io.sourceDashboards.None? {
      return Finished(Summary(0, 0, 0, 0));
    }
    var source := io.sourceDashboards.value;
    if io.targetDashboards.None? {
      return Finished(Summary(|source|, 0, 0, 0));
    }
    if io.sourceUsers.None? {
      return Finished(Summary(0, 0, 0, 0));
    }
    if io.targetUsers.None? {
      return Finished(Summary(|source|, 0, 0, 0));
    }
    var userMap: map<Json, Json> := map[];
    if io.targetUsers.value != [] {
      var mapped := MapUsers(io.sourceUsers.value, io.targetUsers.value);
      if mapped.Raised? {
        return Crashed(mapped.error);
      }
      userMap := mapped.value;
    }
    var end := MigrateLoop(source, Context(s, io, io.targetDashboards.value), io.typed, userMap, io.targetUsers.value);
    match end {
      case LoopRaised(e) => outcome := Crashed(e);
      case Ended(c, _) => outcome := Finished(Summary(|source|, c.migrated, c.updated, c.skipped));
    }
    assert outcome == Reported(|source|, end);
  }

  /** `CustomDashboardsMigrator.migrate`: the asynchronous migrator runs
      whenever its dependencies import, the synchronous loop otherwise. */
  function Migrate(asyncAvailable: bool, s: AppConfig.Settings, aio: DashboardsAsync.AsyncIo, sio: SyncIo): (r: RunOutcome)
    ensures asyncAvailable ==> r == DashboardsAsync.AsyncMigrate(s, aio)
    ensures !asyncAvailable ==> r == SyncRun(s, sio)
  {
    if asyncAvailable then DashboardsAsync.AsyncMigrate(s, aio) else SyncRun(s, sio)
  }

  /** Every dashboard the loop reaches is counted once, except the one that
      cancels; a cancel leaves that dashboard and all later ones uncounted. */
  lemma {:induction false} SyncLoopCounts(items: seq<Obj>, ctx: SyncContext, typed: seq<string>, c: Counters)
    ensures SyncLoop(items, ctx, typed, c).Ended? ==>
      var end := SyncLoop(items, ctx, typed, c);
      (end.cancelled ==> end.counters.Total() < c.Total() + |items|) &&
      (!end.cancelled ==> end.counters.Total() == c.Total() + |items|)
    ensures SyncLoop(items, ctx, typed, c).Ended? ==>
      var end := SyncLoop(items, ctx, typed, c);
      end.counters.migrated >= c.migrated && end.counters.updated >= c.updated && end.counters.skipped >= c.skipped
    decreases |items|
  {
    if items != [] {
      match SyncItem(items[0], ctx, typed)
      case StepRaised(_) =>
      case CancelLoop =>
      case Counted(o, rest) =>
        SyncLoopCounts(items[1..], ctx, rest, Bump(c, o));
    }
  }

  /** An iteration that counts its dashboard moves on to the next one. */
  lemma SyncLoopStep(items: seq<Obj>, ctx: SyncContext, typed: seq<string>, c: Counters)
    requires items != [] && SyncItem(items[0], ctx, typed).Counted?
    ensures var step := SyncItem(items[0], ctx, typed);
      SyncLoop(items, ctx, typed, c) == SyncLoop(items[1..], ctx, step.rest, Bump(c, step.outcome))
  {
  }

  /** A source of one dashboard that is counted ends the loop with that
      count. */
  lemma OneCountedItem(d: Obj, ctx: SyncContext, typed: seq<string>, c: Counters)
    requires SyncItem(d, ctx, typed).Counted?
    ensures SyncLoop([d], ctx, typed, c) == Ended(Bump(c, SyncItem(d, ctx, typed).outcome), false)
  {
    SyncLoopStep([d], ctx, typed, c);
    assert [d][1..] == [];
  }

  /** A cancel can only come from the prompt: the configured word "cancel",
      or an interactive "ask" run. */
  predicate MayCancel(ctx: SyncContext) {
    ctx.onDuplicate == "cancel" || (ctx.onDuplicate == "ask" && ctx.interactive)
  }

  lemma {:induction false} NoCancelWithoutPrompt(items: seq<Obj>, ctx: SyncContext, typed: seq<string>, c: Counters)
    requires !MayCancel(ctx)
    ensures SyncLoop(items, ctx, typed, c).Ended? ==> !SyncLoop(items, ctx, typed, c).cancelled
    decreases |items|
  {
    if items != [] {
      match SyncItem(items[0], ctx, typed)
      case StepRaised(_) =>
      case CancelLoop =>
        assert false;
      case Counted(o, rest) =>
        NoCancelWithoutPrompt(items[1..], ctx, rest, Bump(c, o));
    }
  }

  /** With valid settings and every listing fetched, the run ends with the
      TypeError of the user map, or reports what the loop over the source
      dashboards ends with. */
  lemma RunIsLoop(s: AppConfig.Settings, io: SyncIo)
    requires AppConfig.ValidationError(s) == None
    requires io.sourceDashboards.Some? && io.targetDashboards.Some? && io.sourceUsers.Some? && io.targetUsers.Some?
    ensures SyncRun(s, io) ==
      if UserMap(io.sourceUsers.value, io.targetUsers.value).Raised? then
        Crashed(UserMap(io.sourceUsers.value, io.targetUsers.value).error)
      else Reported(|io.sourceDashboards.value|,
        SyncLoop(io.sourceDashboards.value, Context(s, io, io.targetDashboards.value), io.typed, Counters(0, 0, 0)))
  {
  }

  /** Without a cancel the counters add up to the source size; with one
      they fall short of it. */
  lemma SyncTallyAddsUp(s: AppConfig.Settings, io: SyncIo)
    requires SyncRun(s, io).Finished?
    ensures var r := SyncRun(s, io).result;
      r["migrated"] + r["updated"] + r["skipped"] <= r["source"]
    ensures io.targetDashboards.Some? && io.sourceUsers.Some? && io.targetUsers.Some? &&
            !MayCancel(Context(s, io, io.targetDashboards.value)) ==>
      var r := SyncRun(s, io).result;
      r["migrated"] + r["updated"] + r["skipped"] == r["source"]
  {
    if io.sourceDashboards.Some? && io.targetDashboards.Some? && io.sourceUsers.Some? && io.targetUsers.Some? {
      var ctx := Context(s, io, io.targetDashboards.value);
      var source := io.sourceDashboards.value;
      var end := SyncLoop(source, ctx, io.typed, Counters(0, 0, 0));
      RunIsLoop(s, io);
      assert end.Ended?;
      var c := end.counters;
      assert SyncRun(s, io).result == Summary(|source|, c.migrated, c.updated, c.skipped);
      SyncLoopCounts(source, ctx, io.typed, Counters(0, 0, 0));
      if !MayCancel(ctx) {
        NoCancelWithoutPrompt(source, ctx, io.typed, Counters(0, 0, 0));
        assert c.Total() == |source|;
      }
    }
  }

  /** The early returns: a failed source listing or source user list gives
      the zero tally, a failed target listing or target user list reports
      only the number of source dashboards. */
  lemma SyncEarlyReturns(s: AppConfig.Settings, io: SyncIo)
    requires AppConfig.ValidationError(s).None? && io.sourceDashboards.Some?
    ensures io.targetDashboards.None? ==> SyncRun(s, io) == Finished(Summary(|io.sourceDashboards.value|, 0, 0, 0))
    ensures io.targetDashboards.Some? && io.sourceUsers.None? ==> SyncRun(s, io) == Finished(Summary(0, 0, 0, 0))
    ensures io.targetDashboards.Some? && io.sourceUsers.Some? && io.targetUsers.None? ==>
      SyncRun(s, io) == Finished(Summary(|io.sourceDashboards.value|, 0, 0, 0))
  {
  }

  /** A dashboard whose title the target already has is not created under
      "skip" and is updated (or skipped, when the update fails) under
      "update"; a new title is created. */
  lemma DuplicateHandling(d: Obj, ctx: SyncContext, typed: seq<string>)
    requires PrepareVerdict(d) == Accepted
    ensures Get(d, "title") !in ctx.titles ==> SyncItem(d, ctx, typed) == CreateStep(Shared(d), ctx, typed)
    ensures Get(d, "title") in ctx.titles && ctx.onDuplicate == "skip" ==> SyncItem(d, ctx, typed) == Counted(Skipped, typed)
    ensures Get(d, "title") in ctx.titles && ctx.onDuplicate == "update" ==>
      SyncItem(d, ctx, typed) == UpdateStep(Shared(d), Get(d, "title"), ctx, typed)
    ensures SyncItem(d, ctx, typed).Counted? && SyncItem(d, ctx, typed).outcome == Updated ==>
      Get(d, "title") in ctx.titles && IdOfFirst(ctx.targets, "title", Get(d, "title")).Some?
  {
  }

  /** A dashboard that preparation refuses is counted as skipped, whatever
      the target holds. */
  lemma RefusedIsSkipped(d: Obj, ctx: SyncContext, typed: seq<string>)
    requires PrepareVerdict(d).Refused?
    ensures SyncItem(d, ctx, typed) == Counted(Skipped, typed)
  {
  }

}
