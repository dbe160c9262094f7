/** The asynchronous custom-dashboards migrator (`CustomDashboardsMigratorAsync`):
    one run-wide duplicate strategy, smart filtering of the source summaries,
    concurrent detail fetches and creates, and the final tally. Concurrent
    dispatch is modelled as a map over the items (each item's requests do not
    depend on the others', and the tally only counts tags). The HTTP replies
    are given as functions of the request they answer. */
module DashboardsAsync {
  import opened Json
  import opened Tally
  import opened Prompts
  import opened Users
  import opened DashboardPrepare
  import AppConfig
  import RateLimit

  /** What `_prompt_for_override_strategy` ends with: a decision, the
      `sys.exit(0)` of a cancel, or the EOFError of `input()`. */
  datatype StrategyOutcome = Decided(overrideExisting: bool) | CancelExit | PromptEof

  /** The run-wide strategy: the configured `on_duplicate` when it is
      "update" or "skip", no override on a non-interactive run, otherwise the
      first recognised answer to the o/s/c menu. */
  function OverrideStrategy(onDuplicate: string, interactive: bool, typed: seq<string>): StrategyOutcome {
    if onDuplicate == "update" then Decided(true)
    else if onDuplicate == "skip" then Decided(false)
    else if !interactive then Decided(false)
    else match FirstAnswer(typed, StrategyAnswer)
      case InputExhausted => PromptEof
      case Answered(a, _) => StrategyDecision(a)
  }

  function StrategyDecision(a: Strategy): StrategyOutcome {
    match a
    case Override => Decided(true)
    case KeepExisting => Decided(false)
    case Abort => CancelExit
  }

  /** `_prompt_for_override_strategy` */
  method PromptForOverrideStrategy(onDuplicate: string, interactive: bool, typed: seq<string>) returns (r: StrategyOutcome)
    ensures r == OverrideStrategy(onDuplicate, interactive, typed)
  {
    if onDuplicate == "update" {
      return Decided(true);
    } else if onDuplicate == "skip" {
      return Decided(false);
    }
    if !interactive {
      return Decided(false);
    }
    var answer := Ask(typed, StrategyAnswer);
    match answer {
      case InputExhausted => r := PromptEof;
      case Answered(a, _) =>
        match a {
          case Override => r := Decided(true);
          case KeepExisting => r := Decided(false);
          case Abort => r := CancelExit;
        }
    }
  }

  /** The configured strategies are taken without a prompt, and a run that
      cannot prompt keeps existing dashboards. */
  lemma StrategyWithoutPrompt(onDuplicate: string, interactive: bool, typed: seq<string>)
    ensures onDuplicate == "update" ==> OverrideStrategy(onDuplicate, interactive, typed) == Decided(true)
    ensures onDuplicate == "skip" ==> OverrideStrategy(onDuplicate, interactive, typed) == Decided(false)
    ensures onDuplicate != "update" && onDuplicate != "skip" && !interactive ==>
      OverrideStrategy(onDuplicate, interactive, typed) == Decided(false)
  {
  }

  /** At the prompt, the first line that reads as o/override, s/skip or
      c/cancel in any case decides; the unrecognised lines before it are
      asked again; running out of lines is EOFError. */
  lemma StrategyFromTyped(onDuplicate: string, typed: seq<string>, k: nat)
    requires onDuplicate != "update" && onDuplicate != "skip"
    requires k < |typed| && StrategyAnswer(typed[k]).Some?
    requires forall j :: 0 <= j < k ==> StrategyAnswer(typed[j]).None?
    ensures OverrideStrategy(onDuplicate, true, typed) == StrategyDecision(StrategyAnswer(typed[k]).value)
    ensures Lower(typed[k]) == "o" || Lower(typed[k]) == "override" <==> OverrideStrategy(onDuplicate, true, typed) == Decided(true)
  {
    FirstAnswerAt(typed, StrategyAnswer, k, StrategyAnswer(typed[k]).value);
  }

  lemma StrategyInputExhausted(onDuplicate: string, typed: seq<string>)
    requires onDuplicate != "update" && onDuplicate != "skip"
    requires forall j :: 0 <= j < |typed| ==> StrategyAnswer(typed[j]).None?
    ensures OverrideStrategy(onDuplicate, true, typed) == PromptEof
  {
  }

  /** `{d['title']: d['id'] for d in target_dashboards if 'title' in d and 'id' in d}`,
      or the TypeError of a title Python cannot hash. */
  function ExistingDashboards(targets: seq<Obj>): Result<map<Json, Json>> {
    DictComp(targets, Entry("title", "id"))
  }

  /** Building the map raises exactly when a target dashboard with both
      fields has a list or dict title. Otherwise a title is known exactly
      when some target dashboard carries it and an id, and its id is that of
      the last such dashboard. */
  lemma ExistingDashboardsMeaning(targets: seq<Obj>, title: Json, i: nat)
    ensures ExistingDashboards(targets).Raised? <==>
      exists j | 0 <= j < |targets| :: HasBoth(targets[j], "title", "id") && !Hashable(targets[j]["title"])
    ensures ExistingDashboards(targets).Ok? ==>
      (title in ExistingDashboards(targets).value <==>
        exists j | 0 <= j < |targets| :: HasBoth(targets[j], "title", "id") && targets[j]["title"] == title)
    ensures ExistingDashboards(targets).Ok? && i < |targets| && HasBoth(targets[i], "title", "id") && targets[i]["title"] == title &&
            (forall j | i < j < |targets| :: HasBoth(targets[j], "title", "id") ==> targets[j]["title"] != title)
      ==> title in ExistingDashboards(targets).value && ExistingDashboards(targets).value[title] == targets[i]["id"]
  {
    assert forall j | 0 <= j < |targets| :: Entry("title", "id")(targets[j]).Some? <==> HasBoth(targets[j], "title", "id");
    IndexByKeys(targets, Entry("title", "id"), title);
    if i < |targets| && HasBoth(targets[i], "title", "id") && targets[i]["title"] == title &&
      (forall j | i < j < |targets| :: HasBoth(targets[j], "title", "id") ==> targets[j]["title"] != title)
    {
      IndexByLastWins(targets, Entry("title", "id"), i);
    }
  }

  /** `[d for d in summaries if d.get('title') not in existing]`: the
      membership test hashes each title, so a list or dict title raises
      TypeError. */
  function NotExisting(summaries: seq<Obj>, existing: map<Json, Json>): (r: Result<seq<Obj>>)
    ensures r.Raised? <==> exists i | 0 <= i < |summaries| :: !Hashable(Get(summaries[i], "title"))
    ensures r.Ok? ==> |r.value| <= |summaries|
    ensures r.Ok? ==> forall d :: d in r.value <==> d in summaries && Get(d, "title") !in existing
    ensures r.Ok? ==> (r.value == [] <==> forall i :: 0 <= i < |summaries| ==> Get(summaries[i], "title") in existing)
  {
    if summaries == [] then Ok([])
    else
      assert forall i | 0 <= i < |summaries[1..]| :: summaries[1..][i] == summaries[i + 1];
      assert forall d :: d in summaries <==> d == summaries[0] || d in summaries[1..];
      match Member(Get(summaries[0], "title"), existing.Keys)
      case Raised(e) => Raised(e)
      case Ok(known) =>
        match NotExisting(summaries[1..], existing)
        case Raised(e) => Raised(e)
        case Ok(rest) => Ok(if !known then [summaries[0]] + rest else rest)
  }

  /** The summaries whose details are fetched: in skip mode with known
      target dashboards only the new titles, otherwise all of them. */
  function SmartFilter(summaries: seq<Obj>, existing: map<Json, Json>, overrideExisting: bool): Result<seq<Obj>> {
    if !overrideExisting && existing != map[] then NotExisting(summaries, existing) else Ok(summaries)
  }

  /** `[d['id'] for d in dashboards_to_fetch]`: a summary without an id
      raises KeyError. */
  function SummaryIds(toFetch: seq<Obj>): (r: Option<seq<Json>>)
    ensures r.Some? <==> forall i :: 0 <= i < |toFetch| ==> "id" in toFetch[i]
    ensures r.Some? ==> |r.value| == |toFetch| && forall i :: 0 <= i < |toFetch| ==> r.value[i] == toFetch[i]["id"]
  {
    if forall i :: 0 <= i < |toFetch| ==> "id" in toFetch[i]
    then Some(seq(|toFetch|, i requires 0 <= i < |toFetch| => toFetch[i]["id"]))
    else None
  }

  /** What a request that must first pass the semaphore and the rate limiter
      meets: it proceeds, it raises (a rate of 0 divides by zero while
      waiting for a token), or it waits forever (a semaphore of 0 admits
      nobody, and a negative rate never refills to one token). */
  datatype Gate = Open | GateRaises | Blocks

  function RequestGate(s: AppConfig.Settings): Gate {
    if s.maxConcurrentRequests == 0 || s.rateLimitPerSecond < 0 then Blocks
    else if s.rateLimitPerSecond == 0 then GateRaises
    else Open
  }

  /** The gate agrees with the rate limiter the migrator builds from the
      configured rate (a full bucket): a rate of 0 raises on the first
      acquire, a negative rate never grants a token, and a positive rate
      grants one within two clock readings. */
  lemma GateFromLimiter(s: AppConfig.Settings, now: real, late: seq<real>)
    requires s.maxConcurrentRequests != 0 && RateLimit.NonNegative(late)
    ensures var b := RateLimit.Bucket(s.rateLimitPerSecond, s.rateLimitPerSecond as real, now);
      (RequestGate(s) == GateRaises && late != [] ==> RateLimit.AcquireResult(b, late).0 == RateLimit.DivisionByZero) &&
      (RequestGate(s) == Blocks ==> RateLimit.AcquireResult(b, late).0 == RateLimit.OutOfReadings) &&
      (RequestGate(s) == Open && |late| >= 2 ==> RateLimit.AcquireResult(b, late).0.Granted?)
  {
    var b := RateLimit.Bucket(s.rateLimitPerSecond, s.rateLimitPerSecond as real, now);
    if s.rateLimitPerSecond < 0 {
      RateLimit.NegativeRateNeverGrants(b, late);
    } else if s.rateLimitPerSecond >= 1 && |late| >= 2 {
      RateLimit.OneWaitSuffices(b, late);
    }
  }

  /** The bodies of the detail fetches that succeeded, in order; the failed
      ones are dropped (`gather(..., return_exceptions=True)`). */
  function Successful(ids: seq<Json>, detail: Json -> Option<Obj>): (r: seq<Obj>)
    ensures |r| <= |ids|
    ensures forall d :: d in r <==> exists i | 0 <= i < |ids| :: detail(ids[i]) == Some(d)
  {
    if ids == [] then []
    else
      var rest := Successful(ids[1..], detail);
      assert forall i | 0 <= i < |ids[1..]| :: ids[1..][i] == ids[i + 1];
      assert forall d :: (exists i | 0 <= i < |ids| :: detail(ids[i]) == Some(d)) <==>
        detail(ids[0]) == Some(d) || exists i | 0 <= i < |ids[1..]| :: detail(ids[1..][i]) == Some(d);
      match detail(ids[0])
      case None => rest
      case Some(d) => [d] + rest
  }

  /** The outcome of `_get_source_dashboards_async`; every exception in it,
      the TypeError of the filter included, is caught and returns None. */
  datatype SourceFetch = FetchFailed | Fetched(dashboards: seq<Obj>) | FetchStalls

  function SourceDashboards(summaries: Option<seq<Obj>>, existing: map<Json, Json>, overrideExisting: bool,
                            detail: Json -> Option<Obj>, gate: Gate): SourceFetch
  {
    if summaries.None? then FetchFailed
    else
      match SmartFilter(summaries.value, existing, overrideExisting)
      case Raised(_) => FetchFailed
      case Ok(toFetch) =>
      if toFetch == [] then Fetched([])
      else match SummaryIds(toFetch)
        case None => FetchFailed
        case Some(ids) =>
          match gate
          case Blocks => FetchStalls
          case GateRaises => Fetched([])
          case Open => Fetched(Successful(ids, detail))
  }

  /** Only the details of the summaries that pass the smart filter are ever
      fetched, and in skip mode no known title is among them; in skip mode a
      list or dict title fails the whole source listing. */
  lemma SmartFilterMeaning(summaries: Option<seq<Obj>>, existing: map<Json, Json>, overrideExisting: bool,
                           detail: Json -> Option<Obj>, gate: Gate)
    requires summaries.Some?
    ensures !overrideExisting && existing != map[] && SmartFilter(summaries.value, existing, overrideExisting).Ok? ==>
      forall d :: d in SmartFilter(summaries.value, existing, overrideExisting).value <==>
        d in summaries.value && Get(d, "title") !in existing
    ensures (!overrideExisting && existing != map[] &&
             exists i | 0 <= i < |summaries.value| :: !Hashable(Get(summaries.value[i], "title")))
      ==> SourceDashboards(summaries, existing, overrideExisting, detail, gate) == FetchFailed
    ensures overrideExisting || existing == map[] ==> SmartFilter(summaries.value, existing, overrideExisting) == Ok(summaries.value)
  {
  }

  /** Every summary is fetched in skip mode when the target knows no dashboard. */
  lemma NothingToFilter(summaries: Option<seq<Obj>>, detail: Json -> Option<Obj>, overrideExisting: bool)
    requires summaries.Some? && summaries.value != []
    requires forall i :: 0 <= i < |summaries.value| ==> "id" in summaries.value[i]
    ensures SourceDashboards(summaries, map[], overrideExisting, detail, Open) ==
      Fetched(Successful(seq(|summaries.value|, i requires 0 <= i < |summaries.value| => summaries.value[i]["id"]), detail))
  {
  }

  /** The tag a task ends with. */
  datatype Tag = Created | Updated | Skipped

  /** The reply to the create POST: a body, an error status raised by
      `raise_for_status`, or any other failure. */
  datatype PostReply = Replied(body: Json) | HttpError(status: int) | PostFailed

  /** The reply to the read-back GET: a status and a body, or a failure. */
  datatype VerifyReply = ReadBack(status: int, body: Json) | ReadBackFailed

  /** The requests one task sends to the target. */
  datatype Request = Post(payload: Obj) | VerifyGet(id: Json) | ListTargets | Put(id: Json, payload: Obj)

  /** The target backend as the coroutines see it. */
  datatype TargetApi = TargetApi(
    post: Obj -> PostReply,
    verify: Json -> VerifyReply,
    listing: Option<seq<Obj>>,
    put: (Json, Obj) -> bool)

  datatype ItemResult = ItemResult(tag: Tag, sent: seq<Request>)

  /** `_update_existing_dashboard_async`: the dashboard without its id is
      PUT to the existing id. */
  function UpdateExisting(d: Obj, id: Json, api: TargetApi): (r: ItemResult)
    ensures r.sent == [Put(id, d - {"id"})]
    ensures r.tag == Updated <==> api.put(id, d - {"id"})
    ensures r.tag != Created
  {
    ItemResult(if api.put(id, d - {"id"}) then Updated else Skipped, [Put(id, d - {"id"})])
  }

  /** The same, on the dict the source changes in place. */
  method UpdateExistingDashboard(dashboard: JsonDict, id: Json, api: TargetApi) returns (r: ItemResult)
    modifies dashboard
    ensures r == UpdateExisting(old(dashboard.fields), id, api)
    ensures dashboard.fields == old(dashboard.fields) - {"id"}
  {
    if "id" in dashboard.fields {
      dashboard.Discard("id");
    }
    assert dashboard.fields == old(dashboard.fields) - {"id"};
    var ok := api.put(id, dashboard.fields);
    r := ItemResult(if ok then Updated else Skipped, [Put(id, dashboard.fields)]);
  }

  /** `_find_dashboard_id_by_title_async`: the id of the first listed
      dashboard with this title and an id; None when the listing fails. */
  function FindIdByTitle(listing: Option<seq<Obj>>, title: Json): (r: Option<Json>)
    ensures listing.None? ==> r.None?
    ensures r.Some? ==> exists i | 0 <= i < |listing.value| ::
      Get(listing.value[i], "title") == title && "id" in listing.value[i] && r.value == listing.value[i]["id"] &&
      forall j | 0 <= j < i :: !(Get(listing.value[j], "title") == title && "id" in listing.value[j])
    ensures listing.Some? && r.None? ==> forall i | 0 <= i < |listing.value| ::
      !(Get(listing.value[i], "title") == title && "id" in listing.value[i])
  {
    if listing.None? then None else FirstIdWithTitle(listing.value, title)
  }

  function FirstIdWithTitle(items: seq<Obj>, title: Json): (r: Option<Json>)
    ensures r.Some? ==> exists i | 0 <= i < |items| ::
      Get(items[i], "title") == title && "id" in items[i] && r.value == items[i]["id"] &&
      forall j | 0 <= j < i :: !(Get(items[j], "title") == title && "id" in items[j])
    ensures r.None? ==> forall i | 0 <= i < |items| :: !(Get(items[i], "title") == title && "id" in items[i])
  {
    if items == [] then None
    else if Get(items[0], "title") == title && "id" in items[0] then Some(items[0]["id"])
    else
      var rest := FirstIdWithTitle(items[1..], title);
      assert forall i | 0 <= i < |items[1..]| :: items[1..][i] == items[i + 1];
      if rest.Some? then
        var k :| 0 <= k < |items[1..]| && Get(items[1..][k], "title") == title && "id" in items[1..][k] &&
          rest.value == items[1..][k]["id"] &&
          forall j | 0 <= j < k :: !(Get(items[1..][j], "title") == title && "id" in items[1..][j]);
        assert Get(items[k + 1], "title") == title && "id" in items[k + 1] && rest.value == items[k + 1]["id"];
        rest
      else rest
  }

  /** The read-back check after a create: only a 200 reply whose object has
      an empty title or no widgets turns the create into a skip; a failed
      or non-200 read-back, or a body of another shape (whose `.get` raises
      and is caught), still counts as created. */
  function VerifiedTag(reply: VerifyReply): (t: Tag)
    ensures t != Updated
    ensures t == Skipped <==>
      reply.ReadBack? && reply.status == 200 && reply.body.JObj? &&
      !(Truthy(Get(reply.body.fields, "title")) && Truthy(Get(reply.body.fields, "widgets")))
  {
    match reply
    case ReadBackFailed => Created
    case ReadBack(status, body) =>
      if status != 200 then Created
      else match body
        case JObj(m) => if Truthy(Get(m, "title")) && Truthy(Get(m, "widgets")) then Created else Skipped
        case _ => Created
  }

  /** `_create_or_update_dashboard_async` on a prepared dashboard: a known
      title is updated or skipped without a create; otherwise the dashboard
      is POSTed; a reply with an id is read back; a 409 conflict under
      override looks the title up and updates it. A failure at the gate, or
      the TypeError of testing a list or dict title against the known
      titles, raises out of the coroutine, and `gather` turns it into
      'skipped'. */
  function CreateOrUpdate(d: Obj, overrideExisting: bool, existing: map<Json, Json>, gateRaises: bool, api: TargetApi): ItemResult {
    var title := if "title" in d then d["title"] else JStr("N/A");
    match Member(title, existing.Keys)
    case Raised(_) => ItemResult(Skipped, [])
    case Ok(known) =>
    if known then
      if overrideExisting then UpdateExisting(d, existing[title], api) else ItemResult(Skipped, [])
    else if gateRaises then ItemResult(Skipped, [])
    else match api.post(d)
      case Replied(body) =>
        (match Contains(body, "id")
         case Ok(true) =>
           (match Subscript(body, "id")
            case Ok(id) => ItemResult(VerifiedTag(api.verify(id)), [Post(d), VerifyGet(id)])
            case Raised(_) => ItemResult(Skipped, [Post(d)]))
         case _ => ItemResult(Skipped, [Post(d)]))
      case HttpError(status) =>
        if status == 409 && overrideExisting then
          var found := FindIdByTitle(api.listing, title);
          if found.Some? && Truthy(found.value) then
            var u := UpdateExisting(d, found.value, api);
            ItemResult(u.tag, [Post(d), ListTargets] + u.sent)
          else ItemResult(Skipped, [Post(d), ListTargets])
        else ItemResult(Skipped, [Post(d)])
      case PostFailed => ItemResult(Skipped, [Post(d)])
  }

  /** Whether the coroutine reached `_update_existing_dashboard_async`, which
      deletes the id from the dict. */
  predicate SentPut(r: ItemResult) {
    r.sent != [] && r.sent[|r.sent| - 1].Put?
  }

  /** The coroutine on the dict the source shares with the prepared list. */
  method CreateOrUpdateDashboard(dashboard: JsonDict, overrideExisting: bool, existing: map<Json, Json>,
                                 gateRaises: bool, api: TargetApi) returns (r: ItemResult)
    modifies dashboard
    ensures r == CreateOrUpdate(old(dashboard.fields), overrideExisting, existing, gateRaises, api)
    ensures dashboard.fields == if SentPut(r) then old(dashboard.fields) - {"id"} else old(dashboard.fields)
  {
    var d := dashboard.fields;
    var title := Get(d, "title");
    if "title" !in d {
      title := JStr("N/A");
    }
    var known := Member(title, existing.Keys);
    if known.Raised? {
      return ItemResult(Skipped, []);
    }
    if known.value {
      if overrideExisting {
        r := UpdateExistingDashboard(dashboard, existing[title], api);
      } else {
        r := ItemResult(Skipped, []);
      }
      return;
    }
    if gateRaises {
      return ItemResult(Skipped, []);
    }
    match api.post(d) {
      case Replied(body) =>
        var has := Contains(body, "id");
        if has != Ok(true) {
          return ItemResult(Skipped, [Post(d)]);
        }
        var id := Subscript(body, "id");
        if id.Raised? {
          return ItemResult(Skipped, [Post(d)]);
        }
        r := ItemResult(VerifiedTag(api.verify(id.value)), [Post(d), VerifyGet(id.value)]);
      case HttpError(status) =>
        if status == 409 && overrideExisting {
          var found := FindIdByTitle(api.listing, title);
          if found.Some? && Truthy(found.value) {
            var u := UpdateExistingDashboard(dashboard, found.value, api);
            r := ItemResult(u.tag, [Post(d), ListTargets] + u.sent);
          } else {
            r := ItemResult(Skipped, [Post(d), ListTargets]);
          }
        } else {
          r := ItemResult(Skipped, [Post(d)]);
        }
      case PostFailed =>
        r := ItemResult(Skipped, [Post(d)]);
    }
  }

  /** A known title in skip mode is skipped without any request. (Every
      key of a Python dict hashes.) */
  lemma KnownTitleSkipped(d: Obj, existing: map<Json, Json>, gateRaises: bool, api: TargetApi)
    requires HashableKeys(existing.Keys)
    requires "title" in d && d["title"] in existing
    ensures CreateOrUpdate(d, false, existing, gateRaises, api) == ItemResult(Skipped, [])
  {
  }

  /** A known title under override is updated in place of a create: one PUT
      of the dashboard without its id to the known id. */
  lemma KnownTitleUpdated(d: Obj, existing: map<Json, Json>, gateRaises: bool, api: TargetApi)
    requires HashableKeys(existing.Keys)
    requires "title" in d && d["title"] in existing
    ensures CreateOrUpdate(d, true, existing, gateRaises, api).sent == [Put(existing[d["title"]], d - {"id"})]
    ensures CreateOrUpdate(d, true, existing, gateRaises, api).tag == Updated <==> api.put(existing[d["title"]], d - {"id"})
  {
  }

  /** A dashboard whose title is a list or dict is skipped without any
      request, whatever the mode. */
  lemma UnhashableTitleSkipped(d: Obj, overrideExisting: bool, existing: map<Json, Json>, gateRaises: bool, api: TargetApi)
    requires "title" in d && !Hashable(d["title"])
    ensures CreateOrUpdate(d, overrideExisting, existing, gateRaises, api) == ItemResult(Skipped, [])
  {
  }

  /** A create counts as created exactly when the title hashes and is
      unknown, the reply is an object with an id and the read-back does not
      find it empty. */
  lemma CreatedIff(d: Obj, overrideExisting: bool, existing: map<Json, Json>, gateRaises: bool, api: TargetApi)
    ensures CreateOrUpdate(d, overrideExisting, existing, gateRaises, api).tag == Created <==>
      var title := if "title" in d then d["title"] else JStr("N/A");
      Hashable(title) && title !in existing && !gateRaises &&
      api.post(d).Replied? && api.post(d).body.JObj? && "id" in api.post(d).body.fields &&
      VerifiedTag(api.verify(api.post(d).body.fields["id"])) == Created
  {
  }

  /** A 409 conflict under override updates the first listed dashboard with
      the same title and an id; without one it is skipped. */
  lemma ConflictUpdatesFirstMatch(d: Obj, existing: map<Json, Json>, api: TargetApi, k: nat)
    requires (if "title" in d then d["title"] else JStr("N/A")) !in existing
    requires api.post(d) == HttpError(409) && api.listing.Some?
    requires k < |api.listing.value| && Get(api.listing.value[k], "title") == Get(d, "title") && "title" in d
    requires "id" in api.listing.value[k] && Truthy(api.listing.value[k]["id"])
    requires forall j | 0 <= j < k :: !(Get(api.listing.value[j], "title") == d["title"] && "id" in api.listing.value[j])
    ensures Hashable(d["title"]) ==>
      CreateOrUpdate(d, true, existing, false, api).sent == [Post(d), ListTargets, Put(api.listing.value[k]["id"], d - {"id"})]
  {
    var found := FindIdByTitle(api.listing, d["title"]);
    var i :| 0 <= i < |api.listing.value| && Get(api.listing.value[i], "title") == d["title"] &&
      "id" in api.listing.value[i] && found.value == api.listing.value[i]["id"] &&
      forall j | 0 <= j < i :: !(Get(api.listing.value[j], "title") == d["title"] && "id" in api.listing.value[j]);
    assert i == k;
  }

  /** Every POST payload is the prepared dashboard itself, and every PUT
      payload is it without its id. */
  lemma PayloadsOfTask(d: Obj, overrideExisting: bool, existing: map<Json, Json>, gateRaises: bool, api: TargetApi)
    ensures forall q | q in CreateOrUpdate(d, overrideExisting, existing, gateRaises, api).sent ::
      (q.Post? ==> q.payload == d) && (q.Put? ==> q.payload == d - {"id"} && "id" !in q.payload)
  {
  }

  /** The prepared dashboards and the number refused, when no preparation
      raises; the first preparation that raises ends the run. */
  function PrepareAll(source: seq<Obj>): (r: Result<(seq<Obj>, nat)>)
    ensures r.Ok? ==> |r.value.0| + r.value.1 == |source|
    ensures r.Ok? ==> forall k | 0 <= k < |r.value.0| ::
      "owner" !in r.value.0[k] && "ownerId" !in r.value.0[k] && "accessRules" in r.value.0[k] &&
      r.value.0[k]["accessRules"] == GlobalAccess
    decreases |source|
  {
    if source == [] then Ok(([], 0))
    else match PrepareAll(source[..|source| - 1])
      case Raised(e) => Raised(e)
      case Ok((prepared, refused)) =>
        var d := source[|source| - 1];
        match PrepareVerdict(d)
        case Raises(e) => Raised(e)
        case Refused(_) => Ok((prepared, refused + 1))
        case Accepted => Ok((prepared + [Shared(d)], refused))
  }

  /** Once a preparation raises, the rest of the source is not looked at. */
  lemma {:induction false} RaisedPrefix(source: seq<Obj>, n: nat)
    requires n <= |source| && PrepareAll(source[..n]).Raised?
    ensures PrepareAll(source) == PrepareAll(source[..n])
    decreases |source|
  {
    if n < |source| {
      var init := source[..|source| - 1];
      assert init[..n] == source[..n];
      RaisedPrefix(init, n);
    } else {
      assert source[..n] == source;
    }
  }

  /** One more source dashboard extends the preparation by its verdict. */
  lemma PrepareAllStep(source: seq<Obj>, i: nat)
    requires i < |source| && PrepareAll(source[..i]).Ok?
    ensures PrepareVerdict(source[i]).Raises? ==> PrepareAll(source[..i + 1]) == Raised(PrepareVerdict(source[i]).error)
    ensures PrepareVerdict(source[i]).Refused? ==>
      PrepareAll(source[..i + 1]) == Ok((PrepareAll(source[..i]).value.0, PrepareAll(source[..i]).value.1 + 1))
    ensures PrepareVerdict(source[i]).Accepted? ==>
      PrepareAll(source[..i + 1]) == Ok((PrepareAll(source[..i]).value.0 + [Shared(source[i])], PrepareAll(source[..i]).value.1))
  {
    assert source[..i + 1][..i] == source[..i] && source[..i + 1][|source[..i + 1]| - 1] == source[i];
  }

  /** The preparation loop of `_migrate_async`. */
  method PrepareDashboards(source: seq<Obj>, userMap: map<Json, Json>, targetUsers: seq<Obj>) returns (r: Result<(seq<Obj>, nat)>)
    ensures r == PrepareAll(source)
  {
    var prepared: seq<Obj> := [];
    var refused: nat := 0;
    var i := 0;
    while i < |source|
      invariant 0 <= i <= |source|
      invariant PrepareAll(source[..i]) == Ok((prepared, refused))
    {
      PrepareAllStep(source, i);
      var dashboard := new JsonDict(source[i]);
      var v := PrepareDashboard(dashboard, userMap, targetUsers);
      match v {
        case Raises(e) =>
          RaisedPrefix(source, i + 1);
          return Raised(e);
        case Refused(_) =>
          refused := refused + 1;
        case Accepted =>
          prepared := prepared + [dashboard.fields];
      }
      i := i + 1;
    }
    assert source[..i] == source;
    r := Ok((prepared, refused));
  }

  /** The tags of all tasks, in the order of the prepared dashboards. */
  function Tags(prepared: seq<Obj>, overrideExisting: bool, existing: map<Json, Json>, gateRaises: bool, api: TargetApi): (tags: seq<Tag>)
    ensures |tags| == |prepared|
    decreases |prepared|
  {
    if prepared == [] then []
    else Tags(prepared[..|prepared| - 1], overrideExisting, existing, gateRaises, api)
         + [CreateOrUpdate(prepared[|prepared| - 1], overrideExisting, existing, gateRaises, api).tag]
  }

  /** `_migrate_dashboards_async`, one task after another. */
  method MigrateDashboards(prepared: seq<Obj>, overrideExisting: bool, existing: map<Json, Json>, gateRaises: bool, api: TargetApi)
    returns (results: seq<Tag>)
    ensures results == Tags(prepared, overrideExisting, existing, gateRaises, api)
  {
    results := [];
    var i := 0;
    while i < |prepared|
      invariant 0 <= i <= |prepared|
      invariant results == Tags(prepared[..i], overrideExisting, existing, gateRaises, api)
    {
      var dashboard := new JsonDict(prepared[i]);
      var r := CreateOrUpdateDashboard(dashboard, overrideExisting, existing, gateRaises, api);
      assert prepared[..i + 1][..i] == prepared[..i];
      results := results + [r.tag];
      i := i + 1;
    }
    assert prepared[..i] == prepared;
  }

  /** The three tags partition the results. */
  lemma {:induction false} TagCounts(tags: seq<Tag>)
    ensures Count(tags, Created) + Count(tags, Updated) + Count(tags, Skipped) == |tags|
  {
    if tags != [] {
      TagCounts(tags[1..]);
      assert Count(tags, Created) == (if tags[0] == Created then 1 else 0) + Count(tags[1..], Created);
      assert Count(tags, Updated) == (if tags[0] == Updated then 1 else 0) + Count(tags[1..], Updated);
      assert Count(tags, Skipped) == (if tags[0] == Skipped then 1 else 0) + Count(tags[1..], Skipped);
    }
  }

  /** Everything a run reads besides the configuration. */
  datatype AsyncIo = AsyncIo(
    interactive: bool,
    typed: seq<string>,
    targetDashboards: Option<seq<Obj>>,
    sourceSummaries: Option<seq<Obj>>,
    detail: Json -> Option<Obj>,
    sourceUsers: Option<seq<Obj>>,
    targetUsers: Option<seq<Obj>>,
    api: TargetApi)

  /** A run from the point the migrator object exists: validation, then
      the strategy, then the rest of the run. */
  function MigrateRun(s: AppConfig.Settings, io: AsyncIo): (r: RunOutcome)
    ensures r.Finished? ==> r.result.Keys == {"source", "migrated", "updated", "skipped"}
  {
    match AppConfig.ValidationError(s)
    case Some(msg) => Crashed("ValueError: " + msg)
    case None =>
      match OverrideStrategy(s.onDuplicate, io.interactive, io.typed)
      case CancelExit => Exited(0)
      case PromptEof => Crashed("EOFError")
      case Decided(overrideExisting) => RunWithStrategy(s, io, overrideExisting)
  }

  /** The target listing (a failure disables duplicate detection; a list or
      dict title ends the run with TypeError), then the source dashboards. */
  function RunWithStrategy(s: AppConfig.Settings, io: AsyncIo, overrideExisting: bool): (r: RunOutcome)
    ensures r.Finished? ==> r.result.Keys == {"source", "migrated", "updated", "skipped"}
  {
    match ExistingDashboards(if io.targetDashboards.Some? then io.targetDashboards.value else [])
    case Raised(e) => Crashed(e)
    case Ok(existing) =>
    var gate := RequestGate(s);
    match SourceDashboards(io.sourceSummaries, existing, overrideExisting, io.detail, gate)
    case FetchFailed => Finished(Summary(0, 0, 0, 0))
    case FetchStalls => Diverges
    case Fetched(source) => RunOnSource(io, source, overrideExisting, existing, gate == GateRaises)
  }

  /** Both user lists, the user map (whose TypeError ends the run),
      preparation, the coroutines and the tally. */
  function RunOnSource(io: AsyncIo, source: seq<Obj>, overrideExisting: bool, existing: map<Json, Json>, gateRaises: bool): (r: RunOutcome)
    ensures r.Finished? ==> r.result.Keys == {"source", "migrated", "updated", "skipped"}
  {
    if io.sourceUsers.None? then Finished(Summary(0, 0, 0, 0))
    else if io.targetUsers.None? then Finished(Summary(|source|, 0, 0, 0))
    else if UserMap(io.sourceUsers.value, io.targetUsers.value).Raised? then
      Crashed(UserMap(io.sourceUsers.value, io.targetUsers.value).error)
    else match PrepareAll(source)
      case Raised(e) => Crashed(e)
      case Ok((prepared, refused)) =>
        Finished(Tallied(|source|, refused, Tags(prepared, overrideExisting, existing, gateRaises, io.api)))
  }

  /** `results.count(...)` for each tag, with the refused dashboards added
      to the skipped ones. */
  function Tallied(source: nat, refused: nat, tags: seq<Tag>): map<string, int> {
    Summary(source, Count(tags, Created), Count(tags, Updated), refused + Count(tags, Skipped))
  }

  /** Constructing the migrator builds `asyncio.Semaphore(max_concurrent_requests)`,
      which refuses a negative value. */
  function AsyncMigrate(s: AppConfig.Settings, io: AsyncIo): RunOutcome {
    if s.maxConcurrentRequests < 0 then Crashed("ValueError: Semaphore initial value must be >= 0")
    else MigrateRun(s, io)
  }

  /** `_migrate_async` */
  method MigrateAsync(s: AppConfig.Settings, io: AsyncIo) returns (outcome: RunOutcome)
    ensures outcome == MigrateRun(s, io)
  {
    var invalid := AppConfig.ValidationError(s);
    if invalid.Some? {
      return Crashed("ValueError: " + invalid.value);
    }
    var strategy := PromptForOverrideStrategy(s.onDuplicate, io.interactive, io.typed);
    if strategy == CancelExit {
      return Exited(0);
    } else if strategy == PromptEof {
      return Crashed("EOFError");
    }
    outcome := MigrateWithStrategy(s, io, strategy.overrideExisting);
  }

  method MigrateWithStrategy(s: AppConfig.Settings, io: AsyncIo, overrideExisting: bool) returns (outcome: RunOutcome)
    ensures outcome == RunWithStrategy(s, io, overrideExisting)
  {
    var targets: seq<Obj> := [];
    if io.targetDashboards.Some? {
      targets := io.targetDashboards.value;
    }
    var index := ExistingDashboards(targets);
    if index.Raised? {
      return Crashed(index.error);
    }
    var existing := index.value;
    var gate := RequestGate(s);
    var fetch := SourceDashboards(io.sourceSummaries, existing, overrideExisting, io.detail, gate);
    if fetch == FetchFailed {
      return Finished(Summary(0, 0, 0, 0));
    } else if fetch == FetchStalls {
      return Diverges;
    }
    outcome := MigrateSource(io, fetch.dashboards, overrideExisting, existing, gate == GateRaises);
  }

  method MigrateSource(io: AsyncIo, source: seq<Obj>, overrideExisting: bool, existing: map<Json, Json>, gateRaises: bool)
    returns (outcome: RunOutcome)
    ensures outcome == RunOnSource(io, source, overrideExisting, existing, gateRaises)
  {
    if io.sourceUsers.None? {
      return Finished(Summary(0, 0, 0, 0));
    }
    if io.targetUsers.None? {
      return Finished(Summary(|source|, 0, 0, 0));
    }
    var userMap: map<Json, Json> := map[];
    if io.targetUsers.value != [] {
      var mapped := MapUsers(io.sourceUsers.value, io.targetUsers.value);
      if mapped.Raised? {
        return Crashed(mapped.error);
      }
      userMap := mapped.value;
    }
    var prepared := PrepareDashboards(source, userMap, io.targetUsers.value);
    if prepared.Raised? {
      return Crashed(prepared.error);
    }
    var results := MigrateDashboards(prepared.value.0, overrideExisting, existing, gateRaises, io.api);
    outcome := Finished(Tallied(|source|, prepared.value.1, results));
  }

  /** On the normal path every fetched dashboard is counted exactly once:
      as migrated, updated, or skipped (refused by preparation or skipped
      by its task). */
  lemma TallyAddsUp(s: AppConfig.Settings, io: AsyncIo)
    requires MigrateRun(s, io).Finished? && io.targetUsers.Some? && io.sourceUsers.Some?
    ensures var r := MigrateRun(s, io).result;
      r["migrated"] + r["updated"] + r["skipped"] == r["source"]
  {
    var strategy := OverrideStrategy(s.onDuplicate, io.interactive, io.typed);
    var existing := ExistingDashboards(if io.targetDashboards.Some? then io.targetDashboards.value else []).value;
    var gate := RequestGate(s);
    var fetch := SourceDashboards(io.sourceSummaries, existing, strategy.overrideExisting, io.detail, gate);
    if fetch.Fetched? {
      assert MigrateRun(s, io) == RunOnSource(io, fetch.dashboards, strategy.overrideExisting, existing, gate == GateRaises);
      var prepared := PrepareAll(fetch.dashboards).value;
      var tags := Tags(prepared.0, strategy.overrideExisting, existing, gate == GateRaises, io.api);
      TagCounts(tags);
      assert MigrateRun(s, io).result == Tallied(|fetch.dashboards|, prepared.1, tags);
    }
  }

  /** The early returns: a failed source listing or source user list gives
      the zero tally; a failed target user list reports only the number of
      fetched dashboards. */
  lemma EarlyReturns(s: AppConfig.Settings, io: AsyncIo)
    requires AppConfig.ValidationError(s).None?
    requires OverrideStrategy(s.onDuplicate, io.interactive, io.typed).Decided?
    ensures io.sourceSummaries.None? ==>
      MigrateRun(s, io) ==
        var existing := ExistingDashboards(if io.targetDashboards.Some? then io.targetDashboards.value else []);
        if existing.Raised? then Crashed(existing.error) else Finished(Summary(0, 0, 0, 0))
    ensures io.sourceUsers.None? && MigrateRun(s, io).Finished? ==> MigrateRun(s, io) == Finished(Summary(0, 0, 0, 0))
    ensures io.sourceUsers.Some? && io.targetUsers.None? && MigrateRun(s, io).Finished? ==>
      var r := MigrateRun(s, io).result;
      r["migrated"] == 0 && r["updated"] == 0 && r["skipped"] == 0
  {
  }

  /** A list or dict title among the target dashboards ends the run with
      TypeError before the source is read; with the source fetched and both
      user lists read, so does an unhashable e-mail address or id met while
      building the user map. */
  lemma UnhashableKeysCrash(s: AppConfig.Settings, io: AsyncIo, source: seq<Obj>, overrideExisting: bool,
                            existing: map<Json, Json>, gateRaises: bool)
    requires AppConfig.ValidationError(s).None?
    requires OverrideStrategy(s.onDuplicate, io.interactive, io.typed).Decided?
    ensures ExistingDashboards(if io.targetDashboards.Some? then io.targetDashboards.value else []).Raised? ==>
      MigrateRun(s, io) == Crashed(UnhashableType)
    ensures io.sourceUsers.Some? && io.targetUsers.Some? && UserMap(io.sourceUsers.value, io.targetUsers.value).Raised? ==>
      RunOnSource(io, source, overrideExisting, existing, gateRaises) == Crashed(UnhashableType)
  {
  }

  /** Skip mode: a source dashboard whose title the target already knows is
      never fetched, so it appears in no count at all (the run reports zero
      for a source made only of such dashboards, unless the user map, still
      built, raises). */
  lemma SkipModeDropsKnownTitles(s: AppConfig.Settings, io: AsyncIo)
    requires AppConfig.ValidationError(s).None? && s.onDuplicate == "skip"
    requires io.targetDashboards.Some? && io.sourceSummaries.Some? && io.sourceUsers.Some? && io.targetUsers.Some?
    requires ExistingDashboards(io.targetDashboards.value).Ok? && ExistingDashboards(io.targetDashboards.value).value != map[]
    requires forall i :: 0 <= i < |io.sourceSummaries.value| ==>
      Get(io.sourceSummaries.value[i], "title") in ExistingDashboards(io.targetDashboards.value).value
    ensures MigrateRun(s, io) ==
      if UserMap(io.sourceUsers.value, io.targetUsers.value).Raised? then
        Crashed(UserMap(io.sourceUsers.value, io.targetUsers.value).error)
      else Finished(Summary(0, 0, 0, 0))
  {
    var existing := ExistingDashboards(io.targetDashboards.value).value;
    var toFetch := NotExisting(io.sourceSummaries.value, existing);
    assert toFetch == Ok([]);
    assert OverrideStrategy(s.onDuplicate, io.interactive, io.typed) == Decided(false);
    assert SourceDashboards(io.sourceSummaries, existing, false, io.detail, RequestGate(s)) == Fetched([]);
    assert PrepareAll([]) == Ok(([], 0));
    assert Tags([], false, existing, RequestGate(s) == GateRaises, io.api) == [];
  }

  /** Cancelling at the strategy prompt ends the process with status 0
      before any request is made. */
  lemma CancelExitsZero(s: AppConfig.Settings, io: AsyncIo, k: nat)
    requires AppConfig.ValidationError(s).None? && s.onDuplicate != "update" && s.onDuplicate != "skip" && io.interactive
    requires k < |io.typed| && StrategyAnswer(io.typed[k]) == Some(Abort)
    requires forall j :: 0 <= j < k ==> StrategyAnswer(io.typed[j]).None?
    ensures MigrateRun(s, io) == Exited(0)
  {
    StrategyFromTyped(s.onDuplicate, io.typed, k);
  }

  /** A rate limit of zero makes every detail fetch raise, so the source is
      empty and nothing is migrated or updated. */
  lemma ZeroRateMigratesNothing(s: AppConfig.Settings, io: AsyncIo)
    requires AppConfig.ValidationError(s).None?
    requires s.maxConcurrentRequests != 0 && s.rateLimitPerSecond == 0
    requires MigrateRun(s, io).Finished?
    ensures MigrateRun(s, io).result["source"] == 0
    ensures MigrateRun(s, io).result["migrated"] == 0 && MigrateRun(s, io).result["updated"] == 0
  {
  }

  /** A run waits forever only when the semaphore is zero or the rate is
      negative, and only once there is a detail to fetch. */
  lemma DivergesOnlyWhenBlocked(s: AppConfig.Settings, io: AsyncIo)
    requires MigrateRun(s, io) == Diverges
    ensures RequestGate(s) == Blocks
    ensures io.sourceSummaries.Some? && io.sourceSummaries.value != []
  {
  }

}
