/** The website migrator (`WebsiteConfigMigrator`): each source website with
    a name and an id that the target does not know yet is created in the
    target by name, and a mapping from source website ids to target website
    ids is built, first from the names both sides share and then from the
    target listing re-read after each create. */
module WebsiteConfigs {
  import opened Json
  import AppConfig

  const WebsitesPath := "/api/website-monitoring/config"

  /** What a read of a website listing gives: the listing, a body that is
      JSON `null`, or a failure (a missing file, invalid JSON, an HTTP or
      connection error). */
  datatype Fetch = Fetched(sites: seq<Obj>) | FetchedNull | FetchFailed

  /** Both readers turn a failure into `[]`; only a `null` body is None. */
  function Listing(f: Fetch): (r: Option<seq<Obj>>)
    ensures r.None? <==> f.FetchedNull?
    ensures f.FetchFailed? ==> r == Some([])
  {
    match f
    case Fetched(sites) => Some(sites)
    case FetchedNull => None
    case FetchFailed => Some([])
  }

  /** `_get_source_website_config`: the file when `events_source` is exactly
      "file" (no case folding here), the source API otherwise. */
  function SourceSites(s: AppConfig.Settings, fromFile: Fetch, fromApi: Fetch): (r: Option<seq<Obj>>)
    ensures s.eventsSource == "file" ==> r == Listing(fromFile)
    ensures s.eventsSource != "file" ==> r == Listing(fromApi)
  {
    Listing(if s.eventsSource == "file" then fromFile else fromApi)
  }

  /** The pair a target website contributes to `target_by_name`. */
  function TargetPair(w: Obj): Option<(Json, Json)> {
    Some((Get(w, "name"), Get(w, "id")))
  }

  /** `{website.get('name'): website.get('id') for website in target_websites}`,
      which raises TypeError on a name Python cannot hash. */
  function TargetByName(targets: seq<Obj>): Result<map<Json, Json>> {
    DictComp(targets, TargetPair)
  }

  /** The entry a source website contributes to the initial mapping: its id
      to the id of the target website with its name, when both name and id
      are truthy and the name is known. */
  function SitePair(byName: map<Json, Json>): Obj -> Option<(Json, Json)> {
    site =>
      var name := Get(site, "name");
      var id := Get(site, "id");
      if Truthy(name) && Truthy(id) && name in byName then Some((id, byName[name])) else None
  }

  /** A source website on which `_build_website_mapping` raises TypeError:
      with a truthy name and id, `source_name in target_by_name` hashes the
      name, and `mapping[source_id] = ...` hashes the id of a known name. */
  predicate MappingRaisesAt(site: Obj, byName: map<Json, Json>) {
    var name := Get(site, "name");
    var id := Get(site, "id");
    Truthy(name) && Truthy(id) && (!Hashable(name) || (name in byName && !Hashable(id)))
  }

  /** What `_build_website_mapping` computes: the target index, then one
      entry per source website with a known name, or the TypeError of the
      first value that cannot be hashed. */
  function Mapping(source: seq<Obj>, targets: seq<Obj>): Result<map<Json, Json>> {
    match TargetByName(targets)
    case Raised(e) => Raised(e)
    case Ok(byName) =>
      if exists i | 0 <= i < |source| :: MappingRaisesAt(source[i], byName) then Raised(UnhashableType)
      else Ok(IndexBy(source, SitePair(byName)))
  }

  /** `_build_website_mapping` as the source writes it. */
  method BuildWebsiteMapping(source: seq<Obj>, targets: seq<Obj>) returns (r: Result<map<Json, Json>>)
    ensures r == Mapping(source, targets)
  {
    var index := TargetByName(targets);
    if index.Raised? {
      return Raised(index.error);
    }
    var byName := index.value;
    var mapping := map[];
    var i := 0;
    while i < |source|
      invariant 0 <= i <= |source|
      invariant mapping == IndexBy(source[..i], SitePair(byName))
      invariant forall j | 0 <= j < i :: !MappingRaisesAt(source[j], byName)
    {
      var name := Get(source[i], "name");
      var id := Get(source[i], "id");
      IndexBySnoc(source[..i], source[i], SitePair(byName));
      assert source[..i + 1] == source[..i] + [source[i]];
      if Truthy(name) && Truthy(id) {
        var known := Member(name, byName.Keys);
        if known.Raised? {
          assert MappingRaisesAt(source[i], byName);
          return Raised(known.error);
        }
        if known.value {
          if !Hashable(id) {
            assert MappingRaisesAt(source[i], byName);
            return Raised(UnhashableType);
          }
          mapping := mapping[id := byName[name]];
        }
      }
      i := i + 1;
    }
    assert source[..i] == source;
    r := Ok(mapping);
  }

  /** A name stands for the id of the LAST target website with that name. */
  lemma TargetByNameLastWins(targets: seq<Obj>, k: nat)
    requires k < |targets|
    requires forall j | k < j < |targets| :: Get(targets[j], "name") != Get(targets[k], "name")
    ensures TargetByName(targets).Ok? ==>
      Get(targets[k], "name") in TargetByName(targets).value &&
      TargetByName(targets).value[Get(targets[k], "name")] == Get(targets[k], "id")
  {
    IndexByLastWins(targets, TargetPair, k);
  }

  /** The index raises exactly when some target website has a name that
      cannot be hashed; otherwise a name is known exactly when some target
      website carries it (a missing name counts as `None`). */
  lemma TargetByNameKeys(targets: seq<Obj>, name: Json)
    ensures TargetByName(targets).Raised? <==> exists i | 0 <= i < |targets| :: !Hashable(Get(targets[i], "name"))
    ensures TargetByName(targets).Ok? ==>
      (name in TargetByName(targets).value <==> exists i | 0 <= i < |targets| :: Get(targets[i], "name") == name)
  {
    assert forall i | 0 <= i < |targets| :: TargetPair(targets[i]).value.0 == Get(targets[i], "name");
    IndexByKeys(targets, TargetPair, name);
  }

  /** With the target index built, the mapping raises exactly when a source
      website with a truthy name and id has a name that cannot be hashed, or
      a known name and an id that cannot be hashed; otherwise a source id is
      mapped exactly when a source website with that id has a truthy name
      that the target knows. */
  lemma MappingKeys(source: seq<Obj>, targets: seq<Obj>, id: Json)
    ensures TargetByName(targets).Raised? ==> Mapping(source, targets).Raised?
    ensures TargetByName(targets).Ok? ==>
      (Mapping(source, targets).Raised? <==>
        exists i | 0 <= i < |source| :: MappingRaisesAt(source[i], TargetByName(targets).value))
    ensures Mapping(source, targets).Ok? ==>
      (id in Mapping(source, targets).value <==>
        Truthy(id) && exists i | 0 <= i < |source| ::
          Get(source[i], "id") == id && Truthy(Get(source[i], "name")) && Get(source[i], "name") in TargetByName(targets).value)
  {
    if TargetByName(targets).Ok? {
      IndexByKeys(source, SitePair(TargetByName(targets).value), id);
    }
  }

  /** The target's answers during the loop: whether the POST that creates a
      website of a name succeeds, and what the listing re-read after it
      gives. */
  datatype SiteApi = SiteApi(create: Json -> bool, refetch: Json -> Fetch)

  /** The mapping and the two counters as the loop goes. */
  datatype WebState = WebState(mapping: map<Json, Json>, migrated: nat, skipped: nat)

  /** After a create, `for target_website in updated_target_websites` with
      its `break`: the first target website with the name gives the id. */
  function Remember(mapping: map<Json, Json>, id: Json, name: Json, after: Fetch): (r: map<Json, Json>)
    ensures r.Keys <= mapping.Keys + {id}
    ensures forall k :: k in mapping && k != id ==> k in r && r[k] == mapping[k]
  {
    match Listing(after)
    case None => mapping
    case Some(sites) =>
      match FirstWith(sites, "name", name)
      case None => mapping
      case Some(k) => mapping[id := Get(sites[k], "id")]
  }

  /** A website the loop cannot handle: with a truthy name and id,
      `source_id in website_mapping` hashes the id, which raises TypeError
      for a list or a dict. */
  predicate UnhashableSiteId(site: Obj) {
    Truthy(Get(site, "name")) && Truthy(Get(site, "id")) && !Hashable(Get(site, "id"))
  }

  /** One iteration of the loop in `migrate`. */
  function SiteStep(site: Obj, api: SiteApi, st: WebState): Result<WebState> {
    var id := Get(site, "id");
    var name := Get(site, "name");
    if !Truthy(name) || !Truthy(id) then Ok(st)
    else if !Hashable(id) then Raised(UnhashableType)
    else if id in st.mapping then Ok(st.(skipped := st.skipped + 1))
    else if api.create(name) then Ok(WebState(Remember(st.mapping, id, name, api.refetch(name)), st.migrated + 1, st.skipped))
    else Ok(st)
  }

  /** The `for source_website in source_websites` loop, which an exception
      ends. */
  function SiteLoop(sites: seq<Obj>, api: SiteApi, st: WebState): Result<WebState>
    decreases |sites|
  {
    if sites == [] then Ok(st)
    else match SiteStep(sites[0], api, st)
      case Raised(e) => Raised(e)
      case Ok(next) => SiteLoop(sites[1..], api, next)
  }

  /** The search of the re-read listing after a create, as the source
      writes it. */
  method RememberCreated(mapping: map<Json, Json>, id: Json, name: Json, after: Fetch) returns (r: map<Json, Json>)
    ensures r == Remember(mapping, id, name, after)
  {
    r := mapping;
    var listing := Listing(after);
    if listing.Some? && listing.value != [] {
      var sites := listing.value;
      var j := 0;
      while j < |sites|
        invariant 0 <= j <= |sites|
        invariant forall m :: 0 <= m < j ==> Get(sites[m], "name") != name
      {
        if Get(sites[j], "name") == name {
          r := mapping[id := Get(sites[j], "id")];
          assert FirstWith(sites, "name", name) == Some(j);
          return;
        }
        j := j + 1;
      }
    }
  }

  /** One iteration, as the source writes it. */
  method MigrateSite(site: Obj, api: SiteApi, st: WebState) returns (next: Result<WebState>)
    ensures next == SiteStep(site, api, st)
  {
    next := Ok(st);
    var id := Get(site, "id");
    var name := Get(site, "name");
    if !Truthy(name) || !Truthy(id) {
      return;
    }
    var known := Member(id, st.mapping.Keys);
    if known.Raised? {
      return Raised(known.error);
    }
    if known.value {
      next := Ok(st.(skipped := st.skipped + 1));
      return;
    }
    if api.create(name) {
      var mapping := RememberCreated(st.mapping, id, name, api.refetch(name));
      next := Ok(WebState(mapping, st.migrated + 1, st.skipped));
    }
  }

  /** The loop as the source writes it. */
  method MigrateSites(sites: seq<Obj>, api: SiteApi, initial: map<Json, Json>) returns (r: Result<WebState>)
    ensures r == SiteLoop(sites, api, WebState(initial, 0, 0))
  {
    var st := WebState(initial, 0, 0);
    var i := 0;
    while i < |sites|
      invariant 0 <= i <= |sites|
      invariant SiteLoop(sites, api, WebState(initial, 0, 0)) == SiteLoop(sites[i..], api, st)
    {
      assert sites[i..][0] == sites[i] && sites[i..][1..] == sites[i + 1..];
      var next := MigrateSite(sites[i], api, st);
      if next.Raised? {
        return Raised(next.error);
      }
      st := next.value;
      i := i + 1;
    }
    r := Ok(st);
  }

  /** Entries are only ever added: every id the mapping holds keeps its
      target id to the end, because a create is only tried for an id not
      yet mapped. */
  lemma {:induction false} MappingOnlyGrows(sites: seq<Obj>, api: SiteApi, st: WebState)
    ensures SiteLoop(sites, api, st).Ok? ==>
      st.mapping.Keys <= SiteLoop(sites, api, st).value.mapping.Keys &&
      forall k :: k in st.mapping ==> SiteLoop(sites, api, st).value.mapping[k] == st.mapping[k]
    decreases |sites|
  {
    if sites != [] && SiteStep(sites[0], api, st).Ok? {
      MappingOnlyGrows(sites[1..], api, SiteStep(sites[0], api, st).value);
    }
  }

  /** Each website adds at most one to one counter. */
  lemma {:induction false} SiteLoopCounts(sites: seq<Obj>, api: SiteApi, st: WebState)
    ensures SiteLoop(sites, api, st).Ok? ==>
      var end := SiteLoop(sites, api, st).value;
      end.migrated + end.skipped <= st.migrated + st.skipped + |sites| &&
      end.migrated >= st.migrated && end.skipped >= st.skipped
    decreases |sites|
  {
    if sites != [] && SiteStep(sites[0], api, st).Ok? {
      SiteLoopCounts(sites[1..], api, SiteStep(sites[0], api, st).value);
    }
  }

  /** The loop raises exactly when some website has a truthy name and a
      truthy id that cannot be hashed, whatever the mapping and the target
      answer. */
  lemma {:induction false} SiteLoopRaises(sites: seq<Obj>, api: SiteApi, st: WebState)
    ensures SiteLoop(sites, api, st).Raised? <==> exists i | 0 <= i < |sites| :: UnhashableSiteId(sites[i])
    decreases |sites|
  {
    if sites != [] {
      assert forall i | 0 <= i < |sites[1..]| :: sites[1..][i] == sites[i + 1];
      if SiteStep(sites[0], api, st).Ok? {
        SiteLoopRaises(sites[1..], api, SiteStep(sites[0], api, st).value);
      }
    }
  }

  /** How one website is handled: without a name or an id it is counted
      nowhere; an id that cannot be hashed raises; a mapped id is skipped;
      otherwise it is migrated exactly when the create succeeds, and then
      mapped when the re-read listing has a website of its name. */
  lemma SiteOutcomes(site: Obj, api: SiteApi, st: WebState)
    ensures !Truthy(Get(site, "name")) || !Truthy(Get(site, "id")) ==> SiteStep(site, api, st) == Ok(st)
    ensures UnhashableSiteId(site) ==> SiteStep(site, api, st) == Raised(UnhashableType)
    ensures Truthy(Get(site, "name")) && Truthy(Get(site, "id")) && Hashable(Get(site, "id")) ==>
      (Get(site, "id") in st.mapping ==> SiteStep(site, api, st) == Ok(st.(skipped := st.skipped + 1))) &&
      (Get(site, "id") !in st.mapping ==>
        SiteStep(site, api, st).Ok? && SiteStep(site, api, st).value.skipped == st.skipped &&
        (SiteStep(site, api, st).value.migrated == st.migrated + 1 <==> api.create(Get(site, "name"))))
  {
  }

  /** After a successful create the new website is mapped to the id of the
      FIRST re-read target website with its name. */
  lemma CreatedIsMapped(site: Obj, api: SiteApi, st: WebState, k: nat)
    requires Truthy(Get(site, "name")) && Truthy(Get(site, "id")) && Hashable(Get(site, "id"))
    requires Get(site, "id") !in st.mapping
    requires api.create(Get(site, "name"))
    requires api.refetch(Get(site, "name")).Fetched?
    requires var sites := api.refetch(Get(site, "name")).sites;
      k < |sites| && Get(sites[k], "name") == Get(site, "name") &&
      forall j :: 0 <= j < k ==> Get(sites[j], "name") != Get(site, "name")
    ensures SiteStep(site, api, st).Ok?
    ensures Get(site, "id") in SiteStep(site, api, st).value.mapping
    ensures SiteStep(site, api, st).value.mapping[Get(site, "id")] == Get(api.refetch(Get(site, "name")).sites[k], "id")
  {
    assert FirstWith(api.refetch(Get(site, "name")).sites, "name", Get(site, "name")) == Some(k);
  }

  /** Everything a run reads besides the configuration. */
  datatype WebsiteIo = WebsiteIo(fileSites: Fetch, apiSites: Fetch, targetSites: Fetch, api: SiteApi)

  /** The dict `migrate` returns. */
  datatype WebsiteReport = WebsiteReport(source: nat, migrated: nat, skipped: nat, websiteMapping: map<Json, Json>)

  datatype WebsiteOutcome = Reported(report: WebsiteReport) | Crashed(error: string)

  /** `migrate`: an exception raised while building the mapping or in the
      loop escapes it. */
  function WebsitesRun(s: AppConfig.Settings, io: WebsiteIo): WebsiteOutcome {
    match AppConfig.ValidationError(s)
    case Some(msg) => Crashed("ValueError: " + msg)
    case None =>
      var source := SourceSites(s, io.fileSites, io.apiSites);
      if source.None? || source.value == [] then Reported(WebsiteReport(0, 0, 0, map[]))
      else
        match Listing(io.targetSites)
        case None => Reported(WebsiteReport(|source.value|, 0, 0, map[]))
        case Some(targets) =>
          match Mapping(source.value, targets)
          case Raised(e) => Crashed(e)
          case Ok(initial) =>
            match SiteLoop(source.value, io.api, WebState(initial, 0, 0))
            case Raised(e) => Crashed(e)
            case Ok(end) => Reported(WebsiteReport(|source.value|, end.migrated, end.skipped, end.mapping))
  }

  method Migrate(s: AppConfig.Settings, io: WebsiteIo) returns (outcome: WebsiteOutcome)
    ensures outcome == WebsitesRun(s, io)
  {
    var invalid := AppConfig.ValidationError(s);
    if invalid.Some? {
      return Crashed("ValueError: " + invalid.value);
    }
    var source := SourceSites(s, io.fileSites, io.apiSites);
    if source.None? || source.value == [] {
      return Reported(WebsiteReport(0, 0, 0, map[]));
    }
    var targets := Listing(io.targetSites);
    if targets.None? {
      return Reported(WebsiteReport(|source.value|, 0, 0, map[]));
    }
    var initial := BuildWebsiteMapping(source.value, targets.value);
    if initial.Raised? {
      return Crashed(initial.error);
    }
    var end := MigrateSites(source.value, io.api, initial.value);
    if end.Raised? {
      return Crashed(end.error);
    }
    outcome := Reported(WebsiteReport(|source.value|, end.value.migrated, end.value.skipped, end.value.mapping));
  }

  /** A missing or empty source list gives zeros and an empty mapping; a
      target that answers `null` reports only the number of sources. */
  lemma WebsiteEarlyReturns(s: AppConfig.Settings, io: WebsiteIo)
    requires AppConfig.ValidationError(s) == None
    ensures var source := SourceSites(s, io.fileSites, io.apiSites);
      (source.None? || source.value == [] ==> WebsitesRun(s, io) == Reported(WebsiteReport(0, 0, 0, map[]))) &&
      (source.Some? && source.value != [] && io.targetSites.FetchedNull? ==>
        WebsitesRun(s, io) == Reported(WebsiteReport(|source.value|, 0, 0, map[])))
  {
  }

  /** A target that cannot be read behaves exactly like an empty one. */
  lemma UnreachableTargetIsEmpty(s: AppConfig.Settings, io: WebsiteIo)
    requires io.targetSites.FetchFailed?
    ensures WebsitesRun(s, io) == WebsitesRun(s, io.(targetSites := Fetched([])))
  {
  }

  /** A run with a readable, non-empty source and target ends in an
      exception exactly when building the mapping raises or some source
      website has a truthy name and a truthy id that cannot be hashed. */
  lemma WebsiteRunCrashes(s: AppConfig.Settings, io: WebsiteIo)
    requires AppConfig.ValidationError(s) == None
    requires SourceSites(s, io.fileSites, io.apiSites).Some? && SourceSites(s, io.fileSites, io.apiSites).value != []
    requires Listing(io.targetSites).Some?
    ensures var source := SourceSites(s, io.fileSites, io.apiSites).value;
      WebsitesRun(s, io).Crashed? <==>
        Mapping(source, Listing(io.targetSites).value).Raised? ||
        exists i | 0 <= i < |source| :: UnhashableSiteId(source[i])
  {
    var source := SourceSites(s, io.fileSites, io.apiSites).value;
    var initial := Mapping(source, Listing(io.targetSites).value);
    if initial.Ok? {
      SiteLoopRaises(source, io.api, WebState(initial.value, 0, 0));
    }
  }

  /** The reported mapping contains the initial one, entry for entry, and
      no website is counted twice. */
  lemma ReportExtendsInitialMapping(s: AppConfig.Settings, io: WebsiteIo)
    requires AppConfig.ValidationError(s) == None
    requires SourceSites(s, io.fileSites, io.apiSites).Some? && Listing(io.targetSites).Some?
    ensures var source := SourceSites(s, io.fileSites, io.apiSites).value;
      var initial := Mapping(source, Listing(io.targetSites).value);
      var r := WebsitesRun(s, io);
      r.Reported? ==>
        r.report.migrated + r.report.skipped <= r.report.source &&
        (source != [] ==>
           initial.Ok? &&
           forall k :: k in initial.value ==> k in r.report.websiteMapping && r.report.websiteMapping[k] == initial.value[k])
  {
    var source := SourceSites(s, io.fileSites, io.apiSites).value;
    var initial := Mapping(source, Listing(io.targetSites).value);
    if initial.Ok? {
      var st := WebState(initial.value, 0, 0);
      MappingOnlyGrows(source, io.api, st);
      SiteLoopCounts(source, io.api, st);
    }
  }

  /** When every source website has a name and an id and the target knows
      every id, nothing is created: every website is skipped and the
      mapping is the initial one (whose keys, like those of any dict, are
      hashable). */
  lemma {:induction false} AllKnownSkipped(sites: seq<Obj>, api: SiteApi, st: WebState)
    requires HashableKeys(st.mapping.Keys)
    requires forall i :: 0 <= i < |sites| ==>
      Truthy(Get(sites[i], "name")) && Truthy(Get(sites[i], "id")) && Get(sites[i], "id") in st.mapping
    ensures SiteLoop(sites, api, st) == Ok(st.(skipped := st.skipped + |sites|))
    decreases |sites|
  {
    if sites != [] {
      assert Get(sites[0], "id") in st.mapping;
      var next := st.(skipped := st.skipped + 1);
      assert SiteStep(sites[0], api, st) == Ok(next);
      forall i | 0 <= i < |sites[1..]|
        ensures Truthy(Get(sites[1..][i], "name")) && Truthy(Get(sites[1..][i], "id")) && Get(sites[1..][i], "id") in next.mapping
      {
        assert sites[1..][i] == sites[i + 1];
      }
      AllKnownSkipped(sites[1..], api, next);
    }
  }

  /** Every source website with a name and an id whose name the target
      lists is mapped from the start, when the mapping is built. */
  lemma KnownNameIsMapped(source: seq<Obj>, targets: seq<Obj>, i: nat, k: nat)
    requires i < |source| && k < |targets|
    requires Truthy(Get(source[i], "name")) && Truthy(Get(source[i], "id"))
    requires Get(targets[k], "name") == Get(source[i], "name")
    ensures Mapping(source, targets).Ok? ==> Get(source[i], "id") in Mapping(source, targets).value
  {
    TargetByNameKeys(targets, Get(source[i], "name"));
    MappingKeys(source, targets, Get(source[i], "id"));
  }
}
