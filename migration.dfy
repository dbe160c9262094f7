/** What the migrators that handle one configuration at a time share: the
    replies of the target's write endpoints, finding a target configuration
    by name, and the counting loop with its skip / update / cancel outcomes. */
module Migration {
  import opened Json
  import opened Tally

  /** A reply to a POST or PUT: the decoded body, or a `RequestException`
      (connection failure or an error status from `raise_for_status`). */
  datatype Reply = Body(json: Json) | RequestFailed

  /** The target backend's answers to creates (POST of a payload) and
      updates (PUT of a payload to the path of a target id). */
  datatype WriteApi = WriteApi(post: Obj -> Reply, put: (Json, Obj) -> Reply)

  /** The reply is a JSON object with an `id` key. */
  predicate HasId(r: Reply) {
    r.Body? && r.json.JObj? && "id" in r.json.fields
  }

  /** `'id' in response.json()` after a request, followed on success by
      the `response.json()['id']` of the success message: a failed request
      is False; a body that is not a container raises TypeError at `in`, and
      a string or list that contains "id" passes `in` and then raises
      TypeError at the subscript. Neither is caught by the
      `except RequestException`. */
  function IdReturned(r: Reply): (ok: Result<bool>)
    ensures r.RequestFailed? ==> ok == Ok(false)
    ensures ok == Ok(true) <==> HasId(r)
    ensures r.Body? ==> (ok == Ok(false) <==> Contains(r.json, "id") == Ok(false))
    ensures ok.Raised? <==>
      r.Body? && (Contains(r.json, "id").Raised? || (!r.json.JObj? && Contains(r.json, "id") == Ok(true)))
  {
    match r
    case RequestFailed => Ok(false)
    case Body(b) =>
      match Contains(b, "id")
      case Raised(e) => Raised(e)
      case Ok(false) => Ok(false)
      case Ok(true) =>
        match Subscript(b, "id")
        case Raised(e) => Raised(e)
        case Ok(_) => Ok(true)
  }

  /** A string or list body that contains "id" is not a success: the
      subscript of the success message raises. */
  lemma IdInStringRaises(text: string)
    ensures IdReturned(Body(JStr("valid id"))).Raised?
    ensures IdReturned(Body(JArr([JStr("id")]))).Raised?
    ensures IdReturned(Body(JObj(map["id" := JStr(text)]))) == Ok(true)
  {
    assert IsSubstring("id", "valid id") by {
      assert "valid id"[6..] == "id";
      assert "id" <= "valid id"[6..];
    }
  }

  /** `[x.get(key) for x in items if x.get(key)]`: the names already taken. */
  function TruthyValues(items: seq<Obj>, key: string): (r: seq<Json>)
    ensures forall x :: x in r <==> Truthy(x) && exists i | 0 <= i < |items| :: Get(items[i], key) == x
  {
    if items == [] then []
    else
      var rest := TruthyValues(items[1..], key);
      assert forall i :: 0 <= i < |items[1..]| ==> items[1..][i] == items[i + 1];
      var t := Get(items[0], key);
      if Truthy(t) then [t] + rest else rest
  }

  /** The id an update writes to: that of the FIRST item whose `key` equals
      `want`, provided that item has an id; none for an empty list. */
  function IdOfFirst(items: seq<Obj>, key: string, want: Json): (r: Option<Json>)
    ensures r.Some? ==> exists k :: (0 <= k < |items| && Get(items[k], key) == want && "id" in items[k] &&
                                     r.value == items[k]["id"] && (forall j :: 0 <= j < k ==> Get(items[j], key) != want))
    ensures r.None? ==> forall k :: (0 <= k < |items| && Get(items[k], key) == want &&
                                    (forall j :: 0 <= j < k ==> Get(items[j], key) != want)) ==> "id" !in items[k]
  {
    match FirstWith(items, key, want)
    case None => None
    case Some(k) => if "id" in items[k] then Some(items[k]["id"]) else None
  }

  /** What one configuration adds to the counters. */
  datatype Effect = AddMigrated | AddUpdated | AddSkipped | AddNothing

  function Apply(c: Counters, e: Effect): (r: Counters)
    ensures r.Total() == c.Total() + (if e == AddNothing then 0 else 1)
    ensures r.migrated >= c.migrated && r.updated >= c.updated && r.skipped >= c.skipped
  {
    match e
    case AddMigrated => c.(migrated := c.migrated + 1)
    case AddUpdated => c.(updated := c.updated + 1)
    case AddSkipped => c.(skipped := c.skipped + 1)
    case AddNothing => c
  }

  /** What one configuration does to the loop: an effect on the counters and
      the typed lines left, the `break` of a cancel, or an escaping
      exception. */
  datatype ItemStep = Next(effect: Effect, rest: seq<string>) | Stop | Escape(error: string)

  /** How the loop ends: with the counters (and whether a cancel broke it
      off), or with an escaping exception. */
  datatype LoopEnd = Ended(counters: Counters, cancelled: bool) | LoopRaised(error: string)

  /** A `for item in source_items` loop from counters `c`, each item handled
      by `step` with the typed lines still unread. */
  function RunLoop(items: seq<Obj>, step: (Obj, seq<string>) -> ItemStep, typed: seq<string>, c: Counters): LoopEnd
    decreases |items|
  {
    if items == [] then Ended(c, false)
    else match step(items[0], typed)
      case Escape(e) => LoopRaised(e)
      case Stop => Ended(c, true)
      case Next(e, rest) => RunLoop(items[1..], step, rest, Apply(c, e))
  }

  /** Each item adds at most one to one counter, and counters only grow. */
  lemma {:induction false} RunLoopCounts(items: seq<Obj>, step: (Obj, seq<string>) -> ItemStep, typed: seq<string>, c: Counters)
    ensures RunLoop(items, step, typed, c).Ended? ==>
      var end := RunLoop(items, step, typed, c);
      end.counters.Total() <= c.Total() + |items| &&
      end.counters.migrated >= c.migrated && end.counters.updated >= c.updated && end.counters.skipped >= c.skipped
    decreases |items|
  {
    if items != [] {
      match step(items[0], typed)
      case Escape(_) =>
      case Stop =>
      case Next(e, rest) =>
        RunLoopCounts(items[1..], step, rest, Apply(c, e));
    }
  }

  /** When every item is created whatever has been typed, all of them are
      counted as migrated and nothing else changes. */
  lemma {:induction false} RunLoopAllMigrated(items: seq<Obj>, step: (Obj, seq<string>) -> ItemStep, typed: seq<string>, c: Counters)
    requires forall i, t :: 0 <= i < |items| ==> step(items[i], t) == Next(AddMigrated, t)
    ensures RunLoop(items, step, typed, c) == Ended(Counters(c.migrated + |items|, c.updated, c.skipped), false)
    decreases |items|
  {
    if items != [] {
      assert step(items[0], typed) == Next(AddMigrated, typed);
      forall i, t | 0 <= i < |items[1..]| ensures step(items[1..][i], t) == Next(AddMigrated, t) {
        assert items[1..][i] == items[i + 1];
      }
      RunLoopAllMigrated(items[1..], step, typed, Apply(c, AddMigrated));
    }
  }

  /** Two items each counted: the loop applies both effects in order. */
  lemma RunLoopTwo(a: Obj, b: Obj, step: (Obj, seq<string>) -> ItemStep, typed: seq<string>, c: Counters,
                   e1: Effect, t1: seq<string>, e2: Effect, t2: seq<string>)
    requires step(a, typed) == Next(e1, t1) && step(b, t1) == Next(e2, t2)
    ensures RunLoop([a, b], step, typed, c) == Ended(Apply(Apply(c, e1), e2), false)
  {
    assert [a, b][1..] == [b];
    assert [b][1..] == [];
    assert RunLoop([b], step, t1, Apply(c, e1)) == RunLoop([], step, t2, Apply(Apply(c, e1), e2));
  }

  /** The four-key result dict once the loop is over: the counters as they
      stand (also after a cancel), or the exception that ended it. */
  function Reported(source: nat, end: LoopEnd): RunOutcome {
    match end
    case LoopRaised(e) => Crashed(e)
    case Ended(c, _) => Finished(Summary(source, c.migrated, c.updated, c.skipped))
  }

  /** A listing whose failure the migrator turns into `[]`. */
  function OrEmpty(listing: Option<seq<Obj>>): (r: seq<Obj>)
    ensures listing.Some? ==> r == listing.value
    ensures listing.None? ==> r == []
  {
    if listing.Some? then listing.value else []
  }
}
