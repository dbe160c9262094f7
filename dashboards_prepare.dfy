/** Preparing one source dashboard for the target (`_prepare_dashboard` of
    the asynchronous migrator, and the same steps inlined in the loop of the
    synchronous one): refuse a dashboard without a title, strip its owner,
    share it globally, and refuse it when its widgets are missing or one of
    them lacks a required field. */
module DashboardPrepare {
  import opened Json

  /** Why a dashboard is left out of the migration. */
  datatype Refusal =
    | NoTitle
    | NoWidgets
    | BadWidget(index: nat, missing: seq<string>)

  /** The outcome of preparing a dashboard. `Raises` is the TypeError that
      escapes when a widget is not a dict with comparable sizes. */
  datatype Verdict = Accepted | Refused(why: Refusal) | Raises(error: string)

  /** The access rule every migrated dashboard receives: read-write for all. */
  const GlobalAccess: Json :=
    JArr([JObj(map["accessType" := JStr("READ_WRITE"), "relationType" := JStr("GLOBAL"), "relatedId" := JStr("")])])

  /** The dashboard once its ownership is removed and global access is set. */
  function Shared(d: Obj): Obj {
    (d - {"owner", "ownerId"})["accessRules" := GlobalAccess]
  }

  /** The dashboard dict after preparation: untouched when it has no title,
      otherwise shared, whatever its widgets turn out to be. */
  function AfterPrepare(d: Obj): Obj {
    if Truthy(Get(d, "title")) then Shared(d) else d
  }

  /** `x in w or ...` for a size: missing when absent, or when it is below 1. */
  function SizeMissing(w: Json, k: string): Result<bool> {
    match Contains(w, k)
    case Raised(e) => Raised(e)
    case Ok(false) => Ok(true)
    case Ok(true) =>
      match Subscript(w, k)
      case Raised(e) => Raised(e)
      case Ok(v) => LessThanOne(v)
  }

  /** `'id' not in w or not w['id']` */
  function IdMissing(w: Json): Result<bool> {
    match Contains(w, "id")
    case Raised(e) => Raised(e)
    case Ok(false) => Ok(true)
    case Ok(true) =>
      match Subscript(w, "id")
      case Raised(e) => Raised(e)
      case Ok(v) => Ok(!Truthy(v))
  }

  /** The required fields one widget lacks, in the order they are tested
      (`id`, `width`, `height`, `config`); all four tests always run, and the
      first one that raises ends the check. */
  function WidgetProblems(w: Json): Result<seq<string>> {
    match IdMissing(w)
    case Raised(e) => Raised(e)
    case Ok(noId) =>
      match SizeMissing(w, "width")
      case Raised(e) => Raised(e)
      case Ok(noWidth) =>
        match SizeMissing(w, "height")
        case Raised(e) => Raised(e)
        case Ok(noHeight) =>
          match Contains(w, "config")
          case Raised(e) => Raised(e)
          case Ok(hasConfig) =>
            Ok((if noId then ["id"] else []) + (if noWidth then ["width"] else [])
               + (if noHeight then ["height"] else []) + (if hasConfig then [] else ["config"]))
  }

  /** A size the API accepts: a number of at least 1 (True counts as 1). */
  predicate GoodSize(v: Json) {
    (v.JInt? && v.i >= 1) || (v.JReal? && v.r >= 1.0) || (v.JBool? && v.b)
  }

  /** A widget with every required field. */
  predicate WidgetOk(w: Json) {
    w.JObj? && "id" in w.fields && Truthy(w.fields["id"])
    && "width" in w.fields && GoodSize(w.fields["width"])
    && "height" in w.fields && GoodSize(w.fields["height"])
    && "config" in w.fields
  }

  /** A widget passes exactly when it has all four required fields. */
  lemma WidgetProblemsNone(w: Json)
    ensures WidgetProblems(w) == Ok([]) <==> WidgetOk(w)
  {
    if w.JObj? {
      var m := w.fields;
      assert SizeMissing(w, "width").Ok? ==> (SizeMissing(w, "width") == Ok(false) <==> "width" in m && GoodSize(m["width"]));
      assert SizeMissing(w, "height").Ok? ==> (SizeMissing(w, "height") == Ok(false) <==> "height" in m && GoodSize(m["height"]));
    }
  }

  /** What `for idx, widget in enumerate(widgets)` walks over when it is a
      sequence: a list's items, or a string's characters. A dict is walked by
      its keys (see `DictWidgets`); any other value raises. */
  function Iterated(widgets: Json): Option<seq<Json>> {
    match widgets
    case JArr(items) => Some(items)
    case JStr(s) => Some(seq(|s|, i requires 0 <= i < |s| => JStr([s[i]])))
    case _ => None
  }

  /** A key of a dict of widgets is walked as the widget, a string: the
      membership tests look for substrings and a subscript raises. */
  predicate KeyRefusable(k: string) {
    WidgetProblems(JStr(k)).Ok?
  }

  /** `"width" in k` implies `"id" in k`, since "width" contains "id". */
  lemma {:induction false} WidthHasId(k: string)
    requires IsSubstring("width", k)
    ensures IsSubstring("id", k)
  {
    if "width" <= k {
      assert "id" <= k[1..];
      assert IsSubstring("id", k[1..]);
    } else {
      WidthHasId(k[1..]);
    }
  }

  /** A key widget raises exactly when it contains "id" or "height", and
      otherwise lacks id, width, height, and config unless it contains
      "config". */
  lemma KeyProblems(k: string)
    ensures KeyRefusable(k) <==> !IsSubstring("id", k) && !IsSubstring("height", k)
    ensures KeyRefusable(k) ==>
      WidgetProblems(JStr(k)).value == ["id", "width", "height"] + (if IsSubstring("config", k) then [] else ["config"])
  {
    if IsSubstring("width", k) {
      WidthHasId(k);
    }
  }

  /** The verdict on a non-list dict of widgets. Python walks the keys in
      insertion order, which a map does not keep: the model takes the keys
      that refuse before those that raise, and of the former those lacking
      "config" first. */
  function DictWidgets(m: Obj): Verdict {
    if m == map[] then Accepted
    else if exists k | k in m :: KeyRefusable(k) && !IsSubstring("config", k) then
      Refused(BadWidget(0, ["id", "width", "height", "config"]))
    else if exists k | k in m :: KeyRefusable(k) then
      Refused(BadWidget(0, ["id", "width", "height"]))
    else Raises("TypeError: string indices must be integers")
  }

  /** A non-empty dict of widgets is never accepted: it is refused exactly
      when one of its keys refuses, naming the fields that key lacks at
      position 0, and raises when every key contains "id" or "height". */
  lemma DictWidgetsVerdict(m: Obj)
    requires m != map[]
    ensures CheckWidgets(JObj(m)).Refused? <==> exists k | k in m :: !IsSubstring("id", k) && !IsSubstring("height", k)
    ensures CheckWidgets(JObj(m)).Raises? <==> forall k | k in m :: IsSubstring("id", k) || IsSubstring("height", k)
    ensures CheckWidgets(JObj(m)).Refused? ==>
      CheckWidgets(JObj(m)).why.BadWidget? && CheckWidgets(JObj(m)).why.index == 0 &&
      exists k | k in m :: KeyRefusable(k) && WidgetProblems(JStr(k)).value == CheckWidgets(JObj(m)).why.missing
  {
    var v := CheckWidgets(JObj(m));
    assert v == DictWidgets(m);
    forall k | k in m
      ensures KeyRefusable(k) <==> !IsSubstring("id", k) && !IsSubstring("height", k)
    {
      KeyProblems(k);
    }
    if exists k | k in m :: KeyRefusable(k) && !IsSubstring("config", k) {
      var k :| k in m && KeyRefusable(k) && !IsSubstring("config", k);
      KeyProblems(k);
      assert v == Refused(BadWidget(0, ["id", "width", "height", "config"]));
      assert WidgetProblems(JStr(k)).value == v.why.missing;
    } else if exists k | k in m :: KeyRefusable(k) {
      var k :| k in m && KeyRefusable(k);
      KeyProblems(k);
      assert v == Refused(BadWidget(0, ["id", "width", "height"]));
      assert WidgetProblems(JStr(k)).value == v.why.missing;
    } else {
      assert v.Raises?;
    }
  }

  /** The verdicts on a non-empty dict of widgets that hold whatever order
      its keys are walked in: it is never kept; when every key refuses, the
      first key walked is refused at position 0 with the fields it lacks;
      when every key raises, so does the check; and a dict with the single
      key `k` gets exactly the verdict of `k`. */
  lemma DictWidgetsOrderFree(m: Obj, k: string)
    requires m != map[]
    ensures !CheckWidgets(JObj(m)).Accepted?
    ensures (forall j | j in m :: KeyRefusable(j)) ==>
      CheckWidgets(JObj(m)).Refused? && CheckWidgets(JObj(m)).why.BadWidget? && CheckWidgets(JObj(m)).why.index == 0 &&
      exists j | j in m :: WidgetProblems(JStr(j)).value == CheckWidgets(JObj(m)).why.missing
    ensures (forall j | j in m :: !KeyRefusable(j)) ==> CheckWidgets(JObj(m)).Raises?
    ensures m.Keys == {k} ==>
      CheckWidgets(JObj(m)) ==
        if KeyRefusable(k) then Refused(BadWidget(0, WidgetProblems(JStr(k)).value))
        else Raises("TypeError: string indices must be integers")
  {
    DictWidgetsVerdict(m);
    if m.Keys == {k} {
      assert k in m;
      KeyProblems(k);
    }
  }

  /** A widget that lacks nothing and raises nothing. */
  predicate Clean(w: Json) {
    WidgetProblems(w) == Ok([])
  }

  /** Walking the widgets from position `start`: the first widget that lacks
      a field refuses the dashboard, the first that raises ends it. */
  function CheckWidgetList(items: seq<Json>, start: nat): Verdict
    decreases |items|
  {
    if items == [] then Accepted
    else match WidgetProblems(items[0])
      case Raised(e) => Raises(e)
      case Ok(missing) =>
        if missing != [] then Refused(BadWidget(start, missing))
        else CheckWidgetList(items[1..], start + 1)
  }

  /** The widget walk accepts exactly when every widget is clean. */
  lemma {:induction false} CheckWidgetListAccepts(items: seq<Json>, start: nat)
    ensures CheckWidgetList(items, start) == Accepted <==> forall j :: 0 <= j < |items| ==> Clean(items[j])
    decreases |items|
  {
    if items != [] && Clean(items[0]) {
      CheckWidgetListAccepts(items[1..], start + 1);
      assert forall j :: 0 <= j < |items[1..]| ==> items[1..][j] == items[j + 1];
    }
  }

  /** A refusal of the widget walk names the first widget that is not
      clean, with the fields it lacks. */
  lemma {:induction false} CheckWidgetListRefusal(items: seq<Json>, start: nat)
    ensures CheckWidgetList(items, start).Refused? ==> CheckWidgetList(items, start).why.BadWidget?
    ensures CheckWidgetList(items, start).Refused? && CheckWidgetList(items, start).why.BadWidget? ==>
      var k := CheckWidgetList(items, start).why.index - start;
      0 <= k < |items| &&
      WidgetProblems(items[k]) == Ok(CheckWidgetList(items, start).why.missing) &&
      CheckWidgetList(items, start).why.missing != [] &&
      forall j :: 0 <= j < k ==> Clean(items[j])
    decreases |items|
  {
    if items != [] && Clean(items[0]) {
      CheckWidgetListRefusal(items[1..], start + 1);
      assert forall j :: 0 <= j < |items[1..]| ==> items[1..][j] == items[j + 1];
    }
  }

  /** `widgets = {"a": 1}` walks the single widget `"a"`, which lacks all
      four fields: the dashboard is refused, not raised. */
  lemma PlainKeyDictRefused()
    ensures CheckWidgets(JObj(map["a" := JInt(1)])) == Refused(BadWidget(0, ["id", "width", "height", "config"]))
  {
    var m := map["a" := JInt(1)];
    KeyProblems("a");
    assert "a" in m && KeyRefusable("a") && !IsSubstring("config", "a");
  }

  /** The verdict on a dashboard's widgets value. */
  function CheckWidgets(widgets: Json): Verdict {
    if widgets.JObj? then DictWidgets(widgets.fields)
    else match Iterated(widgets)
    case None => Raises("TypeError: widgets are not iterable as a list")
    case Some(items) => CheckWidgetList(items, 0)
  }

  /** The verdict `_prepare_dashboard` reaches on a dashboard. */
  function PrepareVerdict(d: Obj): Verdict {
    if !Truthy(Get(d, "title")) then Refused(NoTitle)
    else
      var s := Shared(d);
      if "widgets" !in s || !Truthy(s["widgets"]) then Refused(NoWidgets)
      else CheckWidgets(s["widgets"])
  }

  /** `_prepare_dashboard` on the dict the source changes in place. The user
      map and the target users are passed but never read. */
  method PrepareDashboard(dashboard: JsonDict, userMap: map<Json, Json>, targetUsers: seq<Obj>) returns (v: Verdict)
    modifies dashboard
    ensures v == PrepareVerdict(old(dashboard.fields))
    ensures dashboard.fields == AfterPrepare(old(dashboard.fields))
  {
    if !Truthy(Get(dashboard.fields, "title")) {
      return Refused(NoTitle);
    }
    dashboard.Discard("owner");
    dashboard.Discard("ownerId");
    dashboard.Set("accessRules", GlobalAccess);
    assert dashboard.fields == Shared(old(dashboard.fields));
    if "widgets" !in dashboard.fields || !Truthy(dashboard.fields["widgets"]) {
      return Refused(NoWidgets);
    }
    var widgets := dashboard.fields["widgets"];
    if widgets.JObj? {
      return DictWidgets(widgets.fields);
    }
    var items: seq<Json>;
    match Iterated(widgets) {
      case None => return Raises("TypeError: widgets are not iterable as a list");
      case Some(xs) => items := xs;
    }
    var idx := 0;
    while idx < |items|
      invariant 0 <= idx <= |items|
      invariant CheckWidgetList(items, 0) == CheckWidgetList(items[idx..], idx)
    {
      assert items[idx..][0] == items[idx] && items[idx..][1..] == items[idx + 1..];
      var problems := WidgetProblems(items[idx]);
      if problems.Raised? {
        return Raises(problems.error);
      }
      if problems.value != [] {
        return Refused(BadWidget(idx, problems.value));
      }
      idx := idx + 1;
    }
    v := Accepted;
  }

  /** A dashboard is accepted exactly when it has a title and a non-empty
      list of widgets each carrying id, width, height and config. */
  lemma AcceptedIff(d: Obj)
    ensures PrepareVerdict(d) == Accepted <==>
      Truthy(Get(d, "title")) && "widgets" in d && d["widgets"].JArr? && d["widgets"].items != [] &&
      forall j :: 0 <= j < |d["widgets"].items| ==> WidgetOk(d["widgets"].items[j])
  {
    var s := Shared(d);
    if Truthy(Get(d, "title")) && "widgets" in d {
      assert s["widgets"] == d["widgets"];
      var w := d["widgets"];
      if Iterated(w).Some? {
        var items := Iterated(w).value;
        CheckWidgetListAccepts(items, 0);
        forall j | 0 <= j < |items| ensures Clean(items[j]) <==> WidgetOk(items[j]) {
          WidgetProblemsNone(items[j]);
        }
        if w.JStr? && w.s != [] {
          assert !WidgetOk(items[0]);
        }
      } else if w.JObj? && w.fields != map[] {
        DictWidgetsVerdict(w.fields);
      }
    }
  }

  /** Preparing a titled dashboard removes its owner, shares it globally and
      keeps every other field, including its id, as it was. */
  lemma PreparedPayload(d: Obj)
    requires Truthy(Get(d, "title"))
    ensures "owner" !in AfterPrepare(d) && "ownerId" !in AfterPrepare(d)
    ensures "accessRules" in AfterPrepare(d) && AfterPrepare(d)["accessRules"] == GlobalAccess
    ensures forall k :: k != "owner" && k != "ownerId" && k != "accessRules" ==>
      (k in AfterPrepare(d) <==> k in d) && (k in d ==> AfterPrepare(d)[k] == d[k])
  {
  }

  /** A dashboard without a title is refused and left exactly as it was. */
  lemma UntitledUntouched(d: Obj)
    requires !Truthy(Get(d, "title"))
    ensures PrepareVerdict(d) == Refused(NoTitle) && AfterPrepare(d) == d
  {
  }

  /** The first widget that lacks a field is the one reported, with every
      missing field named in test order. */
  lemma FirstBadWidgetReported(d: Obj, k: nat)
    requires Truthy(Get(d, "title")) && "widgets" in d && d["widgets"].JArr?
    requires k < |d["widgets"].items|
    requires forall j :: 0 <= j < k ==> WidgetOk(d["widgets"].items[j])
    requires d["widgets"].items[k].JObj? && "width" !in d["widgets"].items[k].fields
    requires "id" in d["widgets"].items[k].fields && Truthy(d["widgets"].items[k].fields["id"])
    ensures PrepareVerdict(d).Refused? || PrepareVerdict(d).Raises?
    ensures PrepareVerdict(d).Refused? ==> PrepareVerdict(d).why.BadWidget?
    ensures PrepareVerdict(d).Refused? && PrepareVerdict(d).why.BadWidget? ==>
      PrepareVerdict(d).why.index == k && PrepareVerdict(d).why.missing != [] && PrepareVerdict(d).why.missing[0] == "width"
  {
    var items := d["widgets"].items;
    assert Shared(d)["widgets"] == d["widgets"];
    assert PrepareVerdict(d) == CheckWidgetList(items, 0);
    forall j | 0 <= j < k ensures Clean(items[j]) {
      WidgetProblemsNone(items[j]);
    }
    WidgetProblemsNone(items[k]);
    var w := items[k];
    assert IdMissing(w) == Ok(false) && SizeMissing(w, "width") == Ok(true);
    assert WidgetProblems(w).Ok? ==> WidgetProblems(w).value[0] == "width";
    CheckWidgetListAccepts(items, 0);
    CheckWidgetListRefusal(items, 0);
  }
}
