/** JSON values as the migrators receive them from an HTTP response body or a
    cache file, and the few Python operations the migrators apply to them
    (truthiness, `dict.get`, `in`, subscripting, `< 1`, `str.lower`,
    `str.strip`, `str()`). */
module Json {

  datatype Json =
    | JNull
    | JBool(b: bool)
    | JInt(i: int)
    | JReal(r: real)
    | JStr(s: string)
    | JArr(items: seq<Json>)
    | JObj(fields: map<string, Json>)

  /** A JSON object, i.e. a Python `dict` with string keys. */
  type Obj = map<string, Json>

  datatype Option<+T> = None | Some(value: T)

  /** A Python computation that either returns a value or raises an exception. */
  datatype Result<+T> = Ok(value: T) | Raised(error: string)

  /** Python truthiness: `if x:` and `not x`. */
  predicate Truthy(j: Json) {
    match j
    case JNull => false
    case JBool(b) => b
    case JInt(i) => i != 0
    case JReal(r) => r != 0.0
    case JStr(s) => s != ""
    case JArr(xs) => xs != []
    case JObj(m) => m != map[]
  }

  /** `d.get(k)`: the value stored under `k`, or None when the key is absent. */
  function Get(d: Obj, k: string): (r: Json)
    ensures k !in d ==> r == JNull
    ensures k in d ==> r == d[k]
  {
    if k in d then d[k] else JNull
  }

  /** `k in s` for two strings: `k` occurs in `s` as a contiguous block. */
  predicate IsSubstring(k: string, s: string) {
    k <= s || (s != [] && IsSubstring(k, s[1..]))
  }

  /** `k in x` for a string `k`: a key test on a dict, a substring test on a
      string, a membership test on a list; any other value raises TypeError. */
  function Contains(x: Json, k: string): (r: Result<bool>)
    ensures x.JObj? ==> r == Ok(k in x.fields)
    ensures r.Raised? <==> !(x.JObj? || x.JStr? || x.JArr?)
  {
    match x
    case JObj(m) => Ok(k in m)
    case JStr(s) => Ok(IsSubstring(k, s))
    case JArr(xs) => Ok(JStr(k) in xs)
    case _ => Raised("TypeError: argument is not iterable")
  }

  /** `x[k]` for a string `k`: only a dict holding `k` answers; a dict
      without it raises KeyError and any other value raises TypeError. */
  function Subscript(x: Json, k: string): (r: Result<Json>)
    ensures r.Ok? <==> x.JObj? && k in x.fields
    ensures r.Ok? ==> r.value == x.fields[k]
  {
    match x
    case JObj(m) => if k in m then Ok(m[k]) else Raised("KeyError")
    case _ => Raised("TypeError: indices must be integers")
  }

  /** `x < 1`: integers and floats compare, booleans compare as 0 and 1,
      anything else raises TypeError. */
  function LessThanOne(x: Json): (r: Result<bool>)
    ensures r.Ok? <==> x.JInt? || x.JReal? || x.JBool?
    ensures x.JInt? ==> r == Ok(x.i < 1)
    ensures x.JReal? ==> r == Ok(x.r < 1.0)
    ensures x.JBool? ==> r == Ok(!x.b)
  {
    match x
    case JInt(i) => Ok(i < 1)
    case JReal(r) => Ok(r < 1.0)
    case JBool(b) => Ok(!b)
    case _ => Raised("TypeError: '<' not supported")
  }

  function LowerChar(c: char): char {
    if 'A' <= c <= 'Z' then (c as int + 32) as char else c
  }

  /** `s.lower()` on the ASCII letters. */
  function Lower(s: string): (r: string)
    ensures |r| == |s|
    ensures forall i :: 0 <= i < |s| ==> r[i] == LowerChar(s[i])
  {
    if s == [] then [] else [LowerChar(s[0])] + Lower(s[1..])
  }

  /** The characters for which Python's `str.isspace()` holds: those
      Unicode classes as whitespace or as a paragraph or segment separator. */
  predicate IsSpace(c: char) {
    c == ' ' || '\t' <= c <= '\r' || '\U{1c}' <= c <= '\U{1f}'
    || c == '\U{85}' || c == '\U{a0}' || c == '\U{1680}' || '\U{2000}' <= c <= '\U{200a}'
    || c == '\U{2028}' || c == '\U{2029}' || c == '\U{202f}' || c == '\U{205f}' || c == '\U{3000}'
  }

  function StripLeft(s: string): (r: string)
    ensures |r| <= |s| && r == s[|s| - |r|..]
    ensures r == [] || !IsSpace(r[0])
  {
    if s != [] && IsSpace(s[0]) then StripLeft(s[1..]) else s
  }

  function StripRight(s: string): (r: string)
    ensures |r| <= |s| && r == s[..|r|]
    ensures r == [] || !IsSpace(r[|r| - 1])
  {
    if s != [] && IsSpace(s[|s| - 1]) then StripRight(s[..|s| - 1]) else s
  }

  /** `s.strip()`: leading and trailing whitespace removed. */
  function Strip(s: string): string {
    StripRight(StripLeft(s))
  }

  lemma StripLeftStep(s: string)
    requires s != [] && IsSpace(s[0])
    ensures StripLeft(s) == StripLeft(s[1..])
  {
  }

  lemma StripRightStep(s: string)
    requires s != [] && IsSpace(s[|s| - 1])
    ensures StripRight(s) == StripRight(s[..|s| - 1])
  {
  }

  /** A no-break space counts as whitespace: `'\xa0u\xa0'.strip() == 'u'`. */
  lemma StripNoBreakSpace()
    ensures Strip("\U{a0}u\U{a0}") == "u"
  {
    StripLeftStep("\U{a0}u\U{a0}");
    assert "\U{a0}u\U{a0}"[1..] == "u\U{a0}";
    StripRightStep("u\U{a0}");
    assert "u\U{a0}"[..1] == "u";
  }

  function DigitChar(d: nat): char
    requires d < 10
  {
    "0123456789"[d]
  }

  /** The decimal digits of a natural number, as `str(n)` writes them. */
  function NatToDecimal(n: nat): (r: string)
    ensures r != []
    decreases n
  {
    if n < 10 then [DigitChar(n)] else NatToDecimal(n / 10) + [DigitChar(n % 10)]
  }

  /** `str(x)` for the JSON values other than floats, lists and objects,
      whose Python renderings are not modelled. */
  function PyStr(x: Json): (r: Option<string>)
    ensures x.JStr? ==> r == Some(x.s)
    ensures r.None? <==> x.JReal? || x.JArr? || x.JObj?
  {
    match x
    case JNull => Some("None")
    case JBool(b) => Some(if b then "True" else "False")
    case JInt(i) => Some(if i < 0 then "-" + NatToDecimal(-i) else NatToDecimal(i))
    case JStr(s) => Some(s)
    case _ => None
  }

  /** The first object of `items` whose `d.get(key)` equals `want`: Python's
      `next((d for d in items if d.get(key) == want), None)`. */
  function FirstWith(items: seq<Obj>, key: string, want: Json): (r: Option<nat>)
    ensures r.Some? ==> r.value < |items| && Get(items[r.value], key) == want
    ensures r.Some? ==> forall j :: 0 <= j < r.value ==> Get(items[j], key) != want
    ensures r.None? ==> forall j :: 0 <= j < |items| ==> Get(items[j], key) != want
  {
    if items == [] then None
    else if Get(items[0], key) == want then Some(0)
    else match FirstWith(items[1..], key, want)
      case None => None
      case Some(k) => Some(k + 1)
  }

  /** The dict a comprehension `{key(x): value(x) for x in items if ...}`
      builds when every key hashes (`DictComp` adds the TypeError): `pair`
      gives the key and value an item contributes, or None when the
      comprehension's condition leaves the item out; a later item overwrites
      an earlier one with the same key. */
  function IndexBy(items: seq<Obj>, pair: Obj -> Option<(Json, Json)>): map<Json, Json> {
    if items == [] then map[]
    else
      var rest := IndexBy(items[1..], pair);
      match pair(items[0])
      case None => rest
      case Some(kv) => map[kv.0 := kv.1] + rest
  }

  /** The comprehension's keys are exactly those of the items it keeps. */
  lemma {:induction false} IndexByKeys(items: seq<Obj>, pair: Obj -> Option<(Json, Json)>, x: Json)
    ensures x in IndexBy(items, pair) <==>
      exists i | 0 <= i < |items| :: pair(items[i]).Some? && pair(items[i]).value.0 == x
  {
    if items != [] {
      IndexByKeys(items[1..], pair, x);
      if pair(items[0]).Some? && pair(items[0]).value.0 == x {
      } else if x in IndexBy(items, pair) {
        var i :| 0 <= i < |items[1..]| && pair(items[1..][i]).Some? && pair(items[1..][i]).value.0 == x;
        assert items[1..][i] == items[i + 1];
      } else {
        forall i | 1 <= i < |items| ensures !(pair(items[i]).Some? && pair(items[i]).value.0 == x) {
          assert items[1..][i - 1] == items[i];
        }
      }
    }
  }

  /** The value under a key comes from the LAST item kept with that key. */
  lemma {:induction false} IndexByLastWins(items: seq<Obj>, pair: Obj -> Option<(Json, Json)>, i: nat)
    requires i < |items| && pair(items[i]).Some?
    requires forall j | i < j < |items| :: pair(items[j]).Some? ==> pair(items[j]).value.0 != pair(items[i]).value.0
    ensures pair(items[i]).value.0 in IndexBy(items, pair)
    ensures IndexBy(items, pair)[pair(items[i]).value.0] == pair(items[i]).value.1
  {
    var x := pair(items[i]).value.0;
    if i == 0 {
      forall k | 0 <= k < |items[1..]|
        ensures !(pair(items[1..][k]).Some? && pair(items[1..][k]).value.0 == x)
      {
        assert items[1..][k] == items[k + 1];
      }
      IndexByKeys(items[1..], pair, x);
    } else {
      forall j | i - 1 < j < |items[1..]|
        ensures pair(items[1..][j]).Some? ==> pair(items[1..][j]).value.0 != x
      {
        assert items[1..][j] == items[j + 1];
      }
      assert items[1..][i - 1] == items[i];
      IndexByLastWins(items[1..], pair, i - 1);
    }
  }

  /** Python can hash the value, so it can be a dict key or a set member:
      lists and dicts cannot. */
  predicate Hashable(j: Json) {
    !j.JArr? && !j.JObj?
  }

  const UnhashableType := "TypeError: unhashable type"

  /** Every key of a dict or set the source builds is hashable. */
  predicate HashableKeys(keys: set<Json>) {
    forall k | k in keys :: Hashable(k)
  }

  /** `x in d` for a dict or set `d` with keys `keys`: `x` is hashed first,
      so an unhashable `x` raises even when `d` is empty. */
  function Member(x: Json, keys: set<Json>): (r: Result<bool>)
    ensures r.Raised? <==> !Hashable(x)
    ensures r.Ok? ==> (r.value <==> x in keys)
  {
    if Hashable(x) then Ok(x in keys) else Raised(UnhashableType)
  }

  /** Some item the comprehension keeps has a key Python cannot hash. */
  predicate SomeKeyUnhashable(items: seq<Obj>, pair: Obj -> Option<(Json, Json)>) {
    exists i | 0 <= i < |items| :: pair(items[i]).Some? && !Hashable(pair(items[i]).value.0)
  }

  /** The dict comprehension as Python runs it: item by item, inserting each
      kept pair, and raising TypeError at the first key it cannot hash. */
  function DictComp(items: seq<Obj>, pair: Obj -> Option<(Json, Json)>): (r: Result<map<Json, Json>>)
    ensures r.Raised? <==> SomeKeyUnhashable(items, pair)
    ensures r.Raised? ==> r.error == UnhashableType
    ensures r.Ok? ==> r.value == IndexBy(items, pair) && HashableKeys(r.value.Keys)
  {
    if items == [] then Ok(map[])
    else
      assert forall i | 0 <= i < |items[1..]| :: items[1..][i] == items[i + 1];
      assert SomeKeyUnhashable(items, pair) <==>
        (pair(items[0]).Some? && !Hashable(pair(items[0]).value.0)) || SomeKeyUnhashable(items[1..], pair);
      match pair(items[0])
      case None => DictComp(items[1..], pair)
      case Some(kv) =>
        if !Hashable(kv.0) then Raised(UnhashableType)
        else match DictComp(items[1..], pair)
          case Raised(e) => Raised(e)
          case Ok(rest) => Ok(map[kv.0 := kv.1] + rest)
  }

  /** Running the comprehension one more item: that item's pair overwrites. */
  lemma {:induction false} IndexBySnoc(items: seq<Obj>, y: Obj, pair: Obj -> Option<(Json, Json)>)
    ensures IndexBy(items + [y], pair) ==
      match pair(y)
      case None => IndexBy(items, pair)
      case Some(kv) => IndexBy(items, pair)[kv.0 := kv.1]
  {
    if items == [] {
      assert [y][1..] == [];
    } else {
      assert (items + [y])[1..] == items[1..] + [y];
      assert (items + [y])[0] == items[0];
      IndexBySnoc(items[1..], y, pair);
    }
  }

  /** A Python dict that the source changes in place. */
  class JsonDict {
    var fields: Obj

    constructor (init: Obj)
      ensures fields == init
    {
      fields := init;
    }

    /** `if k in d: del d[k]` */
    method Discard(k: string)
      modifies this
      ensures fields == old(fields) - {k}
    {
      fields := fields - {k};
    }

    /** `d[k] = v` */
    method Set(k: string, v: Json)
      modifies this
      ensures fields == old(fields)[k := v]
    {
      fields := fields[k := v];
    }
  }
}

/** What a migrator's `migrate()` produces, and how its counters are totalled. */
module Tally {
  import opened Json

  /** A migration run either returns its result dict, lets an exception
      escape, ends the process through `sys.exit`, or waits forever. */
  datatype RunOutcome =
    | Finished(result: map<string, int>)
    | Crashed(error: string)
    | Exited(code: int)
    | Diverges

  /** The four-key result dict most migrators return. */
  function Summary(source: int, migrated: int, updated: int, skipped: int): (r: map<string, int>)
    ensures r.Keys == {"source", "migrated", "updated", "skipped"}
    ensures r["source"] == source && r["migrated"] == migrated
    ensures r["updated"] == updated && r["skipped"] == skipped
  {
    map["source" := source, "migrated" := migrated, "updated" := updated, "skipped" := skipped]
  }

  /** `xs.count(x)` */
  function Count<T(==)>(xs: seq<T>, x: T): (n: nat)
    ensures n <= |xs|
  {
    if xs == [] then 0 else (if xs[0] == x then 1 else 0) + Count(xs[1..], x)
  }

  lemma {:induction false} CountAppend<T>(xs: seq<T>, ys: seq<T>, x: T)
    ensures Count(xs + ys, x) == Count(xs, x) + Count(ys, x)
  {
    if xs != [] {
      assert (xs + ys)[0] == xs[0] && (xs + ys)[1..] == xs[1..] + ys;
      CountAppend(xs[1..], ys, x);
    } else {
      assert xs + ys == ys;
    }
  }

  /** The running counters of a sequential migration loop. */
  datatype Counters = Counters(migrated: nat, updated: nat, skipped: nat) {
    function Total(): nat { migrated + updated + skipped }
  }
}
