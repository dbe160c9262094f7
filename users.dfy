/** Matching the shareable users of the source and the target backends by
    e-mail address (`_map_users`, identical in both dashboard migrators). */
module Users {
  import opened Json

  /** Both keys are present in a user record. */
  predicate HasBoth(u: Obj, k: string, v: string) {
    k in u && v in u
  }

  /** The item-to-entry rule of `{u[k]: u[v] for u in users if k in u and v in u}`. */
  function Entry(k: string, v: string): Obj -> Option<(Json, Json)> {
    u => if HasBoth(u, k, v) then Some((u[k], u[v])) else None
  }

  /** The target users' e-mail addresses, each mapped to the target user
      id; an address Python cannot hash raises TypeError. */
  function EmailIndex(targetUsers: seq<Obj>): Result<map<Json, Json>> {
    DictComp(targetUsers, Entry("email", "id"))
  }

  /** The entry a source user contributes: its id, mapped to the target id
      of the user with the same address, when there is one. */
  function SourceEntry(byEmail: map<Json, Json>): Obj -> Option<(Json, Json)> {
    s => if HasBoth(s, "email", "id") && s["email"] in byEmail then Some((s["id"], byEmail[s["email"]])) else None
  }

  /** A source user on which the loop raises TypeError: `source_email in
      target_user_emails` hashes its address, and `user_map[source_user['id']]`
      hashes the id of a user whose address is indexed. */
  predicate SourceUserRaises(s: Obj, byEmail: map<Json, Json>) {
    HasBoth(s, "email", "id") && (!Hashable(s["email"]) || (s["email"] in byEmail && !Hashable(s["id"])))
  }

  /** What `_map_users` returns, or the TypeError it raises. */
  function UserMap(sourceUsers: seq<Obj>, targetUsers: seq<Obj>): (r: Result<map<Json, Json>>)
    ensures r.Raised? ==> r.error == UnhashableType
  {
    if sourceUsers == [] || targetUsers == [] then Ok(map[])
    else match EmailIndex(targetUsers)
      case Raised(e) => Raised(e)
      case Ok(byEmail) =>
        if exists i | 0 <= i < |sourceUsers| :: SourceUserRaises(sourceUsers[i], byEmail) then Raised(UnhashableType)
        else Ok(IndexBy(sourceUsers, SourceEntry(byEmail)))
  }

  /** `_map_users`: an empty map when either list is empty; otherwise index
      the target users by e-mail and copy each matching source user across. */
  method MapUsers(sourceUsers: seq<Obj>, targetUsers: seq<Obj>) returns (r: Result<map<Json, Json>>)
    ensures r == UserMap(sourceUsers, targetUsers)
  {
    var userMap := map[];
    if sourceUsers == [] || targetUsers == [] {
      return Ok(userMap);
    }
    var index := EmailIndex(targetUsers);
    if index.Raised? {
      return Raised(index.error);
    }
    var byEmail := index.value;
    var i := 0;
    while i < |sourceUsers|
      invariant 0 <= i <= |sourceUsers|
      invariant userMap == IndexBy(sourceUsers[..i], SourceEntry(byEmail))
      invariant forall j | 0 <= j < i :: !SourceUserRaises(sourceUsers[j], byEmail)
    {
      var s := sourceUsers[i];
      IndexBySnoc(sourceUsers[..i], s, SourceEntry(byEmail));
      assert sourceUsers[..i + 1] == sourceUsers[..i] + [s];
      if "email" in s && "id" in s {
        var email := Get(s, "email");
        var known := Member(email, byEmail.Keys);
        if known.Raised? {
          assert SourceUserRaises(s, byEmail);
          return Raised(known.error);
        }
        if known.value {
          if !Hashable(s["id"]) {
            assert SourceUserRaises(s, byEmail);
            return Raised(UnhashableType);
          }
          userMap := userMap[s["id"] := byEmail[email]];
        }
      }
      i := i + 1;
    }
    assert sourceUsers[..i] == sourceUsers;
    r := Ok(userMap);
  }

  /** With both lists non-empty, `_map_users` raises exactly when a target
      user with both fields has an address that cannot be hashed, or a
      source user with both fields has such an address, or has such an id
      and shares its address with a target user. */
  lemma UserMapRaises(sourceUsers: seq<Obj>, targetUsers: seq<Obj>)
    requires sourceUsers != [] && targetUsers != []
    ensures UserMap(sourceUsers, targetUsers).Raised? <==>
      (exists j | 0 <= j < |targetUsers| :: HasBoth(targetUsers[j], "email", "id") && !Hashable(targetUsers[j]["email"])) ||
      exists i | 0 <= i < |sourceUsers| :: HasBoth(sourceUsers[i], "email", "id") &&
        (!Hashable(sourceUsers[i]["email"]) ||
         (!Hashable(sourceUsers[i]["id"]) &&
          exists j | 0 <= j < |targetUsers| :: HasBoth(targetUsers[j], "email", "id") && targetUsers[j]["email"] == sourceUsers[i]["email"]))
  {
    assert forall j | 0 <= j < |targetUsers| :: Entry("email", "id")(targetUsers[j]).Some? <==> HasBoth(targetUsers[j], "email", "id");
    var index := EmailIndex(targetUsers);
    if index.Ok? {
      forall i | 0 <= i < |sourceUsers| && HasBoth(sourceUsers[i], "email", "id")
        ensures sourceUsers[i]["email"] in index.value <==>
          exists j | 0 <= j < |targetUsers| :: HasBoth(targetUsers[j], "email", "id") && targetUsers[j]["email"] == sourceUsers[i]["email"]
      {
        IndexByKeys(targetUsers, Entry("email", "id"), sourceUsers[i]["email"]);
      }
    }
  }

  /** When `_map_users` returns, a source user id is mapped exactly when
      some source user with that id shares its e-mail address with some
      target user that has an id. */
  lemma UserMapKeys(sourceUsers: seq<Obj>, targetUsers: seq<Obj>, x: Json)
    ensures UserMap(sourceUsers, targetUsers).Ok? ==>
      (x in UserMap(sourceUsers, targetUsers).value <==>
        exists i, j | 0 <= i < |sourceUsers| && 0 <= j < |targetUsers| ::
          HasBoth(sourceUsers[i], "email", "id") && HasBoth(targetUsers[j], "email", "id") &&
          sourceUsers[i]["email"] == targetUsers[j]["email"] && sourceUsers[i]["id"] == x)
  {
    if sourceUsers != [] && targetUsers != [] && EmailIndex(targetUsers).Ok? {
      var byEmail := EmailIndex(targetUsers).value;
      IndexByKeys(sourceUsers, SourceEntry(byEmail), x);
      forall i | 0 <= i < |sourceUsers| && HasBoth(sourceUsers[i], "email", "id")
        ensures sourceUsers[i]["email"] in byEmail <==>
          exists j | 0 <= j < |targetUsers| :: HasBoth(targetUsers[j], "email", "id") && targetUsers[j]["email"] == sourceUsers[i]["email"]
      {
        IndexByKeys(targetUsers, Entry("email", "id"), sourceUsers[i]["email"]);
      }
    }
  }

  /** When `_map_users` returns, a source user is sent to the target user
      with the same e-mail address: the last such target user, when several
      share it, and the last such source user, when several share an id. */
  lemma UserMapMatchesByEmail(sourceUsers: seq<Obj>, targetUsers: seq<Obj>, i: nat, j: nat)
    requires i < |sourceUsers| && j < |targetUsers|
    requires HasBoth(sourceUsers[i], "email", "id") && HasBoth(targetUsers[j], "email", "id")
    requires sourceUsers[i]["email"] == targetUsers[j]["email"]
    requires forall l | j < l < |targetUsers| ::
      HasBoth(targetUsers[l], "email", "id") ==> targetUsers[l]["email"] != targetUsers[j]["email"]
    requires forall l | i < l < |sourceUsers| ::
      HasBoth(sourceUsers[l], "email", "id") ==> sourceUsers[l]["id"] != sourceUsers[i]["id"]
    ensures UserMap(sourceUsers, targetUsers).Ok? ==>
      sourceUsers[i]["id"] in UserMap(sourceUsers, targetUsers).value &&
      UserMap(sourceUsers, targetUsers).value[sourceUsers[i]["id"]] == targetUsers[j]["id"]
  {
    IndexByLastWins(targetUsers, Entry("email", "id"), j);
    if EmailIndex(targetUsers).Ok? {
      IndexByLastWins(sourceUsers, SourceEntry(EmailIndex(targetUsers).value), i);
    }
  }
}
