/** The client's session (`AuthProvider`): the `token` and `user` it exposes, mirrored
    in the localStorage keys "token" and "user". */
module AuthContext {
  import opened Common

  /** The text under the localStorage key "user": either what `JSON.stringify` wrote
      for an object, or some other text (written elsewhere, or the string "undefined"). */
  datatype StoredUser = Json(obj: JsObject) | Raw(text: string)

  /** `JSON.parse(JSON.stringify(o))`: keys holding `undefined` are dropped. */
  function Stringified(o: JsObject): (r: JsObject)
    ensures forall k :: k in r <==> k in o && o[k] != Undefined
    ensures forall k :: k in r ==> r[k] == o[k]
  {
    map k | k in o && o[k] != Undefined :: o[k]
  }

  /** `Boolean(user?.banned)`. */
  function BannedOf(user: Option<JsObject>): bool {
    user.Some? && Truthy(Get(user.value, "banned"))
  }

  /** `{ ...u, banned: Boolean(u.banned) }`. */
  function Normalized(u: JsObject): (r: JsObject)
    ensures Get(r, "banned").Bool? && BannedOf(Some(r)) == BannedOf(Some(u))
    ensures r.Keys == u.Keys + {"banned"}
    ensures forall k :: k in u && k != "banned" ==> r[k] == u[k]
  {
    u["banned" := Bool(Truthy(Get(u, "banned")))]
  }

  /** `v ?? null`. */
  function OrNull(v: JsValue): JsValue {
    if v == Undefined then Null else v
  }

  /** The user object `login` builds and stores. */
  function FullUser(u: JsObject): (r: JsObject)
    ensures r.Keys == {"id", "name", "email", "avatar_url", "role", "banned"}
    ensures r["id"] == Get(u, "id") && r["email"] == Get(u, "email")
    ensures r["name"] != Undefined && r["avatar_url"] != Undefined
    ensures Get(u, "name") != Undefined ==> r["name"] == u["name"]
    ensures Get(u, "avatar_url") != Undefined ==> r["avatar_url"] == u["avatar_url"]
    ensures Truthy(r["role"]) && (Truthy(Get(u, "role")) ==> r["role"] == u["role"])
    ensures r["banned"] == Bool(BannedOf(Some(u)))
  {
    map[
      "id" := Get(u, "id"),
      "name" := OrNull(Get(u, "name")),
      "email" := Get(u, "email"),
      "avatar_url" := OrNull(Get(u, "avatar_url")),
      "role" := if Truthy(Get(u, "role")) then Get(u, "role") else Str("user"),
      "banned" := Bool(Truthy(Get(u, "banned")))]
  }

  /** The mount effect's reading of localStorage: the session to restore, or None when
      it clears the session instead. Both keys must be truthy and the user text not
      "undefined"; `parse` stands for `JSON.parse` on other text, None when it throws. */
  function RestoredSession(savedToken: Option<string>, savedUser: Option<StoredUser>,
                           parse: string -> Option<JsObject>): (r: Option<(string, JsObject)>)
    ensures !Present(savedToken) || savedUser.None? ==> r.None?
    ensures savedUser == Some(Raw("")) || savedUser == Some(Raw("undefined")) ==> r.None?
    ensures r.Some? ==> Some(r.value.0) == savedToken && Get(r.value.1, "banned").Bool?
    ensures Present(savedToken) && savedUser.Some? && savedUser.value.Json? ==>
      r == Some((savedToken.value, Normalized(Stringified(savedUser.value.obj))))
    ensures Present(savedToken) && savedUser.Some? && savedUser.value.Raw? ==>
      (r.Some? <==> savedUser.value.text !in {"", "undefined"} && parse(savedUser.value.text).Some?)
  {
    if !Present(savedToken) || savedUser.None? then None
    else match savedUser.value
      case Json(o) => Some((savedToken.value, Normalized(Stringified(o))))
      case Raw(text) =>
        if text == "" || text == "undefined" then None
        else match parse(text)
          case None => None
          case Some(parsed) => Some((savedToken.value, Normalized(parsed)))
  }

  /** A user that logged in is restored on the next visit as stored: every field of
      the login object but those `undefined` (an absent `id` or `email`). */
  lemma LoginThenRestore(token: string, u: JsObject, parse: string -> Option<JsObject>)
    requires token != ""
    ensures RestoredSession(Some(token), Some(Json(FullUser(u))), parse)
      == Some((token, Stringified(FullUser(u))))
    ensures Get(u, "id") != Undefined && Get(u, "email") != Undefined ==>
      RestoredSession(Some(token), Some(Json(FullUser(u))), parse) == Some((token, FullUser(u)))
  {
    var full := FullUser(u);
    var s := Stringified(full);
    assert Normalized(s) == s by {
      assert "banned" in s;
    }
    if Get(u, "id") != Undefined && Get(u, "email") != Undefined {
      assert s == full;
    }
  }

  /** The session's state and its two localStorage keys. */
  class AuthSession {
    var token: Option<string>
    var user: Option<JsObject>
    var isReady: bool
    var savedToken: Option<string>
    var savedUser: Option<StoredUser>

    /** The user's `banned` field is a boolean. */
    ghost predicate Valid()
      reads this
    {
      user.Some? ==> Get(user.value, "banned").Bool?
    }

    /** `banned: Boolean(user?.banned)`. */
    function Banned(): bool
      reads this
    {
      BannedOf(user)
    }

    /** The provider before its mount effect, over what localStorage holds. */
    constructor (savedToken: Option<string>, savedUser: Option<StoredUser>)
      ensures token.None? && user.None? && !isReady
      ensures this.savedToken == savedToken && this.savedUser == savedUser
    {
      token, user, isReady := None, None, false;
      this.savedToken, this.savedUser := savedToken, savedUser;
    }

    /** `clearAuth`: both keys removed, token and user null. */
    method ClearAuth()
      modifies this
      ensures token.None? && user.None? && savedToken.None? && savedUser.None?
      ensures isReady == old(isReady)
      ensures Valid() && !Banned()
    {
      savedToken, savedUser := None, None;
      token, user := None, None;
    }

    /** `logout(silent)`: the same as `clearAuth`, plus a log line unless silent. */
    method Logout()
      modifies this
      ensures token.None? && user.None? && savedToken.None? && savedUser.None?
      ensures isReady == old(isReady)
      ensures Valid() && !Banned()
    {
      ClearAuth();
    }

    /** The mount effect: restore the stored session or clear it, then become ready. */
    method Restore(parse: string -> Option<JsObject>)
      modifies this
      ensures isReady && Valid()
      ensures var r := RestoredSession(old(savedToken), old(savedUser), parse);
        && (r.Some? ==> token == Some(r.value.0) && user == Some(r.value.1)
                        && savedToken == old(savedToken) && savedUser == old(savedUser))
        && (r.None? ==> token.None? && user.None? && savedToken.None? && savedUser.None?)
    {
      var r := RestoredSession(savedToken, savedUser, parse);
      if r.Some? {
        token, user := Some(r.value.0), Some(r.value.1);
      } else {
        ClearAuth();
      }
      isReady := true;
    }

    /** `login(token, userData)`: nothing without both; otherwise the full user is
        stored and becomes the session's user. */
    method Login(newToken: Option<string>, userData: Option<JsObject>)
      requires Valid()
      modifies this
      ensures Valid() && isReady == old(isReady)
      ensures !Present(newToken) || userData.None? ==> unchanged(this)
      ensures Present(newToken) && userData.Some? ==>
        && token == newToken && savedToken == newToken
        && user == Some(FullUser(userData.value)) && savedUser == Some(Json(FullUser(userData.value)))
        && Banned() == BannedOf(userData)
    {
      if !Present(newToken) || userData.None? {
        return;
      }
      var full := FullUser(userData.value);
      savedToken, savedUser := newToken, Some(Json(full));
      token, user := newToken, Some(full);
    }

    /** The "auth-updated" event: a truthy stored user is read back as the session's
        user, as parsed (without normalising `banned`). A parse error leaves it. */
    method OnAuthUpdated(parse: string -> Option<JsObject>)
      modifies this
      ensures token == old(token) && savedToken == old(savedToken) && savedUser == old(savedUser)
      ensures isReady == old(isReady)
      ensures match old(savedUser)
        case None => user == old(user)
        case Some(Json(o)) => user == Some(Stringified(o))
        case Some(Raw(text)) =>
          user == (if text != "" && parse(text).Some? then parse(text) else old(user))
    {
      match savedUser
      case None =>
      case Some(Json(o)) => user := Some(Stringified(o));
      case Some(Raw(text)) =>
        if text != "" && parse(text).Some? {
          user := parse(text);
        }
    }

    /** `updateUser(u)`: nothing for null; otherwise u with a boolean `banned`
        becomes the user, in state and in storage. */
    method UpdateUser(updated: Option<JsObject>)
      requires Valid()
      modifies this
      ensures Valid()
      ensures token == old(token) && savedToken == old(savedToken) && isReady == old(isReady)
      ensures updated.None? ==> unchanged(this)
      ensures updated.Some? ==>
        user == Some(Normalized(updated.value)) && savedUser == Some(Json(Normalized(updated.value)))
        && Banned() == BannedOf(updated)
    {
      if updated.None? {
        return;
      }
      var normalized := Normalized(updated.value);
      user, savedUser := Some(normalized), Some(Json(normalized));
    }

    /** `updateBanStatus(banned)`: without a user nothing changes; otherwise only the
        user's `banned` field changes, to `Boolean(banned)`, in state and in storage. */
    method UpdateBanStatus(banned: JsValue)
      requires Valid()
      modifies this
      ensures Valid()
      ensures token == old(token) && savedToken == old(savedToken) && isReady == old(isReady)
      ensures old(user).None? ==> unchanged(this)
      ensures old(user).Some? ==>
        && user.Some? && user.value.Keys == old(user).value.Keys + {"banned"}
        && (forall k :: k in user.value && k != "banned" ==> user.value[k] == old(user).value[k])
        && Banned() == Truthy(banned)
        && savedUser == Some(Json(user.value))
    {
      if user.None? {
        return;
      }
      var next := user.value["banned" := Bool(Truthy(banned))];
      user, savedUser := Some(next), Some(Json(next));
    }
  }
}
