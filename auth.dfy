/** The authentication context (src/contexts/AuthContext.tsx): a provider
    whose `isAuthenticated`, `user` and `loading` fields are restored from
    session storage on mount and written or cleared by `login` and
    `logout`. */
module Auth {
  import opened Common
  import opened Storage

  datatype User = User(id: string, username: string, email: string, userRole: string)

  /** The five session-storage keys that `login` writes and `logout`
      removes. */
  const SessionKeys: set<string> := {"authToken", "user", "userRole", "userId", "userName"}

  function HexDigit(d: int): char
    requires 0 <= d < 16
  {
    if d < 10 then ('0' as int + d) as char else ('a' as int + d - 10) as char
  }

  /** One character as `JSON.stringify` writes it inside a string literal. */
  function EscapeChar(c: char): string {
    if c == '"' then "\\\""
    else if c == '\\' then "\\\\"
    else if c == '\n' then "\\n"
    else if c == '\r' then "\\r"
    else if c == '\t' then "\\t"
    else if c == 8 as char then "\\b"
    else if c == 12 as char then "\\f"
    else if (c as int) < 32 then "\\u00" + [HexDigit(c as int / 16), HexDigit(c as int % 16)]
    else [c]
  }

  function JsonString(s: string): string {
    "\"" + JsonChars(s) + "\""
  }

  function JsonChars(s: string): string {
    if s == [] then "" else EscapeChar(s[0]) + JsonChars(s[1..])
  }

  /** `JSON.stringify(userData)` for the four fields of `User`. */
  function UserJson(u: User): (r: string)
    ensures r != "" && r[0] == '{'
  {
    "{\"id\":" + JsonString(u.id) + ",\"username\":" + JsonString(u.username)
      + ",\"email\":" + JsonString(u.email) + ",\"userRole\":" + JsonString(u.userRole) + "}"
  }

  /** The session storage after `login(token, userData)`. */
  function AfterLogin(items: map<string, string>, token: string, u: User): map<string, string> {
    items["authToken" := token]["user" := UserJson(u)]["userRole" := Lower(u.userRole)]
      ["userId" := u.id]["userName" := u.username]
  }

  /** The session storage after `logout()`. */
  function AfterLogout(items: map<string, string>): map<string, string> {
    RemoveKeys(items, SessionKeys)
  }

  /** Login writes exactly the five session keys, with the role in lower
      case, and leaves every other key as it was. */
  lemma LoginWritesSessionKeys(items: map<string, string>, token: string, u: User)
    ensures AfterLogin(items, token, u).Keys == items.Keys + SessionKeys
    ensures AfterLogin(items, token, u)["authToken"] == token
    ensures AfterLogin(items, token, u)["user"] == UserJson(u)
    ensures AfterLogin(items, token, u)["userRole"] == Lower(u.userRole)
    ensures AfterLogin(items, token, u)["userId"] == u.id
    ensures AfterLogin(items, token, u)["userName"] == u.username
    ensures forall k :: k in items && k !in SessionKeys ==> AfterLogin(items, token, u)[k] == items[k]
  {
  }

  /** Logging in and then out removes the five keys and changes no other
      key: when none of them was stored before, storage is back to where it
      started. */
  lemma LoginThenLogout(items: map<string, string>, token: string, u: User)
    ensures AfterLogout(AfterLogin(items, token, u)) == AfterLogout(items)
    ensures items.Keys !! SessionKeys ==> AfterLogout(AfterLogin(items, token, u)) == items
  {
    var after := AfterLogout(AfterLogin(items, token, u));
    assert after.Keys == AfterLogout(items).Keys;
    if items.Keys !! SessionKeys {
      assert after.Keys == items.Keys;
    }
  }

  /** What `checkAuth` restores from session storage, given `JSON.parse`
      (None when it throws): a user only when both the token and the stored
      user are present and parse. */
  function RestoredUser(items: map<string, string>, parse: string -> Option<User>): (r: Option<User>)
    ensures r.Some? ==> Truthy(Lookup(items, "authToken")) && Truthy(Lookup(items, "user"))
  {
    if Truthy(Lookup(items, "authToken")) && Truthy(Lookup(items, "user")) then parse(items["user"])
    else None
  }

  /** A session written by `login` with a non-empty token is restored by
      `checkAuth` to the same user, when `JSON.parse` reads back what
      `JSON.stringify` wrote. */
  lemma LoginIsRestored(items: map<string, string>, token: string, u: User, parse: string -> Option<User>)
    requires token != ""
    requires parse(UserJson(u)) == Some(u)
    ensures RestoredUser(AfterLogin(items, token, u), parse) == Some(u)
  {
    LoginWritesSessionKeys(items, token, u);
  }

  /** After logout nothing can be restored. */
  lemma LogoutIsNotRestored(items: map<string, string>, parse: string -> Option<User>)
    ensures RestoredUser(AfterLogout(items), parse) == None
  {
  }

  class AuthProvider {
    var isAuthenticated: bool
    var user: Option<User>
    var loading: bool

    constructor ()
      ensures !isAuthenticated && user == None && loading
    {
      isAuthenticated, user, loading := false, None, true;
    }

    /** The mount effect. `parse` stands for `JSON.parse` (None: it threw);
        `loading` is cleared on every path. */
    method CheckAuth(session: KeyValueStore, parse: string -> Option<User>)
      modifies this
      ensures !loading
      ensures RestoredUser(session.items, parse).Some? ==>
        user == RestoredUser(session.items, parse) && isAuthenticated
      ensures RestoredUser(session.items, parse).None? ==>
        user == old(user) && isAuthenticated == old(isAuthenticated)
    {
      var token := session.GetItem("authToken");
      var userData := session.GetItem("user");
      if Truthy(token) && Truthy(userData) {
        var parsed := parse(userData.value);
        if parsed.Some? {
          user := parsed;
          isAuthenticated := true;
        }
      }
      loading := false;
    }

    method Login(session: KeyValueStore, token: string, userData: User)
      modifies this, session
      ensures session.items == AfterLogin(old(session.items), token, userData)
      ensures user == Some(userData) && isAuthenticated && loading == old(loading)
    {
      session.SetItem("authToken", token);
      session.SetItem("user", UserJson(userData));
      session.SetItem("userRole", Lower(userData.userRole));
      session.SetItem("userId", userData.id);
      session.SetItem("userName", userData.username);
      user := Some(userData);
      isAuthenticated := true;
    }

    method Logout(session: KeyValueStore)
      modifies this, session
      ensures session.items == AfterLogout(old(session.items))
      ensures user == None && !isAuthenticated && loading == old(loading)
    {
      ghost var before := session.items;
      session.RemoveItem("authToken");
      session.RemoveItem("user");
      session.RemoveItem("userRole");
      session.RemoveItem("userId");
      session.RemoveItem("userName");
      RemoveOneByOne(before, "authToken", "user", "userRole", "userId", "userName");
      user := None;
      isAuthenticated := false;
    }
  }
}
