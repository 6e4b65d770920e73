/**
 * The credential record kept in the browser's local storage, and the
 * Authorization header built from the stored token.
 */
module Credentials {
  import opened JsModel

  const AUTH_TOKEN_KEY: string := "auth-token"
  const AUTH_USER_KEY: string := "auth-user"
  const AUTH_USER_ID_KEY: string := "auth-user-id"

  /** The three storage keys of the credential record. */
  const AUTH_KEYS: set<string> := {AUTH_TOKEN_KEY, AUTH_USER_KEY, AUTH_USER_ID_KEY}

  const AUTHORIZATION: string := "Authorization"

  /** Request headers, by name. */
  type Headers = map<string, string>

  /** The browser's localStorage: string values under string keys. */
  class LocalStorage {
    var items: map<string, string>

    constructor (initial: map<string, string>)
      ensures items == initial
    {
      items := initial;
    }

    /** getItem: the stored value, or null when the key is absent. */
    function GetItem(key: string): (r: Option<string>)
      reads this
      ensures r.Some? <==> key in items
      ensures r.Some? ==> r.value == items[key]
    {
      if key in items then Some(items[key]) else None
    }

    /** setItem: stores String(value), the text the value coerces to. */
    method SetItem(key: string, value: Value)
      modifies this
      ensures items == old(items)[key := ToJsString(value)]
    {
      items := items[key := ToJsString(value)];
    }

    method RemoveItem(key: string)
      modifies this
      ensures items == old(items) - {key}
    {
      items := items - {key};
    }
  }

  /**
   * setAuthCredentials(token, userId, username): stores the record. The
   * third argument, the user name, goes under `auth-user`. Each value is
   * stored as the string it coerces to.
   */
  method SetAuthCredentials(storage: LocalStorage, token: Value, userId: Value, username: Value)
    modifies storage
    ensures storage.items.Keys == old(storage.items).Keys + AUTH_KEYS
    ensures forall k :: k in old(storage.items) && k !in AUTH_KEYS ==> storage.items[k] == old(storage.items)[k]
    ensures GetAuthToken(storage) == Some(ToJsString(token))
    ensures GetAuthUser(storage) == Some(ToJsString(username))
    ensures GetAuthUserId(storage) == Some(ToJsString(userId))
  {
    storage.SetItem(AUTH_TOKEN_KEY, token);
    storage.SetItem(AUTH_USER_KEY, username);
    storage.SetItem(AUTH_USER_ID_KEY, userId);
  }

  /** removeAuthCredentials: deletes the three keys and nothing else. */
  method RemoveAuthCredentials(storage: LocalStorage)
    modifies storage
    ensures storage.items == old(storage.items) - AUTH_KEYS
    ensures GetAuthToken(storage) == None && GetAuthUser(storage) == None && GetAuthUserId(storage) == None
    ensures AuthHeaders(storage) == map[]
  {
    storage.RemoveItem(AUTH_TOKEN_KEY);
    storage.RemoveItem(AUTH_USER_KEY);
    storage.RemoveItem(AUTH_USER_ID_KEY);
  }

  /** getAuthToken: the stored token, or null. */
  function GetAuthToken(storage: LocalStorage): (r: Option<string>)
    reads storage
    ensures r.Some? <==> AUTH_TOKEN_KEY in storage.items
    ensures r.Some? ==> r.value == storage.items[AUTH_TOKEN_KEY]
  {
    storage.GetItem(AUTH_TOKEN_KEY)
  }

  /** getAuthUser: the stored user name, or null. */
  function GetAuthUser(storage: LocalStorage): (r: Option<string>)
    reads storage
    ensures r.Some? <==> AUTH_USER_KEY in storage.items
    ensures r.Some? ==> r.value == storage.items[AUTH_USER_KEY]
  {
    storage.GetItem(AUTH_USER_KEY)
  }

  /** getAuthUserId: the stored user id, or null. */
  function GetAuthUserId(storage: LocalStorage): (r: Option<string>)
    reads storage
    ensures r.Some? <==> AUTH_USER_ID_KEY in storage.items
    ensures r.Some? ==> r.value == storage.items[AUTH_USER_ID_KEY]
  {
    storage.GetItem(AUTH_USER_ID_KEY)
  }

  /** A token is sent only when one is stored and it is not the empty string. */
  predicate HasToken(storage: LocalStorage)
    reads storage
  {
    GetAuthToken(storage).Some? && GetAuthToken(storage).value != ""
  }

  /**
   * The headers createHeaders builds: an Authorization header
   * `Token <token>` when a truthy token is stored, no header at all otherwise.
   */
  function AuthHeaders(storage: LocalStorage): (h: Headers)
    reads storage
    ensures h.Keys <= {AUTHORIZATION}
    ensures AUTHORIZATION in h <==> AUTH_TOKEN_KEY in storage.items && storage.items[AUTH_TOKEN_KEY] != ""
    ensures AUTHORIZATION in h ==> h[AUTHORIZATION] == "Token " + storage.items[AUTH_TOKEN_KEY]
  {
    var token := GetAuthToken(storage);
    if token.Some? && token.value != "" then map[AUTHORIZATION := "Token " + token.value] else map[]
  }

  /** createHeaders: starts from an empty dictionary and adds the Authorization entry when a token is stored. */
  method CreateHeaders(storage: LocalStorage) returns (headers: Headers)
    ensures headers == AuthHeaders(storage)
  {
    headers := map[];
    var token := GetAuthToken(storage);
    if token.Some? && token.value != "" {
      headers := headers[AUTHORIZATION := "Token " + token.value];
    }
  }

  /**
   * The three getters read back the strings setAuthCredentials stored,
   * whatever was stored before; a string argument is read back unchanged.
   */
  lemma CredentialRoundTrip(before: map<string, string>, storage: LocalStorage, token: string, userId: Value, username: Value)
    requires storage.items == before[AUTH_TOKEN_KEY := token][AUTH_USER_KEY := ToJsString(username)][AUTH_USER_ID_KEY := ToJsString(userId)]
    ensures GetAuthToken(storage) == Some(token)
    ensures GetAuthUser(storage) == Some(ToJsString(username))
    ensures GetAuthUserId(storage) == Some(ToJsString(userId))
    ensures username.Str? ==> GetAuthUser(storage) == Some(username.s)
    ensures token != "" ==> AuthHeaders(storage) == map[AUTHORIZATION := "Token " + token]
    ensures token == "" ==> AuthHeaders(storage) == map[]
  {
    assert storage.items[AUTH_TOKEN_KEY] == token;
  }

  /**
   * Storing a missing token (undefined or null) stores its text, which is
   * not empty: every authenticated request then carries `Token undefined`
   * or `Token null`.
   */
  lemma MissingTokenIsSentAsText(before: map<string, string>, storage: LocalStorage, token: Value)
    requires token.Undefined? || token.Null?
    requires storage.items == before[AUTH_TOKEN_KEY := ToJsString(token)]
    ensures token.Undefined? ==> AuthHeaders(storage) == map[AUTHORIZATION := "Token undefined"]
    ensures token.Null? ==> AuthHeaders(storage) == map[AUTHORIZATION := "Token null"]
  {
    var text := ToJsString(token);
    assert storage.items[AUTH_TOKEN_KEY] == text != "";
    if token.Undefined? {
      assert "Token " + text == "Token undefined";
    } else {
      assert "Token " + text == "Token null";
    }
  }
}
