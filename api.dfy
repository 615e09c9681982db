/** The HTTP client wrapper and the session store of src/services/api.ts.
    localStorage is a `Storage` object holding a string-to-string map; a
    request's config is a `Request` object whose headers and `_retry` flag
    the interceptors change in place. The backend is a function from the
    headers a request is sent with to the reply it gets, and the refresh
    endpoint's reply is supplied by the caller. */
module Api {
  import opened Common
  import opened Types

  const AccessTokenKey := "accessToken"
  const RefreshTokenKey := "refreshToken"
  const UserKey := "user"
  /** The three keys that make up the persisted session. */
  const SessionKeys: set<string> := {AccessTokenKey, RefreshTokenKey, UserKey}

  const AuthorizationHeader := "Authorization"
  /** The three fixed headers the request interceptor adds to every request. */
  const CorsHeaders: map<string, string> := map[
    "Access-Control-Allow-Origin" := "*",
    "Access-Control-Allow-Methods" := "GET, POST, PUT, DELETE, OPTIONS",
    "Access-Control-Allow-Headers" := "Content-Type, Authorization"]
  /** Status that triggers a token refresh. */
  const Unauthorized := 401
  /** Per-request timeout of every client, in milliseconds. */
  const TimeoutMs := 30000

  function Bearer(token: string): string {
    "Bearer " + token
  }

  function Lookup(items: map<string, string>, key: string): Option<string> {
    if key in items then Some(items[key]) else None
  }

  /** localStorage. */
  class Storage {
    var items: map<string, string>

    constructor (initial: map<string, string>)
      ensures items == initial
    {
      items := initial;
    }

    method GetItem(key: string) returns (v: Option<string>)
      ensures v == Lookup(items, key)
    {
      v := if key in items then Some(items[key]) else None;
    }

    method SetItem(key: string, value: string)
      modifies this
      ensures items == old(items)[key := value]
    {
      items := items[key := value];
    }

    method RemoveItem(key: string)
      modifies this
      ensures items == old(items) - {key}
    {
      items := items - {key};
    }
  }

  // ---------------------------------------------------------------------------
  // Session storage: setAuthData, clearAuthData, getStoredUser, getStoredToken
  // ---------------------------------------------------------------------------

  /** The result of `JSON.parse` on a stored user string: it throws, or it
      yields a user object or null. */
  datatype Parsed = Malformed | Decoded(value: Option<User>)

  /** `JSON.stringify` and `JSON.parse` restricted to user values. */
  datatype UserCodec = UserCodec(encode: Option<User> -> string, decode: string -> Parsed)

  /** What the model relies on of the JSON pair: parsing what was serialised
      gives back the value, and a serialised value is never the empty string. */
  ghost predicate Faithful(codec: UserCodec) {
    forall v: Option<User> :: codec.decode(codec.encode(v)) == Decoded(v) && codec.encode(v) != ""
  }

  /** Storage after `setAuthData(auth, user)`. */
  function WithAuthData(items: map<string, string>, auth: AuthResponse, user: User, codec: UserCodec): map<string, string> {
    items[AccessTokenKey := auth.accessToken][RefreshTokenKey := auth.refreshToken][UserKey := codec.encode(Some(user))]
  }

  /** Storage after `clearAuthData()`. */
  function WithoutAuthData(items: map<string, string>): map<string, string> {
    items - SessionKeys
  }

  /** `getStoredToken()`. */
  function StoredToken(items: map<string, string>): Option<string> {
    Lookup(items, AccessTokenKey)
  }

  /** `getStoredUser()`: a missing or empty entry reads as null, anything
      else is parsed. */
  function StoredUser(items: map<string, string>, codec: UserCodec): Parsed {
    if Present(Lookup(items, UserKey)) then codec.decode(items[UserKey]) else Decoded(None)
  }

  /** Reading the session back after storing it gives what was stored, and
      no key outside the session changes. */
  lemma SetThenRead(items: map<string, string>, auth: AuthResponse, user: User, codec: UserCodec)
    requires Faithful(codec)
    ensures var after := WithAuthData(items, auth, user, codec);
            && StoredToken(after) == Some(auth.accessToken)
            && Lookup(after, RefreshTokenKey) == Some(auth.refreshToken)
            && StoredUser(after, codec) == Decoded(Some(user))
            && forall k :: k !in SessionKeys ==> Lookup(after, k) == Lookup(items, k)
  {
    var after := WithAuthData(items, auth, user, codec);
    assert after[UserKey] == codec.encode(Some(user));
  }

  /** After clearing, neither token nor user can be read back, and no key
      outside the session changes. */
  lemma ClearThenRead(items: map<string, string>, codec: UserCodec)
    ensures var after := WithoutAuthData(items);
            && StoredToken(after) == None
            && Lookup(after, RefreshTokenKey) == None
            && StoredUser(after, codec) == Decoded(None)
            && forall k :: k !in SessionKeys ==> Lookup(after, k) == Lookup(items, k)
  {
  }

  /** Clearing after storing leaves what clearing alone leaves: nothing of a
      stored session survives a clear. */
  lemma ClearForgetsSet(items: map<string, string>, auth: AuthResponse, user: User, codec: UserCodec)
    ensures WithoutAuthData(WithAuthData(items, auth, user, codec)) == WithoutAuthData(items)
  {
    var lhs := WithoutAuthData(WithAuthData(items, auth, user, codec));
    var rhs := WithoutAuthData(items);
    assert forall k :: k in lhs <==> k in rhs;
  }

  method SetAuthData(store: Storage, auth: AuthResponse, user: User, codec: UserCodec)
    modifies store
    ensures store.items == WithAuthData(old(store.items), auth, user, codec)
  {
    store.SetItem(AccessTokenKey, auth.accessToken);
    store.SetItem(RefreshTokenKey, auth.refreshToken);
    store.SetItem(UserKey, codec.encode(Some(user)));
  }

  method ClearAuthData(store: Storage)
    modifies store
    ensures store.items == WithoutAuthData(old(store.items))
  {
    store.RemoveItem(AccessTokenKey);
    store.RemoveItem(RefreshTokenKey);
    store.RemoveItem(UserKey);
    assert store.items == old(store.items) - SessionKeys;
  }

  method GetStoredUser(store: Storage, codec: UserCodec) returns (r: Parsed)
    ensures r == StoredUser(store.items, codec)
  {
    var s := store.GetItem(UserKey);
    if Present(s) {
      r := codec.decode(s.value);
    } else {
      r := Decoded(None);
    }
  }

  method GetStoredToken(store: Storage) returns (r: Option<string>)
    ensures r == StoredToken(store.items)
  {
    r := store.GetItem(AccessTokenKey);
  }

  // ---------------------------------------------------------------------------
  // getCurrentUser
  // ---------------------------------------------------------------------------

  /** The body of the current-user reply: null, or an object that is either
      the user itself or carries the user under a `User` key. */
  datatype UserData = NullData | UserObject(fields: User, envelope: Option<User>)

  /** `getCurrentUser`'s unwrapping: `data.User` when the body has it, else
      the body itself. */
  function UnwrapUser(data: UserData): (u: Option<User>)
    ensures u.None? <==> data.NullData?
    ensures data.UserObject? && data.envelope.Some? ==> u == data.envelope
  {
    match data
    case NullData => None
    case UserObject(fields, envelope) => if envelope.Some? then envelope else Some(fields)
  }

  /** The same user comes out whether the service sends it bare or wrapped. */
  lemma UnwrapEitherShape(u: User, other: User)
    ensures UnwrapUser(UserObject(u, None)) == Some(u)
    ensures UnwrapUser(UserObject(other, Some(u))) == Some(u)
  {
  }

  // ---------------------------------------------------------------------------
  // The interceptors of createApiInstance
  // ---------------------------------------------------------------------------

  /** An outgoing request's config. */
  class Request {
    var headers: map<string, string>
    /** `_retry`: set once the request has been through a refresh. */
    var retry: bool

    constructor (headers: map<string, string>)
      ensures this.headers == headers && !retry
    {
      this.headers := headers;
      retry := false;
    }
  }

  /** Headers after the request interceptor, given the stored access token. */
  function WithBearer(headers: map<string, string>, token: Option<string>): (h: map<string, string>)
    ensures Present(token) ==> AuthorizationHeader in h && h[AuthorizationHeader] == Bearer(token.value)
    ensures !Present(token) ==> Lookup(h, AuthorizationHeader) == Lookup(headers, AuthorizationHeader)
    ensures forall k :: k in CorsHeaders ==> k in h && h[k] == CorsHeaders[k]
    ensures forall k :: k != AuthorizationHeader && k !in CorsHeaders ==> Lookup(h, k) == Lookup(headers, k)
  {
    (if Present(token) then headers[AuthorizationHeader := Bearer(token.value)] else headers) + CorsHeaders
  }

  /** The request interceptor. */
  method AttachBearer(store: Storage, req: Request)
    modifies req
    ensures req.headers == WithBearer(old(req.headers), StoredToken(store.items))
    ensures req.retry == old(req.retry)
  {
    var token := store.GetItem(AccessTokenKey);
    if Present(token) {
      req.headers := req.headers[AuthorizationHeader := Bearer(token.value)];
    }
    req.headers := req.headers + CorsHeaders;
  }

  predicate IsUnauthorized(reply: Fetch<string>) {
    reply.Thrown? && reply.error.status == Some(Unauthorized)
  }

  /** One request through the client: its final reply, the storage and the
      request config afterwards, how many times it was sent, how many
      refreshes it caused and with which refresh token, and whether it sent
      the browser to the login page. */
  datatype Exchange = Exchange(
    reply: Fetch<string>,
    items: map<string, string>,
    headers: map<string, string>,
    retry: bool,
    sends: nat,
    refreshes: nat,
    refreshedWith: Option<string>,
    toLogin: bool)

  /** What sending a request through an instance does. The request
      interceptor attaches the stored token; a 401 on a request whose
      `_retry` is unset marks it, refreshes with the stored refresh token,
      stores the new pair and replays the request through the instance once;
      a failed refresh clears the session; every other rejection is passed
      on as it is. The refresh service answers for the refresh token it is
      sent. */
  function DispatchSpec(
    items: map<string, string>, headers: map<string, string>, retry: bool,
    server: map<string, string> -> Fetch<string>, refresh: string -> Fetch<AuthResponse>): (x: Exchange)
    ensures 1 <= x.sends <= 2 && x.refreshes <= 1
    ensures x.sends == 2 ==> x.refreshes == 1
    ensures x.refreshes == 1 <==> x.refreshedWith.Some?
    ensures x.refreshedWith.Some? ==> x.refreshedWith == Lookup(items, RefreshTokenKey) && Present(x.refreshedWith)
    ensures retry ==> x.sends == 1 && x.refreshes == 0 && x.items == items && !x.toLogin
    decreases if retry then 0 else 1
  {
    var sent := WithBearer(headers, StoredToken(items));
    var reply := server(sent);
    if IsUnauthorized(reply) && !retry then
      var refreshToken := Lookup(items, RefreshTokenKey);
      if Present(refreshToken) then
        match refresh(refreshToken.value)
        case Ok(auth) =>
          var renewed := items[AccessTokenKey := auth.accessToken][RefreshTokenKey := auth.refreshToken];
          var replay := DispatchSpec(renewed, sent[AuthorizationHeader := Bearer(auth.accessToken)], true, server, refresh);
          replay.(sends := replay.sends + 1, refreshes := replay.refreshes + 1, refreshedWith := refreshToken)
        case Thrown(_) => Exchange(reply, WithoutAuthData(items), sent, true, 1, 1, refreshToken, true)
      else Exchange(reply, items, sent, true, 1, 0, None, false)
    else Exchange(reply, items, sent, retry, 1, 0, None, false)
  }

  /** The headers a request is first sent with. */
  function FirstHeaders(items: map<string, string>, headers: map<string, string>): map<string, string> {
    WithBearer(headers, StoredToken(items))
  }

  /** A rejection other than 401 reaches the caller unchanged, after one
      send, with storage untouched. */
  lemma OtherErrorsPassThrough(
    items: map<string, string>, headers: map<string, string>, retry: bool,
    server: map<string, string> -> Fetch<string>, refresh: string -> Fetch<AuthResponse>)
    requires !IsUnauthorized(server(FirstHeaders(items, headers)))
    ensures var x := DispatchSpec(items, headers, retry, server, refresh);
            x.reply == server(FirstHeaders(items, headers)) && x.items == items && x.sends == 1 && x.refreshes == 0
  {
  }

  /** A 401 with no stored refresh token is rejected as it is: no refresh,
      no replay, storage unchanged. */
  lemma NoRefreshTokenNoRefresh(
    items: map<string, string>, headers: map<string, string>,
    server: map<string, string> -> Fetch<string>, refresh: string -> Fetch<AuthResponse>)
    requires IsUnauthorized(server(FirstHeaders(items, headers)))
    requires !Present(Lookup(items, RefreshTokenKey))
    ensures var x := DispatchSpec(items, headers, false, server, refresh);
            x.reply == server(FirstHeaders(items, headers)) && x.items == items
            && x.sends == 1 && x.refreshes == 0 && x.refreshedWith.None? && x.retry && !x.toLogin
  {
  }

  /** A failed refresh removes all three session keys, leaves every other
      key alone, and rejects with the original 401. */
  lemma FailedRefreshClearsSession(
    items: map<string, string>, headers: map<string, string>,
    server: map<string, string> -> Fetch<string>, refresh: string -> Fetch<AuthResponse>)
    requires IsUnauthorized(server(FirstHeaders(items, headers)))
    requires Present(Lookup(items, RefreshTokenKey))
    requires refresh(Lookup(items, RefreshTokenKey).value).Thrown?
    ensures var x := DispatchSpec(items, headers, false, server, refresh);
            && x.reply == server(FirstHeaders(items, headers))
            && x.refreshedWith == Lookup(items, RefreshTokenKey)
            && StoredToken(x.items) == None && Lookup(x.items, RefreshTokenKey) == None && Lookup(x.items, UserKey) == None
            && (forall k :: k !in SessionKeys ==> Lookup(x.items, k) == Lookup(items, k))
            && x.toLogin && x.sends == 1
  {
  }

  /** A successful refresh stores the new pair and replays the request once,
      with the new access token as its bearer; the replay's reply, whatever
      it is, is the final one. */
  lemma RefreshReplaysOnce(
    items: map<string, string>, headers: map<string, string>,
    server: map<string, string> -> Fetch<string>, refresh: string -> Fetch<AuthResponse>)
    requires IsUnauthorized(server(FirstHeaders(items, headers)))
    requires Present(Lookup(items, RefreshTokenKey))
    requires refresh(Lookup(items, RefreshTokenKey).value).Ok?
    ensures var x := DispatchSpec(items, headers, false, server, refresh);
            var auth := refresh(Lookup(items, RefreshTokenKey).value).value;
            && x.sends == 2 && x.refreshes == 1 && !x.toLogin
            && x.refreshedWith == Lookup(items, RefreshTokenKey)
            && StoredToken(x.items) == Some(auth.accessToken)
            && Lookup(x.items, RefreshTokenKey) == Some(auth.refreshToken)
            && Lookup(x.items, UserKey) == Lookup(items, UserKey)
            && x.headers[AuthorizationHeader] == Bearer(auth.accessToken)
            && x.reply == server(x.headers)
  {
    var auth := refresh(Lookup(items, RefreshTokenKey).value).value;
    var sent := FirstHeaders(items, headers);
    var renewed := items[AccessTokenKey := auth.accessToken][RefreshTokenKey := auth.refreshToken];
    var again := sent[AuthorizationHeader := Bearer(auth.accessToken)];
    var replayed := WithBearer(again, StoredToken(renewed));
    assert StoredToken(renewed) == Some(auth.accessToken);
    assert replayed[AuthorizationHeader] == Bearer(auth.accessToken);
  }

  /** Sending a request through an instance (`instance(config)`), with both
      interceptors. */
  method Dispatch(store: Storage, req: Request, server: map<string, string> -> Fetch<string>, refresh: string -> Fetch<AuthResponse>)
    returns (reply: Fetch<string>, sends: nat, refreshes: nat, refreshedWith: Option<string>, toLogin: bool)
    modifies store, req
    decreases if req.retry then 0 else 1
    ensures var x := DispatchSpec(old(store.items), old(req.headers), old(req.retry), server, refresh);
            && reply == x.reply && store.items == x.items && req.headers == x.headers && req.retry == x.retry
            && sends == x.sends && refreshes == x.refreshes && refreshedWith == x.refreshedWith && toLogin == x.toLogin
  {
    AttachBearer(store, req);
    reply := server(req.headers);
    sends, refreshes, refreshedWith, toLogin := 1, 0, None, false;
    if IsUnauthorized(reply) && !req.retry {
      req.retry := true;
      var refreshToken := store.GetItem(RefreshTokenKey);
      if Present(refreshToken) {
        refreshedWith := refreshToken;
        match refresh(refreshToken.value)
        case Ok(auth) =>
          store.SetItem(AccessTokenKey, auth.accessToken);
          store.SetItem(RefreshTokenKey, auth.refreshToken);
          req.headers := req.headers[AuthorizationHeader := Bearer(auth.accessToken)];
          var r, s, f, _, l := Dispatch(store, req, server, refresh);
          reply, sends, refreshes, toLogin := r, s + 1, f + 1, l;
        case Thrown(_) =>
          refreshes := 1;
          ClearAuthData(store);
          toLogin := true;
      }
    }
  }
}
