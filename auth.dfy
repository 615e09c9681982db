/** The session hook (src/hooks/useAuth.ts): the start-up check of a stored
    session, login, registration and logout, over the persisted session of
    the `Api` module. Each service call is one supplied outcome; the
    refresh-on-401 behaviour underneath those calls is the `Api` module's. */
module Auth {
  import opened Common
  import opened Types
  import opened Api

  const LoginFallback := "Ошибка входа"
  const RegisterFallback := "Ошибка регистрации"

  /** The message login and registration show for a rejected call: the
      first present of the body's `detail`, the body's `message`, the
      error's own `message`, and a fixed fallback. */
  function ErrorMessage(e: ApiError, fallback: string): (m: string)
    ensures Present(e.detail) ==> m == e.detail.value
    ensures !Present(e.detail) && Present(e.dataMessage) ==> m == e.dataMessage.value
    ensures !Present(e.detail) && !Present(e.dataMessage) && Present(e.message) ==> m == e.message.value
    ensures !Present(e.detail) && !Present(e.dataMessage) && !Present(e.message) ==> m == fallback
  {
    OrElse(e.detail, OrElse(e.dataMessage, OrElse(e.message, fallback)))
  }

  /** With a non-empty fallback the page never shows an empty message. */
  lemma ErrorMessageNeverEmpty(e: ApiError, fallback: string)
    requires fallback != ""
    ensures ErrorMessage(e, fallback) != ""
  {
  }

  /** The start-up check verifies the session only when both a user object
      and a truthy access token are stored. */
  predicate ShouldVerify(items: map<string, string>, codec: UserCodec) {
    var stored := StoredUser(items, codec);
    stored.Decoded? && stored.value.Some? && Present(StoredToken(items))
  }

  /** Storage after a login whose user call answered `user`. */
  function LoggedInItems(items: map<string, string>, auth: AuthResponse, user: Option<User>, codec: UserCodec): map<string, string> {
    items[AccessTokenKey := auth.accessToken][RefreshTokenKey := auth.refreshToken][UserKey := codec.encode(user)]
  }

  /** After a login that received a user object and a non-empty access
      token, the next start-up check verifies the stored session; when the
      user call answered null, or the token is empty, it does not. */
  lemma LoginThenReloadVerifies(items: map<string, string>, auth: AuthResponse, user: Option<User>, codec: UserCodec)
    requires Faithful(codec)
    ensures ShouldVerify(LoggedInItems(items, auth, user, codec), codec) <==> user.Some? && auth.accessToken != ""
  {
    var after := LoggedInItems(items, auth, user, codec);
    assert after[UserKey] == codec.encode(user);
    assert StoredUser(after, codec) == Decoded(user);
  }

  /** Nothing is verified after a logout: the start-up check finds no session. */
  lemma NoVerifyAfterClear(items: map<string, string>, codec: UserCodec)
    ensures !ShouldVerify(WithoutAuthData(items), codec)
  {
  }

  /** The hook's state, over localStorage. */
  class AuthHook {
    const store: Storage
    const codec: UserCodec
    var user: Option<User>
    var isAuthenticated: bool
    var isLoading: bool
    var error: Option<string>

    constructor (store: Storage, codec: UserCodec)
      ensures this.store == store && this.codec == codec
      ensures user.None? && !isAuthenticated && isLoading && error.None?
    {
      this.store := store;
      this.codec := codec;
      user := None;
      isAuthenticated := false;
      isLoading := true;
      error := None;
    }

    /** `checkAuth`, run once on mount. A stored user string that does not
        parse is a failure like a rejected verification: both clear the
        stored session. */
    method CheckAuth(verify: Fetch<UserData>) returns (verifyCalls: nat)
      modifies this, store
      ensures !isLoading && error == old(error)
      ensures verifyCalls == (if ShouldVerify(old(store.items), codec) then 1 else 0)
      ensures StoredUser(old(store.items), codec).Malformed? ==>
                store.items == WithoutAuthData(old(store.items)) && user == old(user) && isAuthenticated == old(isAuthenticated)
      ensures StoredUser(old(store.items), codec).Decoded? && !ShouldVerify(old(store.items), codec) ==>
                store.items == old(store.items) && user == old(user) && isAuthenticated == old(isAuthenticated)
      ensures ShouldVerify(old(store.items), codec) && verify.Ok? ==>
                store.items == old(store.items) && user == UnwrapUser(verify.value) && isAuthenticated
      ensures ShouldVerify(old(store.items), codec) && verify.Thrown? ==>
                store.items == WithoutAuthData(old(store.items)) && user == old(user) && isAuthenticated == old(isAuthenticated)
    {
      verifyCalls := 0;
      var storedUser := GetStoredUser(store, codec);
      if storedUser.Malformed? {
        ClearAuthData(store);
        isLoading := false;
        return;
      }
      var token := GetStoredToken(store);
      if storedUser.value.Some? && Present(token) {
        verifyCalls := 1;
        match verify {
          case Ok(data) =>
            user := UnwrapUser(data);
            isAuthenticated := true;
          case Thrown(_) =>
            ClearAuthData(store);
        }
      }
      isLoading := false;
    }

    /** `login`: store the token pair, fetch the user with it, store the
        user, then mark the session authenticated. `failure` is the error
        the call rethrows; `tokenAtUserFetch` is the access token stored
        when the user call was made. */
    method Login(login: Fetch<AuthResponse>, fetchUser: Fetch<UserData>)
      returns (failure: Option<ApiError>, tokenAtUserFetch: Option<string>)
      modifies this, store
      ensures !isLoading
      ensures login.Thrown? ==>
                && failure == Some(login.error) && error == Some(ErrorMessage(login.error, LoginFallback))
                && tokenAtUserFetch.None? && store.items == old(store.items)
                && user == old(user) && isAuthenticated == old(isAuthenticated)
      ensures login.Ok? ==> tokenAtUserFetch == Some(login.value.accessToken)
      ensures login.Ok? && fetchUser.Thrown? ==>
                && failure == Some(fetchUser.error) && error == Some(ErrorMessage(fetchUser.error, LoginFallback))
                && store.items == old(store.items)[AccessTokenKey := login.value.accessToken][RefreshTokenKey := login.value.refreshToken]
                && user == old(user) && isAuthenticated == old(isAuthenticated)
      ensures login.Ok? && fetchUser.Ok? ==>
                && failure.None? && error.None?
                && store.items == LoggedInItems(old(store.items), login.value, UnwrapUser(fetchUser.value), codec)
                && user == UnwrapUser(fetchUser.value) && isAuthenticated
    {
      failure, tokenAtUserFetch := None, None;
      isLoading := true;
      error := None;
      match login {
        case Thrown(e) =>
          error := Some(ErrorMessage(e, LoginFallback));
          failure := Some(e);
        case Ok(auth) =>
          store.SetItem(AccessTokenKey, auth.accessToken);
          store.SetItem(RefreshTokenKey, auth.refreshToken);
          tokenAtUserFetch := GetStoredToken(store);
          match fetchUser {
            case Thrown(e) =>
              error := Some(ErrorMessage(e, LoginFallback));
              failure := Some(e);
            case Ok(data) =>
              var current := UnwrapUser(data);
              store.SetItem(UserKey, codec.encode(current));
              user := current;
              isAuthenticated := true;
          }
      }
      isLoading := false;
    }

    /** `register`. */
    method Register(reply: Fetch<()>) returns (failure: Option<ApiError>)
      modifies this
      ensures !isLoading && user == old(user) && isAuthenticated == old(isAuthenticated)
      ensures reply.Ok? ==> failure.None? && error.None?
      ensures reply.Thrown? ==> failure == Some(reply.error) && error == Some(ErrorMessage(reply.error, RegisterFallback))
    {
      failure := None;
      isLoading := true;
      error := None;
      if reply.Thrown? {
        error := Some(ErrorMessage(reply.error, RegisterFallback));
        failure := Some(reply.error);
      }
      isLoading := false;
    }

    /** `logout`: tell the server only when a refresh token is stored, and
        send it that token; clear the local session whatever the server
        answers. `sent` is the token of the server call, None when none was
        made. */
    method Logout(reply: Fetch<()>) returns (sent: Option<string>)
      modifies this, store
      ensures sent == (if Present(Lookup(old(store.items), RefreshTokenKey)) then Lookup(old(store.items), RefreshTokenKey) else None)
      ensures store.items == WithoutAuthData(old(store.items)) && user.None? && !isAuthenticated
      ensures isLoading == old(isLoading) && error == old(error)
    {
      sent := None;
      var refreshToken := store.GetItem(RefreshTokenKey);
      if Present(refreshToken) {
        sent := refreshToken;
      }
      ClearAuthData(store);
      user := None;
      isAuthenticated := false;
    }

    /** `clearError`. */
    method ClearError()
      modifies this`error
      ensures error.None?
    {
      error := None;
    }
  }
}
