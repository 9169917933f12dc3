/**
 * The client session store (src/stores/authStore.ts): who is signed in,
 * with which token, whether a login is in flight and whether the persisted
 * session has been read back. The network reply to a login is an input;
 * the zustand middleware is reduced to the persisted snapshot and the
 * hydration callback.
 */
module Session {
  import opened Types
  import AuthHandlers

  /** What the `fetch` of POST /api/auth/login produced, as `login` sees it. */
  datatype LoginReply =
    /** `!response.ok || !result.success`; an absent message is "". */
    | Rejected(message: string)
    /** An ok, successful reply carrying a user and a token. */
    | Accepted(user: PublicUser, token: string)
    /** `fetch` or `response.json()` threw; Some(message) when the thrown value is an `Error`. */
    | Threw(error: Option<string>)

  /** The value `login` resolves to. */
  datatype LoginResult = LoginResult(success: bool, message: string)

  /**
   * How a reply reaches `login`: a failed status or an unsuccessful body is
   * rejected with its message; a successful body without data makes
   * `result.data.user` throw a TypeError whose text is `nullDataError`.
   */
  function ReplyOf(ok: bool, body: Response<AuthUser>, nullDataError: string): LoginReply {
    if !ok || !body.success then Rejected(body.message)
    else match body.data
      case None => Threw(Some(nullDataError))
      case Some(a) => Accepted(a.user, a.token)
  }

  /**
   * What `login` resolves to for a reply: a rejection passes its message on
   * ("Login failed" when it is empty), an inactive user is refused, a thrown
   * error passes its message on, and only an active user succeeds.
   */
  function LoginOutcome(reply: LoginReply): (r: LoginResult)
    ensures r.success <==> reply.Accepted? && reply.user.status == Active
    ensures r.success ==> r.message == "Login successful"
    ensures reply.Accepted? && reply.user.status == Inactive ==> r.message == "Account is inactive"
    ensures reply.Rejected? ==> r == LoginResult(false, if reply.message == "" then "Login failed" else reply.message)
    ensures reply.Threw? ==> r == LoginResult(false, reply.error.GetOr("Login failed"))
    ensures !r.success ==> r.message != "" || (reply.Threw? && reply.error == Some(""))
  {
    match reply
    case Rejected(message) => LoginResult(false, if message == "" then "Login failed" else message)
    case Accepted(returned, _) =>
      if returned.status == Inactive then LoginResult(false, "Account is inactive")
      else assert returned.status == Active; LoginResult(true, "Login successful")
    case Threw(error) => LoginResult(false, error.GetOr("Login failed"))
  }

  /** The persisted part of the store: `partialize`. */
  datatype Snapshot = Snapshot(user: Option<PublicUser>, token: Option<string>, isAuthenticated: bool)

  /** A snapshot that claims a session has a user and a token for it. */
  predicate Consistent(s: Snapshot) {
    s.isAuthenticated ==> s.user.Some? && s.token.Some?
  }

  /** What the persist middleware finds when it reads the session back. */
  datatype Hydration =
    /** Nothing stored under the key: the state stays, the callback runs. */
    | Absent
    /** A stored snapshot, merged over the state before the callback runs. */
    | Restored(snapshot: Snapshot)
    /** Reading back failed: the callback gets no state, so nothing changes. */
    | Failed

  class AuthStore {
    var user: Option<PublicUser>
    var token: Option<string>
    var isAuthenticated: bool
    var isLoading: bool
    var hasHydrated: bool

    /** Authenticated only with a user and a token. */
    ghost predicate Valid()
      reads this
    {
      isAuthenticated ==> user.Some? && token.Some?
    }

    constructor ()
      ensures Valid()
      ensures user == None && token == None && !isAuthenticated && !isLoading && !hasHydrated
    {
      user := None;
      token := None;
      isAuthenticated := false;
      isLoading := false;
      hasHydrated := false;
    }

    /** `login` up to its first `await`: a login is in flight. */
    method BeginLogin()
      modifies this
      ensures isLoading
      ensures user == old(user) && token == old(token) && isAuthenticated == old(isAuthenticated)
      ensures hasHydrated == old(hasHydrated)
    {
      isLoading := true;
    }

    /**
     * `login` after the reply: every exit clears `isLoading`. Only a
     * successful outcome signs in, with the returned user and the fixed mock
     * token whatever token the reply carried; any other outcome leaves the
     * session as it was.
     */
    method FinishLogin(reply: LoginReply) returns (result: LoginResult)
      modifies this
      ensures result == LoginOutcome(reply)
      ensures !isLoading && hasHydrated == old(hasHydrated)
      ensures result.success ==> user == Some(reply.user) && token == Some(AuthHandlers.MockToken) && isAuthenticated
      ensures !result.success ==> user == old(user) && token == old(token) && isAuthenticated == old(isAuthenticated)
      ensures old(Valid()) ==> Valid()
    {
      match reply {
        case Rejected(message) =>
          isLoading := false;
          return LoginResult(false, if message == "" then "Login failed" else message);
        case Accepted(returned, _) =>
          if returned.status == Inactive {
            isLoading := false;
            return LoginResult(false, "Account is inactive");
          }
          user := Some(returned);
          token := Some(AuthHandlers.MockToken);
          isAuthenticated := true;
          isLoading := false;
          return LoginResult(true, "Login successful");
        case Threw(error) =>
          isLoading := false;
          return LoginResult(false, error.GetOr("Login failed"));
      }
    }

    /** The whole `login` action: start, then settle on the reply. */
    method Login(reply: LoginReply) returns (result: LoginResult)
      modifies this
      ensures result == LoginOutcome(reply)
      ensures !isLoading && hasHydrated == old(hasHydrated)
      ensures result.success ==> user == Some(reply.user) && token == Some(AuthHandlers.MockToken) && isAuthenticated
      ensures !result.success ==> user == old(user) && token == old(token) && isAuthenticated == old(isAuthenticated)
      ensures old(Valid()) ==> Valid()
    {
      BeginLogin();
      result := FinishLogin(reply);
    }

    /** `logout`: the session is cleared whether or not the backend call succeeds. */
    method Logout()
      modifies this
      ensures Valid()
      ensures user == None && token == None && !isAuthenticated && !isLoading
      ensures hasHydrated == old(hasHydrated)
    {
      user := None;
      token := None;
      isAuthenticated := false;
      isLoading := false;
    }

    method SetLoading(loading: bool)
      modifies this
      ensures isLoading == loading
      ensures user == old(user) && token == old(token) && isAuthenticated == old(isAuthenticated)
      ensures hasHydrated == old(hasHydrated)
      ensures old(Valid()) ==> Valid()
    {
      isLoading := loading;
    }

    method SetHasHydrated(hydrated: bool)
      modifies this
      ensures hasHydrated == hydrated
      ensures user == old(user) && token == old(token) && isAuthenticated == old(isAuthenticated)
      ensures isLoading == old(isLoading)
      ensures old(Valid()) ==> Valid()
    {
      hasHydrated := hydrated;
    }

    /** The session has a user and a non-empty token, or is fully signed out. */
    ghost predicate Settled()
      reads this
    {
      || (user.Some? && token.Some? && token.value != "" && isAuthenticated)
      || (user == None && token == None && !isAuthenticated)
    }

    /**
     * `checkAuth`: a missing user, or a missing or empty token, clears the
     * session; otherwise the session is marked authenticated. A settled
     * session is left as it is, so a second call changes nothing.
     */
    method CheckAuth()
      modifies this
      ensures Valid() && Settled()
      ensures isLoading == old(isLoading) && hasHydrated == old(hasHydrated)
      ensures old(user).None? || old(token).None? || old(token) == Some("") ==>
        user == None && token == None && !isAuthenticated
      ensures old(user).Some? && old(token).Some? && old(token) != Some("") ==>
        user == old(user) && token == old(token) && isAuthenticated
      ensures old(Settled()) ==> user == old(user) && token == old(token) && isAuthenticated == old(isAuthenticated)
    {
      if user.None? || token.None? || token.value == "" {
        isAuthenticated := false;
        user := None;
        token := None;
        return;
      }
      isAuthenticated := true;
    }

    /** `partialize`: the loading and hydration flags are never persisted. */
    function Partialize(): (s: Snapshot)
      reads this
      ensures Valid() ==> Consistent(s)
    {
      Snapshot(user, token, isAuthenticated)
    }

    /**
     * Reading the persisted session back: a stored snapshot replaces the
     * three persisted fields, and the hydration flag is set unless reading
     * failed. `isLoading` is never touched.
     */
    method Rehydrate(outcome: Hydration)
      modifies this
      ensures isLoading == old(isLoading)
      ensures !outcome.Failed? ==> hasHydrated
      ensures outcome.Failed? ==> hasHydrated == old(hasHydrated)
      ensures outcome.Restored? ==> Partialize() == outcome.snapshot
      ensures !outcome.Restored? ==> user == old(user) && token == old(token) && isAuthenticated == old(isAuthenticated)
      ensures outcome.Restored? && Consistent(outcome.snapshot) ==> Valid()
      ensures !outcome.Restored? && old(Valid()) ==> Valid()
    {
      match outcome {
        case Absent =>
          SetHasHydrated(true);
        case Restored(snapshot) =>
          user := snapshot.user;
          token := snapshot.token;
          isAuthenticated := snapshot.isAuthenticated;
          SetHasHydrated(true);
        case Failed =>
      }
    }
  }

  /**
   * A page load: the store is created empty and the persisted snapshot is
   * read back into it, so a session saved after a login comes back
   * authenticated with the same user, and hydrated.
   */
  method Reload(saved: Snapshot) returns (store: AuthStore)
    ensures fresh(store)
    ensures store.Partialize() == saved && store.hasHydrated && !store.isLoading
    ensures Consistent(saved) ==> store.Valid()
  {
    store := new AuthStore();
    store.Rehydrate(Restored(saved));
  }

  /**
   * Through the store, the mock login endpoint's verdicts arrive intact:
   * the store succeeds exactly when the endpoint does, its 401 and 403
   * messages pass through, and the store's own inactive check never fires
   * on the endpoint's replies, because the endpoint already refuses
   * inactive accounts.
   */
  lemma StoreAgreesWithLoginEndpoint(users: seq<User>, credentials: AuthHandlers.Credentials, nullDataError: string)
    ensures var body := AuthHandlers.Login(users, credentials);
      var reply := ReplyOf(200 <= body.status < 300, body, nullDataError);
      && (LoginOutcome(reply).success <==> body.success)
      && (body.success ==> reply.Accepted? && reply.user.status == Active)
      && (body.status == 401 ==> LoginOutcome(reply) == LoginResult(false, "Invalid email or password"))
      && (body.status == 403 ==> LoginOutcome(reply) == LoginResult(false, "Account is inactive"))
  {
    var body := AuthHandlers.Login(users, credentials);
    if body.success {
      var i :| && AuthHandlers.FirstWithEmail(users, i, credentials.email)
        && users[i].password == credentials.password && users[i].status == Active
        && body.data == Some(AuthUser(ToPublic(users[i]), AuthHandlers.MockToken));
      PasswordNotCarried(users[i], users[i].password);
    }
  }
}
