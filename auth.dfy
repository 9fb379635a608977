/**
 * The auth store (app/composables/useAuth.ts). Each operation is one atomic
 * step whose API call has already ended with the given `Outcome`; the router
 * is the list of paths pushed to it. Every method is tied to a pure
 * transition on `Session`, and the promises of the source are lemmas about
 * those transitions.
 */
module Auth {
  import opened Wrappers
  import opened Api
  import opened Entities
  import AuthMiddleware

  datatype LoginResponse = LoginResponse(success: bool, message: string, token: string, admin: Admin)

  /** The body of `/auth/me`. */
  datatype MeResponse = MeResponse(success: bool, admin: Admin)

  /** `{ success: true }` or `{ success: false, message }`. */
  datatype LoginResult = LoginResult(success: bool, message: Option<string>)

  const LoginFailed := "Login failed"

  /** Everything the auth operations read or write, the token slot included. */
  datatype Session = Session(
    isClient: bool,
    stored: Option<string>,
    currentAdmin: Option<Admin>,
    isLoading: bool,
    error: Option<string>,
    navigations: seq<string>)

  /**
   * `!!getToken()` evaluated now: a non-empty token is stored and we are on
   * the client, whatever the token's validity. This fresh reading is what the
   * route middleware sees, since it calls `useAuth()` on every navigation; the
   * cached reading one caller of `useAuth()` keeps is `ReadCachedAuthenticated`.
   */
  function IsAuthenticated(s: Session): (signedIn: bool)
    ensures signedIn <==> s.isClient && s.stored.Some? && s.stored.value != ""
  {
    Truthy(ReadToken(s.isClient, s.stored))
  }

  function Navigate(s: Session, path: string): Session {
    s.(navigations := s.navigations + [path])
  }

  /** The message `login` reports when it does not succeed. */
  function FailureMessage(outcome: Outcome<LoginResponse>): (message: string)
    ensures outcome.Returned? ==> message == outcome.value.message
    ensures outcome.ThrewError? ==> message == outcome.message
    ensures outcome.ThrewNonError? ==> message == LoginFailed
  {
    match outcome
    case Returned(response) => response.message
    case ThrewError(message) => message
    case ThrewNonError => LoginFailed
  }

  predicate LoginSucceeded(outcome: Outcome<LoginResponse>) {
    outcome.Returned? && outcome.value.success
  }

  /** `login`: loading and a cleared error while waiting, then the outcome's effects, then not loading. */
  function LoginState(s: Session, outcome: Outcome<LoginResponse>): (t: Session)
    ensures t.isClient == s.isClient && !t.isLoading
    ensures t.navigations == s.navigations || t.navigations == s.navigations + [AuthMiddleware.DashboardPath]
    ensures t.stored == s.stored || (outcome.Returned? && t.stored == StoreToken(s.isClient, s.stored, outcome.value.token))
  {
    var waiting := s.(isLoading := true, error := None);
    var settled :=
      if LoginSucceeded(outcome) then
        var response := outcome.value;
        Navigate(waiting.(stored := StoreToken(s.isClient, s.stored, response.token), currentAdmin := Some(response.admin)),
                 AuthMiddleware.DashboardPath)
      else waiting.(error := Some(FailureMessage(outcome)));
    settled.(isLoading := false)
  }

  function LoginResultOf(outcome: Outcome<LoginResponse>): (result: LoginResult)
    ensures result.success <==> LoginSucceeded(outcome)
    ensures result.success <==> result.message.None?
  {
    if LoginSucceeded(outcome) then LoginResult(true, None) else LoginResult(false, Some(FailureMessage(outcome)))
  }

  /** `logout`: the token removed, no admin, and a push to the login page. */
  function LogoutState(s: Session): (t: Session)
    ensures t.stored == DropToken(s.isClient, s.stored) && t.currentAdmin == None
    ensures t.isClient == s.isClient && t.isLoading == s.isLoading && t.error == s.error
  {
    Navigate(s.(stored := DropToken(s.isClient, s.stored), currentAdmin := None), AuthMiddleware.LoginPath)
  }

  /** `fetchCurrentAdmin`: a successful answer sets the admin; any throw logs out. */
  function FetchCurrentAdminState(s: Session, outcome: Outcome<MeResponse>): (t: Session)
    ensures t.isClient == s.isClient && t.isLoading == s.isLoading && t.error == s.error
    ensures t.stored == s.stored || t.stored == DropToken(s.isClient, s.stored)
    ensures outcome.Returned? ==> t.stored == s.stored && t.navigations == s.navigations
  {
    match outcome
    case Returned(response) => if response.success then s.(currentAdmin := Some(response.admin)) else s
    case _ => LogoutState(s)
  }

  /** `initAuth`: re-load the admin only for a signed-in session that has none. */
  function InitAuthState(s: Session, outcome: Outcome<MeResponse>): (t: Session)
    ensures t == s || t == FetchCurrentAdminState(s, outcome)
    ensures t.isLoading == s.isLoading && t.error == s.error
  {
    if IsAuthenticated(s) && s.currentAdmin.None? then FetchCurrentAdminState(s, outcome) else s
  }

  // ---------------------------------------------------------------------
  // `isAuthenticated` as written: a computed over a read Vue does not track

  /**
   * The cache of one caller's `isAuthenticated`. Its getter reads only
   * localStorage and `import.meta.client`, neither of which is reactive, so
   * once evaluated the computed is never evaluated again.
   */
  datatype AuthReading = Unread | Read(value: bool)

  /** Reading `isAuthenticated.value` through the cache: the answer, and the cache afterwards. */
  function ReadCachedAuthenticated(cache: AuthReading, s: Session): (r: (bool, AuthReading))
    ensures r.1.Read? && r.0 == r.1.value
    ensures cache.Read? ==> r.1 == cache
    ensures cache.Unread? ==> r.0 == IsAuthenticated(s)
  {
    match cache
    case Unread => (IsAuthenticated(s), Read(IsAuthenticated(s)))
    case Read(v) => (v, cache)
  }

  /** `initAuth` as written: gated on the caller's cached reading, then the cache afterwards. */
  function InitAuthStateAsWritten(s: Session, cache: AuthReading, outcome: Outcome<MeResponse>): (r: (Session, AuthReading))
    ensures r.1.Read?
    ensures r.0 == s || r.0 == FetchCurrentAdminState(s, outcome)
    ensures cache.Unread? ==> r.0 == InitAuthState(s, outcome)
  {
    var reading := ReadCachedAuthenticated(cache, s);
    (if reading.0 && s.currentAdmin.None? then FetchCurrentAdminState(s, outcome) else s, reading.1)
  }

  /**
   * As written, one caller's `isAuthenticated` goes stale: read after a
   * successful login it is true, and read again after `logout` has removed
   * the token it is still true.
   */
  lemma CachedReadingStaleAfterLogout(s: Session, response: LoginResponse)
    requires response.success && s.isClient && response.token != ""
    ensures var signedIn := LoginState(s, Returned(response));
      var first := ReadCachedAuthenticated(Unread, signedIn);
      var signedOut := LogoutState(signedIn);
      var second := ReadCachedAuthenticated(first.1, signedOut);
      first.0 && second.0 && !IsAuthenticated(signedOut)
  {
  }

  class AuthStore {
    const tokens: TokenStore
    var currentAdmin: Option<Admin>
    var isLoading: bool
    var error: Option<string>
    /** Paths pushed to the router, oldest first. */
    var navigations: seq<string>

    constructor(tokens: TokenStore)
      ensures this.tokens == tokens
      ensures currentAdmin == None && !isLoading && error == None && navigations == []
    {
      this.tokens := tokens;
      currentAdmin := None;
      isLoading := false;
      error := None;
      navigations := [];
    }

    function State(): Session
      reads this, tokens
    {
      Session(tokens.isClient, tokens.stored, currentAdmin, isLoading, error, navigations)
    }

    method Login(outcome: Outcome<LoginResponse>) returns (result: LoginResult)
      modifies this, tokens
      ensures State() == LoginState(old(State()), outcome)
      ensures result == LoginResultOf(outcome)
    {
      isLoading := true;
      error := None;
      match outcome {
        case Returned(response) =>
          if response.success {
            tokens.SetToken(response.token);
            currentAdmin := Some(response.admin);
            navigations := navigations + [AuthMiddleware.DashboardPath];
            result := LoginResult(true, None);
          } else {
            error := Some(response.message);
            result := LoginResult(false, Some(response.message));
          }
        case ThrewError(message) =>
          error := Some(message);
          result := LoginResult(false, Some(message));
        case ThrewNonError =>
          error := Some(LoginFailed);
          result := LoginResult(false, Some(LoginFailed));
      }
      isLoading := false;
    }

    method Logout()
      modifies this, tokens
      ensures State() == LogoutState(old(State()))
    {
      tokens.RemoveToken();
      currentAdmin := None;
      navigations := navigations + [AuthMiddleware.LoginPath];
    }

    method FetchCurrentAdmin(outcome: Outcome<MeResponse>)
      modifies this, tokens
      ensures State() == FetchCurrentAdminState(old(State()), outcome)
    {
      match outcome {
        case Returned(response) =>
          if response.success {
            currentAdmin := Some(response.admin);
          }
        case _ =>
          Logout();
      }
    }

    method InitAuth(outcome: Outcome<MeResponse>)
      modifies this, tokens
      ensures State() == InitAuthState(old(State()), outcome)
    {
      var token := tokens.GetToken();
      if Truthy(token) && currentAdmin.None? {
        FetchCurrentAdmin(outcome);
      }
    }
  }

  // ---------------------------------------------------------------------
  // What the transitions promise

  /** A successful login stores the token, sets the admin, redirects to the dashboard and reports success. */
  lemma LoginSuccessEffects(s: Session, response: LoginResponse)
    requires response.success
    ensures var t := LoginState(s, Returned(response));
      && t.stored == StoreToken(s.isClient, s.stored, response.token)
      && t.currentAdmin == Some(response.admin)
      && t.navigations == s.navigations + ["/dashboard"]
      && t.error == None && !t.isLoading
    ensures LoginResultOf(Returned(response)) == LoginResult(true, None)
  {
  }

  /**
   * The token is stored before the push to the dashboard: on the client, with a
   * non-empty token, the guard that runs on that push sees a signed-in session
   * and lets the dashboard through.
   */
  lemma LoginAdmitsDashboard(s: Session, response: LoginResponse)
    requires response.success && s.isClient && response.token != ""
    ensures IsAuthenticated(LoginState(s, Returned(response)))
    ensures AuthMiddleware.Redirect(IsAuthenticated(LoginState(s, Returned(response))), "/dashboard").None?
  {
  }

  /** A login that does not succeed records its message and touches neither the token, the admin nor the router. */
  lemma LoginFailureEffects(s: Session, outcome: Outcome<LoginResponse>)
    requires !LoginSucceeded(outcome)
    ensures var t := LoginState(s, outcome);
      && t.stored == s.stored && t.currentAdmin == s.currentAdmin && t.navigations == s.navigations
      && t.error == Some(FailureMessage(outcome)) && !t.isLoading
    ensures LoginResultOf(outcome) == LoginResult(false, Some(FailureMessage(outcome)))
    ensures outcome.ThrewError? ==> FailureMessage(outcome) == outcome.message
    ensures outcome.ThrewNonError? ==> FailureMessage(outcome) == "Login failed"
  {
  }

  /** Login always ends not loading, with no error exactly when it succeeded. */
  lemma LoginSettles(s: Session, outcome: Outcome<LoginResponse>)
    ensures !LoginState(s, outcome).isLoading
    ensures LoginState(s, outcome).error.None? <==> LoginSucceeded(outcome)
    ensures LoginResultOf(outcome).success <==> LoginSucceeded(outcome)
  {
  }

  /** After logout nobody is signed in, no admin is held, and the last push is to the login page. */
  lemma LogoutSignsOut(s: Session)
    ensures !IsAuthenticated(LogoutState(s))
    ensures LogoutState(s).currentAdmin == None
    ensures LogoutState(s).navigations == s.navigations + ["/"]
  {
  }

  /** A failed `/auth/me` call has exactly the effects of logout. */
  lemma FetchFailureIsLogout(s: Session, outcome: Outcome<MeResponse>)
    requires !outcome.Returned?
    ensures FetchCurrentAdminState(s, outcome) == LogoutState(s)
  {
  }

  /** `fetchCurrentAdmin` sets the admin only on a success answer and otherwise changes nothing unless it threw. */
  lemma FetchCurrentAdminAnswered(s: Session, response: MeResponse)
    ensures FetchCurrentAdminState(s, Returned(response)) ==
      if response.success then s.(currentAdmin := Some(response.admin)) else s
  {
  }

  /** `initAuth` does nothing unless the session is signed in without a loaded admin. */
  lemma InitAuthIdle(s: Session, outcome: Outcome<MeResponse>)
    requires !IsAuthenticated(s) || s.currentAdmin.Some?
    ensures InitAuthState(s, outcome) == s
  {
  }

  /** Signed in right after a successful login (on the client, with a non-empty token), signed out right after logout. */
  method LoginThenLogout(store: AuthStore, response: LoginResponse) returns (afterLogin: bool, afterLogout: bool)
    requires response.success && store.tokens.isClient && response.token != ""
    modifies store, store.tokens
    ensures afterLogin && !afterLogout
  {
    var result := store.Login(Returned(response));
    afterLogin := IsAuthenticated(store.State());
    store.Logout();
    afterLogout := IsAuthenticated(store.State());
  }
}
