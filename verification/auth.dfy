/**
 * The authentication state of frontend/src/auth/Auth.tsx: the status and
 * user held by the provider, the hooks that read them, the sign-in flows
 * that load the user from the backend, the subscription check made once a
 * user is signed in, and the screen `RequireAuth` renders.
 *
 * Cognito and the backend are oracles: their answers are parameters. How
 * the backend's user record and the Cognito session become a `User`
 * (`parseUser`, which sees the session through its id token), whether a
 * profile is complete (`hasCreatedProfile`) and URI encoding
 * (`encodeURIComponent`) belong to code outside this model and are passed
 * in as functions.
 */
module Auth {
  import opened Wrappers
  import opened RequestTracker
  import CheckoutStorage

  datatype AuthStatus = Loading | Authenticated | Unauthenticated

  datatype SubscriptionStatus = Subscribed | FreeTier | OtherSubscription(name: string)

  /** The fields of a user the authentication code reads or writes. */
  datatype User = User(
    username: string,
    displayName: string,
    dojoCohort: string,
    subscriptionStatus: SubscriptionStatus)

  /** A `Partial<User>`: the fields an update sets. */
  datatype UserUpdate = UserUpdate(
    username: Option<string>,
    displayName: Option<string>,
    dojoCohort: Option<string>,
    subscriptionStatus: Option<SubscriptionStatus>)

  const NoChange: UserUpdate := UserUpdate(None, None, None, None)

  /** An update that only sets the subscription status. */
  function SetSubscription(s: SubscriptionStatus): UserUpdate {
    UserUpdate(None, None, None, Some(s))
  }

  /** The provider's state. */
  datatype AuthState = AuthState(user: Option<User>, status: AuthStatus)

  const Initial: AuthState := AuthState(None, AuthStatus.Loading)

  /** `{ ...user, ...update }`: each field the update sets replaces the user's, the rest stay. */
  function Spread(u: User, update: UserUpdate): (r: User)
    ensures r.username == update.username.GetOr(u.username)
    ensures r.displayName == update.displayName.GetOr(u.displayName)
    ensures r.dojoCohort == update.dojoCohort.GetOr(u.dojoCohort)
    ensures r.subscriptionStatus == update.subscriptionStatus.GetOr(u.subscriptionStatus)
  {
    u.(username := update.username.GetOr(u.username),
       displayName := update.displayName.GetOr(u.displayName),
       dojoCohort := update.dojoCohort.GetOr(u.dojoCohort),
       subscriptionStatus := update.subscriptionStatus.GetOr(u.subscriptionStatus))
  }

  /** `updateUser`: applies the update to the signed-in user; does nothing when there is none. */
  function UpdateUser(st: AuthState, update: UserUpdate): (st': AuthState)
    ensures st'.status == st.status
    ensures st.user.None? ==> st' == st
    ensures st.user.Some? ==> st'.user == Some(Spread(st.user.value, update))
  {
    match st.user
    case None => st
    case Some(u) => st.(user := Some(Spread(u, update)))
  }

  /** Applying the same update twice is applying it once, and the empty update changes nothing. */
  lemma UpdateUserIdempotent(st: AuthState, update: UserUpdate)
    ensures UpdateUser(UpdateUser(st, update), update) == UpdateUser(st, update)
    ensures UpdateUser(st, NoChange) == st
  {
  }

  const RequiredAuthError: string :=
    "useRequiredAuth should only be called in components that the user is required to be logged in to view."

  /** `useRequiredAuth`: the user, or the error it throws when not signed in. */
  function UseRequiredAuth(st: AuthState): (r: Result<User, string>)
    ensures r.Success? <==> st.user.Some? && st.status == Authenticated
    ensures r.Success? ==> r.value == st.user.value
    ensures r.Failure? ==> r.error == RequiredAuthError
  {
    if st.user.Some? && st.status == Authenticated then Success(st.user.value)
    else Failure(RequiredAuthError)
  }

  /** `useFreeTier`: anyone not known to be subscribed, including nobody signed in. */
  function UseFreeTier(st: AuthState): (free: bool)
    ensures !free <==> st.user.Some? && st.user.value.subscriptionStatus == Subscribed
  {
    !(st.user.Some? && st.user.value.subscriptionStatus == Subscribed)
  }

  /** The backend call made for a signed-in Cognito user. */
  datatype BackendCall =
    | SyncPurchases(idToken: string, checkoutSessionIds: map<string, string>)
    | GetUser(idToken: string)

  /** The id token sent, '' when the session carries none. */
  function IdToken(token: Option<string>): string {
    token.GetOr("")
  }

  /** Which call `handleCognitoResponse` makes: purchases are synced when checkout ids are stored. */
  function CognitoCall(storage: CheckoutStorage.Slot, token: Option<string>): (c: BackendCall)
    ensures c.SyncPurchases? <==> |CheckoutStorage.GetAll(storage)| > 0
    ensures c.SyncPurchases? ==> c.checkoutSessionIds == CheckoutStorage.GetAll(storage)
    ensures c.idToken == IdToken(token)
  {
    var ids := CheckoutStorage.GetAll(storage);
    if |ids| > 0 then SyncPurchases(IdToken(token), ids) else GetUser(IdToken(token))
  }

  /**
   * `handleCognitoResponse`: calls the backend, clears stored checkout ids
   * once they are synced, and signs in the user parsed from the backend's
   * record and the session. A failing call throws before anything changes.
   */
  function HandleCognitoResponse<D>(st: AuthState, storage: CheckoutStorage.Slot, token: Option<string>,
                                    backend: BackendCall -> Result<D, string>, parseUser: (D, Option<string>) -> User)
    : (r: Result<(AuthState, CheckoutStorage.Slot), string>)
    ensures var call := CognitoCall(storage, token);
            && (r.Failure? <==> backend(call).Failure?)
            && (r.Failure? ==> r.error == backend(call).error)
            && (r.Success? ==> r.value.0 == AuthState(Some(parseUser(backend(call).value, token)), Authenticated))
            && (r.Success? && call.SyncPurchases? ==> r.value.1 == CheckoutStorage.Clear(storage))
            && (r.Success? && call.GetUser? ==> r.value.1 == storage)
  {
    var call := CognitoCall(storage, token);
    match backend(call)
    case Failure(e) => Failure(e)
    case Success(data) =>
      var storage' := if call.SyncPurchases? then CheckoutStorage.Clear(storage) else storage;
      Success((AuthState(Some(parseUser(data, token)), Authenticated), storage'))
  }

  /**
   * `getCurrentUser`: reads the Cognito session and hands it on; any
   * failure on the way leaves the user as it was and the status
   * Unauthenticated. The session answer is the id token it carries.
   */
  function GetCurrentUser<D>(st: AuthState, storage: CheckoutStorage.Slot, session: Result<Option<string>, string>,
                             backend: BackendCall -> Result<D, string>, parseUser: (D, Option<string>) -> User)
    : (r: (AuthState, CheckoutStorage.Slot))
    ensures r.0.status != AuthStatus.Loading
    ensures r.0.status == Authenticated <==>
              session.Success? && backend(CognitoCall(storage, session.value)).Success?
    ensures r.0.status == Unauthenticated ==> r == (st.(status := Unauthenticated), storage)
  {
    match session
    case Failure(_) => (st.(status := Unauthenticated), storage)
    case Success(token) =>
      match HandleCognitoResponse(st, storage, token, backend, parseUser)
      case Failure(_) => (st.(status := Unauthenticated), storage)
      case Success(next) => next
  }

  /**
   * `signin`: signs in with Cognito, then loads the user as `getCurrentUser`
   * does; resolves on success and rejects with the error otherwise.
   */
  function Signin<D>(st: AuthState, storage: CheckoutStorage.Slot, signIn: Result<(), string>,
                     session: Result<Option<string>, string>,
                     backend: BackendCall -> Result<D, string>, parseUser: (D, Option<string>) -> User)
    : (r: (AuthState, CheckoutStorage.Slot, Result<(), string>))
    ensures r.2.Success? <==> r.0.status == Authenticated
    ensures r.0.status != AuthStatus.Loading
    ensures signIn.Failure? ==> r == (st.(status := Unauthenticated), storage, Failure(signIn.error))
    ensures signIn.Success? ==> (r.0, r.1) == GetCurrentUser(st, storage, session, backend, parseUser)
  {
    if signIn.Failure? then (st.(status := Unauthenticated), storage, Failure(signIn.error))
    else match session
      case Failure(e) => (st.(status := Unauthenticated), storage, Failure(e))
      case Success(token) =>
        match HandleCognitoResponse(st, storage, token, backend, parseUser)
        case Failure(e) => (st.(status := Unauthenticated), storage, Failure(e))
        case Success(next) => (next.0, next.1, Success(()))
  }

  /** `signout`: forgets the user when Cognito signs out; a failed sign-out changes nothing. */
  function Signout(st: AuthState, signedOut: bool): (st': AuthState)
    ensures signedOut ==> st' == AuthState(None, Unauthenticated)
    ensures !signedOut ==> st' == st
  {
    if signedOut then AuthState(None, Unauthenticated) else st
  }

  /** After a sign-out the required-auth hook fails and the user counts as free tier. */
  lemma SignedOutIsAnonymous(st: AuthState)
    ensures UseRequiredAuth(Signout(st, true)).Failure?
    ensures UseFreeTier(Signout(st, true))
  {
  }

  /** How `checkUserAccess` settles: success, or an error with an optional HTTP status. */
  datatype AccessResponse = AccessGranted | AccessError(httpStatus: Option<int>, message: string)

  /**
   * One run of the access-check effect in `RequireAuth`. It calls
   * `checkUserAccess` only for an authenticated user whose request was not
   * sent; success marks the user subscribed, a 403 marks them free tier,
   * and any other error leaves the user as it was.
   */
  function AccessEffect(st: AuthState, req: Request, response: AccessResponse): (r: (AuthState, Request, bool))
    ensures var (st', req', called) := r;
            && (called <==> st.status == Authenticated && !IsSent(req))
            && (!called ==> st' == st && req' == req)
            && (called ==> IsSent(req') && !IsLoading(req') && st'.status == st.status)
            && (called && response.AccessGranted? ==>
                  req'.status == Succeeded && st' == UpdateUser(st, SetSubscription(Subscribed)))
            && (called && response.AccessError? ==> req'.status == Failed(response.message))
            && (called && response.AccessError? && response.httpStatus == Some(403) ==>
                  st' == UpdateUser(st, SetSubscription(FreeTier)))
            && (called && response.AccessError? && response.httpStatus != Some(403) ==> st' == st)
  {
    if st.status != Authenticated || IsSent(req) then (st, req, false)
    else
      var started := OnStart(req);
      match response
      case AccessGranted => (UpdateUser(st, SetSubscription(Subscribed)), OnSuccess(started), true)
      case AccessError(code, msg) =>
        var st' := if code == Some(403) then UpdateUser(st, SetSubscription(FreeTier)) else st;
        (st', OnFailure(started, msg), true)
  }

  /** Re-running the effect once per render; returns the final state and the number of access checks. */
  function RunAccessEffects(st: AuthState, req: Request, responses: seq<AccessResponse>): (AuthState, Request, nat)
    decreases |responses|
  {
    if |responses| == 0 then (st, req, 0)
    else
      var (st', req', called) := AccessEffect(st, req, responses[0]);
      var (st'', req'', n) := RunAccessEffects(st', req', responses[1..]);
      (st'', req'', n + (if called then 1 else 0))
  }

  lemma {:induction false} NoAccessCheckOnceSent(st: AuthState, req: Request, responses: seq<AccessResponse>)
    requires IsSent(req)
    ensures RunAccessEffects(st, req, responses) == (st, req, 0)
    decreases |responses|
  {
    if |responses| > 0 {
      NoAccessCheckOnceSent(st, req, responses[1..]);
    }
  }

  /** However often `RequireAuth` renders, the access check is made at most once. */
  lemma AccessCheckedAtMostOnce(st: AuthState, req: Request, responses: seq<AccessResponse>)
    ensures RunAccessEffects(st, req, responses).2 <= 1
  {
    if |responses| > 0 {
      var (st', req', called) := AccessEffect(st, req, responses[0]);
      if called {
        NoAccessCheckOnceSent(st', req', responses[1..]);
      } else {
        AccessCheckedAtMostOnce(st', req', responses[1..]);
      }
    }
  }

  /** What `RequireAuth` renders. */
  datatype Screen = LoadingScreen | Redirect(to: string) | ProfileCreator | Outlet

  /**
   * `RequireAuth`: a loading page while the status is unknown, a redirect
   * to the landing page (carrying the current path and query) when nobody
   * is signed in, the profile creator until the profile is complete, and
   * the protected route otherwise.
   */
  function RequireAuth(st: AuthState, pathname: string, search: string,
                       encodeUriComponent: string -> string, hasCreatedProfile: User -> bool): (s: Screen)
    ensures s.LoadingScreen? <==> st.status == AuthStatus.Loading
    ensures s.Redirect? <==> st.status != AuthStatus.Loading && (st.status == Unauthenticated || st.user.None?)
    ensures s.Redirect? ==> s.to == "/?redirectUri=" + encodeUriComponent(pathname + search)
    ensures s.ProfileCreator? <==>
              st.status == Authenticated && st.user.Some? && !hasCreatedProfile(st.user.value)
    ensures s.Outlet? <==>
              st.status == Authenticated && st.user.Some? && hasCreatedProfile(st.user.value)
  {
    match st.status
    case Loading => LoadingScreen
    case Unauthenticated => Redirect("/?redirectUri=" + encodeUriComponent(pathname + search))
    case Authenticated =>
      if st.user.None? then Redirect("/?redirectUri=" + encodeUriComponent(pathname + search))
      else if !hasCreatedProfile(st.user.value) then ProfileCreator
      else Outlet
  }

  /** A protected route only renders when `useRequiredAuth` would succeed inside it. */
  lemma OutletHasRequiredAuth(st: AuthState, pathname: string, search: string,
                              encodeUriComponent: string -> string, hasCreatedProfile: User -> bool)
    requires RequireAuth(st, pathname, search, encodeUriComponent, hasCreatedProfile).Outlet?
    ensures UseRequiredAuth(st).Success?
  {
  }

  /** A granted check lifts a signed-in user out of the free tier; a 403 puts them in it. */
  lemma AccessCheckDecidesFreeTier(st: AuthState, req: Request, response: AccessResponse)
    requires st.status == Authenticated && st.user.Some? && !IsSent(req)
    ensures response.AccessGranted? ==> !UseFreeTier(AccessEffect(st, req, response).0)
    ensures response.AccessError? && response.httpStatus == Some(403) ==> UseFreeTier(AccessEffect(st, req, response).0)
  {
  }
}
