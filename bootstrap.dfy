/** The splash screen's bootstrap: with no stored token go to sign-up;
    otherwise ask the backend whether the user already has a trip and go to
    the trip screen or the home screen. The delays are recorded, not run. */
module Bootstrap {
  import opened Common
  import opened Client

  /** The pause before a successful navigation, in milliseconds. */
  const SplashDelayMs: nat := 1000

  const TripStatusPath: string := "/trips/get_trip_status"

  /** Whether the status request is made, and where the app goes after what delay. */
  datatype BootOutcome = BootOutcome(statusRequested: bool, route: string, delayMs: nat)

  /** bootstrap, given the stored token and how the status request ends. */
  function Boot(token: Option<string>, status: ApiReply): (o: BootOutcome)
    ensures o.statusRequested <==> TokenTruthy(token)
    ensures o.route == AuthRoute <==> !TokenTruthy(token)
    ensures o.route == TripsRoute <==> TokenTruthy(token) && status == Response(Bool(true))
    ensures o.route == HomeRoute <==> TokenTruthy(token) && status != Response(Bool(true))
    ensures o.delayMs == 0 <==> TokenTruthy(token) && !status.Response?
    ensures o.delayMs != 0 ==> o.delayMs == SplashDelayMs
  {
    if !TokenTruthy(token) then BootOutcome(false, AuthRoute, SplashDelayMs)
    else match status
      case Response(data) =>
        if data == Bool(true) then BootOutcome(true, TripsRoute, SplashDelayMs)
        else BootOutcome(true, HomeRoute, SplashDelayMs)
      case _ => BootOutcome(true, HomeRoute, 0)
  }

  /** A truthy body other than `true` itself (a number, a string, a trip
      object) still leads to the home screen: the test is `=== true`. */
  lemma TruthyBodyIsNotTrue(token: string, body: JsValue)
    requires token != "" && Truthy(body) && body != Bool(true)
    ensures Boot(Some(token), Response(body)) == BootOutcome(true, HomeRoute, SplashDelayMs)
  {
  }

  /** The outcome depends only on whether a token is stored and on how the
      status request ends, and not at all on the request without a token. */
  lemma BootDependsOnPresenceOnly(t1: Option<string>, t2: Option<string>, s1: ApiReply, s2: ApiReply)
    requires TokenTruthy(t1) == TokenTruthy(t2)
    requires TokenTruthy(t1) ==> s1 == s2
    ensures Boot(t1, s1) == Boot(t2, s2)
  {
  }

  /** Right after a login stored a non-empty token, bootstrap asks for the
      trip status with that token as the bearer. */
  lemma LoggedInBootAsksWithToken(store: string, headers: map<string, string>, status: ApiReply)
    requires store != ""
    ensures Boot(Some(store), status).statusRequested
    ensures WithAuth(headers, Some(store))[AuthorizationHeader] == "Bearer " + store
  {
  }
}
