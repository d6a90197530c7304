/** The trip screen: it loads the user's trip and its matches, flips a
    first-load flag on the first data it sees, and offers cancel and join. */
module TripsScreen {
  import opened Common
  import opened Client

  const CancelTripsPath: string := "/trips/cancel_trips"

  /** How fetchTripsAndMatches settles: it resolves with a value, and maybe
      an earlier redirect, or it rejects with an error. */
  datatype FetchOutcome = Resolved(data: JsValue, redirect: Option<string>) | Rejected(error: ClientError)

  /** `error.response && error.response.status === 404`. */
  predicate IsNotFound(reply: ApiReply) {
    reply == ErrorResponse(404)
  }

  /** The outcome of the catch block for an error. */
  function Caught(e: ClientError): (o: FetchOutcome)
    ensures e == HttpError(404) ==> o == Resolved(Arr([]), Some(HomeRoute))
    ensures e != HttpError(404) ==> o == Rejected(e)
  {
    if e == HttpError(404) then Resolved(Arr([]), Some(HomeRoute)) else Rejected(e)
  }

  /** fetchTripsAndMatches, given how POST fetch_trip ends and how GET
      get_matches ends for each trip_id it may be asked about. */
  function FetchTripsAndMatches(tripReply: ApiReply, matchesReply: JsValue -> ApiReply): (o: FetchOutcome)
    // the matches are fetched for the trip_id of the fetch_trip reply, and returned unchanged
    ensures tripReply.Response? && Get(tripReply.data, "trip_id").Some? && matchesReply(Get(tripReply.data, "trip_id").value).Response? ==>
      o == Resolved(matchesReply(Get(tripReply.data, "trip_id").value).data, None)
    // a 404 from either call sends the user home with no matches
    ensures IsNotFound(tripReply) ==> o == Resolved(Arr([]), Some(HomeRoute))
    ensures tripReply.Response? && Get(tripReply.data, "trip_id").Some? && IsNotFound(matchesReply(Get(tripReply.data, "trip_id").value)) ==>
      o == Resolved(Arr([]), Some(HomeRoute))
    // any other failure is rethrown and nothing navigates
    ensures !tripReply.Response? && !IsNotFound(tripReply) ==> o == Rejected(ErrorOf(tripReply))
    ensures tripReply.Response? && Get(tripReply.data, "trip_id").None? ==> o == Rejected(TypeError)
    ensures o.Resolved? && o.redirect.Some? ==> o == Resolved(Arr([]), Some(HomeRoute))
  {
    match tripReply
    case Response(tripData) =>
      (match Get(tripData, "trip_id")
       case None => Caught(TypeError)
       case Some(tripId) =>
         match matchesReply(tripId)
         case Response(matches) => Resolved(matches, None)
         case _ => Caught(ErrorOf(matchesReply(tripId))))
    case _ => Caught(ErrorOf(tripReply))
  }

  /** The screen redirects home exactly when one of its two calls answered 404. */
  lemma RedirectOnlyOnNotFound(tripReply: ApiReply, matchesReply: JsValue -> ApiReply)
    ensures var o := FetchTripsAndMatches(tripReply, matchesReply);
      (o.Resolved? && o.redirect.Some?) <==>
        (IsNotFound(tripReply) ||
         (tripReply.Response? && Get(tripReply.data, "trip_id").Some? && IsNotFound(matchesReply(Get(tripReply.data, "trip_id").value))))
  {
  }

  /** The first-load flag after the data effect runs with this query state:
      while loading, or with no data, the effect returns early. */
  function FirstLoadAfter(isFirstLoad: bool, isLoading: bool, data: JsValue): (f: bool)
    ensures isLoading || !Truthy(data) ==> f == isFirstLoad
    ensures !isLoading && Truthy(data) ==> !f
  {
    if isLoading || !Truthy(data) then isFirstLoad else false
  }

  /** One render of the query: its isLoading and its data. */
  datatype QueryState = QueryState(isLoading: bool, data: JsValue)

  /** The flag after the effect has run for each state in turn. */
  function FirstLoadRun(isFirstLoad: bool, states: seq<QueryState>): bool
    decreases |states|
  {
    if states == [] then isFirstLoad
    else
      var last := states[|states| - 1];
      FirstLoadAfter(FirstLoadRun(isFirstLoad, states[..|states| - 1]), last.isLoading, last.data)
  }

  /** Starting from true, the flag is still true exactly while no state has
      had data and finished loading; once false it never becomes true. */
  lemma {:induction false} FirstLoadFlipsOnce(isFirstLoad: bool, states: seq<QueryState>)
    ensures !isFirstLoad ==> !FirstLoadRun(isFirstLoad, states)
    ensures isFirstLoad ==>
      (FirstLoadRun(isFirstLoad, states) <==> forall i :: 0 <= i < |states| ==> states[i].isLoading || !Truthy(states[i].data))
    decreases |states|
  {
    if states != [] {
      var init := states[..|states| - 1];
      FirstLoadFlipsOnce(isFirstLoad, init);
      assert forall i :: 0 <= i < |init| ==> init[i] == states[i];
    }
  }

  /** The `isFirstLoad` ref of the screen. */
  class FirstLoad {
    var isFirstLoad: bool

    constructor ()
      ensures isFirstLoad
    {
      isFirstLoad := true;
    }

    /** The effect on [isLoading, data]; the notification below the flag
        check is an empty stub and does nothing. */
    method OnQueryChange(isLoading: bool, data: JsValue)
      modifies this
      ensures isFirstLoad == FirstLoadAfter(old(isFirstLoad), isLoading, data)
    {
      if isLoading || !Truthy(data) {
        return;
      }
      if isFirstLoad {
        isFirstLoad := false;
        return;
      }
    }
  }

  /** handleCancelTrip: the cancel call, then home only when it succeeded. */
  function HandleCancelTrip(reply: ApiReply): (actions: seq<Action>)
    ensures |actions| >= 1 && actions[0] == Post(CancelTripsPath)
    ensures Navigate(HomeRoute) in actions <==> reply.Response?
    ensures forall a :: a in actions[1..] ==> a == Navigate(HomeRoute)
  {
    [Post(CancelTripsPath)] + if reply.Response? then [Navigate(HomeRoute)] else []
  }

  /** handleJoinTrip: navigation to the confirm screen and nothing else. */
  function HandleJoinTrip(): (actions: seq<Action>)
    ensures forall a :: a in actions ==> a == Navigate(ConfirmRoute)
    ensures Navigate(ConfirmRoute) in actions
  {
    [Navigate(ConfirmRoute)]
  }
}
