/** The trips router over the trips table: posting a trip (at most one per
    user), its status, fetching and cancelling it, and get_matches. The users
    table is read as a sequence of rows; the two GEORADIUS results of each
    pipeline run and the distance function are inputs. */
module Trips {
  import opened Common
  import opened Models
  import opened GeoIndex
  import opened Hausdorff
  import opened TripMatching

  /** The body of POST /trips/post_trips, with the access token already decoded. */
  datatype TripRequest = TripRequest(
    originName: string,
    targetName: string,
    time: int,
    route: seq<LatLng>,
    accessToken: TokenDecode)

  /** The reply of post_trips: an HTTP error, the "User already has a trip"
      message, or the stored trip with the matches its pipeline found. */
  datatype PostReply =
    | Rejected(status: int, detail: string)
    | AlreadyHasTrip
    | Posted(trip: Trip, matches: seq<PairResult>)

  const AlreadyHasTripMessage: string := "User already has a trip"

  /** The user id post_trips takes from its token: 401 for an expired or
      invalid token, and for a payload whose "id" is missing or 0 (`not user_id`). */
  function PostTokenUserId(token: TokenDecode): (r: Result<int>)
    ensures r.Err? ==> r.status == 401
    ensures r.Ok? <==> token.Decoded? && token.claims.id.Some? && token.claims.id.value != 0
    ensures r.Ok? ==> r.value == token.claims.id.value
    ensures token == Expired ==> r == Err(401, "Token expired")
  {
    match token
    case Expired => Err(401, "Token expired")
    case Invalid => Err(401, "Could not validate token")
    case Decoded(claims) =>
      if claims.id.None? || claims.id.value == 0 then Err(401, "Invalid token payload")
      else Ok(claims.id.value)
  }

  /** The user post_trips acts for: the token's id (401 otherwise) naming a
      row of the users table (404 otherwise). */
  function PostingUser(users: seq<User>, token: TokenDecode): (r: Result<User>)
    ensures r.Ok? <==> PostTokenUserId(token).Ok? && UserById(users, PostTokenUserId(token).value).Some?
    ensures r.Ok? ==> r.value in users && r.value.id == PostTokenUserId(token).value
    ensures PostTokenUserId(token).Err? ==> r == Err(401, PostTokenUserId(token).detail)
    ensures PostTokenUserId(token).Ok? && r.Err? ==> r == Err(404, "User not found")
  {
    match PostTokenUserId(token)
    case Err(s, d) => Err(s, d)
    case Ok(userId) =>
      match UserById(users, userId)
      case None => Err(404, "User not found")
      case Some(user) => Ok(user)
  }

  /** The row post_trips inserts: the request's names, time and route, the
      gender of the user record, and the next id. */
  function NewTrip(id: nat, req: TripRequest, user: User): (t: Trip)
    ensures t.id == id && t.userId == user.id && t.gender == user.gender
    ensures t.originName == req.originName && t.targetName == req.targetName
    ensures t.time == req.time && t.route == req.route
  {
    Trip(id, req.originName, req.targetName, req.time, req.route, user.gender, user.id)
  }

  function NotOwnedBy(userId: int): Trip -> bool {
    (t: Trip) => t.userId != userId
  }

  /** The trips table, in insertion order, with the next primary key. */
  class TripTable {
    var trips: seq<Trip>
    var nextId: nat

    /** Ids are a primary key below nextId, and each user has at most one trip. */
    ghost predicate Valid()
      reads this
    {
      && TripIdsDistinct(trips)
      && OneTripPerUser(trips)
      && forall t :: t in trips ==> t.id < nextId
    }

    constructor ()
      ensures trips == [] && nextId == 1 && Valid()
    {
      trips := [];
      nextId := 1;
    }

    /** get_trip_status: whether the user has a trip. */
    function TripStatus(userId: int): (b: bool)
      reads this
      ensures b <==> exists i :: 0 <= i < |trips| && trips[i].userId == userId
    {
      TripOfUser(trips, userId).Some?
    }

    /** fetch_trip: the id of the user's trip, or 404. */
    function FetchTrip(userId: int): (r: Result<nat>)
      reads this
      ensures r.Err? <==> !TripStatus(userId)
      ensures r.Err? ==> r.status == 404 && r.detail == "Trip not found"
      ensures r.Ok? ==> exists i :: 0 <= i < |trips| && trips[i].userId == userId && trips[i].id == r.value
    {
      match TripOfUser(trips, userId)
      case None => Err(404, "Trip not found")
      case Some(t) => Ok(t.id)
    }

    /** With one trip per user, fetch_trip answers the id of that trip. */
    lemma FetchTripIsTheTrip(userId: int, i: nat)
      requires Valid()
      requires i < |trips| && trips[i].userId == userId
      ensures FetchTrip(userId) == Ok(trips[i].id)
    {
      var t := TripOfUser(trips, userId).value;
      var j :| 0 <= j < |trips| && trips[j] == t;
      assert TripUserOf(trips[j]) == TripUserOf(trips[i]);
    }

    /** cancel_trips: deletes every trip of the user and no other row. */
    method CancelTrips(userId: int) returns (message: string)
      requires Valid()
      modifies this
      ensures trips == Filter(old(trips), NotOwnedBy(userId))
      ensures nextId == old(nextId)
      ensures Valid()
      ensures !TripStatus(userId)
      ensures forall t :: t in old(trips) && t.userId != userId ==> t in trips
      ensures message == "Successful"
    {
      FilterDistinctOn(trips, NotOwnedBy(userId), TripIdOf);
      FilterDistinctOn(trips, NotOwnedBy(userId), TripUserOf);
      trips := Filter(trips, NotOwnedBy(userId));
      message := "Successful";
      forall i | 0 <= i < |trips| ensures trips[i].userId != userId {
        assert trips[i] in trips;
      }
    }

    /** post_trips. After the token check, the user lookup (404) comes before
        the existing-trip check, so a user with a trip is never given a second
        one. A new trip is committed before its pipeline runs: the reply is
        the trip with the pipeline's pairs, or 500 with the pipeline's error,
        and in both cases the trip stays stored. The ghost outputs are the
        candidate ids and the outcome of that pipeline run. */
    method PostTrips(
      users: seq<User>, geo: Index, req: TripRequest,
      nearbyStart: seq<string>, nearbyEnd: seq<string>, directed: Directed)
      returns (r: PostReply, ghost nearby: seq<nat>, ghost outcome: Result<seq<PairResult>>)
      requires Valid()
      modifies this, geo
      ensures Valid()
      ensures PostingUser(users, req.accessToken).Err? ==>
        && r == Rejected(PostingUser(users, req.accessToken).status, PostingUser(users, req.accessToken).detail)
        && trips == old(trips) && nextId == old(nextId) && geo.members == old(geo.members)
      ensures PostingUser(users, req.accessToken).Ok? && old(TripStatus(PostingUser(users, req.accessToken).value.id)) ==>
        && r == AlreadyHasTrip
        && trips == old(trips) && nextId == old(nextId) && geo.members == old(geo.members)
      ensures PostingUser(users, req.accessToken).Ok? && !old(TripStatus(PostingUser(users, req.accessToken).value.id)) ==>
        var trip := NewTrip(old(nextId), req, PostingUser(users, req.accessToken).value);
        && trips == old(trips) + [trip]
        && nextId == old(nextId) + 1
        && geo.members == IndexedAfter(old(geo.members), trip.id, req.route)
        && PipelineOutcome(trips, trip.id, req.route, nearbyStart, nearbyEnd, directed, nearby, outcome)
        && (outcome.Ok? ==> r == Posted(trip, outcome.value))
        && (outcome.Err? ==> r == Rejected(500, outcome.detail))
    {
      nearby, outcome := [], Ok([]);
      var tokenId := PostTokenUserId(req.accessToken);
      if tokenId.Err? {
        return Rejected(tokenId.status, tokenId.detail), nearby, outcome;
      }
      var userId := tokenId.value;
      var user := UserById(users, userId);
      var previouslyStoredTrip := TripOfUser(trips, userId);
      if user.None? {
        return Rejected(404, "User not found"), nearby, outcome;
      }
      if previouslyStoredTrip.Some? {
        return AlreadyHasTrip, nearby, outcome;
      }
      var trip := NewTrip(nextId, req, user.value);
      ghost var before := trips;
      trips := trips + [trip];
      nextId := nextId + 1;
      assert DistinctOn(trips, TripIdOf) by {
        forall i, j | 0 <= i < j < |trips| ensures TripIdOf(trips[i]) != TripIdOf(trips[j]) {
          if j == |before| {
            assert trips[i] in before;
          } else {
            assert trips[i] == before[i] && trips[j] == before[j];
          }
        }
      }
      assert DistinctOn(trips, TripUserOf) by {
        forall i, j | 0 <= i < j < |trips| ensures TripUserOf(trips[i]) != TripUserOf(trips[j]) {
          if j == |before| {
            assert trips[i] == before[i];
          } else {
            assert trips[i] == before[i] && trips[j] == before[j];
          }
        }
      }
      var matches;
      matches, nearby := FindMatchesPipeline(trips, geo, trip.id, trip.route, nearbyStart, nearbyEnd, directed);
      outcome := matches;
      if matches.Err? {
        return Rejected(500, matches.detail), nearby, outcome;
      }
      r := Posted(trip, matches.value);
    }

    /** get_matches: 404 for an unknown trip; otherwise the pipeline on the
        trip's stored route, whose error is the reply's, then the dedup and
        notify loop over its pairs. The ghost outputs are the candidate ids
        and the outcome of that pipeline run. */
    method GetMatches(
      users: seq<User>, geo: Index, tripId: int,
      nearbyStart: seq<string>, nearbyEnd: seq<string>, directed: Directed)
      returns (r: Result<seq<MatchInfo>>, pushes: seq<Push>, ghost nearby: seq<nat>, ghost outcome: Result<seq<PairResult>>)
      modifies geo
      ensures TripById(trips, tripId).None? ==>
        r == Err(404, "Trip not found") && pushes == [] && geo.members == old(geo.members)
      ensures TripById(trips, tripId).Some? ==>
        var current := TripById(trips, tripId).value;
        && geo.members == IndexedAfter(old(geo.members), current.id, current.route)
        && PipelineOutcome(trips, current.id, current.route, nearbyStart, nearbyEnd, directed, nearby, outcome)
        && (outcome.Err? ==> r == Err(outcome.status, outcome.detail) && pushes == [])
        && (outcome.Ok? ==>
              && r == Ok(CollectAll(trips, users, current, outcome.value).data)
              && pushes == CollectAll(trips, users, current, outcome.value).pushes)
      ensures r.Ok? ==>
        var current := TripById(trips, tripId).value;
        && outcome.Ok?
        && (forall p :: p in outcome.value ==> p.isCarpoolable && p.hausdorffMeters < CarpoolThresholdMeters)
        && Ids(r.value) == FirstOccurrences(Partners(trips, current.id, outcome.value))
        && (forall i :: 0 <= i < |r.value| ==> r.value[i].id != tripId)
        && (forall i, j :: 0 <= i < j < |r.value| ==> r.value[i].id != r.value[j].id)
        && (forall i, j :: 0 <= i < j < |pushes| ==> pushes[i].userId != pushes[j].userId)
        && (forall i :: 0 <= i < |pushes| ==>
              UserById(users, pushes[i].userId).Some? && HasPushToken(UserById(users, pushes[i].userId).value))
    {
      nearby, outcome := [], Ok([]);
      pushes := [];
      var currentTrip := TripById(trips, tripId);
      if currentTrip.None? {
        return Err(404, "Trip not found"), pushes, nearby, outcome;
      }
      var current := currentTrip.value;
      var matches;
      matches, nearby := FindMatchesPipeline(trips, geo, current.id, current.route, nearbyStart, nearbyEnd, directed);
      outcome := matches;
      if matches.Err? {
        return Err(matches.status, matches.detail), pushes, nearby, outcome;
      }
      assert forall p :: p in matches.value ==> p.isCarpoolable && p.hausdorffMeters < CarpoolThresholdMeters by {
        PipelinePairsReported(trips, current.id, nearby, directed, matches);
      }
      if matches.value == [] {
        return Ok([]), pushes, nearby, outcome;
      }
      var data;
      data, pushes := CollectMatches(trips, users, current, matches.value);
      r := Ok(data);
    }
  }

  /** Every pair the pipeline reports is under the threshold and carpoolable. */
  lemma PipelinePairsReported(
    trips: seq<Trip>, tripId: nat, nearby: seq<nat>, directed: Directed, r: Result<seq<PairResult>>)
    requires r.Ok?
    requires r == Ok([]) || r == CarpoolOutcome(trips, tripId, nearby, directed)
    ensures forall p :: p in r.value ==> p.isCarpoolable && p.hausdorffMeters < CarpoolThresholdMeters
  {
    if r != Ok([]) {
      assert r == CarpoolOutcome(trips, tripId, nearby, directed);
      var t := TripById(trips, tripId).value;
      var ids: seq<int> := nearby;
      var ms: seq<int> := [tripId] + Filter(ids, TimeWindow(trips, tripId, t.time));
      assert CarpoolOutcome(trips, tripId, ids, directed) == (if |ms| <= 1 then Ok([]) else SimilarityUpTo(trips, ms, directed, |ms|));
      if |ms| > 1 {
        assert r == SimilarityUpTo(trips, ms, directed, |ms|);
        SimilarityCarpoolable(trips, ms, directed);
      }
    }
  }
}
