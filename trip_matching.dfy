/** The matching pipeline of the trips router: the geo-radius id filter, the
    thirty-minute time window, and the loop of get_matches that turns
    similarity pairs into the list shown to the user and notifies the owners
    of the matched trips. The two GEORADIUS queries are inputs. */
module TripMatching {
  import opened Common
  import opened Models
  import opened GeoIndex
  import opened Hausdorff

  // ---------------------------------------------------------------------------
  // Stage 1: trips whose start and end are both near this trip's

  /** The id parts of a GEORADIUS result, as a set. */
  function IdParts(members: seq<string>): set<string> {
    set m | m in members :: IdPart(m)
  }

  /** `set(nearby_start) & set(nearby_end)`. */
  function CommonIdParts(nearbyStart: seq<string>, nearbyEnd: seq<string>): (r: set<string>)
    ensures forall p :: p in r <==>
      (exists m :: m in nearbyStart && IdPart(m) == p) && (exists m :: m in nearbyEnd && IdPart(m) == p)
  {
    IdParts(nearbyStart) * IdParts(nearbyEnd)
  }

  /** The values of the numerals among the given id parts. */
  ghost function ParsedIds(parts: set<string>): set<nat> {
    set p | p in parts && ParseNat(p).Some? :: ParseNat(p).value
  }

  lemma ParsedIdsAdd(parts: set<string>, p: string)
    requires ParseNat(p).Some?
    ensures ParsedIds(parts + {p}) == ParsedIds(parts) + {ParseNat(p).value}
  {
    assert ParseNat(p).value in ParsedIds(parts + {p});
  }

  /** The state of the scan over common: the parts seen so far all parse,
      and ids holds their values other than the trip's own. */
  ghost predicate Scanned(tripId: nat, common: set<string>, rest: set<string>, done: set<string>, ids: seq<nat>) {
    && rest + done == common && rest !! done
    && (forall p :: p in done ==> ParseNat(p).Some?)
    && (forall x :: x in ids <==> x != tripId && x in ParsedIds(done))
    && |ids| <= |done|
  }

  /** Reading one more numeral part keeps the scan state. */
  lemma ScanStep(tripId: nat, common: set<string>, rest: set<string>, done: set<string>, ids: seq<nat>, p: string)
    requires Scanned(tripId, common, rest, done, ids)
    requires p in rest && ParseNat(p).Some?
    ensures var v := ParseNat(p).value;
      Scanned(tripId, common, rest - {p}, done + {p}, if v != tripId then ids + [v] else ids)
  {
    ParsedIdsAdd(done, p);
    assert p !in done;
    assert |done + {p}| == |done| + 1;
  }

  /** The ids a step-1 candidate list may hold: the common id parts read as
      integers, without the trip's own id. */
  ghost predicate IsCandidate(tripId: nat, nearbyStart: seq<string>, nearbyEnd: seq<string>, x: nat) {
    x != tripId && x in ParsedIds(CommonIdParts(nearbyStart, nearbyEnd))
  }

  /** `[int(tid) for tid in list(common) if int(tid) != trip_id]`, where
      common is the set of shared id parts. A Python set
      is listed in no specified order, so the order is chosen freely here. An
      id part that is not a numeral makes int() raise, which the framework
      answers with status 500. */
  method CandidateIds(tripId: nat, common: set<string>) returns (r: Result<seq<nat>>)
    ensures r.Err? <==> exists p :: p in common && ParseNat(p).None?
    ensures r.Err? ==> r.status == 500
    ensures r.Ok? ==> forall x :: x in r.value <==> x != tripId && x in ParsedIds(common)
    ensures r.Ok? ==> |r.value| <= |common|
  {
    var rest := common;
    ghost var done: set<string> := {};
    var ids: seq<nat> := [];
    while rest != {}
      invariant Scanned(tripId, common, rest, done, ids)
      decreases |rest|
    {
      var p :| p in rest;
      var parsed := ParseNat(p);
      if parsed.None? {
        assert p in common;
        return Err(500, "invalid literal for int() with base 10");
      }
      ScanStep(tripId, common, rest, done, ids, p);
      if parsed.value != tripId {
        ids := ids + [parsed.value];
      }
      rest := rest - {p};
      done := done + {p};
    }
    assert done == common;
    r := Ok(ids);
  }

  /** A GEORADIUS result is well formed when every member is a name written
      by the pipeline, "{id}:start" or "{id}:end". */
  ghost predicate WellFormedMembers(members: seq<string>) {
    forall m :: m in members ==> exists id: nat, tag :: m == MemberName(id, tag)
  }

  /** On a well-formed result every id part is a numeral. */
  lemma WellFormedIdParts(members: seq<string>, m: string)
    requires WellFormedMembers(members) && m in members
    ensures ParseNat(IdPart(m)).Some?
    ensures exists tag :: MemberName(ParseNat(IdPart(m)).value, tag) in members
  {
    var id: nat, tag :| m == MemberName(id, tag);
    MemberNameIdPart(id, tag);
  }

  /** A candidate has a member in both results. */
  lemma CandidateHasMembers(tripId: nat, nearbyStart: seq<string>, nearbyEnd: seq<string>, x: nat)
    requires WellFormedMembers(nearbyStart) && WellFormedMembers(nearbyEnd)
    requires IsCandidate(tripId, nearbyStart, nearbyEnd, x)
    ensures (exists tag :: MemberName(x, tag) in nearbyStart) && (exists tag :: MemberName(x, tag) in nearbyEnd)
  {
    var p :| p in CommonIdParts(nearbyStart, nearbyEnd) && ParseNat(p).Some? && ParseNat(p).value == x;
    var m1 :| m1 in nearbyStart && IdPart(m1) == p;
    WellFormedIdParts(nearbyStart, m1);
    var m2 :| m2 in nearbyEnd && IdPart(m2) == p;
    WellFormedIdParts(nearbyEnd, m2);
  }

  /** Another trip with a member in both results is a candidate. */
  lemma MembersMakeCandidate(tripId: nat, nearbyStart: seq<string>, nearbyEnd: seq<string>, x: nat, tag1: string, tag2: string)
    requires x != tripId && MemberName(x, tag1) in nearbyStart && MemberName(x, tag2) in nearbyEnd
    ensures IsCandidate(tripId, nearbyStart, nearbyEnd, x)
  {
    MemberNameIdPart(x, tag1);
    MemberNameIdPart(x, tag2);
    var p := NatToString(x);
    assert p in CommonIdParts(nearbyStart, nearbyEnd);
    assert x in ParsedIds(CommonIdParts(nearbyStart, nearbyEnd));
  }

  /** On well-formed results every id part is a numeral, and the candidates
      are exactly the other trips that have a member in both results. */
  lemma CandidatesOfWellFormedMembers(tripId: nat, nearbyStart: seq<string>, nearbyEnd: seq<string>, x: nat)
    requires WellFormedMembers(nearbyStart) && WellFormedMembers(nearbyEnd)
    ensures forall p :: p in CommonIdParts(nearbyStart, nearbyEnd) ==> ParseNat(p).Some?
    ensures IsCandidate(tripId, nearbyStart, nearbyEnd, x) <==>
      x != tripId &&
      (exists tag :: MemberName(x, tag) in nearbyStart) &&
      (exists tag :: MemberName(x, tag) in nearbyEnd)
  {
    forall p | p in CommonIdParts(nearbyStart, nearbyEnd) ensures ParseNat(p).Some? {
      var m :| m in nearbyStart && IdPart(m) == p;
      WellFormedIdParts(nearbyStart, m);
    }
    if IsCandidate(tripId, nearbyStart, nearbyEnd, x) {
      CandidateHasMembers(tripId, nearbyStart, nearbyEnd, x);
    }
    if x != tripId && (exists tag :: MemberName(x, tag) in nearbyStart) && (exists tag :: MemberName(x, tag) in nearbyEnd) {
      var tag1 :| MemberName(x, tag1) in nearbyStart;
      var tag2 :| MemberName(x, tag2) in nearbyEnd;
      MembersMakeCandidate(tripId, nearbyStart, nearbyEnd, x, tag1, tag2);
    }
  }

  // ---------------------------------------------------------------------------
  // Stage 2: the time window of carpool_match

  /** timedelta(minutes=30), in seconds. */
  const ThirtyMinutes: int := 1800

  function Abs(x: int): nat {
    if x < 0 then -x else x
  }

  /** A nearby id is kept when it is not the trip itself, names a stored trip,
      and that trip leaves within thirty minutes of this one. */
  predicate InTimeWindow(trips: seq<Trip>, tripId: nat, tripTime: int, x: int) {
    x != tripId && TripById(trips, x).Some? && Abs(TripById(trips, x).value.time - tripTime) <= ThirtyMinutes
  }

  function TimeWindow(trips: seq<Trip>, tripId: nat, tripTime: int): int -> bool {
    x => InTimeWindow(trips, tripId, tripTime, x)
  }

  /** One more nearby id extends the window list exactly by the checks of the loop. */
  lemma WindowStep(trips: seq<Trip>, tripId: nat, tripTime: int, prefix: seq<int>, id: int)
    ensures Filter(prefix + [id], TimeWindow(trips, tripId, tripTime)) ==
      Filter(prefix, TimeWindow(trips, tripId, tripTime)) +
      (if id != tripId && TripById(trips, id).Some? && Abs(TripById(trips, id).value.time - tripTime) <= ThirtyMinutes then [id] else [])
  {
    FilterAppend(prefix, id, TimeWindow(trips, tripId, tripTime));
  }

  /** No nearby id in the window leaves the window list empty. */
  lemma WindowEmpty(trips: seq<Trip>, tripId: nat, tripTime: int, nearby: seq<int>)
    requires forall x :: x in nearby ==> !InTimeWindow(trips, tripId, tripTime, x)
    ensures Filter(nearby, TimeWindow(trips, tripId, tripTime)) == []
  {
    FilterNone(nearby, TimeWindow(trips, tripId, tripTime));
  }

  /** What carpool_match answers, stated as a function of its inputs: the trip
      id followed by the kept nearby ids, in input order; [] when nothing was
      kept, the similarity walk otherwise; 500 when the trip itself is not
      stored (`trip.time` on None). */
  function CarpoolOutcome(trips: seq<Trip>, tripId: nat, nearby: seq<int>, directed: Directed): Result<seq<PairResult>> {
    match TripById(trips, tripId)
    case None => Err(500, "'NoneType' object has no attribute 'time'")
    case Some(trip) =>
      var ms := [tripId] + Filter(nearby, TimeWindow(trips, tripId, trip.time));
      if |ms| <= 1 then Ok([]) else SimilarityUpTo(trips, ms, directed, |ms|)
  }

  /** The loop of `carpool_match`. */
  method CarpoolMatch(trips: seq<Trip>, tripId: nat, nearby: seq<int>, directed: Directed) returns (r: Result<seq<PairResult>>)
    ensures r == CarpoolOutcome(trips, tripId, nearby, directed)
    ensures TripById(trips, tripId).None? ==> r.Err? && r.status == 500
    ensures TripById(trips, tripId).Some? &&
      (forall x :: x in nearby ==> !InTimeWindow(trips, tripId, TripById(trips, tripId).value.time, x))
      ==> r == Ok([])
  {
    var current := TripById(trips, tripId);
    if current.None? {
      return Err(500, "'NoneType' object has no attribute 'time'");
    }
    var tripTime := current.value.time;
    var keep := TimeWindow(trips, tripId, tripTime);
    var matches: seq<int> := [tripId];
    for i := 0 to |nearby|
      invariant matches == [tripId] + Filter(nearby[..i], keep)
    {
      var id := nearby[i];
      assert nearby[..i + 1] == nearby[..i] + [id];
      WindowStep(trips, tripId, tripTime, nearby[..i], id);
      if id == tripId {
        continue;
      }
      var matchedTrip := TripById(trips, id);
      if matchedTrip.None? {
        continue;
      }
      if Abs(matchedTrip.value.time - tripTime) <= ThirtyMinutes {
        matches := matches + [id];
      }
    }
    assert nearby[..|nearby|] == nearby;
    if forall x :: x in nearby ==> !InTimeWindow(trips, tripId, tripTime, x) {
      WindowEmpty(trips, tripId, tripTime, nearby);
    }
    if |matches| <= 1 {
      r := Ok([]);
    } else {
      r := Similarity(trips, matches, directed);
    }
  }

  // ---------------------------------------------------------------------------
  // The pipeline

  function StartPosition(route: seq<LatLng>): Position
    requires route != []
  {
    Position(route[0].longitude, route[0].latitude)
  }

  function EndPosition(route: seq<LatLng>): Position
    requires route != []
  {
    Position(route[|route| - 1].longitude, route[|route| - 1].latitude)
  }

  /** What `find_matches_pipeline` answers, given the ids it took from the
      radius queries: the IndexError of an empty route, a 500 when a shared id
      part is not a numeral, and otherwise [] without candidates or the
      time-window and similarity outcome over exactly the candidates. */
  ghost predicate PipelineOutcome(
    trips: seq<Trip>, tripId: nat, route: seq<LatLng>,
    nearbyStart: seq<string>, nearbyEnd: seq<string>, directed: Directed,
    nearby: seq<nat>, r: Result<seq<PairResult>>)
  {
    && (route == [] ==> r == Err(500, "list index out of range"))
    && (route != [] && (exists p :: p in CommonIdParts(nearbyStart, nearbyEnd) && ParseNat(p).None?)
        ==> r.Err? && r.status == 500)
    && (route != [] && (forall p :: p in CommonIdParts(nearbyStart, nearbyEnd) ==> ParseNat(p).Some?) ==>
        && (forall x :: x in nearby <==> IsCandidate(tripId, nearbyStart, nearbyEnd, x))
        && r == (if nearby == [] then Ok([]) else CarpoolOutcome(trips, tripId, nearby, directed)))
  }

  /** The geo set after the pipeline: both end points of a non-empty route
      are written under the trip's two member names; an empty route writes nothing. */
  function IndexedAfter(members: map<string, Position>, tripId: nat, route: seq<LatLng>): (m: map<string, Position>)
    ensures route == [] ==> m == members
    ensures route != [] ==> m.Keys == members.Keys + {MemberName(tripId, StartTag), MemberName(tripId, EndTag)}
    ensures route != [] ==> m[MemberName(tripId, EndTag)] == EndPosition(route)
    ensures route != [] ==> m[MemberName(tripId, StartTag)] == StartPosition(route)
    ensures forall k :: k in members && k != MemberName(tripId, StartTag) && k != MemberName(tripId, EndTag) ==> k in m && m[k] == members[k]
  {
    if route == [] then members
    else
      assert |MemberName(tripId, StartTag)| != |MemberName(tripId, EndTag)|;
      members[MemberName(tripId, StartTag) := StartPosition(route)][MemberName(tripId, EndTag) := EndPosition(route)]
  }

  /** `find_matches_pipeline`: index the trip's two end points, take the
      candidates of the two radius queries, and run the time window. An empty
      route fails at `coordinates_list[0]` before anything is indexed. */
  method FindMatchesPipeline(
    trips: seq<Trip>, geo: Index, tripId: nat, route: seq<LatLng>,
    nearbyStart: seq<string>, nearbyEnd: seq<string>, directed: Directed)
    returns (r: Result<seq<PairResult>>, ghost nearby: seq<nat>)
    modifies geo
    ensures geo.members == IndexedAfter(old(geo.members), tripId, route)
    ensures PipelineOutcome(trips, tripId, route, nearbyStart, nearbyEnd, directed, nearby, r)
  {
    nearby := [];
    if route == [] {
      return Err(500, "list index out of range"), nearby;
    }
    geo.Add(MemberName(tripId, StartTag), StartPosition(route));
    geo.Add(MemberName(tripId, EndTag), EndPosition(route));
    var candidates := CandidateIds(tripId, CommonIdParts(nearbyStart, nearbyEnd));
    if candidates.Err? {
      return Err(candidates.status, candidates.detail), nearby;
    }
    var ids := candidates.value;
    nearby := ids;
    if ids == [] {
      return Ok([]), nearby;
    }
    r := CarpoolMatch(trips, tripId, ids, directed);
  }

  // ---------------------------------------------------------------------------
  // The loop of get_matches

  /** One entry of the get_matches reply. */
  datatype MatchInfo = MatchInfo(id: nat, origin: string, destination: string, time: int, gender: string)

  /** A push notification handed to the push service, with the user it was
      meant for (the source passes only the token). */
  datatype Push = Push(userId: nat, token: string, title: string, body: string)

  const PushTitle: string := "New Carpool Match! \U{1F697}"

  function PushBody(current: Trip): string {
    "A new user is traveling from " + current.originName + " to " + current.targetName + ". Check your matches!"
  }

  function Info(t: Trip): MatchInfo {
    MatchInfo(t.id, t.originName, t.targetName, t.time, t.gender)
  }

  /** `other_user and other_user.push_token`: a stored, non-empty token. */
  predicate HasPushToken(u: User) {
    u.pushToken.Some? && u.pushToken.value != ""
  }

  /** The trip on the other side of a pair, when the pair involves the current trip. */
  function OtherId(currentId: nat, p: PairResult): (r: Option<int>)
    ensures r.Some? <==> p.trip1Id == currentId || p.trip2Id == currentId
  {
    if p.trip1Id == currentId then Some(p.trip2Id)
    else if p.trip2Id == currentId then Some(p.trip1Id)
    else None
  }

  /** The loop's variables: matched_trip_data, seen_ids, notified_user_ids and
      the pushes sent so far. */
  datatype Collected = Collected(data: seq<MatchInfo>, seenIds: set<int>, notifiedUserIds: set<nat>, pushes: seq<Push>)

  /** One iteration of the loop over the similarity pairs. */
  function CollectStep(trips: seq<Trip>, users: seq<User>, current: Trip, acc: Collected, p: PairResult): Collected {
    match OtherId(current.id, p)
    case None => acc
    case Some(other) =>
      if other == current.id || other in acc.seenIds then acc
      else
        match TripById(trips, other)
        case None => acc
        case Some(t) =>
          var added := acc.(seenIds := acc.seenIds + {other}, data := acc.data + [Info(t)]);
          if t.userId in acc.notifiedUserIds then added
          else
            match UserById(users, t.userId)
            case Some(u) =>
              if HasPushToken(u) then
                added.(pushes := added.pushes + [Push(t.userId, u.pushToken.value, PushTitle, PushBody(current))],
                       notifiedUserIds := added.notifiedUserIds + {t.userId})
              else added
            case None => added
  }

  /** The loop's variables after the given pairs. */
  function CollectAll(trips: seq<Trip>, users: seq<User>, current: Trip, pairs: seq<PairResult>): Collected
    decreases |pairs|
  {
    if pairs == [] then Collected([], {}, {}, [])
    else CollectStep(trips, users, current, CollectAll(trips, users, current, pairs[..|pairs| - 1]), pairs[|pairs| - 1])
  }

  function Ids(data: seq<MatchInfo>): (r: seq<int>)
    ensures |r| == |data| && forall i :: 0 <= i < |data| ==> r[i] == data[i].id
  {
    seq(|data|, i requires 0 <= i < |data| => data[i].id)
  }

  /** The owner of a stored trip, or none. */
  function OwnerOf(trips: seq<Trip>, id: int): Option<nat> {
    match TripById(trips, id)
    case Some(t) => Some(t.userId)
    case None => None
  }

  /** The entries: none is the current trip, they are distinct stored trips,
      and they are exactly the seen ids. */
  ghost predicate EntriesOk(trips: seq<Trip>, current: Trip, acc: Collected) {
    var data := acc.data;
    && (forall i :: 0 <= i < |data| ==> data[i].id != current.id)
    && (forall i, j :: 0 <= i < j < |data| ==> data[i].id != data[j].id)
    && (forall i :: 0 <= i < |data| ==> TripById(trips, data[i].id).Some? && data[i] == Info(TripById(trips, data[i].id).value))
    && (forall x :: x in acc.seenIds <==> x in Ids(data))
  }

  /** A push has the stored non-empty token of its user, the fixed title and
      the current trip's text, and goes to the owner of an entry. */
  ghost predicate PushOk(trips: seq<Trip>, users: seq<User>, current: Trip, data: seq<MatchInfo>, push: Push) {
    && UserById(users, push.userId).Some?
    && HasPushToken(UserById(users, push.userId).value)
    && push.token == UserById(users, push.userId).value.pushToken.value
    && push.title == PushTitle
    && push.body == PushBody(current)
    && exists j :: 0 <= j < |data| && OwnerOf(trips, data[j].id) == Some(push.userId)
  }

  /** Each user is pushed at most once. */
  ghost predicate DistinctUsers(pushes: seq<Push>) {
    forall i, j :: 0 <= i < j < |pushes| ==> pushes[i].userId != pushes[j].userId
  }

  /** The notified set is the set of pushed users. */
  ghost predicate NotifiedAre(notified: set<nat>, pushes: seq<Push>) {
    forall u :: u in notified <==> exists i :: 0 <= i < |pushes| && pushes[i].userId == u
  }

  ghost predicate AllPushOk(trips: seq<Trip>, users: seq<User>, current: Trip, data: seq<MatchInfo>, pushes: seq<Push>) {
    forall i :: 0 <= i < |pushes| ==> PushOk(trips, users, current, data, pushes[i])
  }

  /** Each user is pushed at most once, the notified set is the set of
      pushed users, and every push is valid. */
  ghost predicate PushesOk(trips: seq<Trip>, users: seq<User>, current: Trip, acc: Collected) {
    && DistinctUsers(acc.pushes)
    && NotifiedAre(acc.notifiedUserIds, acc.pushes)
    && AllPushOk(trips, users, current, acc.data, acc.pushes)
  }

  /** Every entry whose owner has a push token has its owner notified. */
  ghost predicate OwnersNotified(trips: seq<Trip>, users: seq<User>, acc: Collected) {
    forall j :: 0 <= j < |acc.data| && OwnerOf(trips, acc.data[j].id).Some? ==>
      var owner := OwnerOf(trips, acc.data[j].id).value;
      UserById(users, owner).Some? && HasPushToken(UserById(users, owner).value) ==> owner in acc.notifiedUserIds
  }

  ghost predicate CollectedOk(trips: seq<Trip>, users: seq<User>, current: Trip, acc: Collected) {
    EntriesOk(trips, current, acc) && PushesOk(trips, users, current, acc) && OwnersNotified(trips, users, acc)
  }

  /** The pair adds an entry exactly when it names a stored, unseen partner. */
  predicate AddsEntry(trips: seq<Trip>, current: Trip, acc: Collected, p: PairResult) {
    var other := OtherId(current.id, p);
    other.Some? && other.value != current.id && other.value !in acc.seenIds && TripById(trips, other.value).Some?
  }

  lemma CollectStepEntries(trips: seq<Trip>, users: seq<User>, current: Trip, acc: Collected, p: PairResult)
    requires EntriesOk(trips, current, acc)
    ensures EntriesOk(trips, current, CollectStep(trips, users, current, acc, p))
  {
    var r := CollectStep(trips, users, current, acc, p);
    if AddsEntry(trips, current, acc, p) {
      var other := OtherId(current.id, p).value;
      var t := TripById(trips, other).value;
      assert r.data == acc.data + [Info(t)] && r.seenIds == acc.seenIds + {other};
      assert Ids(r.data) == Ids(acc.data) + [other];
    } else {
      assert r == acc;
    }
  }

  lemma PushOkGrow(trips: seq<Trip>, users: seq<User>, current: Trip, data: seq<MatchInfo>, m: MatchInfo, push: Push)
    requires PushOk(trips, users, current, data, push)
    ensures PushOk(trips, users, current, data + [m], push)
  {
    var j :| 0 <= j < |data| && OwnerOf(trips, data[j].id) == Some(push.userId);
    assert (data + [m])[j] == data[j];
  }

  /** A new entry keeps every earlier push valid. */
  lemma PushesOkGrow(trips: seq<Trip>, users: seq<User>, current: Trip, acc: Collected, m: MatchInfo, other: int)
    requires PushesOk(trips, users, current, acc)
    ensures PushesOk(trips, users, current, acc.(seenIds := acc.seenIds + {other}, data := acc.data + [m]))
  {
    forall i | 0 <= i < |acc.pushes| ensures PushOk(trips, users, current, acc.data + [m], acc.pushes[i]) {
      PushOkGrow(trips, users, current, acc.data, m, acc.pushes[i]);
    }
  }

  /** Pushing a user not yet notified keeps the users distinct and the
      notified set equal to the pushed users. */
  lemma PushUsersAppend(pushes: seq<Push>, notified: set<nat>, push: Push)
    requires DistinctUsers(pushes) && NotifiedAre(notified, pushes)
    requires push.userId !in notified
    ensures DistinctUsers(pushes + [push])
    ensures NotifiedAre(notified + {push.userId}, pushes + [push])
  {
    var all := pushes + [push];
    forall i, j | 0 <= i < j < |all| ensures all[i].userId != all[j].userId {
      if j == |pushes| {
        assert all[i] == pushes[i];
      } else {
        assert all[i] == pushes[i] && all[j] == pushes[j];
      }
    }
    forall u ensures u in notified + {push.userId} <==> exists i :: 0 <= i < |all| && all[i].userId == u {
      if u in notified + {push.userId} {
        if u == push.userId {
          assert all[|pushes|].userId == u;
        } else {
          var i :| 0 <= i < |pushes| && pushes[i].userId == u;
          assert all[i].userId == u;
        }
      }
      if exists i :: 0 <= i < |all| && all[i].userId == u {
        var i :| 0 <= i < |all| && all[i].userId == u;
        if i < |pushes| {
          assert pushes[i].userId == u;
        }
      }
    }
  }

  /** A valid push appended to valid pushes leaves them all valid. */
  lemma AllPushOkAppend(trips: seq<Trip>, users: seq<User>, current: Trip, data: seq<MatchInfo>, pushes: seq<Push>, push: Push)
    requires AllPushOk(trips, users, current, data, pushes)
    requires PushOk(trips, users, current, data, push)
    ensures AllPushOk(trips, users, current, data, pushes + [push])
  {
    var all := pushes + [push];
    forall i | 0 <= i < |all| ensures PushOk(trips, users, current, data, all[i]) {
      if i < |pushes| {
        assert all[i] == pushes[i];
      }
    }
  }

  /** Pushing a user not yet notified keeps the pushes valid. */
  lemma PushesOkAppend(trips: seq<Trip>, users: seq<User>, current: Trip, acc: Collected, push: Push)
    requires PushesOk(trips, users, current, acc)
    requires push.userId !in acc.notifiedUserIds
    requires PushOk(trips, users, current, acc.data, push)
    ensures PushesOk(trips, users, current,
      acc.(pushes := acc.pushes + [push], notifiedUserIds := acc.notifiedUserIds + {push.userId}))
  {
    PushUsersAppend(acc.pushes, acc.notifiedUserIds, push);
    AllPushOkAppend(trips, users, current, acc.data, acc.pushes, push);
  }

  lemma CollectStepPushes(trips: seq<Trip>, users: seq<User>, current: Trip, acc: Collected, p: PairResult)
    requires EntriesOk(trips, current, acc) && PushesOk(trips, users, current, acc)
    ensures PushesOk(trips, users, current, CollectStep(trips, users, current, acc, p))
  {
    var r := CollectStep(trips, users, current, acc, p);
    if AddsEntry(trips, current, acc, p) {
      var other := OtherId(current.id, p).value;
      var t := TripById(trips, other).value;
      var added := acc.(seenIds := acc.seenIds + {other}, data := acc.data + [Info(t)]);
      PushesOkGrow(trips, users, current, acc, Info(t), other);
      var u := UserById(users, t.userId);
      if t.userId !in acc.notifiedUserIds && u.Some? && HasPushToken(u.value) {
        var push := Push(t.userId, u.value.pushToken.value, PushTitle, PushBody(current));
        assert OwnerOf(trips, added.data[|acc.data|].id) == Some(t.userId);
        PushesOkAppend(trips, users, current, added, push);
        assert r == added.(pushes := added.pushes + [push], notifiedUserIds := added.notifiedUserIds + {t.userId});
      } else {
        assert r == added;
      }
    } else {
      assert r == acc;
    }
  }

  lemma CollectStepNotified(trips: seq<Trip>, users: seq<User>, current: Trip, acc: Collected, p: PairResult)
    requires EntriesOk(trips, current, acc) && OwnersNotified(trips, users, acc)
    ensures OwnersNotified(trips, users, CollectStep(trips, users, current, acc, p))
  {
    var r := CollectStep(trips, users, current, acc, p);
    if AddsEntry(trips, current, acc, p) {
      var other := OtherId(current.id, p).value;
      var t := TripById(trips, other).value;
      assert r.data == acc.data + [Info(t)];
      assert acc.notifiedUserIds <= r.notifiedUserIds;
      assert OwnerOf(trips, r.data[|acc.data|].id) == Some(t.userId);
    } else {
      assert r == acc;
    }
  }

  lemma {:induction false} CollectAllOk(trips: seq<Trip>, users: seq<User>, current: Trip, pairs: seq<PairResult>)
    ensures CollectedOk(trips, users, current, CollectAll(trips, users, current, pairs))
    decreases |pairs|
  {
    if pairs != [] {
      var init := pairs[..|pairs| - 1];
      CollectAllOk(trips, users, current, init);
      var acc := CollectAll(trips, users, current, init);
      CollectStepEntries(trips, users, current, acc, pairs[|pairs| - 1]);
      CollectStepPushes(trips, users, current, acc, pairs[|pairs| - 1]);
      CollectStepNotified(trips, users, current, acc, pairs[|pairs| - 1]);
    }
  }

  /** The stored trips on the other side of the pairs that involve the current
      trip, in pair order, repetitions included. */
  function Partners(trips: seq<Trip>, currentId: nat, pairs: seq<PairResult>): seq<int>
    decreases |pairs|
  {
    if pairs == [] then []
    else
      var other := OtherId(currentId, pairs[|pairs| - 1]);
      Partners(trips, currentId, pairs[..|pairs| - 1]) +
      (if other.Some? && other.value != currentId && TripById(trips, other.value).Some? then [other.value] else [])
  }

  /** Each value once, at its first occurrence. */
  function FirstOccurrences(s: seq<int>): (r: seq<int>)
    ensures forall x :: x in r <==> x in s
    ensures forall i, j :: 0 <= i < j < |r| ==> r[i] != r[j]
    decreases |s|
  {
    if s == [] then []
    else
      var r := FirstOccurrences(s[..|s| - 1]);
      if s[|s| - 1] in r then r else r + [s[|s| - 1]]
  }

  /** The reply lists the partners of the current trip once each, in the
      order of their first pair. */
  lemma {:induction false} CollectAllOrder(trips: seq<Trip>, users: seq<User>, current: Trip, pairs: seq<PairResult>)
    ensures Ids(CollectAll(trips, users, current, pairs).data) == FirstOccurrences(Partners(trips, current.id, pairs))
    decreases |pairs|
  {
    if pairs != [] {
      var init := pairs[..|pairs| - 1];
      CollectAllOrder(trips, users, current, init);
      CollectAllOk(trips, users, current, init);
      var acc := CollectAll(trips, users, current, init);
      var p := pairs[|pairs| - 1];
      var r := CollectStep(trips, users, current, acc, p);
      var before := Partners(trips, current.id, init);
      var other := OtherId(current.id, p);
      if other.Some? && other.value != current.id && TripById(trips, other.value).Some? {
        var after := before + [other.value];
        assert Partners(trips, current.id, pairs) == after;
        assert after[..|after| - 1] == before;
        if other.value in acc.seenIds {
          assert r == acc;
        } else {
          var t := TripById(trips, other.value).value;
          assert r.data == acc.data + [Info(t)];
          assert Ids(r.data) == Ids(acc.data) + [other.value];
        }
      } else {
        assert Partners(trips, current.id, pairs) == before;
        assert r == acc;
      }
    }
  }

  /** The loop of `get_matches` over the similarity pairs. */
  method CollectMatches(trips: seq<Trip>, users: seq<User>, current: Trip, pairs: seq<PairResult>)
    returns (data: seq<MatchInfo>, pushes: seq<Push>)
    ensures data == CollectAll(trips, users, current, pairs).data
    ensures pushes == CollectAll(trips, users, current, pairs).pushes
    ensures Ids(data) == FirstOccurrences(Partners(trips, current.id, pairs))
    ensures forall i :: 0 <= i < |data| ==> data[i].id != current.id
    ensures forall i, j :: 0 <= i < j < |data| ==> data[i].id != data[j].id
    ensures forall i, j :: 0 <= i < j < |pushes| ==> pushes[i].userId != pushes[j].userId
    ensures forall i :: 0 <= i < |pushes| ==>
      UserById(users, pushes[i].userId).Some? && HasPushToken(UserById(users, pushes[i].userId).value) &&
      pushes[i].token == UserById(users, pushes[i].userId).value.pushToken.value
  {
    data := [];
    pushes := [];
    var seenIds: set<int> := {};
    var notifiedUserIds: set<nat> := {};
    for i := 0 to |pairs|
      invariant Collected(data, seenIds, notifiedUserIds, pushes) == CollectAll(trips, users, current, pairs[..i])
    {
      var pair := pairs[i];
      assert pairs[..i + 1][..i] == pairs[..i];
      ghost var before := Collected(data, seenIds, notifiedUserIds, pushes);
      var other: int;
      if pair.trip1Id == current.id {
        other := pair.trip2Id;
      } else if pair.trip2Id == current.id {
        other := pair.trip1Id;
      } else {
        continue;
      }
      if other == current.id || other in seenIds {
        continue;
      }
      var matchedTrip := TripById(trips, other);
      if matchedTrip.Some? {
        var t := matchedTrip.value;
        seenIds := seenIds + {other};
        data := data + [Info(t)];
        if t.userId !in notifiedUserIds {
          var otherUser := UserById(users, t.userId);
          if otherUser.Some? && HasPushToken(otherUser.value) {
            pushes := pushes + [Push(t.userId, otherUser.value.pushToken.value, PushTitle, PushBody(current))];
            notifiedUserIds := notifiedUserIds + {t.userId};
          }
        }
      }
      assert Collected(data, seenIds, notifiedUserIds, pushes) == CollectStep(trips, users, current, before, pair);
    }
    assert pairs[..|pairs|] == pairs;
    CollectAllOk(trips, users, current, pairs);
    CollectAllOrder(trips, users, current, pairs);
  }
}
