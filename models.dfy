/** The backend's table rows (the users and trips tables) and the decoded
    form of its access tokens, with the lookups the endpoints run on them. */
module Models {
  import opened Common

  /** A point of a route as post_trips stores it: {"latitude", "longitude"}. */
  datatype LatLng = LatLng(latitude: real, longitude: real)

  /** A row of the users table. push_token is NULL until the device registers. */
  datatype User = User(
    id: nat,
    email: string,
    age: int,
    gender: string,
    hashedPassword: string,
    pushToken: Option<string>)

  /** A row of the trips table. time is in seconds since the epoch; route is the
      decoded route_coordinates JSON column. */
  datatype Trip = Trip(
    id: nat,
    originName: string,
    targetName: string,
    time: int,
    route: seq<LatLng>,
    gender: string,
    userId: nat)

  /** The claims of an access token: "sub" (the email) and "id" (the user id),
      each possibly missing. Signing and verifying are not modelled. */
  datatype Claims = Claims(sub: Option<string>, id: Option<int>)

  /** What decoding a bearer token yields. */
  datatype TokenDecode = Expired | Invalid | Decoded(claims: Claims)

  function TripById(trips: seq<Trip>, id: int): (r: Option<Trip>)
    ensures r.Some? <==> exists i :: 0 <= i < |trips| && trips[i].id == id
    ensures r.Some? ==> r.value in trips && r.value.id == id
  {
    FirstWhere(trips, (t: Trip) => t.id == id)
  }

  function TripOfUser(trips: seq<Trip>, userId: int): (r: Option<Trip>)
    ensures r.Some? <==> exists i :: 0 <= i < |trips| && trips[i].userId == userId
    ensures r.Some? ==> r.value in trips && r.value.userId == userId
  {
    FirstWhere(trips, (t: Trip) => t.userId == userId)
  }

  function UserById(users: seq<User>, id: int): (r: Option<User>)
    ensures r.Some? <==> exists i :: 0 <= i < |users| && users[i].id == id
    ensures r.Some? ==> r.value in users && r.value.id == id
  {
    FirstWhere(users, (u: User) => u.id == id)
  }

  function UserByEmail(users: seq<User>, email: string): (r: Option<User>)
    ensures r.Some? <==> exists i :: 0 <= i < |users| && users[i].email == email
    ensures r.Some? ==> r.value in users && r.value.email == email
  {
    FirstWhere(users, (u: User) => u.email == email)
  }

  function TripIdOf(t: Trip): int {
    t.id
  }

  function TripUserOf(t: Trip): int {
    t.userId
  }

  /** Trip ids are a primary key. */
  ghost predicate TripIdsDistinct(trips: seq<Trip>) {
    DistinctOn(trips, TripIdOf)
  }

  /** The backend keeps at most one trip per user. */
  ghost predicate OneTripPerUser(trips: seq<Trip>) {
    DistinctOn(trips, TripUserOf)
  }
}
