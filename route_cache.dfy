/** The directions cache of the suggestions router: a route looked up under
    the requested coordinates is answered from the Redis hash "trips" when
    present, and otherwise fetched from the external directions service and
    stored. The service is a function parameter. */
module RouteCache {
  import opened Common

  /** The coordinates of a request, [[lon, lat], ...]. The hash field is
      their JSON text; json.dumps is deterministic and injective on these
      lists, so the field is modelled by the list itself. */
  type Coordinates = seq<seq<real>>

  /** The cached value: the route's coordinates and its duration. */
  datatype Route = Route(coordinates: Coordinates, duration: real)

  /** What the directions service answers: a route, an HTTP error status, a
      failed request, or a body without features[0] (a KeyError or IndexError
      that no handler catches). */
  datatype Directions =
    | Found(route: Route)
    | StatusError(code: int, text: string)
    | RequestFailed(reason: string)
    | NoFeature

  /** The reply for a directions answer that is not a route. */
  function DirectionsError(d: Directions): (r: Result<Route>)
    requires !d.Found?
    ensures r.Err?
    ensures d.StatusError? ==> r.status == d.code
    ensures !d.StatusError? ==> r.status == 500
  {
    match d
    case StatusError(code, text) => Err(code, "Error from external API: " + text)
    case RequestFailed(reason) => Err(500, "An error occurred while requesting external API: " + reason)
    case NoFeature => Err(500, "Internal Server Error")
  }

  /** One request: the reply and the cache afterwards. */
  datatype Lookup = Lookup(reply: Result<Route>, entries: map<Coordinates, Route>)

  /** fetch_coordinates as a function of the cache and the service. */
  function Fetch(entries: map<Coordinates, Route>, coords: Coordinates, directions: Coordinates -> Directions): (l: Lookup)
    ensures coords in entries ==> l == Lookup(Ok(entries[coords]), entries)
    ensures coords !in entries && directions(coords).Found? ==>
      l == Lookup(Ok(directions(coords).route), entries[coords := directions(coords).route])
    ensures coords !in entries && !directions(coords).Found? ==>
      l.reply.Err? && l.entries == entries
    ensures l.reply.Ok? ==> coords in l.entries && l.entries[coords] == l.reply.value
    ensures forall k :: k != coords ==> (k in l.entries <==> k in entries)
    ensures forall k :: k != coords && k in entries ==> l.entries[k] == entries[k]
  {
    if coords in entries then Lookup(Ok(entries[coords]), entries)
    else
      match directions(coords)
      case Found(route) => Lookup(Ok(route), entries[coords := route])
      case other => Lookup(DirectionsError(other), entries)
  }

  /** Once a request has succeeded, repeating it is a hit with the same
      reply, whatever the service would answer then. */
  lemma RepeatIsHit(entries: map<Coordinates, Route>, coords: Coordinates, first: Coordinates -> Directions, later: Coordinates -> Directions)
    requires Fetch(entries, coords, first).reply.Ok?
    ensures var once := Fetch(entries, coords, first);
      Fetch(once.entries, coords, later) == Lookup(once.reply, once.entries)
  {
  }

  /** The Redis hash, field by field. */
  class Cache {
    var entries: map<Coordinates, Route>

    constructor ()
      ensures entries == map[]
    {
      entries := map[];
    }

    /** fetch_coordinates: HGET, then on a miss the service call and HSET. */
    method FetchCoordinates(coords: Coordinates, directions: Coordinates -> Directions) returns (r: Result<Route>)
      modifies this
      ensures Lookup(r, entries) == Fetch(old(entries), coords, directions)
    {
      var queryField := coords;
      if queryField in entries {
        var result := entries[queryField];
        return Ok(Route(result.coordinates, result.duration));
      }
      var response := directions(coords);
      if !response.Found? {
        return DirectionsError(response);
      }
      var route := response.route;
      var coordsRedis := coords;
      entries := entries[coordsRedis := Route(route.coordinates, route.duration)];
      r := Ok(Route(route.coordinates, route.duration));
    }
  }
}
