/** The scheduled expiry sweep of routine_del_trips: every trip whose time
    has come is removed from the geo index (both member names) and then
    deleted from the trips table in one commit. A Redis or database failure
    is an input: the index of the ZREM call that raises, or whether the
    commit raises. */
module Cleanup {
  import opened Common
  import opened Models
  import opened GeoIndex
  import opened Trips

  /** `Trip.time <= now`. */
  function IsExpired(now: int): Trip -> bool {
    (t: Trip) => t.time <= now
  }

  function IsCurrent(now: int): Trip -> bool {
    (t: Trip) => t.time > now
  }

  /** The member names of the given trips, "{id}:start" then "{id}:end" for
      each trip in turn: the ZREM calls of cleanup, in order. */
  function MemberNames(ts: seq<Trip>): (names: seq<string>)
    ensures |names| == 2 * |ts|
  {
    seq(2 * |ts|, k requires 0 <= k < 2 * |ts| => MemberName(ts[k / 2].id, if k % 2 == 0 then StartTag else EndTag))
  }

  function Elements(s: seq<string>): set<string> {
    set x | x in s
  }

  /** Both names of each trip are among the names. */
  lemma MemberNamesOfTrip(ts: seq<Trip>, t: Trip)
    requires t in ts
    ensures MemberName(t.id, StartTag) in MemberNames(ts)
    ensures MemberName(t.id, EndTag) in MemberNames(ts)
  {
    var i :| 0 <= i < |ts| && ts[i] == t;
    var names := MemberNames(ts);
    assert names[2 * i] == MemberName(t.id, StartTag);
    assert names[2 * i + 1] == MemberName(t.id, EndTag);
  }

  /** The names of other trips never name a trip with this id. */
  lemma MemberNamesOfOthers(ts: seq<Trip>, id: nat, tag: string)
    requires forall t :: t in ts ==> t.id != id
    ensures MemberName(id, tag) !in MemberNames(ts)
  {
    var names := MemberNames(ts);
    forall k | 0 <= k < |names| ensures names[k] != MemberName(id, tag) {
      var t := ts[k / 2];
      assert t in ts;
      MemberNamesDiffer(t.id, id, if k % 2 == 0 then StartTag else EndTag, tag);
    }
  }

  /** The ZREM calls cleanup makes, in order. */
  function ExpiredNames(trips: seq<Trip>, now: int): seq<string> {
    MemberNames(Filter(trips, IsExpired(now)))
  }

  /** The number of ZREM calls that go through before the failing one. */
  function RemovedCount(names: seq<string>, zremFailsAt: Option<nat>): (k: nat)
    ensures k <= |names|
    ensures zremFailsAt.None? ==> k == |names|
  {
    if zremFailsAt.Some? && zremFailsAt.value < |names| then zremFailsAt.value else |names|
  }

  /** The names of trip i sit at 2i and 2i + 1. */
  lemma MemberNamesAt(ts: seq<Trip>, i: nat)
    requires i < |ts|
    ensures MemberNames(ts)[2 * i] == MemberName(ts[i].id, StartTag)
    ensures MemberNames(ts)[2 * i + 1] == MemberName(ts[i].id, EndTag)
  {
    assert (2 * i) / 2 == i && (2 * i) % 2 == 0;
    assert (2 * i + 1) / 2 == i && (2 * i + 1) % 2 == 1;
  }

  /** One more name of the prefix adds that name to its elements. */
  lemma ElementsPrefixStep(s: seq<string>, k: nat)
    requires k < |s|
    ensures Elements(s[..k + 1]) == Elements(s[..k]) + {s[k]}
  {
    assert s[..k + 1] == s[..k] + [s[k]];
  }

  /** Removing the next name of the prefix removes the longer prefix. */
  lemma RemoveNext(m: map<string, Position>, s: seq<string>, k: nat)
    requires k < |s|
    ensures (m - Elements(s[..k])) - {s[k]} == m - Elements(s[..k + 1])
  {
    ElementsPrefixStep(s, k);
  }

  /** The ZREM loop of cleanup over the expired trips. It answers how many
      calls went through, all of them unless one fails. */
  method RemoveExpiredMembers(geo: Index, expiredTrips: seq<Trip>, zremFailsAt: Option<nat>)
    returns (removed: nat)
    modifies geo
    ensures removed == RemovedCount(MemberNames(expiredTrips), zremFailsAt)
    ensures geo.members == old(geo.members) - Elements(MemberNames(expiredTrips)[..removed])
  {
    ghost var names := MemberNames(expiredTrips);
    ghost var members0 := geo.members;
    var calls: nat := 0;
    for i := 0 to |expiredTrips|
      invariant calls == 2 * i
      invariant zremFailsAt.Some? ==> calls <= zremFailsAt.value
      invariant geo.members == members0 - Elements(names[..calls])
    {
      var t := expiredTrips[i];
      var start := MemberName(t.id, StartTag);
      var end := MemberName(t.id, EndTag);
      MemberNamesAt(expiredTrips, i);
      if zremFailsAt == Some(calls) {
        return calls;
      }
      geo.Remove(start);
      RemoveNext(members0, names, calls);
      if zremFailsAt == Some(calls + 1) {
        return calls + 1;
      }
      geo.Remove(end);
      RemoveNext(members0, names, calls + 1);
      calls := calls + 2;
    }
    assert names[..calls] == names;
    removed := calls;
  }

  /** cleanup. The geo removals made before a failure stay; the table delete
      is rolled back by a failure of the commit or of an earlier ZREM. */
  method Cleanup(table: TripTable, geo: Index, now: int, zremFailsAt: Option<nat>, commitFails: bool)
    returns (ok: bool)
    requires table.Valid()
    modifies table, geo
    ensures table.Valid() && table.nextId == old(table.nextId)
    ensures var names := ExpiredNames(old(table.trips), now);
      geo.members == old(geo.members) - Elements(names[..RemovedCount(names, zremFailsAt)])
    ensures ok <==> RemovedCount(ExpiredNames(old(table.trips), now), zremFailsAt) == |ExpiredNames(old(table.trips), now)| && !commitFails
    ensures ok ==> table.trips == Filter(old(table.trips), IsCurrent(now))
    ensures !ok ==> table.trips == old(table.trips)
  {
    var expiredTrips := Filter(table.trips, IsExpired(now));
    if expiredTrips != [] {
      var removed := RemoveExpiredMembers(geo, expiredTrips, zremFailsAt);
      if removed < |MemberNames(expiredTrips)| {
        return false;
      }
    }
    var before := table.trips;
    FilterDistinctOn(before, IsCurrent(now), TripIdOf);
    FilterDistinctOn(before, IsCurrent(now), TripUserOf);
    table.trips := Filter(before, IsCurrent(now));
    if commitFails {
      table.trips := before;
      return false;
    }
    ok := true;
  }

  /** After a successful sweep no expired trip is left, and the geo index no
      longer holds either name of any expired trip. */
  lemma SweptTripsAreGone(trips: seq<Trip>, members: map<string, Position>, now: int, t: Trip)
    requires t in trips && t.time <= now
    ensures t !in Filter(trips, IsCurrent(now))
    ensures MemberName(t.id, StartTag) !in members - Elements(ExpiredNames(trips, now))
    ensures MemberName(t.id, EndTag) !in members - Elements(ExpiredNames(trips, now))
  {
    MemberNamesOfTrip(Filter(trips, IsExpired(now)), t);
  }

  /** In a table with distinct ids, the sweep never touches the geo members
      of a trip that has not expired, whether or not it fails part way. */
  lemma CurrentMembersUntouched(trips: seq<Trip>, removed: seq<string>, now: int, u: Trip, tag: string)
    requires TripIdsDistinct(trips)
    requires u in trips && u.time > now
    requires exists k :: 0 <= k <= |ExpiredNames(trips, now)| && removed == ExpiredNames(trips, now)[..k]
    ensures MemberName(u.id, tag) !in Elements(removed)
  {
    var expired := Filter(trips, IsExpired(now));
    forall t | t in expired ensures t.id != u.id {
      var i :| 0 <= i < |trips| && trips[i] == t;
      var j :| 0 <= j < |trips| && trips[j] == u;
      assert i != j;
      assert TripIdOf(trips[i]) != TripIdOf(trips[j]);
    }
    MemberNamesOfOthers(expired, u.id, tag);
  }
}
