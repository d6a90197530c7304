/** The path-similarity stage of matching: the UTM zone choice for Nigeria and
    the walk over cyclic neighbour pairs of the candidate list, reporting the
    pairs whose Hausdorff distance is under one kilometre. Projection and the
    directed Hausdorff distance itself are an abstract function. */
module Hausdorff {
  import opened Common
  import opened Models

  const WestZone: string := "EPSG:32631"
  const CentralZone: string := "EPSG:32632"
  const EastZone: string := "EPSG:32633"

  /** One of the three UTM zones covering Nigeria, chosen by longitude. */
  function UtmZoneNigeria(lon: real): (zone: string)
    ensures zone == WestZone <==> lon < 6.0
    ensures zone == CentralZone <==> 6.0 <= lon < 12.0
    ensures zone == EastZone <==> 12.0 <= lon
  {
    if lon < 6.0 then WestZone
    else if 6.0 <= lon < 12.0 then CentralZone
    else EastZone
  }

  /** The directed Hausdorff distance in metres between two routes, after
      projecting both into the given zone (pyproj and scipy in the source). */
  type Directed = (string, seq<LatLng>, seq<LatLng>) -> real

  const CarpoolThresholdMeters: real := 1000.0

  /** One entry of the similarity result. The distance is kept in metres; the
      source reports it rounded to kilometres. */
  datatype PairResult = PairResult(
    trip1Id: int,
    trip2Id: int,
    hausdorffMeters: real,
    isCarpoolable: bool,
    usedUtmZone: string)

  function Max(a: real, b: real): real {
    if a >= b then a else b
  }

  /** The symmetric distance: the larger of the two directed ones. */
  function HausdorffMeters(directed: Directed, zone: string, a: seq<LatLng>, b: seq<LatLng>): (d: real)
    ensures d >= directed(zone, a, b) && d >= directed(zone, b, a)
    ensures d == directed(zone, a, b) || d == directed(zone, b, a)
  {
    Max(directed(zone, a, b), directed(zone, b, a))
  }

  /** Index of the right-hand neighbour of pair i: the last entry wraps to the first. */
  function Next(i: nat, n: nat): (j: nat)
    requires i < n
    ensures j < n
    ensures j == if i == n - 1 then 0 else i + 1
  {
    (i + 1) % n
  }

  /** Pair i of the walk: Ok(None) when it is skipped, Err when trip1 has no
      route point (the IndexError of `coords_list_1[0]`). Both point lists
      handed to the distance are trip1's route, as the source builds them. */
  function PairAt(trips: seq<Trip>, matches: seq<int>, i: nat, directed: Directed): (r: Result<Option<PairResult>>)
    requires i < |matches|
    ensures TripById(trips, matches[i]).None? || TripById(trips, matches[Next(i, |matches|)]).None?
      ==> r == Ok(None)
    ensures r.Err? <==>
      TripById(trips, matches[i]).Some? && TripById(trips, matches[Next(i, |matches|)]).Some? &&
      TripById(trips, matches[i]).value.route == []
    ensures r.Ok? && r.value.Some? ==> Reports(trips, matches, directed, i, r.value.value)
    ensures (TripById(trips, matches[i]).Some? && TripById(trips, matches[Next(i, |matches|)]).Some? &&
             TripById(trips, matches[i]).value.route != []) ==>
      var route := TripById(trips, matches[i]).value.route;
      r.Ok? && (r.value.Some? <==> HausdorffMeters(directed, UtmZoneNigeria(route[0].longitude), route, route) < CarpoolThresholdMeters)
  {
    var id1 := matches[i];
    var id2 := matches[Next(i, |matches|)];
    match (TripById(trips, id1), TripById(trips, id2))
    case (Some(trip1), Some(trip2)) =>
      if trip1.route == [] then Err(500, "list index out of range")
      else
        var zone := UtmZoneNigeria(trip1.route[0].longitude);
        var points1 := trip1.route;
        var points2 := trip1.route;
        var d := HausdorffMeters(directed, zone, points1, points2);
        if d < CarpoolThresholdMeters then Ok(Some(PairResult(id1, id2, d, true, zone))) else Ok(None)
    case _ => Ok(None)
  }

  /** What a reported pair i says: it pairs matches[i] with its cyclic
      neighbour, both trips exist, the distance is under the threshold, it is
      marked carpoolable and carries the zone of trip1's first longitude. */
  ghost predicate Reports(trips: seq<Trip>, matches: seq<int>, directed: Directed, i: nat, p: PairResult)
    requires i < |matches|
  {
    var t1 := TripById(trips, matches[i]);
    var t2 := TripById(trips, matches[Next(i, |matches|)]);
    && p.trip1Id == matches[i]
    && p.trip2Id == matches[Next(i, |matches|)]
    && t1.Some? && t2.Some? && t1.value.route != []
    && p.isCarpoolable
    && p.hausdorffMeters < CarpoolThresholdMeters
    && p.usedUtmZone == UtmZoneNigeria(t1.value.route[0].longitude)
    && p.hausdorffMeters == HausdorffMeters(directed, p.usedUtmZone, t1.value.route, t1.value.route)
  }

  /** The results after the first k pairs of the walk. */
  function SimilarityUpTo(trips: seq<Trip>, matches: seq<int>, directed: Directed, k: nat): Result<seq<PairResult>>
    requires k <= |matches|
  {
    if k == 0 then Ok([])
    else
      match SimilarityUpTo(trips, matches, directed, k - 1)
      case Err(s, d) => Err(s, d)
      case Ok(rs) =>
        match PairAt(trips, matches, k - 1, directed)
        case Err(s, d) => Err(s, d)
        case Ok(None) => Ok(rs)
        case Ok(Some(p)) => Ok(rs + [p])
  }

  /** The indices i < k of the pairs that are reported. */
  ghost function ReportedUpTo(trips: seq<Trip>, matches: seq<int>, directed: Directed, k: nat): seq<nat>
    requires k <= |matches|
  {
    if k == 0 then []
    else
      ReportedUpTo(trips, matches, directed, k - 1) +
      (if PairAt(trips, matches, k - 1, directed).Ok? && PairAt(trips, matches, k - 1, directed).value.Some?
       then [k - 1] else [])
  }

  /** Once a pair fails, the walk fails with that error. */
  lemma {:induction false} SimilarityErrSticks(trips: seq<Trip>, matches: seq<int>, directed: Directed, k: nat, m: nat)
    requires k <= m <= |matches|
    requires SimilarityUpTo(trips, matches, directed, k).Err?
    ensures SimilarityUpTo(trips, matches, directed, m) == SimilarityUpTo(trips, matches, directed, k)
    decreases m - k
  {
    if k < m {
      SimilarityErrSticks(trips, matches, directed, k, m - 1);
    }
  }

  /** Increasing indices, all below n, hence at most n of them. */
  ghost predicate IncreasingBelow(ix: seq<nat>, n: nat) {
    && |ix| <= n
    && (forall j :: 0 <= j < |ix| ==> ix[j] < n)
    && (forall j1, j2 :: 0 <= j1 < j2 < |ix| ==> ix[j1] < ix[j2])
  }

  lemma IncreasingBelowAppend(ix: seq<nat>, n: nat, add: bool)
    requires IncreasingBelow(ix, n)
    ensures IncreasingBelow(ix + (if add then [n] else []), n + 1)
  {
    var ix1 := ix + (if add then [n] else []);
    assert forall j :: 0 <= j < |ix| ==> ix1[j] == ix[j];
  }

  /** The reported indices are increasing and below k. */
  lemma {:induction false} ReportedIncreasing(trips: seq<Trip>, matches: seq<int>, directed: Directed, k: nat)
    requires k <= |matches|
    ensures IncreasingBelow(ReportedUpTo(trips, matches, directed, k), k)
  {
    if k > 0 {
      ReportedIncreasing(trips, matches, directed, k - 1);
      var pk := PairAt(trips, matches, k - 1, directed);
      IncreasingBelowAppend(ReportedUpTo(trips, matches, directed, k - 1), k - 1, pk.Ok? && pk.value.Some?);
    }
  }

  /** Each result is what the pair at the same position of ix says. */
  ghost predicate Corresponds(trips: seq<Trip>, matches: seq<int>, directed: Directed, ix: seq<nat>, rs: seq<PairResult>) {
    |rs| == |ix| && forall j :: 0 <= j < |rs| ==> ix[j] < |matches| && Reports(trips, matches, directed, ix[j], rs[j])
  }

  lemma CorrespondsAppend(trips: seq<Trip>, matches: seq<int>, directed: Directed, ix: seq<nat>, rs: seq<PairResult>, i: nat, p: PairResult)
    requires Corresponds(trips, matches, directed, ix, rs)
    requires i < |matches| && Reports(trips, matches, directed, i, p)
    ensures Corresponds(trips, matches, directed, ix + [i], rs + [p])
  {
    var ix1, rs1 := ix + [i], rs + [p];
    assert forall j :: 0 <= j < |rs| ==> ix1[j] == ix[j] && rs1[j] == rs[j];
  }

  /** The i-th result is what the i-th reported pair says. */
  lemma {:induction false} ResultsReported(trips: seq<Trip>, matches: seq<int>, directed: Directed, k: nat)
    requires k <= |matches|
    requires SimilarityUpTo(trips, matches, directed, k).Ok?
    ensures Corresponds(trips, matches, directed, ReportedUpTo(trips, matches, directed, k), SimilarityUpTo(trips, matches, directed, k).value)
  {
    if k > 0 {
      var prev := SimilarityUpTo(trips, matches, directed, k - 1);
      assert prev.Ok?;
      ResultsReported(trips, matches, directed, k - 1);
      var rs0 := prev.value;
      var ix0 := ReportedUpTo(trips, matches, directed, k - 1);
      var rs := SimilarityUpTo(trips, matches, directed, k).value;
      var ix := ReportedUpTo(trips, matches, directed, k);
      var pk := PairAt(trips, matches, k - 1, directed);
      assert pk.Ok?;
      if pk.value.Some? {
        CorrespondsAppend(trips, matches, directed, ix0, rs0, k - 1, pk.value.value);
        assert rs == rs0 + [pk.value.value];
        assert ix == ix0 + [k - 1];
      } else {
        assert rs == rs0;
        assert ix == ix0;
      }
    }
  }

  /** The results match the reported indices one for one; those indices are
      increasing and below k, so there is at most one result per pair. */
  lemma SimilarityOrder(trips: seq<Trip>, matches: seq<int>, directed: Directed, k: nat)
    requires k <= |matches|
    requires SimilarityUpTo(trips, matches, directed, k).Ok?
    ensures |SimilarityUpTo(trips, matches, directed, k).value| == |ReportedUpTo(trips, matches, directed, k)| <= k
    ensures forall j :: 0 <= j < |ReportedUpTo(trips, matches, directed, k)| ==>
      ReportedUpTo(trips, matches, directed, k)[j] < k
    ensures forall j1, j2 :: 0 <= j1 < j2 < |ReportedUpTo(trips, matches, directed, k)| ==>
      ReportedUpTo(trips, matches, directed, k)[j1] < ReportedUpTo(trips, matches, directed, k)[j2]
    ensures forall j :: 0 <= j < |SimilarityUpTo(trips, matches, directed, k).value| ==>
      Reports(trips, matches, directed, ReportedUpTo(trips, matches, directed, k)[j],
              SimilarityUpTo(trips, matches, directed, k).value[j])
  {
    ReportedIncreasing(trips, matches, directed, k);
    ResultsReported(trips, matches, directed, k);
  }

  /** The loop of `similarity`. */
  method Similarity(trips: seq<Trip>, matches: seq<int>, directed: Directed) returns (r: Result<seq<PairResult>>)
    ensures r == SimilarityUpTo(trips, matches, directed, |matches|)
    ensures r.Ok? ==> |r.value| <= |matches|
    ensures r.Ok? ==> forall p :: p in r.value ==> p.isCarpoolable && p.hausdorffMeters < CarpoolThresholdMeters
  {
    var results: seq<PairResult> := [];
    var n := |matches|;
    for i := 0 to n
      invariant SimilarityUpTo(trips, matches, directed, i) == Ok(results)
    {
      var pair := PairAt(trips, matches, i, directed);
      match pair
      case Err(s, d) =>
        SimilarityErrSticks(trips, matches, directed, i + 1, n);
        return Err(s, d);
      case Ok(None) =>
      case Ok(Some(p)) =>
        results := results + [p];
    }
    r := Ok(results);
    SimilarityOrder(trips, matches, directed, n);
    SimilarityCarpoolable(trips, matches, directed);
  }

  /** Every reported pair is marked carpoolable and is under the threshold. */
  lemma SimilarityCarpoolable(trips: seq<Trip>, matches: seq<int>, directed: Directed)
    requires SimilarityUpTo(trips, matches, directed, |matches|).Ok?
    ensures forall p :: p in SimilarityUpTo(trips, matches, directed, |matches|).value ==>
      p.isCarpoolable && p.hausdorffMeters < CarpoolThresholdMeters
  {
    var results := SimilarityUpTo(trips, matches, directed, |matches|).value;
    SimilarityOrder(trips, matches, directed, |matches|);
    forall p | p in results ensures p.isCarpoolable && p.hausdorffMeters < CarpoolThresholdMeters {
      var j :| 0 <= j < |results| && results[j] == p;
      assert Reports(trips, matches, directed, ReportedUpTo(trips, matches, directed, |matches|)[j], p);
    }
  }

  /** Because both point lists come from trip1, a distance that is zero from a
      route to itself reports every pair whose two trips exist. */
  lemma PairReportedWhenSelfDistanceZero(trips: seq<Trip>, matches: seq<int>, i: nat, directed: Directed)
    requires i < |matches|
    requires forall zone, route :: directed(zone, route, route) == 0.0
    requires TripById(trips, matches[i]).Some? && TripById(trips, matches[Next(i, |matches|)]).Some?
    requires TripById(trips, matches[i]).value.route != []
    ensures PairAt(trips, matches, i, directed).Ok?
    ensures PairAt(trips, matches, i, directed).value.Some?
  {
    var route := TripById(trips, matches[i]).value.route;
    var zone := UtmZoneNigeria(route[0].longitude);
    assert directed(zone, route, route) == 0.0;
  }
}
