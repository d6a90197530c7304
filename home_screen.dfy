/** The home screen: typing a place name fetches suggestions, picking one
    fixes the origin or the target, a route between both is fetched and its
    duration put in words, and confirming opens a time picker whose choice
    is posted as a new trip. */
module HomeScreen {
  import opened Common
  import opened Client

  // ---------------------------------------------------------------------
  // Numbers as JavaScript prints them

  /** The integer part of x, rounding toward zero. */
  function Trunc(x: real): (t: int)
    ensures x >= 0.0 ==> t == x.Floor
    ensures x < 0.0 ==> t == -((-x).Floor)
  {
    if x >= 0.0 then x.Floor else -((-x).Floor)
  }

  lemma ScaleLe(a: real, b: real, y: real)
    requires a <= b && y > 0.0
    ensures a * y <= b * y
  {
  }

  lemma ScaleLt(a: real, b: real, y: real)
    requires a < b && y > 0.0
    ensures a * y < b * y
  {
  }

  /** The quotient x / y times y is x again. */
  lemma DivMul(x: real, y: real)
    requires y > 0.0
    ensures (x / y) * y == x
  {
  }

  lemma Distrib(q: real, c: real, y: real)
    ensures (q + c) * y == q * y + c * y
  {
  }

  /** A quotient between q and q + 1 puts x between q and q + 1 times y. */
  lemma Between(x: real, y: real, q: real)
    requires y > 0.0 && q <= x / y < q + 1.0
    ensures q * y <= x < q * y + y
  {
    var t, p := x / y, q + 1.0;
    DivMul(x, y);
    assert t * y == x;
    ScaleLe(q, t, y);
    ScaleLt(t, p, y);
    assert t * y < p * y;
    assert x < p * y;
    Distrib(q, 1.0, y);
    assert q * y <= x;
  }

  /** A quotient between q - 1 and q puts x between q - 1 and q times y. */
  lemma BetweenBelow(x: real, y: real, q: real)
    requires y > 0.0 && q - 1.0 < x / y <= q
    ensures q * y - y < x <= q * y
  {
    var t, p := x / y, q - 1.0;
    DivMul(x, y);
    assert t * y == x;
    ScaleLe(t, q, y);
    ScaleLt(p, t, y);
    assert p * y < t * y;
    assert p * y < x;
    Distrib(q, -1.0, y);
    assert x <= q * y;
  }

  /** The truncated quotient q of x by y stays within one y of x. */
  lemma TruncBounds(x: real, y: real)
    requires y > 0.0
    ensures var q := Trunc(x / y) as real;
      && (x >= 0.0 ==> q * y <= x < q * y + y)
      && (x < 0.0 ==> q * y - y < x <= q * y)
  {
    var q := Trunc(x / y) as real;
    if x >= 0.0 {
      assert x / y >= 0.0;
      Between(x, y, q);
    } else {
      assert x / y < 0.0;
      BetweenBelow(x, y, q);
    }
  }

  /** JavaScript's `%` on numbers: the remainder of the truncated quotient,
      so it has the sign of the dividend. */
  function JsRem(x: real, y: real): (r: real)
    requires y > 0.0
    ensures x >= 0.0 ==> 0.0 <= r < y
    ensures x < 0.0 ==> -y < r <= 0.0
  {
    TruncBounds(x, y);
    x - y * (Trunc(x / y) as real)
  }

  /** The nearest whole number to a non-negative x, halves rounding up. */
  function RoundHalfUp(x: real): (n: nat)
    requires x >= 0.0
    ensures (n as real) - 0.5 <= x < (n as real) + 0.5
  {
    (x + 0.5).Floor
  }

  /** `x.toFixed(0)`: the magnitude rounded half up, with a leading '-' for
      a negative x (also when it rounds to 0). */
  function ToFixed0(x: real): (s: string)
    ensures x >= 0.0 ==> s == NatToString(RoundHalfUp(x))
    ensures x < 0.0 ==> s == "-" + NatToString(RoundHalfUp(-x))
  {
    if x < 0.0 then "-" + NatToString(RoundHalfUp(-x)) else NatToString(RoundHalfUp(x))
  }

  lemma RoundWhole(n: nat)
    ensures RoundHalfUp(n as real) == n
  {
  }

  // ---------------------------------------------------------------------
  // timeToWords

  /** timeToWords: a duration in seconds, as hours and minutes from one hour
      on and as minutes and seconds below. */
  function TimeToWords(time: real): string {
    var reduced := time / 60.0;
    if reduced >= 60.0 then
      IntToString((reduced / 60.0).Floor) + " Hours and " + ToFixed0(JsRem(reduced, 60.0)) + " Minutes"
    else
      IntToString(reduced.Floor) + " Minutes and " + ToFixed0(JsRem(reduced, 1.0) * 60.0) + " Seconds"
  }

  /** The remainder by 60 or by 1 of q whole divisors plus a part r below
      the divisor is r. */
  lemma JsRemOf(x: real, y: real, q: nat, r: real)
    requires y == 60.0 || y == 1.0
    requires 0.0 <= r < y && x == (q as real) * y + r
    ensures JsRem(x, y) == r
  {
    if y == 60.0 {
      assert x / 60.0 == (q as real) + r / 60.0;
      assert (x / 60.0).Floor == q;
    } else {
      assert x / 1.0 == (q as real) + r;
      assert (x / 1.0).Floor == q;
    }
  }

  /** The words from one hour on, given its whole hours and rounded minutes. */
  lemma HoursWords(d: real, h: nat, minutes: nat)
    requires d / 60.0 >= 60.0
    requires (d / 60.0 / 60.0).Floor == h && RoundHalfUp(JsRem(d / 60.0, 60.0)) == minutes
    ensures TimeToWords(d) == NatToString(h) + " Hours and " + NatToString(minutes) + " Minutes"
  {
  }

  /** The words below one hour, from zero, given its whole minutes and
      rounded seconds. */
  lemma MinutesWords(d: real, mins: nat, secs: nat)
    requires 0.0 <= d / 60.0 < 60.0
    requires (d / 60.0).Floor == mins && RoundHalfUp(JsRem(d / 60.0, 1.0) * 60.0) == secs
    ensures TimeToWords(d) == NatToString(mins) + " Minutes and " + NatToString(secs) + " Seconds"
  {
  }

  /** For a whole number of seconds under an hour, the words are its minutes
      and the seconds left over, exactly. */
  lemma TimeToWordsBelowHour(d: nat)
    requires d < 3600
    ensures TimeToWords(d as real) == NatToString(d / 60) + " Minutes and " + NatToString(d % 60) + " Seconds"
  {
    var q, r := d / 60, d % 60;
    var m := (d as real) / 60.0;
    assert m == (q as real) + (r as real) / 60.0;
    assert m.Floor == q;
    JsRemOf(m, 1.0, q, (r as real) / 60.0);
    assert JsRem(m, 1.0) * 60.0 == r as real;
    RoundWhole(r);
    MinutesWords(d as real, q, r);
  }

  /** For a whole number of minutes from one hour on, the words are its
      hours and the minutes left over, exactly. */
  lemma TimeToWordsWholeMinutes(d: nat)
    requires d >= 3600 && d % 60 == 0
    ensures TimeToWords(d as real) == NatToString(d / 3600) + " Hours and " + NatToString((d / 60) % 60) + " Minutes"
  {
    var mins := d / 60;
    var h, r := mins / 60, mins % 60;
    var m := (d as real) / 60.0;
    assert m == mins as real;
    assert m / 60.0 == (h as real) + (r as real) / 60.0;
    assert (m / 60.0).Floor == h;
    assert h == d / 3600;
    JsRemOf(m, 60.0, h, r as real);
    RoundWhole(r);
    HoursWords(d as real, h, r);
  }

  /** From one hour on, the hours are the whole hours of the duration and
      the minutes a rounded number between 0 and 60 inclusive: a remainder
      of 59.5 minutes or more rounds up to 60 while the hours stay put. */
  lemma TimeToWordsHoursRange(d: real)
    requires d >= 3600.0
    ensures exists h: nat, mins: nat ::
      && h >= 1 && h == (d / 3600.0).Floor && mins <= 60
      && TimeToWords(d) == NatToString(h) + " Hours and " + NatToString(mins) + " Minutes"
  {
    var m := d / 60.0;
    assert m / 60.0 == d / 3600.0;
    var h: nat := (m / 60.0).Floor;
    var mins := RoundHalfUp(JsRem(m, 60.0));
    HoursWords(d, h, mins);
  }

  /** Below one hour (and from zero), the minutes are the whole minutes and
      the seconds a rounded number between 0 and 60 inclusive. */
  lemma TimeToWordsMinutesRange(d: real)
    requires 0.0 <= d < 3600.0
    ensures exists mins: nat, secs: nat ::
      && mins < 60 && mins == (d / 60.0).Floor && secs <= 60
      && TimeToWords(d) == NatToString(mins) + " Minutes and " + NatToString(secs) + " Seconds"
  {
    var m := d / 60.0;
    var mins: nat := m.Floor;
    var secs := RoundHalfUp(JsRem(m, 1.0) * 60.0);
    MinutesWords(d, mins, secs);
  }

  /** One hour. */
  lemma TimeToWordsOneHour()
    ensures TimeToWords(3600.0) == "1 Hours and 0 Minutes"
  {
    var m := 3600.0 / 60.0;
    assert m == 60.0;
    assert (m / 60.0).Floor == 1;
    JsRemOf(m, 60.0, 1, 0.0);
    assert RoundHalfUp(0.0) == 0;
    assert NatToString(1) == "1" && NatToString(0) == "0";
    HoursWords(3600.0, 1, 0);
  }

  /** 7170 seconds are 119.5 minutes: one hour and 59.5 minutes, and the
      minutes round up to 60. */
  lemma TimeToWordsRoundsToSixty()
    ensures TimeToWords(7170.0) == "1 Hours and 60 Minutes"
  {
    var m := 7170.0 / 60.0;
    assert m == 119.5;
    assert (m / 60.0).Floor == 1;
    JsRemOf(m, 60.0, 1, 59.5);
    assert RoundHalfUp(59.5) == 60;
    HoursWords(7170.0, 1, 60);
  }

  // ---------------------------------------------------------------------
  // Coordinates: [lon, lat] arrays and {latitude, longitude} objects

  /** A map point as the screen keeps it. */
  datatype PointObj = PointObj(latitude: JsValue, longitude: JsValue)

  /** originArrayToObject / targetArrayToObject, and the mapping of each
      route position: index 1 is the latitude, index 0 the longitude. */
  function ArrayToObject(a: seq<JsValue>): (p: PointObj)
    ensures p.latitude == At(a, 1) && p.longitude == At(a, 0)
  {
    PointObj(At(a, 1), At(a, 0))
  }

  /** A point as fetchCoordinates sends it: `[longitude, latitude]`. */
  function ObjectToArray(p: PointObj): (a: seq<JsValue>)
    ensures |a| == 2 && a[0] == p.longitude && a[1] == p.latitude
  {
    [p.longitude, p.latitude]
  }

  /** Object to array and back is the identity. */
  lemma ObjectArrayRoundTrip(p: PointObj)
    ensures ArrayToObject(ObjectToArray(p)) == p
  {
  }

  /** Array to object and back is the identity on two-element positions. */
  lemma ArrayObjectRoundTrip(a: seq<JsValue>)
    requires |a| == 2
    ensures ObjectToArray(ArrayToObject(a)) == a
  {
  }

  /** The `coordinates` body of the route request. */
  function RouteRequest(start: PointObj, end: PointObj): (body: seq<seq<JsValue>>)
    ensures |body| == 2 && ArrayToObject(body[0]) == start && ArrayToObject(body[1]) == end
  {
    [ObjectToArray(start), ObjectToArray(end)]
  }

  /** The route positions of a reply, as points, one for one and in order. */
  function RouteToPoints(cs: seq<seq<JsValue>>): (ps: seq<PointObj>)
    ensures |ps| == |cs|
    ensures forall i :: 0 <= i < |cs| ==> ps[i] == ArrayToObject(cs[i])
    decreases |cs|
  {
    if cs == [] then [] else [ArrayToObject(cs[0])] + RouteToPoints(cs[1..])
  }

  /** A route sent as arrays comes back as the same points. */
  lemma RouteRoundTrip(ps: seq<PointObj>)
    ensures RouteToPoints(seq(|ps|, i requires 0 <= i < |ps| => ObjectToArray(ps[i]))) == ps
  {
    var cs := seq(|ps|, i requires 0 <= i < |ps| => ObjectToArray(ps[i]));
    forall i | 0 <= i < |ps| ensures RouteToPoints(cs)[i] == ps[i] {
      ObjectArrayRoundTrip(ps[i]);
    }
  }

  /** How the route request ends: the backend's coordinates and duration,
      or an error (including a body the mapping throws on). */
  datatype RouteReply = RouteBody(coordinates: seq<seq<JsValue>>, duration: real) | RouteFailed

  // ---------------------------------------------------------------------
  // Suggestions

  /** A geocoder feature: its properties and its geometry's coordinates. */
  datatype Feature = Feature(id: JsValue, name: string, country: string, coordinates: seq<JsValue>)

  /** A suggestion in the list. */
  datatype Suggestion = Suggestion(id: JsValue, name: string, place: string, coordinates: seq<JsValue>)

  datatype SuggestionsReply = FeaturesBody(features: seq<Feature>) | SuggestionsFailed

  /** The suggestion a feature becomes: the place is its country. */
  function SuggestionOf(f: Feature): (s: Suggestion)
    ensures s.id == f.id && s.name == f.name && s.place == f.country && s.coordinates == f.coordinates
  {
    Suggestion(f.id, f.name, f.country, f.coordinates)
  }

  /** The features mapped one for one, in order. */
  function MapFeatures(fs: seq<Feature>): (ss: seq<Suggestion>)
    ensures |ss| == |fs|
    ensures forall i :: 0 <= i < |fs| ==> ss[i] == SuggestionOf(fs[i])
    decreases |fs|
  {
    if fs == [] then [] else [SuggestionOf(fs[0])] + MapFeatures(fs[1..])
  }

  /** `!query || query.length < 2`, the length counted in UTF-16 code
      units; the empty query is the falsy one. */
  predicate QueryTooShort(query: string) {
    JsLength(query) < 2
  }

  /** A single astral character is long enough to be sent. */
  lemma AstralQuerySent(c: char)
    requires Astral(c)
    ensures !QueryTooShort([c])
  {
    assert [c][1..] == [];
  }

  /** The list a finished suggestion request leaves: the mapped features, or
      nothing on an error. */
  function SuggestionsAfter(reply: SuggestionsReply): (ss: seq<Suggestion>)
    ensures reply.SuggestionsFailed? ==> ss == []
    ensures reply.FeaturesBody? ==> |ss| == |reply.features|
    ensures reply.FeaturesBody? ==>
      forall i :: 0 <= i < |ss| ==> ss[i].name == reply.features[i].name && ss[i].place == reply.features[i].country
  {
    if reply.FeaturesBody? then MapFeatures(reply.features) else []
  }

  // ---------------------------------------------------------------------
  // Focus and back press

  /** The two text inputs and their focus flags. */
  datatype InputState = InputState(location: string, destination: string, isLocationFocused: bool, isDestinationFocused: bool)

  datatype BackResult = BackResult(state: InputState, handled: bool)

  /** onBackPress: the location input first, then the destination input, is
      cleared and unfocused; with neither focused nothing is handled. */
  function BackPress(s: InputState): (r: BackResult)
    ensures r.handled <==> s.isLocationFocused || s.isDestinationFocused
    ensures s.isLocationFocused ==> r.state == s.(location := "", isLocationFocused := false)
    ensures !s.isLocationFocused && s.isDestinationFocused ==> r.state == s.(destination := "", isDestinationFocused := false)
    ensures !r.handled ==> r.state == s
  {
    if s.isLocationFocused then BackResult(s.(location := "", isLocationFocused := false), true)
    else if s.isDestinationFocused then BackResult(s.(destination := "", isDestinationFocused := false), true)
    else BackResult(s, false)
  }

  /** Back presses never focus an input, and two of them leave both
      unfocused, after which a third is not handled. */
  lemma BackPressUnfocuses(s: InputState)
    ensures BackPress(s).state.isLocationFocused ==> s.isLocationFocused
    ensures BackPress(s).state.isDestinationFocused ==> s.isDestinationFocused
    ensures var t := BackPress(BackPress(s).state).state;
      !t.isLocationFocused && !t.isDestinationFocused && !BackPress(t).handled
  {
  }

  // ---------------------------------------------------------------------
  // The trip that is posted

  /** The body of POST /trips/post_trips. */
  datatype TripPayload = TripPayload(
    originName: string,
    targetName: string,
    time: string,
    routeCoordinates: Option<seq<PointObj>>,
    accessToken: Option<string>)

  /** The route part of the screen. */
  datatype PlanState = PlanState(
    origin: Option<PointObj>,
    target: Option<PointObj>,
    routeCoordinates: Option<seq<PointObj>>,
    time: string,
    showTimePicker: bool,
    selectedTime: Option<string>)

  /** What the post mutation does once it settles: the trip screen on success. */
  function AfterPostTrip(reply: ApiReply): (actions: seq<Action>)
    ensures actions != [] <==> reply.Response?
    ensures forall a :: a in actions ==> a == Navigate(TripsRoute)
  {
    if reply.Response? then [Navigate(TripsRoute)] else []
  }

  /** The screen's state. */
  class Home {
    var location: string
    var destination: string
    var isLocationFocused: bool
    var isDestinationFocused: bool
    var locationSuggestions: seq<Suggestion>
    var destinationSuggestions: seq<Suggestion>
    var isFetching: bool
    var origin: Option<PointObj>
    var target: Option<PointObj>
    var routeCoordinates: Option<seq<PointObj>>
    var time: string
    var showTimePicker: bool
    var selectedTime: Option<string>

    function Inputs(): InputState
      reads this
    {
      InputState(location, destination, isLocationFocused, isDestinationFocused)
    }

    function Plan(): PlanState
      reads this
    {
      PlanState(origin, target, routeCoordinates, time, showTimePicker, selectedTime)
    }

    constructor ()
      ensures Inputs() == InputState("", "", false, false)
      ensures locationSuggestions == [] && destinationSuggestions == [] && !isFetching
      ensures Plan() == PlanState(None, None, None, "", false, None)
    {
      location, destination := "", "";
      isLocationFocused, isDestinationFocused := false, false;
      locationSuggestions, destinationSuggestions := [], [];
      isFetching := false;
      origin, target, routeCoordinates := None, None, None;
      time := "";
      showTimePicker := false;
      selectedTime := None;
    }

    /** The onFocus of the location or the destination input. */
    method Focus(onLocation: bool)
      modifies this
      ensures Inputs() == if onLocation then old(Inputs()).(isLocationFocused := true) else old(Inputs()).(isDestinationFocused := true)
      ensures locationSuggestions == old(locationSuggestions) && destinationSuggestions == old(destinationSuggestions)
      ensures isFetching == old(isFetching) && Plan() == old(Plan())
    {
      if onLocation {
        isLocationFocused := true;
      } else {
        isDestinationFocused := true;
      }
    }

    /** onBackPress. */
    method OnBackPress() returns (handled: bool)
      modifies this
      ensures BackResult(Inputs(), handled) == BackPress(old(Inputs()))
      ensures locationSuggestions == old(locationSuggestions) && destinationSuggestions == old(destinationSuggestions)
      ensures isFetching == old(isFetching) && Plan() == old(Plan())
    {
      if isLocationFocused {
        location := "";
        isLocationFocused := false;
        return true;
      } else if isDestinationFocused {
        destination := "";
        isDestinationFocused := false;
        return true;
      }
      return false;
    }

    /** The hardware back handler: onBackPress when an input is focused,
      which makes it the same as onBackPress. */
    method HardwareBack() returns (handled: bool)
      modifies this
      ensures BackResult(Inputs(), handled) == BackPress(old(Inputs()))
      ensures locationSuggestions == old(locationSuggestions) && destinationSuggestions == old(destinationSuggestions)
      ensures isFetching == old(isFetching) && Plan() == old(Plan())
    {
      if isLocationFocused || isDestinationFocused {
        var _ := OnBackPress();
        return true;
      }
      return false;
    }

    /** Pressing a suggestion: handleSelectSuggestion for the focused input,
      location first; it takes the name, drops the focus and sets the point. */
    method SelectSuggestion(s: Suggestion)
      modifies this
      ensures old(isLocationFocused) ==>
        && Inputs() == old(Inputs()).(location := s.name, isLocationFocused := false)
        && Plan() == old(Plan()).(origin := Some(ArrayToObject(s.coordinates)))
      ensures !old(isLocationFocused) && old(isDestinationFocused) ==>
        && Inputs() == old(Inputs()).(destination := s.name, isDestinationFocused := false)
        && Plan() == old(Plan()).(target := Some(ArrayToObject(s.coordinates)))
      ensures !old(isLocationFocused) && !old(isDestinationFocused) ==> Inputs() == old(Inputs()) && Plan() == old(Plan())
      ensures locationSuggestions == old(locationSuggestions) && destinationSuggestions == old(destinationSuggestions)
      ensures isFetching == old(isFetching)
    {
      if isLocationFocused {
        location := s.name;
        isLocationFocused := false;
        origin := Some(ArrayToObject(s.coordinates));
      } else if isDestinationFocused {
        destination := s.name;
        isDestinationFocused := false;
        target := Some(ArrayToObject(s.coordinates));
      }
    }

    /** fetchSuggestions up to its request: a query under two characters
      empties that list and sends nothing; otherwise the screen is fetching
      and the encoded query is sent. */
    method StartSuggestions(forLocation: bool, query: string, encode: string -> string) returns (sent: Option<string>)
      modifies this
      ensures sent.None? <==> QueryTooShort(query)
      ensures QueryTooShort(query) ==>
        && isFetching == old(isFetching)
        && (if forLocation then locationSuggestions == [] && destinationSuggestions == old(destinationSuggestions)
            else destinationSuggestions == [] && locationSuggestions == old(locationSuggestions))
      ensures !QueryTooShort(query) ==>
        && sent == Some(encode(query)) && isFetching
        && locationSuggestions == old(locationSuggestions) && destinationSuggestions == old(destinationSuggestions)
      ensures Inputs() == old(Inputs()) && Plan() == old(Plan())
    {
      if QueryTooShort(query) {
        if forLocation {
          locationSuggestions := [];
        } else {
          destinationSuggestions := [];
        }
        return None;
      }
      isFetching := true;
      sent := Some(encode(query));
    }

    /** fetchSuggestions after its request: the list is set from the reply
      and the screen is no longer fetching, whichever way it ended. */
    method FinishSuggestions(forLocation: bool, reply: SuggestionsReply)
      modifies this
      ensures !isFetching
      ensures forLocation ==> locationSuggestions == SuggestionsAfter(reply) && destinationSuggestions == old(destinationSuggestions)
      ensures !forLocation ==> destinationSuggestions == SuggestionsAfter(reply) && locationSuggestions == old(locationSuggestions)
      ensures Inputs() == old(Inputs()) && Plan() == old(Plan())
    {
      var ss := SuggestionsAfter(reply);
      if forLocation {
        locationSuggestions := ss;
      } else {
        destinationSuggestions := ss;
      }
      isFetching := false;
    }

    /** The route effect with fetchCoordinates: once origin and target are
      both set, the route between them is requested; a reply sets the
      duration in words and the route, an error leaves both as they were. */
    method FetchRoute(reply: RouteReply) returns (request: Option<seq<seq<JsValue>>>)
      modifies this
      ensures request.Some? <==> origin.Some? && target.Some?
      ensures request.Some? ==> request.value == RouteRequest(origin.value, target.value)
      ensures request.Some? && reply.RouteBody? ==>
        Plan() == old(Plan()).(time := TimeToWords(reply.duration), routeCoordinates := Some(RouteToPoints(reply.coordinates)))
      ensures request.None? || reply.RouteFailed? ==> Plan() == old(Plan())
      ensures Inputs() == old(Inputs())
      ensures locationSuggestions == old(locationSuggestions) && destinationSuggestions == old(destinationSuggestions)
      ensures isFetching == old(isFetching)
    {
      if origin.None? || target.None? {
        return None;
      }
      request := Some(RouteRequest(origin.value, target.value));
      if reply.RouteBody? {
        time := TimeToWords(reply.duration);
        routeCoordinates := Some(RouteToPoints(reply.coordinates));
      }
    }

    /** handleConfirmTrip: the time picker opens only with both points set. */
    method HandleConfirmTrip()
      modifies this
      ensures Plan() == if old(origin).Some? && old(target).Some? then old(Plan()).(showTimePicker := true) else old(Plan())
      ensures Inputs() == old(Inputs())
      ensures locationSuggestions == old(locationSuggestions) && destinationSuggestions == old(destinationSuggestions)
      ensures isFetching == old(isFetching)
    {
      if origin.Some? && target.Some? {
        showTimePicker := true;
      }
    }

    /** handleTimePickerConfirm, given the picked time as its ISO string and
      the stored token: the picker closes and the trip is posted with the
      two names, the time, the route and the token. */
    method HandleTimePickerConfirm(isoTime: string, token: Option<string>) returns (payload: TripPayload)
      modifies this
      ensures payload == TripPayload(location, destination, isoTime, routeCoordinates, token)
      ensures Plan() == old(Plan()).(showTimePicker := false, selectedTime := Some(isoTime))
      ensures Inputs() == old(Inputs())
      ensures locationSuggestions == old(locationSuggestions) && destinationSuggestions == old(destinationSuggestions)
      ensures isFetching == old(isFetching)
    {
      selectedTime := Some(isoTime);
      showTimePicker := false;
      payload := TripPayload(location, destination, isoTime, routeCoordinates, token);
    }

    /** handleTimePickerCancel: the picker closes. */
    method HandleTimePickerCancel()
      modifies this
      ensures Plan() == old(Plan()).(showTimePicker := false)
      ensures Inputs() == old(Inputs())
      ensures locationSuggestions == old(locationSuggestions) && destinationSuggestions == old(destinationSuggestions)
      ensures isFetching == old(isFetching)
    {
      showTimePicker := false;
    }
  }
}
