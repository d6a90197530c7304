# RideShare carpool matching, modelled in Dafny

RideShare pairs people who travel the same way at about the same time. It has two parts.

The FastAPI backend:
- keeps a users table and a trips table;
- indexes each trip's start and end in a Redis geo set;
- offers the matches of a trip. A trip matches when:
  - both its ends are near this trip's ends;
  - it leaves within thirty minutes of this trip;
  - a Hausdorff distance under 1 km is computed for the pair; as written it compares trip1's route with itself, so it depends on trip1's route alone (see below).
- pushes a notification to each matched user who has a push token;
- limits each client address to one request per second;
- caches route lookups in a Redis hash;
- sweeps expired trips on a schedule.

The Expo client:
- boots into the sign-up screen, the home screen or the trip screen;
- attaches the stored token to every request;
- lets the user pick an origin and a destination from geocoder suggestions;
- draws the route and its duration in words;
- posts the trip;
- shows the matches, with cancel and join.

## Layout

The model follows the repository file by file.

Backend:
- `models.dfy` holds the table rows and the lookups SQL's `.first()` stands for.
- `geo_index.dfy` holds the geo set: a class over a map from member name to position.
- `trip_matching.dfy` holds the matching pipeline, the time window and the loop that builds the matches reply.
- `hausdorff.dfy` holds the similarity walk.
- `trips.dfy` holds the trips router, as a class over the trips table.
- `cleanup.dfy` holds the expiry sweep.
- `auth.dfy` holds the auth router, as a class over the users table.
- `rate_limit.dfy` holds the middleware.
- `route_cache.dfy` holds the directions cache.
- `signup_reply.dfy` holds the sign-up reply as the framework serializes it.

Client:
- `client.dfy` holds JavaScript values, axios outcomes, the interceptor and the token store.
- `bootstrap.dfy`, `home_screen.dfy`, `trips_screen.dfy` and `auth_screen.dfy` hold one screen each.
- `common.dfy` holds Option, Result, numerals and filtering.

What the model takes as inputs:
- Every external effect becomes an input: the geocoder, the directions service, the push service's token check, bcrypt, JWT decoding, the clock, and the GEORADIUS answers.
- The projected directed Hausdorff distance is an uninterpreted function `Directed`.
- Screens are classes whose fields are the React state they set, and handlers are methods on them.
- Asynchronous requests are split into the part before and the part after the reply; the reply is a parameter.

Three behaviours of the code are modelled as written:
- `similarity` computes the distance from trip1's route to trip1's route itself (BackEnd/hausdorff.py:36-37).
  - The distance is therefore independent of trip2.
  - `Hausdorff.PairReportedWhenSelfDistanceZero` states the consequence.
- `timeToWords` rounds the minutes after taking their remainder, so 7170 seconds read "1 Hours and 60 Minutes" (`HomeScreen.TimeToWordsRoundsToSixty`).
- `get_trip_status` is answered as a plain boolean. The bootstrap compares the body with `=== true`.

## Model

| member | source | states |
|---|---|---|
| Common.NatToString | BackEnd/trips.py:71-72 | the decimal numeral of the f-string: at least one character, all digits |
| Common.IntToString | RideShare/app/Home/index.jsx:108 | an integer's numeral, with '-' exactly for negatives |
| Common.ParseNat | BackEnd/trips.py:85 | int() succeeds exactly on a non-empty string of digits |
| Common.ParseNatToString | BackEnd/trips.py:71-85 | int() reads a written numeral back as the number |
| Common.NatToStringInjective | BackEnd/trips.py:71-72 | different numbers have different numerals |
| Models.TripById | BackEnd/trips.py:142 | a trip is found exactly when some row has that id, and the found row has it |
| Models.TripOfUser | BackEnd/trips.py:244 | a trip is found exactly when some row belongs to the user, and the found row does |
| Models.UserById | BackEnd/trips.py:106 | a user is found exactly when some row has that id, and the found row has it |
| Models.UserByEmail | BackEnd/auth.py:37 | a user is found exactly when some row has that email, and the found row has it |
| GeoIndex.IdPart | BackEnd/trips.py:78-79 | the id part is the prefix before the first ':', and contains no ':' |
| GeoIndex.MemberNameIdPart | BackEnd/trips.py:71-72 | the id part of "{id}:{tag}" is the id's numeral, and int() reads it back as the id |
| GeoIndex.MemberNamesDiffer | BackEnd/trips.py:71-72 | member names of different trips differ, whatever their tags |
| GeoIndex.Index.Add | BackEnd/trips.py:71-72 | GEOADD sets the member's position and leaves every other member alone |
| GeoIndex.Index.Remove | BackEnd/routine_del_trips.py:21-22 | ZREM removes exactly that member; an absent one changes nothing |
| TripMatching.CommonIdParts | BackEnd/trips.py:78-82 | an id part is common exactly when it is the id part of a member of both GEORADIUS results |
| TripMatching.ParsedIdsAdd | BackEnd/trips.py:85 | adding a numeral adds exactly its value to the parsed ids |
| TripMatching.ScanStep | BackEnd/trips.py:85 | reading one more numeral part keeps the parts read so far all numerals, and the ids their values other than the trip's own |
| TripMatching.CandidateIds | BackEnd/trips.py:85 | 500 exactly when some common id part is not a numeral; otherwise the ids are exactly the parsed common ids other than the trip's own, at most one per part |
| TripMatching.WellFormedIdParts | BackEnd/trips.py:71-85 | the id part of a member the pipeline wrote is a numeral, naming a trip with a member in that result |
| TripMatching.CandidateHasMembers | BackEnd/trips.py:78-85 | on well-formed results, a candidate has a member in both results |
| TripMatching.MembersMakeCandidate | BackEnd/trips.py:78-85 | another trip with a member in both results is a candidate |
| TripMatching.CandidatesOfWellFormedMembers | BackEnd/trips.py:71-85 | when every member was written as "{id}:{tag}", no parse fails, and an id is a candidate exactly when it is not this trip and has a member in both results |
| TripMatching.InTimeWindow | BackEnd/trips.py:211-225 | definition: a nearby id joins the window when it is not the trip, names a stored trip, and that trip's time is within thirty minutes of this one's |
| TripMatching.WindowStep | BackEnd/trips.py:211-226 | one more nearby id joins the window list exactly when it is not the trip, names a stored trip, and leaves within thirty minutes |
| TripMatching.WindowEmpty | BackEnd/trips.py:211-230 | with no nearby id in the window, the window list is empty |
| TripMatching.CarpoolOutcome | BackEnd/trips.py:201-234 | definition: 500 when the trip is not stored; otherwise [] when the window list holds only the trip, else the similarity walk over the trip followed by the window ids in input order |
| TripMatching.CarpoolMatch | BackEnd/trips.py:201-234 | equals the specified outcome: 500 for an unknown trip; [] when no nearby trip is stored within thirty minutes; otherwise the similarity of the window list with the trip itself first |
| TripMatching.PipelineOutcome | BackEnd/trips.py:62-91 | definition: the IndexError 500 for an empty route; 500 when some shared id part is not a numeral; otherwise the candidates are exactly the other trips whose id part is near both ends, and the reply is [] without candidates, else CarpoolOutcome over them |
| TripMatching.IndexedAfter | BackEnd/trips.py:64-72 | a non-empty route writes its first point under "{id}:start" and its last under "{id}:end", and leaves every other member; an empty route leaves the set unchanged |
| TripMatching.FindMatchesPipeline | BackEnd/trips.py:62-91 | the geo set is IndexedAfter's and the reply and candidates are PipelineOutcome's: an empty route fails before any write, a non-numeral id part gives 500, no candidates gives [], and the candidates are exactly the ids found near both ends |
| TripMatching.OtherId | BackEnd/trips.py:157-163 | a pair has an other side exactly when it involves the current trip |
| TripMatching.Ids | BackEnd/trips.py:156-179 | the ids of the reply entries, one for one |
| TripMatching.FirstOccurrences | BackEnd/trips.py:165-172 | the same elements, each once |
| TripMatching.CollectStep | BackEnd/trips.py:156-192 | definition: a pair not involving the current trip, a partner already seen or the current trip, or an unstored partner changes nothing; otherwise the partner's entry is appended and its id seen, and its owner is pushed once when not yet notified and holding a non-empty token |
| TripMatching.CollectAll | BackEnd/trips.py:152-192 | definition: CollectStep over the pairs in order, from no entries, nothing seen and no pushes |
| TripMatching.CollectStepEntries | BackEnd/trips.py:156-179 | one pair keeps the entries distinct stored trips other than the current one, described from their rows, with seen_ids their ids |
| TripMatching.PushOkGrow | BackEnd/trips.py:182-192 | a valid push stays valid when an entry is added |
| TripMatching.PushesOkGrow | BackEnd/trips.py:182-192 | the pushes stay valid when an entry is added |
| TripMatching.PushUsersAppend | BackEnd/trips.py:182-192 | pushing a user not yet notified keeps each user pushed at most once and the notified set equal to the pushed users |
| TripMatching.AllPushOkAppend | BackEnd/trips.py:182-190 | a valid push appended to valid pushes leaves all of them valid |
| TripMatching.PushesOkAppend | BackEnd/trips.py:182-192 | pushing a valid push to a user not yet notified keeps the pushes valid, distinct per user, and equal to the notified set |
| TripMatching.CollectStepPushes | BackEnd/trips.py:182-192 | one pair keeps every push to a distinct owner of an entry, with that owner's stored non-empty token, the fixed title and the current trip's body |
| TripMatching.CollectStepNotified | BackEnd/trips.py:182-192 | one pair keeps every entry whose owner has a push token notified |
| TripMatching.CollectAllOk | BackEnd/trips.py:156-192 | after the whole loop the entries, the pushes and the notified set satisfy all of the above |
| TripMatching.CollectAllOrder | BackEnd/trips.py:156-179 | the reply lists the stored partners of the current trip once each, in the order of their first pair |
| TripMatching.CollectMatches | BackEnd/trips.py:156-192 | the loop computes the specified entries and pushes: partners once each in first-pair order, none the current trip, each user pushed once with its stored token |
| Hausdorff.UtmZoneNigeria | BackEnd/hausdorff.py:10-19 | zone 31N exactly below longitude 6, 32N exactly from 6 to below 12, 33N exactly from 12 on |
| Hausdorff.HausdorffMeters | BackEnd/hausdorff.py:51-54 | the larger of the two directed distances |
| Hausdorff.Next | BackEnd/hausdorff.py:27-30 | the right-hand neighbour index, wrapping from the last to the first |
| Hausdorff.PairAt | BackEnd/hausdorff.py:25-63 | skipped unless both trips are stored; 500 exactly when both are stored and trip1's route is empty; with both stored and a non-empty route, the pair is reported exactly when the distance from trip1's route to itself is under 1000 m; a reported pair has the matches' ids, that distance and trip1's zone |
| Hausdorff.SimilarityUpTo | BackEnd/hausdorff.py:21-65 | definition: PairAt over the first k pairs in index order, appending each reported pair, stopping at the first error |
| Hausdorff.SimilarityErrSticks | BackEnd/hausdorff.py:27-40 | once a pair fails, the walk fails with the same error |
| Hausdorff.ReportedIncreasing | BackEnd/hausdorff.py:27-63 | the indices of the reported pairs are increasing and below the number of pairs walked |
| Hausdorff.ResultsReported | BackEnd/hausdorff.py:27-63 | each result is what the pair at the same position among the reported ones says |
| Hausdorff.SimilarityOrder | BackEnd/hausdorff.py:27-63 | the results correspond, in increasing index order, to the pairs that are reported |
| Hausdorff.Similarity | BackEnd/hausdorff.py:21-63 | the loop computes the specified walk, with at most one result per match, each carpoolable and under the threshold |
| Hausdorff.SimilarityCarpoolable | BackEnd/hausdorff.py:56-63 | every reported pair is carpoolable and under 1000 m |
| Hausdorff.PairReportedWhenSelfDistanceZero | BackEnd/hausdorff.py:36-40 | when a route's distance to itself is zero, every pair of stored trips with a non-empty trip1 route is reported |
| Trips.PostTokenUserId | BackEnd/trips.py:96-104 | 401 unless the token decodes with a non-zero id, then that id; an expired token gives "Token expired" |
| Trips.PostingUser | BackEnd/trips.py:96-110 | the token's user when stored; the token's 401 first, then 404 "User not found" |
| Trips.NewTrip | BackEnd/trips.py:121-130 | the new row carries the request's names, time and route and the user's id and gender |
| Trips.TripTable.constructor | BackEnd/models.py:17-28 | the table starts empty with the first key 1, satisfying the table invariant |
| Trips.TripTable.TripStatus | BackEnd/trips.py:196-199 | true exactly when some trip belongs to the user |
| Trips.TripTable.FetchTrip | BackEnd/trips.py:242-247 | 404 "Trip not found" exactly when the user has no trip; otherwise the id of a trip of the user |
| Trips.TripTable.FetchTripIsTheTrip | BackEnd/trips.py:242-247 | with one trip per user, the id is that trip's |
| Trips.TripTable.CancelTrips | BackEnd/trips.py:236-240 | exactly the user's trips are deleted, in order; the user then has none |
| Trips.TripTable.PostTrips | BackEnd/trips.py:93-137 | the token and user errors change nothing; an existing trip gives "User already has a trip" and changes nothing; otherwise exactly one trip with the next key is appended and stays, the geo set is IndexedAfter's for its route, and the reply is the trip with the pipeline's pairs, or 500 with the pipeline's error, the pipeline's outcome being PipelineOutcome's for the new trip |
| Trips.TripTable.GetMatches | BackEnd/trips.py:139-194 | 404 for an unknown trip, with no write; otherwise the geo set is IndexedAfter's for the stored route, the pipeline's outcome is PipelineOutcome's, its error is the reply, and its pairs give exactly CollectAll's entries and pushes: partners once each in first-pair order, never the trip itself, one push per user with a token |
| Trips.PipelinePairsReported | BackEnd/trips.py:139-194 | every pair the pipeline reports is under the threshold and carpoolable |
| Cleanup.IsExpired | BackEnd/routine_del_trips.py:16 | definition: a trip has expired when its time is at or before now |
| Cleanup.MemberNames | BackEnd/routine_del_trips.py:19-22 | two names per expired trip |
| Cleanup.MemberNamesAt | BackEnd/routine_del_trips.py:19-22 | the names of the i-th expired trip are removed at calls 2i and 2i + 1, start then end |
| Cleanup.MemberNamesOfTrip | BackEnd/routine_del_trips.py:19-22 | both names of each expired trip are removed |
| Cleanup.MemberNamesOfOthers | BackEnd/routine_del_trips.py:19-22 | no name of other trips names a trip with this id |
| Cleanup.RemovedCount | BackEnd/routine_del_trips.py:19-29 | at most all the names go through, and all of them when no ZREM fails |
| Cleanup.RemoveExpiredMembers | BackEnd/routine_del_trips.py:19-22 | the geo set loses exactly the names removed before the first failure |
| Cleanup.Cleanup | BackEnd/routine_del_trips.py:12-31 | success exactly when every ZREM and the commit succeed; then exactly the current trips remain; otherwise the table is rolled back, and the removals made before the failure stay |
| Cleanup.SweptTripsAreGone | BackEnd/routine_del_trips.py:16-25 | after a sweep no expired trip remains in the table or in the geo set |
| Cleanup.CurrentMembersUntouched | BackEnd/routine_del_trips.py:16-22 | with distinct ids, no removal names a trip that has not expired |
| Auth.NewUser | BackEnd/auth.py:39-45 | the new row has the request's email, age and gender, the password's hash and no push token |
| Auth.AuthenticateUser | BackEnd/auth.py:69-78 | a user exactly when the email is stored and the password verifies against its hash |
| Auth.CreateAccessToken | BackEnd/auth.py:80-82 | the claims are the email and the user id |
| Auth.Login | BackEnd/auth.py:58-67 | 401 "Could not validate user" exactly when authentication fails; otherwise a bearer token for that user |
| Auth.GetCurrentUser | BackEnd/auth.py:84-94 | the email and id when the token decodes with both; otherwise 401 "Could not validate user." |
| Auth.LoginTokenIdentifiesUser | BackEnd/auth.py:58-94 | a token issued at login reads back as the user it was issued for |
| Auth.SignUpThenAuthenticate | BackEnd/auth.py:35-78 | after signing up with a new email, the same email, as stored, and password authenticate the new user |
| Auth.ValidateSignUp | BackEnd/schemas.py:5-10 | 422 exactly when the email validator rejects the address; otherwise the same body with the normalized email |
| Auth.LoginWithTypedAddress | BackEnd/auth.py:35-78 | the login the sign-up screen sends next, with the address as typed, authenticates the new user exactly when validation left the address unchanged |

| Auth.SameKeysKeepTable | BackEnd/auth.py:96-102 | editing rows without touching their ids and emails keeps both unique and the ids below the next key |
| Auth.UserTable.constructor | BackEnd/models.py:5-15 | the table starts empty with the first key 1, satisfying the table invariant |
| Auth.UserTable.CreateUser | BackEnd/auth.py:35-56 | an existing email adds nothing and answers "Account already exists"; a new one appends exactly one row with the next key; emails stay unique |
| Auth.UserTable.UpdatePushToken | BackEnd/auth.py:96-102 | only the push token of the user with that id changes, and the answer is "Token updated" |
| RateLimit.Decide | BackEnd/main.py:71-92 | exempt paths pass untouched; otherwise 429 "Rate limit exceeded" exactly when less than a second has passed since the address's last accepted request, and only acceptance moves the record; other addresses are untouched |
| RateLimit.DecideStep | BackEnd/main.py:78-83 | an accepted request from the address sets its record to the request's time, a second or more after the old record; any other request leaves its record |
| RateLimit.AcceptedRequestsSpaced | BackEnd/main.py:69-92 | over any run, the accepted requests of an address are at least a second apart, and its record is the last of them |
| RateLimit.RateLimiter.constructor | BackEnd/main.py:69 | no address has a record yet |
| RateLimit.RateLimiter.Dispatch | BackEnd/main.py:71-92 | the outcome and the new records are the decision's |
| RouteCache.DirectionsError | BackEnd/suggestions_routes.py:82-85 | an error reply: the service's status for an HTTP error, 500 otherwise |
| RouteCache.Fetch | BackEnd/suggestions_routes.py:36-85 | a hit answers the cached route and changes nothing; a miss stores and answers the service's route, or answers its error and stores nothing; other keys are untouched |
| RouteCache.RepeatIsHit | BackEnd/suggestions_routes.py:45-76 | once a request succeeded, repeating it answers the same route whatever the service would say |
| RouteCache.Cache.constructor | BackEnd/suggestions_routes.py:43 | the hash starts empty |
| RouteCache.Cache.FetchCoordinates | BackEnd/suggestions_routes.py:36-85 | the reply and the new hash are the specified lookup's |
| SignUpReply.UserJson | BackEnd/schemas.py:47-53 | a created user serializes with its email and no message field |
| SignUpReply.CreateUserReplyAsWritten | BackEnd/auth.py:35-56 | a created user is sent with 201; the message dict fails the response model and becomes a 500 with no JSON body |
| SignUpReply.CreateUserReplyIntended | BackEnd/auth.py:53-56 | the conflict message reaches the client as {"message": ...} |
| SignUpReply.AsWrittenHidesAccountExists | RideShare/app/Auth/index.jsx:40-62 | as written, a taken email never shows "Account already exists" |
| SignUpReply.IntendedShowsAccountExists | RideShare/app/Auth/index.jsx:53-55 | with the intended reply, a taken email shows the message and a new account leaves it alone |
| Client.Get | RideShare/app/Trips/index.jsx:27-28 | reading a property throws exactly on undefined and null; an object gives its field or undefined |
| Client.At | RideShare/app/Home/index.jsx:86-98 | an array index gives the element, or undefined past the end |
| Client.ErrorOf | RideShare/app/Trips/index.jsx:35-43 | a failed call rejects with its status, or as a network error |
| Client.JsLength | RideShare/app/Auth/index.jsx:20 | `length` in UTF-16 code units: between one and two per character, and one per character exactly when none is astral |
| Client.WithAuth | RideShare/app/index.jsx:13-19 | a stored non-empty token sets "Authorization: Bearer <token>" and nothing else changes; no token leaves the headers as they were |
| Client.WithAuthIdempotent | RideShare/app/Trips/index.jsx:14-18 | intercepting twice gives the same headers as once |
| Client.RequestConfig.Intercept | RideShare/app/index.jsx:13-19 | the headers become the intercepted headers |
| Client.TokenStore.SetToken | RideShare/app/Auth/index.jsx:75 | the stored token becomes the value |
| Bootstrap.Boot | RideShare/app/index.jsx:25-50 | the status is asked exactly when a token is stored; sign-up exactly without one; the trip screen exactly for body `true`; home otherwise; no delay exactly when the status call fails |
| Bootstrap.TruthyBodyIsNotTrue | RideShare/app/index.jsx:38-46 | a truthy body other than `true` leads home after the delay |
| Bootstrap.BootDependsOnPresenceOnly | RideShare/app/index.jsx:25-50 | the outcome depends only on whether a token is stored and on the status reply |
| Bootstrap.LoggedInBootAsksWithToken | RideShare/app/index.jsx:13-36 | after a login stored a token, bootstrap asks for the status with it as the bearer |
| TripsScreen.Caught | RideShare/app/Trips/index.jsx:35-43 | a 404 resolves with [] and a redirect home; any other error is rethrown |
| TripsScreen.FetchTripsAndMatches | RideShare/app/Trips/index.jsx:25-44 | the matches of the fetched trip id unchanged; a 404 from either call gives [] and home; a read of trip_id on a missing body is a TypeError; other errors are rethrown |
| TripsScreen.RedirectOnlyOnNotFound | RideShare/app/Trips/index.jsx:25-44 | the screen redirects exactly when one of its calls answered 404 |
| TripsScreen.FirstLoadAfter | RideShare/app/Trips/index.jsx:55-62 | loading or no data keeps the flag; data clears it |
| TripsScreen.FirstLoadFlipsOnce | RideShare/app/Trips/index.jsx:23-62 | the flag stays true exactly until some render has finished loading with data, and never returns |
| TripsScreen.FirstLoad.constructor | RideShare/app/Trips/index.jsx:23 | the flag starts true |
| TripsScreen.FirstLoad.OnQueryChange | RideShare/app/Trips/index.jsx:55-62 | the flag becomes the specified one |
| TripsScreen.HandleCancelTrip | RideShare/app/Trips/index.jsx:64-71 | the cancel call first, then home exactly when it succeeded |
| TripsScreen.HandleJoinTrip | RideShare/app/Trips/index.jsx:73-80 | navigation to the confirm screen and nothing else |
| HomeScreen.TimeToWords | RideShare/app/Home/index.jsx:100-116 | definition: from 60 minutes on, the whole hours and toFixed(0) of the minutes' remainder by 60; below, the whole minutes and toFixed(0) of the minute's fraction times 60; its properties are the TimeToWords lemmas below |
| HomeScreen.Trunc | RideShare/app/Home/index.jsx:106 | the integer part, rounding toward zero |
| HomeScreen.JsRem | RideShare/app/Home/index.jsx:106-112 | `%` keeps the dividend's sign and stays below the divisor in magnitude |
| HomeScreen.RoundHalfUp | RideShare/app/Home/index.jsx:108-114 | the nearest whole number, halves up |
| HomeScreen.ToFixed0 | RideShare/app/Home/index.jsx:108-114 | the magnitude rounded half up, with '-' for negatives |
| HomeScreen.RoundWhole | RideShare/app/Home/index.jsx:108-114 | a whole number rounds to itself |
| HomeScreen.HoursWords | RideShare/app/Home/index.jsx:103-108 | from one hour on, the words are the whole hours and the rounded remainder minutes |
| HomeScreen.MinutesWords | RideShare/app/Home/index.jsx:109-114 | below one hour, the words are the whole minutes and the rounded seconds |
| HomeScreen.TimeToWordsBelowHour | RideShare/app/Home/index.jsx:100-116 | whole seconds under an hour read as their minutes and seconds |
| HomeScreen.TimeToWordsWholeMinutes | RideShare/app/Home/index.jsx:100-116 | whole minutes from an hour on read as hours and minutes of the hour |
| HomeScreen.TimeToWordsHoursRange | RideShare/app/Home/index.jsx:103-108 | from one hour on, the hours are the whole hours and the minutes are at most 60 |
| HomeScreen.TimeToWordsMinutesRange | RideShare/app/Home/index.jsx:109-114 | below one hour, the minutes are under 60 and the seconds at most 60 |
| HomeScreen.TimeToWordsOneHour | RideShare/app/Home/index.jsx:100-116 | 3600 seconds read "1 Hours and 0 Minutes" |
| HomeScreen.TimeToWordsRoundsToSixty | RideShare/app/Home/index.jsx:100-116 | 7170 seconds read "1 Hours and 60 Minutes" |
| HomeScreen.ArrayToObject | RideShare/app/Home/index.jsx:86-98 | latitude is element 1 and longitude element 0 |
| HomeScreen.ObjectToArray | RideShare/app/Home/index.jsx:165-168 | [longitude, latitude] |
| HomeScreen.ObjectArrayRoundTrip | RideShare/app/Home/index.jsx:165-174 | object to array to object is the identity |
| HomeScreen.ArrayObjectRoundTrip | RideShare/app/Home/index.jsx:165-174 | array to object to array is the identity on pairs |
| HomeScreen.RouteRequest | RideShare/app/Home/index.jsx:163-170 | two positions that read back as the origin and the target |
| HomeScreen.RouteToPoints | RideShare/app/Home/index.jsx:171-174 | the points one for one, in order |
| HomeScreen.RouteRoundTrip | RideShare/app/Home/index.jsx:163-174 | a route sent as arrays maps back to the same points |
| HomeScreen.SuggestionOf | RideShare/app/Home/index.jsx:197-202 | id, name and coordinates carried over; the place is the country |
| HomeScreen.MapFeatures | RideShare/app/Home/index.jsx:197-202 | the suggestions one for one, in order |
| HomeScreen.SuggestionsAfter | RideShare/app/Home/index.jsx:195-206 | the mapped features, or [] on error |
| HomeScreen.BackPress | RideShare/app/Home/index.jsx:218-229 | handled exactly when an input is focused; the location input clears first, then the destination input |
| HomeScreen.BackPressUnfocuses | RideShare/app/Home/index.jsx:218-243 | back presses never focus an input, and two leave both unfocused |
| HomeScreen.AfterPostTrip | RideShare/app/Home/index.jsx:126-138 | the trip screen exactly on success |
| HomeScreen.Home.constructor | RideShare/app/Home/index.jsx:24-36 | the initial state |
| HomeScreen.Home.Focus | RideShare/app/Home/index.jsx:345 | only that input's focus flag is set |
| HomeScreen.Home.OnBackPress | RideShare/app/Home/index.jsx:218-229 | the inputs become the back press's, and nothing else changes |
| HomeScreen.Home.HardwareBack | RideShare/app/Home/index.jsx:231-243 | the same as onBackPress |
| HomeScreen.Home.SelectSuggestion | RideShare/app/Home/index.jsx:212-216 | the focused input, location first, takes the name, loses focus, and sets its point from the suggestion; nothing otherwise |
| HomeScreen.QueryTooShort | RideShare/app/Home/index.jsx:187 | definition: the query's UTF-16 length is below 2, the empty query included |
| HomeScreen.AstralQuerySent | RideShare/app/Home/index.jsx:187-190 | a query of one astral character is long enough to be sent |
| HomeScreen.Home.StartSuggestions | RideShare/app/Home/index.jsx:186-196 | a query under two UTF-16 units clears that list and sends nothing; otherwise fetching starts and the encoded query is sent |
| HomeScreen.Home.FinishSuggestions | RideShare/app/Home/index.jsx:196-209 | that list becomes the reply's suggestions and fetching ends |
| HomeScreen.Home.FetchRoute | RideShare/app/Home/index.jsx:161-184 | a request exactly when both points are set; a route reply sets the words and the points; a failure changes nothing |
| HomeScreen.Home.HandleConfirmTrip | RideShare/app/Home/index.jsx:118-124 | the picker opens exactly when both points are set |
| HomeScreen.Home.HandleTimePickerConfirm | RideShare/app/Home/index.jsx:140-155 | the picker closes, the time is kept, and the payload has the inputs, the time, the route and the token |
| HomeScreen.Home.HandleTimePickerCancel | RideShare/app/Home/index.jsx:157-159 | the picker closes and nothing else changes |
| AuthScreen.FormAccepted | RideShare/app/Auth/index.jsx:20 | definition: email, age, gender and password all non-empty and the password's UTF-16 length at least 8 |
| AuthScreen.PasswordLengthBoundary | RideShare/app/Auth/index.jsx:20-21 | with the other fields filled, a password of eight UTF-16 code units passes and a shorter one fails |
| AuthScreen.AstralPasswordAccepted | RideShare/app/Auth/index.jsx:20 | four astral characters make a password the form accepts |
| AuthScreen.MessageAfterSignUp | RideShare/app/Auth/index.jsx:53-55 | the "Account already exists" body sets that message once a form was sent; anything else keeps the message |
| AuthScreen.AuthForm.constructor | RideShare/app/Auth/index.jsx:16-18 | no message and no payloads |
| AuthScreen.AuthForm.HandleSubmit | RideShare/app/Auth/index.jsx:19-36 | a rejected form sets the message; an accepted one sets both payloads from its fields |
| AuthScreen.AuthForm.OnSignUpReply | RideShare/app/Auth/index.jsx:40-62 | the message becomes the specified one, and the payloads stay |
| AuthScreen.AuthForm.OnLoginReply | RideShare/app/Auth/index.jsx:64-82 | after a sent form, a token reply is stored and the app goes home; otherwise nothing happens |

## Findings

| source | as written | input that shows it | evidently intended | confidence | as-written member | corrected member |
|---|---|---|---|---|---|---|
| BackEnd/auth.py:35-56 | create_user declares UserResponse as its response model yet returns {"message": "Account already exists"} for a taken email; the dict lacks id, email, age and gender, so response validation fails and the client gets a 500 without a JSON body | POST /auth/ with an email already stored | the message reaches the sign-up screen, whose check at RideShare/app/Auth/index.jsx:53-55 shows it | high; not executed | SignUpReply.AsWrittenHidesAccountExists | SignUpReply.IntendedShowsAccountExists |

## Left out

- Push registration at startup, permissions and the device token request are device APIs, not modelled.
- send_push_notification is recorded as a push value; the HTTP call to the push service is not made.
- The new-match notification of the trip screen is an empty stub in the source and does nothing here.
- Debouncing of the suggestion requests is timing, not modelled; each request is modelled from its start to its reply.
- The trip screen's refetch interval and React Query's cache and invalidation are not modelled; each fetch is modelled on its own.
- The splash delays are recorded as 1000 ms or 0, not waited for.
- The scheduler that runs cleanup is not modelled; cleanup takes the time as a parameter.
- The map projection to UTM and the directed Hausdorff distance itself are numerical libraries; the distance is an uninterpreted function of the zone and both routes.
- The rounding of the distance to kilometres in the reply is float formatting, not modelled; the distance is kept in metres.
- JWT signing and decoding, bcrypt, and the framework's dependency injection are inputs: a decoded token, a hash function and a verifier.
- The dependency that reads the user id from a bearer token is not modelled; endpoints take the resolved id.
- Network and storage I/O are parameters: the GEORADIUS answers, the directions reply, the geocoder reply and the stored token. The suggestions endpoint is a pass-through to the geocoder and is not modelled.
- The sign-up route, the root route, the protected test route, CORS and logging are not part of this model.
- The confirm screen and all rendering are not part of this model.
- The trip screen's time formatting is display only, not modelled.
- The route cache key is the coordinates themselves: serializing a list of numbers to JSON is injective, so equal keys mean equal coordinates.
- Python's int() accepts surrounding spaces, signs and underscores; an id part here is a numeral exactly when it is a non-empty run of ASCII digits, which is what the member names hold.
- The order of a Python set is unspecified; CandidateIds picks the elements in any order, and its contract holds for every order.
- The notification title carries the car emoji as a code point; its rendering in the source's encoding is not modelled.
- The geocoder and directions replies are taken as well formed: a malformed body, which would throw inside the mapping, is not modelled.
- Destructuring a string as a position reads its characters; positions are modelled as arrays only.
- The ISO string of the picked date and encodeURIComponent are parameters.
- HomeScreen.TimeToWords: exact real arithmetic stands for IEEE doubles, so results that differ only by floating-point error are not modelled, and NaN and infinite durations are not values of the model.
- The text-change setters of the two inputs are plain assignments and are not modelled as methods.
- Cleanup.RemoveExpiredMembers: the expired trips are visited in table order. The query has no ORDER BY, so the database may return them in another order; which names are removed before a failing ZREM is stated for table order only.
- Cleanup.Cleanup: the same table-order assumption applies to the removals that stay after a failure.
- Auth.ValidateSignUp: the email validator itself is a parameter. Which addresses it rejects and how it rewrites the others (lower-casing the domain, for one) is not modelled.
- Client.JsLength: Dafny strings hold Unicode scalar values, so a JavaScript string holding a lone surrogate is not a value of the model.
