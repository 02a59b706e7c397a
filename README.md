# Ghe-Sem transit core in Dafny

Ghe-Sem is a web app for Milan's ATM public transport network. It shows simulated vehicles on
a map, a stop's arrival board, line search, and a route planner with favourites and history.
This project models the logic behind those screens and proves properties of it:

- **`timetable.dfy`, `positioning.dfy`, `simulator.dfy`** model the vehicle simulator
  (`GTFSSimulator`):
  - the trip generator `generateTripsForRoute`, as a method with loops, proved equal to a
    reference list of trips;
  - the activation window `getActiveTripsForRoute`;
  - the bracket scan and interpolation of `getVehiclePosition`;
  - `calculateHeading`'s normalisation, `calculateSpeed` and `estimateOccupancy`;
  - the class that builds its route and schedule catalogue once, and `generateActiveVehicles`.
- **`transportapi.dfy`** models the mock data service (`TransportAPI`):
  - nearby stops: filter to 3 km, sort by distance, keep at most 20;
  - the line filter applied to simulated vehicles;
  - `searchLines`;
  - the mock arrival board `getMockStopArrivals`, including its fallback line records.
- **`realapi.dfy`** models the GTFS code mappings of the real-data client (`RealTransportAPI`).
- **`store.dfy`** models the application store (`useStore`) as a class whose methods replace
  its fields. Pure functions define what each action computes.
- **Shared modules:** `seqs.dfy` (filter, stable insertion sort, sorted prefix), `text.dfy`
  (`${n}`, `parseInt`, `startsWith`, `includes`, `toLowerCase`), `transit.dfy` (vehicle kinds,
  occupancy labels, random draws) and `wrappers.dfy` (Option and Result).

These are parameters of the model rather than computed:

- **Trigonometry.** The `atan2` bearing and the haversine distance are function parameters.
- **Randomness.** Each `Math.random()` value is a parameter of type `Unit`, a real in [0, 1).
  Where the code draws several, the draws are a stream `draw: nat -> Unit` with a counter.
- **The clock.** `new Date()` becomes hours, minutes and a day of the week, or a millisecond
  timestamp.
- **The routing service.** Its answer to `calculateRoute` is a function parameter.

## Model

| member | source | states |
|---|---|---|
| Text.ParseInt | src/services/realAPI.js:227 | `parseInt` gives NaN (`None`) exactly when no decimal digit follows the leading white space and optional sign |
| Text.ParseIntOfNatToString | src/services/gtfsSimulator.js:407 | `parseInt` reads back the number that `${n}` printed |
| Text.ParseIntOfSigned | src/services/realAPI.js:227 | `parseInt` of leading white space, an optional `+` or `-`, the digits of `n` and any tail not starting with a digit is `n` with that sign |
| Text.NatToStringInjective | src/services/gtfsSimulator.js:407 | distinct counters print as distinct strings |
| Positioning.Heading | src/services/gtfsSimulator.js:113-123 | `(heading + 360) % 360` with JavaScript's truncating remainder lies in [0, 360): a non-negative bearing is kept, a negative one gets 360 added |
| Positioning.Speed | src/services/gtfsSimulator.js:128-137 | 0 for a leg of no time; otherwise the km/h over the leg clamped to [10, 50], with each of the three clamp cases |
| Positioning.CoincidentStopsCrawl | src/services/gtfsSimulator.js:132-136 | two stops at the same place, with time between them, give the minimum 10 km/h |
| Positioning.FirstBracket | src/services/gtfsSimulator.js:21-25 | the scan finds the first leg whose start is at or before the minute and whose end is after it, and reports no leg only when none qualifies |
| Positioning.PositionAt | src/services/gtfsSimulator.js:25-36 | progress is in [0, 1) and is 0 exactly at the leg's start time; lat and lon lie between the two stops' and equal the first stop's at progress 0; the next stop is the leg's end; heading is in [0, 360) and speed in [10, 50] |
| Positioning.PositionOf | src/services/gtfsSimulator.js:21-40 | a found position has progress in [0, 1), heading in [0, 360) and speed in [10, 50] |
| Positioning.Interpolate | src/services/gtfsSimulator.js:21-40 | the index loop with early return yields `PositionOf`; null exactly when no leg brackets the minute; otherwise the first bracketing leg gives the next stop |
| Positioning.PositionOfDefinedIff | src/services/gtfsSimulator.js:21-40 | on strictly increasing times, a position exists exactly when first time <= minute < last time |
| Positioning.ProgressMonotone | src/services/gtfsSimulator.js:27 | within one leg, progress does not decrease as the minute advances |
| Positioning.EstimateOccupancy | src/services/gtfsSimulator.js:142-157 | morning peak 450..570: FULL exactly when the draw > 0.3, else STANDING; evening peak 1050..1170: STANDING or FEW_SEATS likewise; 360..1320 outside the peaks: MANY_SEATS, FEW_SEATS or STANDING by thirds of the draw; otherwise MANY_SEATS exactly when the draw > 0.5, else EMPTY |
| Positioning.FullOnlyInMorningPeak | src/services/gtfsSimulator.js:142-157 | FULL is only ever estimated in the morning peak |
| Timetable.DepartureBeforeEnd | src/services/gtfsSimulator.js:388-398 | departure `j` (5:00 + j·f) is before 24:00 exactly when j is below the per-direction trip count |
| Timetable.GenerateTripsForRoute | src/services/gtfsSimulator.js:386-417 | the loops push 2·count trips, equal to the reference list `GeneratedTrips` |
| Timetable.GeneratedTripShape | src/services/gtfsSimulator.js:396-412 | trip `k` is outbound exactly when k < count; it is a weekday trip with one stop time per stop, departing at 5:00 plus a whole number of headways; its headsign is the caller's outbound and the last catalogue stop's name inbound |
| Timetable.GeneratedStopTime | src/services/gtfsSimulator.js:399-404 | stop `idx` is reached idx·avgStopTime after departure and keeps that stop's id, position and name |
| Timetable.GeneratedTimesIncrease | src/services/gtfsSimulator.js:391-404 | the times along every generated trip strictly increase |
| Timetable.GeneratedDirections | src/services/gtfsSimulator.js:399 | outbound trips visit the catalogue order and inbound trips its reverse; reversing an inbound trip gives the catalogue order back |
| Timetable.TripIdsDiffer | src/services/gtfsSimulator.js:407 | ids built from different counters differ, whatever the directions |
| Timetable.GeneratedTripIdsDistinct | src/services/gtfsSimulator.js:407 | the running `trips.length` counter makes one route's trip ids pairwise distinct |
| Timetable.GeneratedTripIdPrefix | src/services/gtfsSimulator.js:407 | every trip id starts with the route id and a dash |
| Timetable.ServiceTypeOf | src/services/gtfsSimulator.js:93 | weekend service exactly on days 0 and 6 |
| Timetable.ActiveAmong | src/services/gtfsSimulator.js:95-105 | the kept trips are a subsequence of the schedule, and a trip is kept exactly when it has the day's service type and first time <= minute <= last time |
| Timetable.ActiveAmongStep | src/services/gtfsSimulator.js:95-105 | one more trip of the schedule is appended exactly when it is active |
| Timetable.NoWeekendService | src/services/gtfsSimulator.js:93-96 | weekday-only trips give no active trip on Saturday or Sunday |
| Simulator.SchedulesOf | src/services/gtfsSimulator.js:215-381 | the schedule map has a key exactly for each catalogue call's route id |
| Simulator.ScheduleOfLine | src/services/gtfsSimulator.js:215-381 | every key holds the trips generated by some catalogue call for that route |
| Simulator.ScheduleOfUniqueLine | src/services/gtfsSimulator.js:215-381 | a route id set by one call only holds that call's generated trips |
| Simulator.GeneratedTripFacts | src/services/gtfsSimulator.js:386-417 | every generated trip is well formed, weekday, strictly increasing, and its id has the route id and a dash in front |
| Simulator.CatalogLinesShape | src/services/gtfsSimulator.js:215-381 | every catalogue call has two or more stops, a positive headway and a route id without a dash |
| Simulator.CatalogSchedules | src/services/gtfsSimulator.js:215-381 | the shipped map is well formed, with a key for each route id scheduled |
| Simulator.CatalogScheduleFacts | src/services/gtfsSimulator.js:215-381 | the shipped trips are all weekday trips with increasing times, and no trip id is a key of the map |
| Simulator.LoadSchedules | src/services/gtfsSimulator.js:215-381 | the `schedules.set` calls in order build exactly `SchedulesOf` the catalogue |
| Simulator.GtfsSimulator.constructor | src/services/gtfsSimulator.js:5-9 | the routes are the shipped catalogue and the schedules the map built from it |
| Simulator.GtfsSimulator.ActiveTripsForRoute | src/services/gtfsSimulator.js:86-108 | the loop returns `ActiveTrips`: none for an unknown route, else exactly the schedule's active trips, in order |
| Simulator.GtfsSimulator.VehiclePosition | src/services/gtfsSimulator.js:14-16 | the lookup by trip id in the route-keyed map gives null on a miss and a throw on a hit |
| Simulator.GtfsSimulator.GenerateActiveVehicles | src/services/gtfsSimulator.js:46-81 | as written the result is the empty list, or the throw when some active trip id is also a route id |
| Simulator.LookupMissesWhenIdsAreNotKeys | src/services/gtfsSimulator.js:15 | the lookup never hits when no trip id is a key |
| Simulator.ShippedLookupMisses | src/services/gtfsSimulator.js:15 | with the shipped catalogue the lookup never hits, so `generateActiveVehicles` always returns no vehicle |
| Simulator.TripSightings | src/services/gtfsSimulator.js:56-77 | exactly the route's trips that have a position are seen, each with that position |
| Simulator.TripSightingsInOrder | src/services/gtfsSimulator.js:56-76 | the sightings keep the order of the route's trips: their trips are a subsequence of the active trips |
| Simulator.Sightings | src/services/gtfsSimulator.js:52-78 | every sighting is an active trip of a listed route, with its position |
| Simulator.SightingsAppend | src/services/gtfsSimulator.js:52 | the sightings of two route lists are those of each, concatenated |
| Simulator.SightingsComplete | src/services/gtfsSimulator.js:52-78 | every active trip with a position produces a sighting |
| Simulator.VehiclesOf | src/services/gtfsSimulator.js:60-75 | one vehicle per sighting |
| Simulator.VehicleOrigin | src/services/gtfsSimulator.js:56-75 | each vehicle comes from an active trip of a listed route: id `route-trip`, line, trip, headsign, type, line name and colour from them, latitude, longitude and next stop from the trip's interpolated position, speed in [10, 50], heading in [0, 360), and its occupancy estimated from its own draw |
| Simulator.NoWeekendVehicles | src/services/gtfsSimulator.js:93 | weekday-only schedules give no vehicle at the weekend |
| Simulator.GtfsSimulator.GenerateActiveVehiclesByTrip | src/services/gtfsSimulator.js:46-81 | with the position taken from the trip, the nested loops produce exactly the vehicles of `Snapshot` |
| Simulator.SnapshotNonEmpty | src/services/gtfsSimulator.js:52-78 | one scheduled trip of a listed route running inside its time window gives a non-empty vehicle list |
| Simulator.CatalogTram1 | src/services/gtfsSimulator.js:218-228 | route "1" holds the trips generated for tram 1 every 7 minutes towards Greco |
| Simulator.Tram1Trip25 | src/services/gtfsSimulator.js:218-228 | tram 1's trip 25 departs at 7:55 (minute 475) and reaches its last stop no earlier than minute 487.5, after 8:07 |
| Simulator.CatalogMorningSnapshotNonEmpty | src/services/gtfsSimulator.js:46-81 | with the intended lookup, a Monday at 8:00 shows at least one vehicle |
| TransportApi.WithinRadius | src/services/transportAPI.js:179-186 | exactly the stops, with their distance in km, that are nearer than 3 km |
| TransportApi.WithinRadiusInOrder | src/services/transportAPI.js:179-186 | the stops within range keep table order: a subsequence of the mapped table, no longer than the table |
| TransportApi.NearestAmong | src/services/transportAPI.js:185-188 | at most 20 stops, sorted by distance, drawn from those within 3 km; no stop left out is nearer than one kept; stops at equal distance keep their table order, and the limit cuts the last of them |
| TransportApi.NearbyStops | src/services/transportAPI.js:148-188 | on the shipped table: at most 20 stops, sorted by distance, each a table stop nearer than 3 km |
| TransportApi.FilterByLines | src/services/transportAPI.js:79-83 | with an empty id list the vehicles come back unchanged; otherwise exactly those on a listed line, in their order |
| TransportApi.LinesMatching | src/services/transportAPI.js:109-111 | the lines whose lowercased name contains the lowercased query, in table order |
| TransportApi.SearchLines | src/services/transportAPI.js:107-111 | the mock lines matching the query, in order |
| TransportApi.EmptyQueryReturnsAll | src/services/transportAPI.js:109-111 | the empty query returns every line |
| TransportApi.FindLine | src/services/transportAPI.js:201 | a line found has the id; none exactly when no line has it |
| TransportApi.FindLineFirst | src/services/transportAPI.js:201 | `find` returns the first line with the id |
| TransportApi.FindStop | src/services/transportAPI.js:197-198 | a stop found has the id; none exactly when no nearby stop has it |
| TransportApi.FindStopFirst | src/services/transportAPI.js:197-198 | `find` returns the first nearby stop with the id |
| TransportApi.StopLines | src/services/transportAPI.js:197-198 | the found stop's lines, even when empty; '1', '2', '3' only when no stop is found |
| TransportApi.FallbackLine | src/services/transportAPI.js:201-206 | metro exactly when the id starts with 'M', tram exactly when not and `parseInt` <= 20, bus otherwise, each with its colour |
| TransportApi.LineFor | src/services/transportAPI.js:201-206 | always a line with the asked id: a mock line whenever one has that id, the fallback record only when none has |
| TransportApi.LineForM5 | src/services/transportAPI.js:201-206 | "M5" gives the mock M5 line, lilac `#8B4EBE`, not the red metro fallback |
| TransportApi.RandomDestination | src/services/transportAPI.js:343-352 | the destination is on the list for the line's type |
| TransportApi.ArrivalsUpToSnoc | src/services/transportAPI.js:209-226 | each iteration appends the arrival built from its own five draws |
| TransportApi.PushLineArrivals | src/services/transportAPI.js:209-226 | the loop with its re-drawn bound pushes exactly `LineArrivals` and consumes its draws |
| TransportApi.PushStopArrivals | src/services/transportAPI.js:200-227 | the loop over the stop's lines pushes exactly `AllArrivals` |
| TransportApi.GetMockStopArrivals | src/services/transportAPI.js:191-230 | the board is sorted by minutes away and is a permutation of the pushed arrivals; arrivals due in the same minute keep the order in which they were pushed |
| TransportApi.LineLengthBounds | src/services/transportAPI.js:209 | iterations 0 and 1 always pass the test and iteration 3 never does |
| TransportApi.LineArrivalsShape | src/services/transportAPI.js:208-225 | each line yields 2 or 3 arrivals; arrival i is 1+5i to 15+5i minutes away, with delay in -1..1 and estimated time equal to scheduled time |
| TransportApi.AllArrivalsShape | src/services/transportAPI.js:200-227 | between 2 and 3 arrivals per stop line, each on one of the lines and 1 to 25 minutes away |
| RealApi.VehicleType | src/services/realAPI.js:207-217 | metro exactly for route type 1, tram exactly for 0, bus otherwise |
| RealApi.VehicleTypeBuses | src/services/realAPI.js:209-216 | 3, 11, 800, an unlisted code and a non-number all give bus |
| RealApi.LineColor | src/services/realAPI.js:219-231 | the prefixes M1, M2, M3, M5 are tried in that order and win; otherwise tram yellow exactly when `parseInt` <= 30, and blue otherwise |
| RealApi.LineColorPalette | src/services/realAPI.js:219-231 | every colour is one of the five of the palette |
| RealApi.LineColorOfM4 | src/services/realAPI.js:219-231 | "M4" and a missing id are drawn bus blue |
| RealApi.LineColorOfTram15 | src/services/realAPI.js:227 | "15" is tram yellow |
| RealApi.LineColorOfBus90 | src/services/realAPI.js:227-230 | "90" is bus blue |
| RealApi.ParseOccupancy | src/services/realAPI.js:233-244 | UNKNOWN exactly for values outside 0..5 |
| RealApi.ParseOccupancyRoundTrip | src/services/realAPI.js:233-244 | label to code to label, and code to label to code, are both the identity |
| RealApi.ParseOccupancyInjective | src/services/realAPI.js:233-244 | the six codes get six distinct labels |
| RealApi.StopType | src/services/realAPI.js:246-255 | station exactly for 1, entrance exactly for 2, node exactly for 3, and stop for everything else |
| RealApi.StopTypeRoundTrip | src/services/realAPI.js:246-255 | the label and its `location_type` code translate back and forth |
| Seqs.SortByStable | src/services/transportAPI.js:229 | the sort is stable: for every key, the elements with that key keep their input order |
| Seqs.InsertByStable | src/services/transportAPI.js:187 | inserting an element puts it after every element with the same key |
| Seqs.SmallestBy | src/services/transportAPI.js:187-188 | sort then slice: at most n elements, sorted, a sub-multiset of the input, none left out with a smaller key than one kept, and for each key a prefix of that key's elements in input order |
| Store.WithoutId | src/store/useStore.js:214-218 | no entry with the id remains; every other entry keeps its count, in the old order |
| Store.WithoutIdKeepsOthers | src/store/useStore.js:214-222 | removing one id leaves `isFavorite` of every other id unchanged |
| Store.RecentSearchesAfter | src/store/useStore.js:224-228 | the search comes first and nowhere else; the rest is the old list without it, cut so the total is at most 10 |
| Store.RecentSearchesStayDistinct | src/store/useStore.js:224-228 | a history without repeats keeps none after a new search |
| Store.RecentSearchesIdempotent | src/store/useStore.js:224-228 | the same search twice in a row acts once |
| Store.RecentRoutesAfter | src/store/useStore.js:299-303 | the route first, then a prefix of the old list, at most 20 in all |
| Store.RecentRoutesShift | src/store/useStore.js:299-303 | each older route moves back by one place while it stays within 20 |
| Store.ToggledLines | src/store/useStore.js:332-339 | the id's membership flips; other ids keep their counts; an unselected id is appended at the end |
| Store.ToggleTwiceRestores | src/store/useStore.js:332-339 | selecting a line and unselecting it restores the selection |
| Store.Patched | src/store/useStore.js:328-330 | each key present in the patch takes its value; every absent key keeps the old value |
| Store.PatchLaws | src/store/useStore.js:328-330 | the empty patch changes nothing; the same patch twice acts once; two patches in a row act as their merge |
| Store.PreferredTransport | src/store/useStore.js:341-347 | metro, tram or bus exactly when that flag alone is set |
| Store.PreferredTransportExactlyOne | src/store/useStore.js:341-347 | a preference exists exactly when one flag is set; the line selection plays no part; the initial filters give none |
| Store.Swapped | src/store/useStore.js:291-297 | origin and destination are exchanged and nothing else changes |
| Store.SwappedTwice | src/store/useStore.js:291-297 | swapping twice is the identity |
| Store.Cleared | src/store/useStore.js:282-289 | origin, destination, routes and selected route are reset; nothing else changes |
| Store.Untracked | src/store/useStore.js:319-325 | the tracked vehicle, its route and its upcoming stops are reset; nothing else changes |
| Store.ResetsCommute | src/store/useStore.js:282-325 | clearing the route and stopping tracking commute, and each acts once when repeated |
| Store.AfterCalculateRoute | src/store/useStore.js:239-280 | without both end points only `error` changes, to the message; otherwise the calculation ends not running; a failure sets the error message; a success stores the routes, selects the first, shows the route view and records the journey in the history, and no other field changes |
| Store.AppStore.constructor | src/store/useStore.js:6-50 | the initial state, with the stored favourites and histories |
| Store.AppStore.IsFavorite | src/store/useStore.js:220-222 | true exactly when some favourite has the id |
| Store.AppStore.AddFavorite | src/store/useStore.js:208-212 | appends without dedupe, so `isFavorite(item.id)` then holds; nothing else changes |
| Store.AppStore.RemoveFavorite | src/store/useStore.js:214-218 | favourites become `WithoutId`, so `isFavorite(id)` is then false; nothing else changes |
| Store.AppStore.AddRecentSearch | src/store/useStore.js:224-228 | the history becomes `RecentSearchesAfter`; nothing else changes |
| Store.AppStore.AddRecentRoute | src/store/useStore.js:299-303 | the history becomes `RecentRoutesAfter`; nothing else changes |
| Store.AppStore.SetFilters | src/store/useStore.js:328-330 | the filters become `Patched`; nothing else changes |
| Store.AppStore.ToggleLineFilter | src/store/useStore.js:332-339 | only the selected lines change, and the id's membership flips |
| Store.AppStore.GetPreferredTransport | src/store/useStore.js:341-347 | a preference exists exactly when one kind is shown |
| Store.AppStore.SwapRoutePoints | src/store/useStore.js:291-297 | the new state is `Swapped` of the old |
| Store.AppStore.ClearRoute | src/store/useStore.js:282-289 | the new state is `Cleared` of the old |
| Store.AppStore.StopTrackingVehicle | src/store/useStore.js:319-325 | the new state is `Untracked` of the old |
| Store.AppStore.CalculateRoute | src/store/useStore.js:239-280 | the new state is `AfterCalculateRoute` of the old, given the routing service's answer |

## Left out

- **Trigonometry and floating point.** `calculateHeading`'s `atan2` and the haversine
  `calculateDistance` of both services are parameters. Reals are exact, so the model does not
  capture floating-point rounding. `Math.round` to whole metres is kept: the distance parameter
  returns an integer.
- **Dates and clocks.** `new Date()`, `getHours`, `getMinutes` and `getDay` are replaced by a
  `Clock` value. `Date` objects in arrivals and route history are millisecond integers.
  `lastUpdate` of simulated vehicles is not modelled.
- **Asynchronous and network code.** The axios clients, the Open Data record reshaping in
  src/services/realAPI.js, the `API_CONFIG` switches, and the real-API branches of
  `getVehiclePositions` and `searchLines` are not modelled. Neither are
  `getMockVehiclePositions` and `getMockServiceAlerts` (random mocks) or
  src/services/routingService.js, whose answer is a parameter of `CalculateRoute`.
- **Store side effects.** `localStorage` writes are left out; the stored lists are constructor
  parameters. Also left out: geolocation, notifications, the async loaders, and the UI-only
  setters.
- **`trackVehicle`.** It awaits the routing service and is left out; only `stopTrackingVehicle`
  is modelled.
- Store.AppStore.CalculateRoute: the mode is always passed. The `'balanced'` default that
  `calculateRoute()` uses when called without one is not modelled.
- **Concurrency.** State changes while `calculateRoute` awaits the routing service are not
  modelled: the action runs start to end.
- **The unused `activeVehicles` map** of the simulator is not modelled.
- **Simulator.LoadSchedules builds the map from a table.** The source has sixteen literal
  `schedules.set` calls; the model loops over a table of their arguments, applied in the same
  order.
- Text.ToLower: lowercases ASCII letters only. JavaScript's `toLowerCase` also maps non-ASCII
  letters.
- Text.ParseInt: does not read the `0x` hexadecimal prefix that `parseInt` without a radix
  accepts, and skips only ASCII white space, where `parseInt` also skips U+00A0, U+FEFF,
  U+2028, U+2029 and the other Unicode space separators. RealApi.LineColor and
  TransportApi.FallbackLine inherit this, e.g. for "0x40".
- Text.ParseIntOfSigned: inherits the missing `0x` prefix, so for `n` = 0 and a tail starting with
  `x` followed by hexadecimal digits it gives 0 where `parseInt` reads a hexadecimal number.
- Store.Patched: a patch key is either present with a value or absent. Keys other than the
  four filters, and keys present with the value `undefined`, are not modelled.
- RealApi.VehicleType, RealApi.ParseOccupancy, RealApi.StopType: a field that is not a number
  is `None`. The model does not distinguish `undefined`, `null` and strings, which all reach the
  `default` branch.
- TransportApi.RandomDestination: the `|| destinations.bus` default for an unknown type cannot
  occur, because a line's type is always metro, tram or bus. The index is floor(r·6) because
  every list has six entries.
- TransportApi.LineArrivalsShape: states delay in -1..1 as the code computes it. The source
  comment at src/services/transportAPI.js:222 also lists 2, which the expression never gives.

## Findings

| source | as written | input that shows it | evidently intended | confidence | as-written member | corrected member |
|---|---|---|---|---|---|---|
| src/services/gtfsSimulator.js:15 | `getVehiclePosition` looks the trip id up in `this.schedules`, a map keyed by route id. Trip ids like `1-outbound-25` are never keys, so it returns null for every trip and `generateActiveVehicles` returns no vehicle at all | Monday 8:00 (`Clock(8, 0, 1)`): trip `1-outbound-25` of tram 1 departs at 7:55 and is active, but its lookup misses | interpolate the position of the active trip passed in, from its own stop times | not executed | Simulator.GtfsSimulator.GenerateActiveVehicles, Simulator.ShippedLookupMisses | Simulator.GtfsSimulator.GenerateActiveVehiclesByTrip, Simulator.CatalogMorningSnapshotNonEmpty |
