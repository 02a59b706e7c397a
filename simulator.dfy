/** The vehicle simulator of src/services/gtfsSimulator.js: its route and schedule catalogue, and
    `generateActiveVehicles`, which turns the active trips of every route into vehicles. */
module Simulator {
  import opened Wrappers
  import opened Transit
  import opened Text
  import opened Seqs
  import opened Timetable
  import opened Positioning

  /** An entry of the route catalogue: `{ id, name, type, color }`. */
  datatype Route = Route(id: string, name: string, kind: VehicleKind, color: string)

  /** The arguments of one `generateTripsForRoute` call of the schedule catalogue. */
  datatype Line = Line(routeId: string, stops: seq<Stop>, frequency: nat, headsign: string)

  /** The instant asked about: `getHours()`, `getMinutes()` and `getDay()` of the `Date`. */
  datatype Clock = Clock(hours: int, minutes: int, day: int)

  function MinuteOfDay(c: Clock): int { c.hours * 60 + c.minutes }

  /** A simulated vehicle as `generateActiveVehicles` pushes it (without `lastUpdate`). */
  datatype Vehicle = Vehicle(id: string, lineId: string, lineName: string, lineType: VehicleKind,
                             lineColor: string, lat: real, lon: real, heading: real, speed: real,
                             destination: string, occupancy: Occupancy, tripId: string, nextStopId: string)

  /** The exception of reading `.length` of an undefined `stopTimes`. */
  datatype Fault = StopTimesUndefined

  /** `getATMRoutes()` (lines 177-209), in insertion order. */
  const CatalogRoutes: seq<Route> := [
    Route("M1", "M1", Metro, "#E30613"),
    Route("M2", "M2", Metro, "#00843D"),
    Route("M3", "M3", Metro, "#FFD700"),
    Route("M5", "M5", Metro, "#6E3AA7"),
    Route("1", "1", Tram, "#FFD700"),
    Route("2", "2", Tram, "#FFD700"),
    Route("3", "3", Tram, "#FFD700"),
    Route("4", "4", Tram, "#FFD700"),
    Route("5", "5", Tram, "#FFD700"),
    Route("9", "9", Tram, "#FFD700"),
    Route("10", "10", Tram, "#FFD700"),
    Route("12", "12", Tram, "#FFD700"),
    Route("14", "14", Tram, "#FFD700"),
    Route("15", "15", Tram, "#FFD700"),
    Route("16", "16", Tram, "#FFD700"),
    Route("19", "19", Tram, "#FFD700"),
    Route("50", "50", Bus, "#007ACC"),
    Route("54", "54", Bus, "#007ACC"),
    Route("57", "57", Bus, "#007ACC"),
    Route("60", "60", Bus, "#007ACC"),
    Route("61", "61", Bus, "#007ACC"),
    Route("73", "73", Bus, "#007ACC"),
    Route("90", "90", Bus, "#007ACC"),
    Route("91", "91", Bus, "#007ACC"),
    Route("94", "94", Bus, "#007ACC")
  ]

  const Tram1Stops: seq<Stop> := [
    Stop("stop_duomo", 45.4642, 9.1900, "Duomo"),
    Stop("stop_cordusio", 45.4655, 9.1845, "Cordusio"),
    Stop("stop_cairoli", 45.4685, 9.1850, "Cairoli"),
    Stop("stop_moscova", 45.4730, 9.1870, "Moscova"),
    Stop("stop_centrale", 45.4867, 9.2040, "Stazione Centrale"),
    Stop("stop_greco", 45.5012, 9.2156, "Greco")
  ]

  const Tram2Stops: seq<Stop> := [
    Stop("stop_bausan", 45.4520, 9.1680, "Bausan"),
    Stop("stop_duomo", 45.4642, 9.1900, "Duomo"),
    Stop("stop_repubblica", 45.4810, 9.1990, "Repubblica"),
    Stop("stop_lanza", 45.4730, 9.1870, "Lanza"),
    Stop("stop_piola", 45.4785, 9.2358, "Piola")
  ]

  const Tram3Stops: seq<Stop> := [
    Stop("stop_gratosoglio", 45.4245, 9.1456, "Gratosoglio"),
    Stop("stop_duomo", 45.4642, 9.1900, "Duomo"),
    Stop("stop_repubblica", 45.4810, 9.1990, "Repubblica"),
    Stop("stop_affori", 45.5125, 9.1868, "Affori")
  ]

  const Tram4Stops: seq<Stop> := [
    Stop("stop_niguarda", 45.5186, 9.1867, "Niguarda"),
    Stop("stop_monumentale", 45.4856, 9.1806, "Monumentale"),
    Stop("stop_cairoli", 45.4685, 9.1850, "Cairoli"),
    Stop("stop_foro", 45.4725, 9.1820, "Foro Bonaparte")
  ]

  const Tram5Stops: seq<Stop> := [
    Stop("stop_cimitero", 45.4985, 9.1625, "Cimitero Maggiore"),
    Stop("stop_cadorna", 45.4690, 9.1740, "Cadorna"),
    Stop("stop_duomo", 45.4642, 9.1900, "Duomo"),
    Stop("stop_porta_venezia", 45.4750, 9.2050, "Porta Venezia")
  ]

  const Tram9Stops: seq<Stop> := [
    Stop("stop_centrale", 45.4867, 9.2040, "Stazione Centrale"),
    Stop("stop_repubblica", 45.4810, 9.1990, "Repubblica"),
    Stop("stop_duomo", 45.4642, 9.1900, "Duomo"),
    Stop("stop_genova", 45.4535, 9.1685, "Porta Genova")
  ]

  const Tram10Stops: seq<Stop> := [
    Stop("stop_castello", 45.4701, 9.1795, "Piazza Castello"),
    Stop("stop_cairoli", 45.4685, 9.1850, "Cairoli"),
    Stop("stop_lanza", 45.4730, 9.1870, "Lanza"),
    Stop("stop_segesta", 45.4820, 9.1480, "Segesta")
  ]

  const Tram12Stops: seq<Stop> := [
    Stop("stop_roserio", 45.5245, 9.1780, "Roserio"),
    Stop("stop_monumentale", 45.4856, 9.1806, "Monumentale"),
    Stop("stop_moscova", 45.4730, 9.1870, "Moscova"),
    Stop("stop_duomo", 45.4642, 9.1900, "Duomo")
  ]

  const Tram14Stops: seq<Stop> := [
    Stop("stop_cimitero", 45.4985, 9.1625, "Cimitero Maggiore"),
    Stop("stop_cadorna", 45.4690, 9.1740, "Cadorna"),
    Stop("stop_duomo", 45.4642, 9.1900, "Duomo"),
    Stop("stop_bausan", 45.4520, 9.1680, "Bausan")
  ]

  const Tram15Stops: seq<Stop> := [
    Stop("stop_roserio", 45.5245, 9.1780, "Roserio"),
    Stop("stop_portello", 45.4820, 9.1480, "Portello"),
    Stop("stop_cadorna", 45.4690, 9.1740, "Cadorna"),
    Stop("stop_duomo", 45.4642, 9.1900, "Duomo")
  ]

  const Bus54Stops: seq<Stop> := [
    Stop("stop_precotto", 45.5156, 9.2378, "Precotto M1"),
    Stop("stop_centrale", 45.4867, 9.2040, "Stazione Centrale"),
    Stop("stop_duomo", 45.4642, 9.1900, "Duomo"),
    Stop("stop_sant_ambrogio", 45.4625, 9.1745, "Sant Ambrogio"),
    Stop("stop_romolo", 45.4456, 9.1678, "Romolo M2")
  ]

  const Bus60Stops: seq<Stop> := [
    Stop("stop_roserio", 45.5245, 9.1780, "Roserio"),
    Stop("stop_monumentale", 45.4856, 9.1806, "Monumentale"),
    Stop("stop_repubblica", 45.4810, 9.1990, "Repubblica"),
    Stop("stop_loreto", 45.4787, 9.2187, "Loreto")
  ]

  const Bus61Stops: seq<Stop> := [
    Stop("stop_lambrate", 45.4865, 9.2467, "Lambrate"),
    Stop("stop_centrale", 45.4867, 9.2040, "Stazione Centrale"),
    Stop("stop_duomo", 45.4642, 9.1900, "Duomo"),
    Stop("stop_bisceglie", 45.4675, 9.1245, "Bisceglie M1")
  ]

  const Bus90Stops: seq<Stop> := [
    Stop("stop_linate", 45.4456, 9.2756, "Linate Aeroporto"),
    Stop("stop_forlanini", 45.4598, 9.2556, "Forlanini"),
    Stop("stop_san_babila", 45.4620, 9.1970, "San Babila M1")
  ]

  const Bus91Stops: seq<Stop> := [
    Stop("stop_lampugnano", 45.5023, 9.1267, "Lampugnano M1"),
    Stop("stop_portello", 45.4820, 9.1480, "Portello"),
    Stop("stop_segesta", 45.4820, 9.1480, "Segesta M5")
  ]

  const Bus94Stops: seq<Stop> := [
    Stop("stop_famagosta", 45.4378, 9.1567, "Famagosta M2"),
    Stop("stop_genova", 45.4535, 9.1685, "Porta Genova"),
    Stop("stop_duomo", 45.4642, 9.1900, "Duomo"),
    Stop("stop_crocetta", 45.4598, 9.2045, "Crocetta M3")
  ]

  /** The sixteen `generateTripsForRoute` calls of `getATMSchedules()` (lines 215-381), in order. */
  const CatalogLines: seq<Line> := [
    Line("1", Tram1Stops, 7, "Greco"),
    Line("2", Tram2Stops, 8, "Piola"),
    Line("3", Tram3Stops, 9, "Affori"),
    Line("4", Tram4Stops, 10, "Foro Bonaparte"),
    Line("5", Tram5Stops, 8, "Porta Venezia"),
    Line("9", Tram9Stops, 7, "Porta Genova"),
    Line("10", Tram10Stops, 9, "Segesta"),
    Line("12", Tram12Stops, 8, "Piazza Fontana"),
    Line("14", Tram14Stops, 10, "Bausan"),
    Line("15", Tram15Stops, 9, "Piazza Fontana"),
    Line("54", Bus54Stops, 10, "Romolo"),
    Line("60", Bus60Stops, 12, "Loreto"),
    Line("61", Bus61Stops, 11, "Bisceglie"),
    Line("90", Bus90Stops, 15, "San Babila"),
    Line("91", Bus91Stops, 13, "Segesta"),
    Line("94", Bus94Stops, 10, "Crocetta")
  ]

  predicate LineArgumentsOk(l: Line) { |l.stops| >= 2 && l.frequency > 0 }

  predicate NoDash(s: string) { forall i :: 0 <= i < |s| ==> s[i] != '-' }

  /** Every catalogue call has at least two stops, a positive frequency and a route id without a dash. */
  lemma CatalogLinesShape()
    ensures forall l :: l in CatalogLines ==> LineArgumentsOk(l) && NoDash(l.routeId)
  {
    assert |CatalogLines| == 16;
    forall i | 0 <= i < 16
      ensures LineArgumentsOk(CatalogLines[i]) && NoDash(CatalogLines[i].routeId)
    {
    }
  }

  /** The schedule map after `schedules.set(routeId, { trips: generateTripsForRoute(...) })` for each
      line in turn; a later call for the same route id replaces the earlier one. */
  function SchedulesOf(lines: seq<Line>): (s: map<string, Schedule>)
    requires forall l :: l in lines ==> LineArgumentsOk(l)
    ensures forall key :: key in s <==> exists l :: l in lines && l.routeId == key
  {
    if lines == [] then map[]
    else
      var l := lines[|lines| - 1];
      var front := lines[..|lines| - 1];
      assert l in lines && LineArgumentsOk(l) && |l.stops| >= 1;
      assert forall l' :: l' in front ==> l' in lines;
      SchedulesOf(front)[l.routeId := Schedule(GeneratedTrips(l.routeId, l.stops, l.frequency, l.headsign))]
  }

  /** Whatever a route id maps to was generated by a line of that route id. */
  lemma {:induction false} ScheduleOfLine(lines: seq<Line>, key: string)
    requires forall l :: l in lines ==> LineArgumentsOk(l)
    requires key in SchedulesOf(lines)
    ensures exists l :: l in lines && l.routeId == key && LineArgumentsOk(l)
                        && SchedulesOf(lines)[key] == Schedule(GeneratedTrips(l.routeId, l.stops, l.frequency, l.headsign))
  {
    var l := lines[|lines| - 1];
    var front := lines[..|lines| - 1];
    if key != l.routeId {
      ScheduleOfLine(front, key);
      var l' :| l' in front && l'.routeId == key && LineArgumentsOk(l')
                && SchedulesOf(front)[key] == Schedule(GeneratedTrips(l'.routeId, l'.stops, l'.frequency, l'.headsign));
      assert l' in lines;
    }
  }

  /** A route id called only once is mapped to the trips of that call. */
  lemma {:induction false} ScheduleOfUniqueLine(lines: seq<Line>, i: nat)
    requires forall l :: l in lines ==> LineArgumentsOk(l)
    requires i < |lines| && forall j :: 0 <= j < |lines| && j != i ==> lines[j].routeId != lines[i].routeId
    ensures var l := lines[i];
            l.routeId in SchedulesOf(lines)
            && SchedulesOf(lines)[l.routeId] == Schedule(GeneratedTrips(l.routeId, l.stops, l.frequency, l.headsign))
  {
    var front := lines[..|lines| - 1];
    if i < |lines| - 1 {
      assert lines[i] in lines;
      ScheduleOfUniqueLine(front, i);
    }
  }

  /** A trip of a generated schedule. */
  lemma GeneratedTripFacts(l: Line, t: Trip)
    requires LineArgumentsOk(l)
    requires t in GeneratedTrips(l.routeId, l.stops, l.frequency, l.headsign)
    ensures WellFormed(t) && t.serviceType == Weekday && StrictlyIncreasing(t.stopTimes)
    ensures |t.id| > |l.routeId| && t.id[|l.routeId|] == '-'
  {
    var trips := GeneratedTrips(l.routeId, l.stops, l.frequency, l.headsign);
    var k :| 0 <= k < |trips| && trips[k] == t;
    GeneratedTripShape(l.routeId, l.stops, l.frequency, l.headsign, k);
    GeneratedTimesIncrease(l.routeId, l.stops, l.frequency, l.headsign, k);
    GeneratedTripIdPrefix(l.routeId, l.stops, l.frequency, l.headsign, k);
    assert (l.routeId + "-")[|l.routeId|] == '-';
  }

  ghost predicate WeekdayOnly(s: map<string, Schedule>)
  {
    forall key, t :: key in s && t in s[key].trips ==> t.serviceType == Weekday
  }

  ghost predicate TripIdsAreNotKeys(s: map<string, Schedule>)
  {
    forall key, t :: key in s && t in s[key].trips ==> t.id !in s
  }

  /** `getATMSchedules()`: the schedule map of the shipped catalogue. */
  function CatalogSchedules(): (s: map<string, Schedule>)
    ensures SchedulesWellFormed(s)
    ensures forall key :: key in s <==> exists l :: l in CatalogLines && l.routeId == key
  {
    CatalogLinesShape();
    var s := SchedulesOf(CatalogLines);
    assert SchedulesWellFormed(s) by {
      forall key, t | key in s && t in s[key].trips
        ensures WellFormed(t)
      {
        ScheduleOfLine(CatalogLines, key);
        var l :| l in CatalogLines && l.routeId == key && LineArgumentsOk(l)
                 && s[key] == Schedule(GeneratedTrips(l.routeId, l.stops, l.frequency, l.headsign));
        GeneratedTripFacts(l, t);
      }
    }
    s
  }

  /** In the shipped schedule map every trip runs on weekdays, has strictly increasing times, and
      has an id that is not a key of the map: the keys are route ids without a dash, while every
      trip id carries a dash right after its route id. */
  lemma CatalogScheduleFacts()
    ensures WeekdayOnly(CatalogSchedules()) && TripIdsAreNotKeys(CatalogSchedules())
    ensures var s := CatalogSchedules();
            forall key, t :: key in s && t in s[key].trips ==> StrictlyIncreasing(t.stopTimes)
  {
    CatalogLinesShape();
    var s := CatalogSchedules();
    forall key, t | key in s && t in s[key].trips
      ensures t.serviceType == Weekday && StrictlyIncreasing(t.stopTimes) && t.id !in s
    {
      ScheduleOfLine(CatalogLines, key);
      var l :| l in CatalogLines && l.routeId == key && LineArgumentsOk(l)
               && s[key] == Schedule(GeneratedTrips(l.routeId, l.stops, l.frequency, l.headsign));
      GeneratedTripFacts(l, t);
    }
  }

  // ---------------------------------------------------------------------------------------
  // What the aggregation should yield: one vehicle per active trip that has a position

  /** An active trip of a route together with its interpolated position. */
  datatype Sighting = Sighting(route: Route, trip: Trip, position: Position)

  /** The trips of a list of sightings, in the same order. */
  function TripsOf(s: seq<Sighting>): seq<Trip>
  {
    seq(|s|, k requires 0 <= k < |s| => s[k].trip)
  }

  /** The trips of `trips` that have a position at minute `m`, in order. */
  function TripSightings(route: Route, trips: seq<Trip>, m: int, bearing: (StopTime, StopTime) -> Bearing,
                         distance: (real, real, real, real) -> real): (s: seq<Sighting>)
    ensures forall c :: c in s ==>
              c.route == route && c.trip in trips && PositionOf(c.trip.stopTimes, m, bearing, distance) == Some(c.position)
    ensures forall t :: t in trips && PositionOf(t.stopTimes, m, bearing, distance).Some? ==>
              Sighting(route, t, PositionOf(t.stopTimes, m, bearing, distance).value) in s
  {
    if trips == [] then []
    else
      var t := trips[|trips| - 1];
      var front := trips[..|trips| - 1];
      assert trips == front + [t];
      var before := TripSightings(route, front, m, bearing, distance);
      match PositionOf(t.stopTimes, m, bearing, distance)
      case None => before
      case Some(p) => before + [Sighting(route, t, p)]
  }

  /** The sightings keep the order of the trips they come from: within a route, vehicles come
      out in schedule order. */
  lemma {:induction false} TripSightingsInOrder(route: Route, trips: seq<Trip>, m: int,
                                                bearing: (StopTime, StopTime) -> Bearing,
                                                distance: (real, real, real, real) -> real)
    ensures IsSubsequence(TripsOf(TripSightings(route, trips, m, bearing, distance)), trips)
  {
    if trips != [] {
      var t := trips[|trips| - 1];
      var front := trips[..|trips| - 1];
      assert trips == front + [t];
      var before := TripSightings(route, front, m, bearing, distance);
      var after := TripSightings(route, trips, m, bearing, distance);
      TripSightingsInOrder(route, front, m, bearing, distance);
      SubsequenceExtend(TripsOf(before), front, t);
      var pos := PositionOf(t.stopTimes, m, bearing, distance);
      if pos.None? {
        assert after == before;
      } else {
        var x := Sighting(route, t, pos.value);
        assert after == before + [x];
        TripsOfSnoc(before, x);
      }
    }
  }

  lemma TripsOfSnoc(s: seq<Sighting>, x: Sighting)
    ensures TripsOf(s + [x]) == TripsOf(s) + [x.trip]
  {
    assert forall k :: 0 <= k < |s| ==> (s + [x])[k] == s[k];
  }

  /** Route by route in catalogue order, the sightings of each route's active trips. */
  function Sightings(routes: seq<Route>, schedules: map<string, Schedule>, m: int, day: int,
                     bearing: (StopTime, StopTime) -> Bearing, distance: (real, real, real, real) -> real)
    : (s: seq<Sighting>)
    requires SchedulesWellFormed(schedules)
    ensures forall c :: c in s ==>
              && c.route in routes && c.route.id in schedules
              && c.trip in ActiveTrips(schedules, c.route.id, m, day)
              && PositionOf(c.trip.stopTimes, m, bearing, distance) == Some(c.position)
  {
    if routes == [] then []
    else
      var r := routes[|routes| - 1];
      Sightings(routes[..|routes| - 1], schedules, m, day, bearing, distance)
        + TripSightings(r, ActiveTrips(schedules, r.id, m, day), m, bearing, distance)
  }

  /** The vehicle pushed for a sighting when the occupancy draw is `r`. */
  function VehicleOf(c: Sighting, m: int, r: Unit): Vehicle
  {
    Vehicle(c.route.id + "-" + c.trip.id, c.route.id, c.route.name, c.route.kind, c.route.color,
            c.position.lat, c.position.lon, c.position.heading, c.position.speed, c.trip.headsign,
            EstimateOccupancy(m, r), c.trip.id, c.position.nextStopId)
  }

  /** The vehicles pushed for a list of sightings; the k-th takes the k-th occupancy draw. */
  function VehiclesOf(c: seq<Sighting>, m: int, draw: nat -> Unit): (vs: seq<Vehicle>)
    ensures |vs| == |c|
  {
    seq(|c|, k requires 0 <= k < |c| => VehicleOf(c[k], m, draw(k)))
  }

  lemma VehiclesOfSnoc(c: seq<Sighting>, x: Sighting, m: int, draw: nat -> Unit)
    ensures VehiclesOf(c + [x], m, draw) == VehiclesOf(c, m, draw) + [VehicleOf(x, m, draw(|c|))]
  {
    assert forall k :: 0 <= k < |c| ==> (c + [x])[k] == c[k];
  }

  /** The vehicle list at `clock`. */
  function Snapshot(routes: seq<Route>, schedules: map<string, Schedule>, clock: Clock, draw: nat -> Unit,
                    bearing: (StopTime, StopTime) -> Bearing, distance: (real, real, real, real) -> real)
    : seq<Vehicle>
    requires SchedulesWellFormed(schedules)
  {
    VehiclesOf(Sightings(routes, schedules, MinuteOfDay(clock), clock.day, bearing, distance), MinuteOfDay(clock), draw)
  }

  /** Vehicles come out route-major: the sightings of a catalogue split in two are those of the
      first part followed by those of the second. */
  lemma {:induction false} SightingsAppend(a: seq<Route>, b: seq<Route>, schedules: map<string, Schedule>, m: int,
                                           day: int, bearing: (StopTime, StopTime) -> Bearing,
                                           distance: (real, real, real, real) -> real)
    requires SchedulesWellFormed(schedules)
    ensures Sightings(a + b, schedules, m, day, bearing, distance)
            == Sightings(a, schedules, m, day, bearing, distance) + Sightings(b, schedules, m, day, bearing, distance)
  {
    if b == [] {
      assert a + b == a;
    } else {
      var r := b[|b| - 1];
      var front := b[..|b| - 1];
      assert (a + b)[..|a + b| - 1] == a + front;
      assert (a + b)[|a + b| - 1] == r;
      SightingsAppend(a, front, schedules, m, day, bearing, distance);
    }
  }

  /** Every active trip with a position yields a sighting on its route. */
  lemma {:induction false} SightingsComplete(routes: seq<Route>, schedules: map<string, Schedule>, m: int, day: int,
                                             bearing: (StopTime, StopTime) -> Bearing,
                                             distance: (real, real, real, real) -> real, i: nat, t: Trip)
    requires SchedulesWellFormed(schedules)
    requires i < |routes| && t in ActiveTrips(schedules, routes[i].id, m, day)
    requires PositionOf(t.stopTimes, m, bearing, distance).Some?
    ensures Sighting(routes[i], t, PositionOf(t.stopTimes, m, bearing, distance).value)
            in Sightings(routes, schedules, m, day, bearing, distance)
  {
    var front := routes[..|routes| - 1];
    if i < |routes| - 1 {
      assert front[i] == routes[i];
      SightingsComplete(front, schedules, m, day, bearing, distance, i, t);
    }
  }

  /** Each vehicle has id `route.id + '-' + trip.id` for a route of the catalogue and one of that
      route's active trips, travels at 10 to 50 km/h with a heading in [0, 360), shows the trip's
      headsign and takes its own occupancy draw. */
  lemma VehicleOrigin(routes: seq<Route>, schedules: map<string, Schedule>, clock: Clock, draw: nat -> Unit,
                      bearing: (StopTime, StopTime) -> Bearing, distance: (real, real, real, real) -> real, k: nat)
    requires SchedulesWellFormed(schedules)
    requires k < |Snapshot(routes, schedules, clock, draw, bearing, distance)|
    ensures var v := Snapshot(routes, schedules, clock, draw, bearing, distance)[k];
            var m := MinuteOfDay(clock);
            exists route, t :: route in routes && t in ActiveTrips(schedules, route.id, m, clock.day)
              && v.id == route.id + "-" + t.id && v.lineId == route.id && v.tripId == t.id
              && v.destination == t.headsign && v.lineType == route.kind
              && 10.0 <= v.speed <= 50.0 && 0.0 <= v.heading < 360.0
              && v.occupancy == EstimateOccupancy(m, draw(k))
              && v.lineName == route.name && v.lineColor == route.color
              && PositionOf(t.stopTimes, m, bearing, distance).Some?
              && v.lat == PositionOf(t.stopTimes, m, bearing, distance).value.lat
              && v.lon == PositionOf(t.stopTimes, m, bearing, distance).value.lon
              && v.nextStopId == PositionOf(t.stopTimes, m, bearing, distance).value.nextStopId
  {
    var m := MinuteOfDay(clock);
    var c := Sightings(routes, schedules, m, clock.day, bearing, distance)[k];
    assert c in Sightings(routes, schedules, m, clock.day, bearing, distance);
    var v := Snapshot(routes, schedules, clock, draw, bearing, distance)[k];
    assert v == VehicleOf(c, m, draw(k));
    assert PositionOf(c.trip.stopTimes, m, bearing, distance) == Some(c.position);
    assert c.route in routes && c.trip in ActiveTrips(schedules, c.route.id, m, clock.day)
           && v.id == c.route.id + "-" + c.trip.id;
  }

  /** With weekday-only trips no route has a sighting on Saturday or Sunday. */
  lemma {:induction false} NoWeekendSightings(routes: seq<Route>, schedules: map<string, Schedule>, m: int, day: int,
                                              bearing: (StopTime, StopTime) -> Bearing,
                                              distance: (real, real, real, real) -> real)
    requires SchedulesWellFormed(schedules)
    requires forall key, t :: key in schedules && t in schedules[key].trips ==> t.serviceType == Weekday
    requires day == 0 || day == 6
    ensures Sightings(routes, schedules, m, day, bearing, distance) == []
  {
    if routes != [] {
      var r := routes[|routes| - 1];
      NoWeekendSightings(routes[..|routes| - 1], schedules, m, day, bearing, distance);
      if r.id in schedules {
        NoWeekendService(schedules[r.id].trips, m, day);
      }
    }
  }

  /** With weekday-only trips nobody drives on Saturday or Sunday. */
  lemma NoWeekendVehicles(routes: seq<Route>, schedules: map<string, Schedule>, clock: Clock, draw: nat -> Unit,
                          bearing: (StopTime, StopTime) -> Bearing, distance: (real, real, real, real) -> real)
    requires SchedulesWellFormed(schedules)
    requires forall key, t :: key in schedules && t in schedules[key].trips ==> t.serviceType == Weekday
    requires clock.day == 0 || clock.day == 6
    ensures Snapshot(routes, schedules, clock, draw, bearing, distance) == []
  {
    NoWeekendSightings(routes, schedules, MinuteOfDay(clock), clock.day, bearing, distance);
  }

  // ---------------------------------------------------------------------------------------
  // The simulator object

  /** The constructor's `generateTripsForRoute` calls, one per line in table order, each
      storing its trips under the line's route id. */
  method LoadSchedules(lines: seq<Line>) returns (built: map<string, Schedule>)
    requires forall l :: l in lines ==> LineArgumentsOk(l)
    ensures built == SchedulesOf(lines)
  {
    built := map[];
    for i := 0 to |lines|
      invariant built == SchedulesOf(lines[..i])
    {
      var l := lines[i];
      assert l in lines;
      var trips := GenerateTripsForRoute(l.routeId, l.stops, l.frequency, l.headsign);
      TakeSnoc(lines, i);
      built := built[l.routeId := Schedule(trips)];
    }
    TakeAll(lines);
  }

  class GtfsSimulator {
    const routes: seq<Route>
    const schedules: map<string, Schedule>

    ghost predicate Valid() { SchedulesWellFormed(schedules) }

    /** `new GTFSSimulator()`: the route catalogue and the schedule map built by one
        `generateTripsForRoute` call per line. */
    constructor ()
      ensures routes == CatalogRoutes && schedules == CatalogSchedules()
      ensures Valid()
    {
      routes := CatalogRoutes;
      CatalogLinesShape();
      var built := LoadSchedules(CatalogLines);
      schedules := built;
    }

    /** `getActiveTripsForRoute(routeId, currentMinutes, dayOfWeek)`. */
    method ActiveTripsForRoute(routeId: string, m: int, day: int) returns (trips: seq<Trip>)
      requires Valid()
      ensures trips == ActiveTrips(schedules, routeId, m, day)
      ensures forall t :: t in trips <==>
                routeId in schedules && t in schedules[routeId].trips && IsActive(t, m, ServiceTypeOf(day))
    {
      trips := [];
      if routeId !in schedules {
        return;
      }
      var serviceType := if day == 0 || day == 6 then Weekend else Weekday;
      var all := schedules[routeId].trips;
      assert forall t :: t in all ==> WellFormed(t);
      for k := 0 to |all|
        invariant forall t :: t in all[..k] ==> WellFormed(t)
        invariant trips == ActiveAmong(all[..k], m, day)
      {
        var t := all[k];
        assert t in all;
        ActiveAmongStep(all, k, m, day);
        if t.serviceType == serviceType {
          var firstStopTime := t.stopTimes[0].time;
          var lastStopTime := t.stopTimes[|t.stopTimes| - 1].time;
          if m as real >= firstStopTime && m as real <= lastStopTime {
            trips := trips + [t];
          }
        }
      }
      TakeAll(all);
    }

    /** `getVehiclePosition(tripId, currentTime)` as written: it looks the trip id up in the map
        keyed by route id. A miss returns `null`; a hit finds a `{ trips }` record, whose undefined
        `stopTimes` makes the scan throw. */
    method VehiclePosition(tripId: string) returns (r: Result<Option<Position>, Fault>)
      ensures r == Success(None) <==> tripId !in schedules
      ensures r == Failure(StopTimesUndefined) <==> tripId in schedules
    {
      if tripId !in schedules {
        return Success(None);
      }
      return Failure(StopTimesUndefined);
    }

    /** Some route's active trip has an id that is also a key of the schedule map. */
    ghost predicate LookupHits(m: int, day: int)
      requires Valid()
    {
      exists i, t :: 0 <= i < |routes| && t in ActiveTrips(schedules, routes[i].id, m, day) && t.id in schedules
    }

    /** `generateActiveVehicles(currentTime)` as written: every position comes from
        `VehiclePosition`, so the result is an empty list, or the exception when a trip id
        happens to be a route id. */
    method GenerateActiveVehicles(clock: Clock, draw: nat -> Unit) returns (r: Result<seq<Vehicle>, Fault>)
      requires Valid()
      ensures r == if LookupHits(MinuteOfDay(clock), clock.day) then Failure(StopTimesUndefined) else Success([])
    {
      var vehicles: seq<Vehicle> := [];
      var m := MinuteOfDay(clock);
      var day := clock.day;
      for i := 0 to |routes|
        invariant vehicles == []
        invariant forall i', t :: 0 <= i' < i && t in ActiveTrips(schedules, routes[i'].id, m, day) ==> t.id !in schedules
      {
        var route := routes[i];
        var activeTrips := ActiveTripsForRoute(route.id, m, day);
        for j := 0 to |activeTrips|
          invariant vehicles == []
          invariant forall t :: t in activeTrips[..j] ==> t.id !in schedules
        {
          var trip := activeTrips[j];
          var position := VehiclePosition(trip.id);
          var pushed: nat := |vehicles|;
          match position {
          case Failure(e) =>
            assert LookupHits(m, day) by {
              assert trip in ActiveTrips(schedules, routes[i].id, m, day);
            }
            return Failure(e);
          case Success(None) =>
          case Success(Some(p)) =>
            vehicles := vehicles + [Vehicle(route.id + "-" + trip.id, route.id, route.name, route.kind, route.color,
                                            p.lat, p.lon, p.heading, p.speed, trip.headsign,
                                            EstimateOccupancy(m, draw(pushed)), trip.id, p.nextStopId)];
          }
          TakeSnoc(activeTrips, j);
        }
        TakeAll(activeTrips);
      }
      return Success(vehicles);
    }

    /** `generateActiveVehicles(currentTime)` with the position taken from the trip itself, as the
        simulator intends: the vehicles of every active trip that has a position, route-major. */
    method GenerateActiveVehiclesByTrip(clock: Clock, draw: nat -> Unit, bearing: (StopTime, StopTime) -> Bearing,
                                        distance: (real, real, real, real) -> real)
      returns (vehicles: seq<Vehicle>)
      requires Valid()
      ensures vehicles == Snapshot(routes, schedules, clock, draw, bearing, distance)
    {
      vehicles := [];
      var m := MinuteOfDay(clock);
      var day := clock.day;
      ghost var done: seq<Sighting> := [];
      for i := 0 to |routes|
        invariant done == Sightings(routes[..i], schedules, m, day, bearing, distance)
        invariant vehicles == VehiclesOf(done, m, draw)
      {
        var route := routes[i];
        var activeTrips := ActiveTripsForRoute(route.id, m, day);
        ghost var before := done;
        for j := 0 to |activeTrips|
          invariant done == before + TripSightings(route, activeTrips[..j], m, bearing, distance)
          invariant vehicles == VehiclesOf(done, m, draw)
        {
          var trip := activeTrips[j];
          TakeSnoc(activeTrips, j);
          var position := Interpolate(trip.stopTimes, m, bearing, distance);
          match position {
            case None =>
            case Some(p) =>
              var vehicle := Vehicle(route.id + "-" + trip.id, route.id, route.name, route.kind, route.color,
                                     p.lat, p.lon, p.heading, p.speed, trip.headsign,
                                     EstimateOccupancy(m, draw(|vehicles|)), trip.id, p.nextStopId);
              VehiclesOfSnoc(done, Sighting(route, trip, p), m, draw);
              vehicles := vehicles + [vehicle];
              done := done + [Sighting(route, trip, p)];
          }
        }
        TakeAll(activeTrips);
        TakeSnoc(routes, i);
      }
      TakeAll(routes);
    }
  }

  // ---------------------------------------------------------------------------------------
  // The shipped catalogue

  /** The route-keyed lookup of a trip id never hits when no trip id is a key. */
  lemma LookupMissesWhenIdsAreNotKeys(sim: GtfsSimulator, m: int, day: int)
    requires sim.Valid() && TripIdsAreNotKeys(sim.schedules)
    ensures !sim.LookupHits(m, day)
  {
    forall i, t | 0 <= i < |sim.routes| && t in ActiveTrips(sim.schedules, sim.routes[i].id, m, day)
      ensures t.id !in sim.schedules
    {
      var key := sim.routes[i].id;
      assert key in sim.schedules;
      assert t in sim.schedules[key].trips;
    }
  }

  /** For the shipped catalogue the route-keyed lookup never hits, so `generateActiveVehicles`
      returns an empty list at every instant. */
  lemma ShippedLookupMisses(sim: GtfsSimulator, m: int, day: int)
    requires sim.schedules == CatalogSchedules()
    ensures !sim.LookupHits(m, day)
  {
    CatalogScheduleFacts();
    LookupMissesWhenIdsAreNotKeys(sim, m, day);
  }

  /** Route "1" is scheduled by the first catalogue call, tram 1 every 7 minutes towards Greco. */
  lemma CatalogFirstLine()
    ensures |CatalogLines| == 16 && CatalogLines[0] == Line("1", Tram1Stops, 7, "Greco")
    ensures forall j :: 0 <= j < |CatalogLines| && j != 0 ==> CatalogLines[j].routeId != CatalogLines[0].routeId
  {
  }

  lemma CatalogTram1()
    ensures "1" in CatalogSchedules()
    ensures CatalogSchedules()["1"] == Schedule(GeneratedTrips("1", Tram1Stops, 7, "Greco"))
  {
    CatalogLinesShape();
    CatalogFirstLine();
    ScheduleOfUniqueLine(CatalogLines, 0);
  }

  /** Tram 1 is the fifth entry of the route table. */
  lemma CatalogRouteOfTram1()
    ensures |CatalogRoutes| == 25 && CatalogRoutes[4].id == "1"
  {
  }

  /** Outbound trip 25 of tram 1 departs at 7:55 (minute 475) and reaches its last stop no
      earlier than minute 487.5, so it is running at 8:00 and until after 8:07. */
  lemma Tram1Trip25()
    ensures TripsPerDirection(7) == 163
    ensures var t := GeneratedTrips("1", Tram1Stops, 7, "Greco")[25];
            && WellFormed(t) && StrictlyIncreasing(t.stopTimes) && t.serviceType == Weekday
            && t.stopTimes[0].time == 475.0 && t.stopTimes[|t.stopTimes| - 1].time >= 487.5
  {
    assert TripsPerDirection(7) == 163;
    var t := GeneratedTrips("1", Tram1Stops, 7, "Greco")[25];
    GeneratedTripFacts(CatalogLines[0], t);
    GeneratedTripShape("1", Tram1Stops, 7, "Greco", 25);
    GeneratedStopTime("1", Tram1Stops, 7, "Greco", 25, 5);
    GeneratedTimesIncrease("1", Tram1Stops, 7, "Greco", 25);
  }

  /** One scheduled trip running strictly inside its first and last stop times, on a route of
      the list, is enough for a non-empty vehicle list. */
  lemma SnapshotNonEmpty(routes: seq<Route>, schedules: map<string, Schedule>, clock: Clock, draw: nat -> Unit,
                         bearing: (StopTime, StopTime) -> Bearing, distance: (real, real, real, real) -> real,
                         i: nat, t: Trip)
    requires SchedulesWellFormed(schedules)
    requires i < |routes| && routes[i].id in schedules && t in schedules[routes[i].id].trips
    requires StrictlyIncreasing(t.stopTimes) && |t.stopTimes| >= 2 && t.serviceType == ServiceTypeOf(clock.day)
    requires t.stopTimes[0].time <= MinuteOfDay(clock) as real < t.stopTimes[|t.stopTimes| - 1].time
    ensures |Snapshot(routes, schedules, clock, draw, bearing, distance)| > 0
  {
    var m := MinuteOfDay(clock);
    PositionOfDefinedIff(t.stopTimes, m, bearing, distance);
    assert t in ActiveTrips(schedules, routes[i].id, m, clock.day);
    SightingsComplete(routes, schedules, m, clock.day, bearing, distance, i, t);
  }

  /** At 8:00 on a Monday the outbound trip 25 of tram 1 (departing 7:55) is running between
      Cairoli and Moscova, so the intended vehicle list is not empty. */
  lemma CatalogMorningSnapshotNonEmpty(draw: nat -> Unit, bearing: (StopTime, StopTime) -> Bearing,
                                       distance: (real, real, real, real) -> real)
    ensures |Snapshot(CatalogRoutes, CatalogSchedules(), Clock(8, 0, 1), draw, bearing, distance)| > 0
  {
    CatalogTram1();
    Tram1Trip25();
    CatalogRouteOfTram1();
    SnapshotNonEmpty(CatalogRoutes, CatalogSchedules(), Clock(8, 0, 1), draw, bearing, distance,
                     4, GeneratedTrips("1", Tram1Stops, 7, "Greco")[25]);
  }
}
