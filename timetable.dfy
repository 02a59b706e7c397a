/** The timetable half of the simulator (src/services/gtfsSimulator.js): stops, trips, the trip
    generator `generateTripsForRoute` and the activation window of `getActiveTripsForRoute`. */
module Timetable {
  import opened Text
  import opened Seqs

  /** A stop of a route's catalogue entry: `{ id, lat, lon, name }`. */
  datatype Stop = Stop(id: string, lat: real, lon: real, name: string)

  /** A stop of a trip: the stop's fields spread out, plus the minute of day it is reached. */
  datatype StopTime = StopTime(id: string, lat: real, lon: real, name: string, time: real)

  datatype Direction = Outbound | Inbound

  datatype ServiceType = Weekday | Weekend

  datatype Trip = Trip(id: string, headsign: string, serviceType: ServiceType, direction: Direction,
                       stopTimes: seq<StopTime>)

  /** The value stored under a route id in the schedule map: `{ trips }`. */
  datatype Schedule = Schedule(trips: seq<Trip>)

  /** Service hours, in minutes since midnight: 5:00 to 24:00. */
  const ServiceStart: int := 5 * 60
  const ServiceEnd: int := 24 * 60

  function DirectionName(d: Direction): string
  {
    match d
    case Outbound => "outbound"
    case Inbound => "inbound"
  }

  /** Minutes between consecutive stops: 2.5 on a route with more than four stops, else 2. */
  function AvgStopTime(stopCount: nat): real
  {
    if stopCount > 4 then 2.5 else 2.0
  }

  /** The number of departures per direction: one every `f` minutes from ServiceStart while
      before ServiceEnd, that is the ceiling of (ServiceEnd - ServiceStart) / f. */
  function TripsPerDirection(f: nat): nat
    requires f > 0
  {
    (ServiceEnd - ServiceStart + f - 1) / f
  }

  /** `${routeId}-${direction}-${k}`. */
  function TripId(routeId: string, d: Direction, k: nat): string
  {
    routeId + "-" + DirectionName(d) + "-" + NatToString(k)
  }

  /** `stops.map((stop, idx) => ({ ...stop, time: start + idx * avg }))`. */
  function TimedStops(stops: seq<Stop>, start: real, avg: real): seq<StopTime>
  {
    seq(|stops|, idx requires 0 <= idx < |stops| =>
      StopTime(stops[idx].id, stops[idx].lat, stops[idx].lon, stops[idx].name, start + idx as real * avg))
  }

  /** The stops a trip visits, without their times. */
  function StopsOf(stopTimes: seq<StopTime>): (stops: seq<Stop>)
    ensures |stops| == |stopTimes|
  {
    seq(|stopTimes|, idx requires 0 <= idx < |stopTimes| =>
      Stop(stopTimes[idx].id, stopTimes[idx].lat, stopTimes[idx].lon, stopTimes[idx].name))
  }

  /** The stop order of a direction: the catalogue order outbound, reversed inbound. */
  function StopSequence(stops: seq<Stop>, d: Direction): seq<Stop>
  {
    if d == Inbound then Reverse(stops) else stops
  }

  /** The `k`-th trip pushed by `generateTripsForRoute`; `k` runs on across both directions. */
  function NthTrip(routeId: string, stops: seq<Stop>, f: nat, headsign: string, k: nat): Trip
    requires |stops| >= 1 && f > 0
  {
    var n := TripsPerDirection(f);
    var d := if k < n then Outbound else Inbound;
    var departure := ServiceStart + (if k < n then k else k - n) * f;
    var sequence := StopSequence(stops, d);
    Trip(TripId(routeId, d, k), if d == Inbound then sequence[0].name else headsign, Weekday, d,
         TimedStops(sequence, departure as real, AvgStopTime(|stops|)))
  }

  /** The whole list `generateTripsForRoute` returns. */
  function GeneratedTrips(routeId: string, stops: seq<Stop>, f: nat, headsign: string): seq<Trip>
    requires |stops| >= 1 && f > 0
  {
    seq(2 * TripsPerDirection(f), k requires 0 <= k < 2 * TripsPerDirection(f) =>
      NthTrip(routeId, stops, f, headsign, k))
  }

  lemma MulMonotone(a: int, b: int, f: int)
    requires a <= b && f >= 0
    ensures a * f <= b * f
  {
    assert b * f - a * f == (b - a) * f;
  }

  /** A departure `ServiceStart + j * f` is before ServiceEnd exactly for the first
      TripsPerDirection(f) values of `j`. */
  lemma DepartureBeforeEnd(j: nat, f: nat)
    requires f > 0
    ensures ServiceStart + j * f < ServiceEnd <==> j < TripsPerDirection(f)
  {
    var n := TripsPerDirection(f);
    var total := ServiceEnd - ServiceStart + f - 1;
    assert total == n * f + total % f;
    if j < n {
      MulMonotone(j, n - 1, f);
      assert (n - 1) * f == n * f - f;
    } else {
      MulMonotone(n, j, f);
    }
  }

  /** The trip pushed for departure `j` of direction `d`. */
  lemma NthTripOfDeparture(routeId: string, stops: seq<Stop>, f: nat, headsign: string, d: Direction, j: nat)
    requires |stops| >= 1 && f > 0 && j < TripsPerDirection(f)
    ensures var k := if d == Outbound then j else TripsPerDirection(f) + j;
            var sequence := StopSequence(stops, d);
            NthTrip(routeId, stops, f, headsign, k)
            == Trip(TripId(routeId, d, k), if d == Inbound then sequence[0].name else headsign, Weekday, d,
                    TimedStops(sequence, (ServiceStart + j * f) as real, AvgStopTime(|stops|)))
  {
  }

  /** `generateTripsForRoute(routeId, stops, f, headsign)`: for each direction, outbound first,
      one trip per departure from ServiceStart every `f` minutes while before ServiceEnd. */
  method GenerateTripsForRoute(routeId: string, stops: seq<Stop>, f: nat, headsign: string)
    returns (trips: seq<Trip>)
    requires |stops| >= 2 && f > 0
    ensures |trips| == 2 * TripsPerDirection(f)
    ensures trips == GeneratedTrips(routeId, stops, f, headsign)
  {
    trips := [];
    var avgStopTime := AvgStopTime(|stops|);
    var directions := [Outbound, Inbound];
    ghost var n := TripsPerDirection(f);
    ghost var all := GeneratedTrips(routeId, stops, f, headsign);
    for d := 0 to 2
      invariant |trips| == if d == 0 then 0 else if d == 1 then n else n + n
      invariant trips == all[..|trips|]
    {
      var direction := directions[d];
      ghost var base := |trips|;
      assert base == if direction == Outbound then 0 else n;
      var startTime := ServiceStart;
      ghost var j: nat := 0;
      while startTime < ServiceEnd
        invariant startTime == ServiceStart + j * f
        invariant j <= n
        invariant |trips| == base + j
        invariant trips == all[..|trips|]
      {
        DepartureBeforeEnd(j, f);
        var stopsSequence := if direction == Inbound then Reverse(stops) else stops;
        var stopTimes := TimedStops(stopsSequence, startTime as real, avgStopTime);
        var trip := Trip(TripId(routeId, direction, |trips|),
                         if direction == Inbound then stopsSequence[0].name else headsign,
                         Weekday, direction, stopTimes);
        NthTripOfDeparture(routeId, stops, f, headsign, direction, j);
        assert trip == all[|trips|];
        TakeSnoc(all, |trips|);
        trips := trips + [trip];
        assert (j + 1) * f == j * f + f;
        startTime := startTime + f;
        j := j + 1;
      }
      DepartureBeforeEnd(j, f);
    }
    TakeAll(all);
  }

  // ---------------------------------------------------------------------------------------
  // What the generated trips look like

  ghost predicate StrictlyIncreasing(stopTimes: seq<StopTime>)
  {
    forall a, b :: 0 <= a < b < |stopTimes| ==> stopTimes[a].time < stopTimes[b].time
  }

  /** Trip `k` runs outbound exactly when `k` is below the per-direction count, departs at
      ServiceStart plus a whole number of headways, is a weekday trip, and shows the caller's
      headsign outbound and the name of the last catalogue stop inbound. */
  lemma GeneratedTripShape(routeId: string, stops: seq<Stop>, f: nat, headsign: string, k: nat)
    requires |stops| >= 2 && f > 0 && k < 2 * TripsPerDirection(f)
    ensures var t := GeneratedTrips(routeId, stops, f, headsign)[k];
            var n := TripsPerDirection(f);
            && (t.direction == Outbound <==> k < n)
            && t.serviceType == Weekday
            && |t.stopTimes| == |stops|
            && t.stopTimes[0].time == (ServiceStart + (if k < n then k else k - n) * f) as real
            && (t.direction == Outbound ==> t.headsign == headsign)
            && (t.direction == Inbound ==> t.headsign == stops[|stops| - 1].name)
  {
  }

  /** The stop at index `idx` of a trip departing at `start` has time start + idx * avg and
      keeps the catalogue stop's id, position and name. */
  lemma GeneratedStopTime(routeId: string, stops: seq<Stop>, f: nat, headsign: string, k: nat, idx: nat)
    requires |stops| >= 2 && f > 0 && k < 2 * TripsPerDirection(f) && idx < |stops|
    ensures var t := GeneratedTrips(routeId, stops, f, headsign)[k];
            var stop := StopSequence(stops, t.direction)[idx];
            && t.stopTimes[idx].time == t.stopTimes[0].time + idx as real * AvgStopTime(|stops|)
            && t.stopTimes[idx].id == stop.id && t.stopTimes[idx].lat == stop.lat
            && t.stopTimes[idx].lon == stop.lon && t.stopTimes[idx].name == stop.name
  {
  }

  lemma TimedStopsIncreasing(stops: seq<Stop>, start: real, avg: real)
    requires avg > 0.0
    ensures StrictlyIncreasing(TimedStops(stops, start, avg))
  {
    var st := TimedStops(stops, start, avg);
    forall a, b | 0 <= a < b < |st|
      ensures st[a].time < st[b].time
    {
      assert (b - a) as real * avg > 0.0;
      assert st[b].time - st[a].time == (b - a) as real * avg;
    }
  }

  /** The times along every generated trip strictly increase. */
  lemma GeneratedTimesIncrease(routeId: string, stops: seq<Stop>, f: nat, headsign: string, k: nat)
    requires |stops| >= 2 && f > 0 && k < 2 * TripsPerDirection(f)
    ensures StrictlyIncreasing(GeneratedTrips(routeId, stops, f, headsign)[k].stopTimes)
  {
    var n := TripsPerDirection(f);
    var d := if k < n then Outbound else Inbound;
    var departure := ServiceStart + (if k < n then k else k - n) * f;
    TimedStopsIncreasing(StopSequence(stops, d), departure as real, AvgStopTime(|stops|));
  }

  lemma StopsOfTimedStops(stops: seq<Stop>, start: real, avg: real)
    ensures StopsOf(TimedStops(stops, start, avg)) == stops
  {
    var r := StopsOf(TimedStops(stops, start, avg));
    assert forall i :: 0 <= i < |stops| ==> r[i] == stops[i];
  }

  /** Outbound trips visit the catalogue stops in order, inbound trips in reverse order, and
      reversing an inbound trip's stops gives the catalogue order back. */
  lemma GeneratedDirections(routeId: string, stops: seq<Stop>, f: nat, headsign: string, k: nat)
    requires |stops| >= 2 && f > 0 && k < 2 * TripsPerDirection(f)
    ensures var t := GeneratedTrips(routeId, stops, f, headsign)[k];
            && (t.direction == Outbound ==> StopsOf(t.stopTimes) == stops)
            && (t.direction == Inbound ==>
                  StopsOf(t.stopTimes) == Reverse(stops) && Reverse(StopsOf(t.stopTimes)) == stops)
  {
    var n := TripsPerDirection(f);
    var d := if k < n then Outbound else Inbound;
    var departure := ServiceStart + (if k < n then k else k - n) * f;
    var t := NthTrip(routeId, stops, f, headsign, k);
    assert GeneratedTrips(routeId, stops, f, headsign)[k] == t;
    assert t.direction == d;
    StopsOfTimedStops(StopSequence(stops, d), departure as real, AvgStopTime(|stops|));
    assert StopsOf(t.stopTimes) == StopSequence(stops, d);
    ReverseInvolution(stops);
  }

  lemma TripIdsDiffer(routeId: string, d1: Direction, k1: nat, d2: Direction, k2: nat)
    requires k1 != k2
    ensures TripId(routeId, d1, k1) != TripId(routeId, d2, k2)
  {
    if d1 == d2 {
      NatToStringInjective(k1, k2);
      var p := routeId + "-" + DirectionName(d1) + "-";
      assert TripId(routeId, d1, k1) == p + NatToString(k1);
      assert TripId(routeId, d2, k2) == p + NatToString(k2);
      assert (p + NatToString(k1))[|p|..] == NatToString(k1);
      assert (p + NatToString(k2))[|p|..] == NatToString(k2);
    } else {
      assert TripId(routeId, d1, k1)[|routeId| + 1] == DirectionName(d1)[0];
      assert TripId(routeId, d2, k2)[|routeId| + 1] == DirectionName(d2)[0];
    }
  }

  /** The running counter makes the ids of one route's trips pairwise distinct. */
  lemma GeneratedTripIdsDistinct(routeId: string, stops: seq<Stop>, f: nat, headsign: string, k1: nat, k2: nat)
    requires |stops| >= 2 && f > 0 && k1 < k2 < 2 * TripsPerDirection(f)
    ensures GeneratedTrips(routeId, stops, f, headsign)[k1].id != GeneratedTrips(routeId, stops, f, headsign)[k2].id
  {
    var trips := GeneratedTrips(routeId, stops, f, headsign);
    TripIdsDiffer(routeId, trips[k1].direction, k1, trips[k2].direction, k2);
  }

  /** A generated trip's id starts with its route id and a dash. */
  lemma GeneratedTripIdPrefix(routeId: string, stops: seq<Stop>, f: nat, headsign: string, k: nat)
    requires |stops| >= 2 && f > 0 && k < 2 * TripsPerDirection(f)
    ensures StartsWith(GeneratedTrips(routeId, stops, f, headsign)[k].id, routeId + "-")
  {
    var t := GeneratedTrips(routeId, stops, f, headsign)[k];
    assert t.id == (routeId + "-") + (DirectionName(t.direction) + "-" + NatToString(k));
  }

  // ---------------------------------------------------------------------------------------
  // getActiveTripsForRoute

  /** `getDay()` 0 (Sunday) and 6 (Saturday) run the weekend service, every other day the weekday one. */
  function ServiceTypeOf(day: int): (s: ServiceType)
    ensures s == Weekend <==> (day == 0 || day == 6)
  {
    if day == 0 || day == 6 then Weekend else Weekday
  }

  predicate WellFormed(t: Trip) { |t.stopTimes| >= 2 }

  ghost predicate SchedulesWellFormed(schedules: map<string, Schedule>)
  {
    forall id, t :: id in schedules && t in schedules[id].trips ==> WellFormed(t)
  }

  /** A trip runs at `minutes` when its calendar matches the day and the minute lies between its
      first and last stop times, both ends included. */
  predicate IsActive(t: Trip, minutes: int, service: ServiceType)
    requires WellFormed(t)
  {
    t.serviceType == service && t.stopTimes[0].time <= minutes as real <= t.stopTimes[|t.stopTimes| - 1].time
  }

  /** The trips of one schedule that run at `minutes` on `day`, in schedule order. */
  function ActiveAmong(trips: seq<Trip>, minutes: int, day: int): (active: seq<Trip>)
    requires forall t :: t in trips ==> WellFormed(t)
    ensures IsSubsequence(active, trips)
    ensures forall t :: t in active <==> t in trips && IsActive(t, minutes, ServiceTypeOf(day))
  {
    if trips == [] then []
    else
      var front := trips[..|trips| - 1];
      var last := trips[|trips| - 1];
      assert trips == front + [last];
      var before := ActiveAmong(front, minutes, day);
      SubsequenceExtend(before, front, last);
      if IsActive(last, minutes, ServiceTypeOf(day)) then before + [last] else before
  }

  /** The scan over one more trip of a schedule keeps it exactly when it is active. */
  lemma ActiveAmongStep(trips: seq<Trip>, k: nat, minutes: int, day: int)
    requires forall t :: t in trips ==> WellFormed(t)
    requires k < |trips|
    ensures forall t :: t in trips[..k] ==> WellFormed(t)
    ensures forall t :: t in trips[..k + 1] ==> WellFormed(t)
    ensures ActiveAmong(trips[..k + 1], minutes, day)
            == if IsActive(trips[k], minutes, ServiceTypeOf(day)) then ActiveAmong(trips[..k], minutes, day) + [trips[k]]
               else ActiveAmong(trips[..k], minutes, day)
  {
    assert forall t :: t in trips[..k + 1] ==> t in trips;
    assert trips[..k + 1][..k] == trips[..k];
  }

  /** `getActiveTripsForRoute`: no schedule under the route id means no trips. */
  function ActiveTrips(schedules: map<string, Schedule>, routeId: string, minutes: int, day: int): seq<Trip>
    requires SchedulesWellFormed(schedules)
  {
    if routeId in schedules then ActiveAmong(schedules[routeId].trips, minutes, day) else []
  }

  /** With weekday-only trips (all that `generateTripsForRoute` makes), nothing runs on
      Saturday or Sunday. */
  lemma NoWeekendService(trips: seq<Trip>, minutes: int, day: int)
    requires forall t :: t in trips ==> WellFormed(t) && t.serviceType == Weekday
    requires day == 0 || day == 6
    ensures ActiveAmong(trips, minutes, day) == []
  {
  }
}
