/** The per-trip half of the simulator (src/services/gtfsSimulator.js): the bracket scan and
    interpolation of `getVehiclePosition`, `calculateHeading`'s normalisation, `calculateSpeed`
    and `estimateOccupancy`. The trigonometry is an input: `bearing` gives the `atan2` angle
    in degrees and `distance` the haversine distance in km. */
module Positioning {
  import opened Wrappers
  import opened Transit
  import opened Timetable

  /** `Math.atan2(y, x) * 180 / Math.PI`: an angle in [-180, 180]. */
  type Bearing = r: real | -180.0 <= r <= 180.0

  /** What `getVehiclePosition` returns when it finds a bracket. */
  datatype Position = Position(lat: real, lon: real, heading: real, speed: real, nextStopId: string, progress: real)

  /** JavaScript `x % y` on numbers: the remainder of division truncated toward zero. */
  function JsRemainder(x: real, y: real): real
    requires y != 0.0
  {
    var q := x / y;
    var t := if q >= 0.0 then q.Floor else -((-q).Floor);
    x - y * t as real
  }

  /** `calculateHeading`: `(heading + 360) % 360` of the bearing from `from` to `to`. */
  function Heading(from: StopTime, to: StopTime, bearing: (StopTime, StopTime) -> Bearing): (h: real)
    ensures 0.0 <= h < 360.0
    ensures bearing(from, to) >= 0.0 ==> h == bearing(from, to)
    ensures bearing(from, to) < 0.0 ==> h == bearing(from, to) + 360.0
  {
    JsRemainder(bearing(from, to) + 360.0, 360.0)
  }

  function Min(a: real, b: real): real { if a <= b then a else b }
  function Max(a: real, b: real): real { if a >= b then a else b }

  /** `calculateSpeed`: km/h over the leg, clamped to [10, 50]; 0 when the leg takes no time. */
  function Speed(from: StopTime, to: StopTime, distance: (real, real, real, real) -> real): (v: real)
    ensures to.time - from.time <= 0.0 ==> v == 0.0
    ensures to.time - from.time > 0.0 ==> 10.0 <= v <= 50.0
    ensures to.time - from.time > 0.0 ==>
              var raw := distance(from.lat, from.lon, to.lat, to.lon) / (to.time - from.time) * 60.0;
              (10.0 <= raw <= 50.0 ==> v == raw) && (raw < 10.0 ==> v == 10.0) && (raw > 50.0 ==> v == 50.0)
  {
    var d := distance(from.lat, from.lon, to.lat, to.lon);
    var timeMinutes := to.time - from.time;
    if timeMinutes <= 0.0 then 0.0
    else Min(Max(d / timeMinutes * 60.0, 10.0), 50.0)
  }

  /** Two stops at the same place (as Portello and Segesta M5 on bus 91) give the floor speed. */
  lemma CoincidentStopsCrawl(from: StopTime, to: StopTime, distance: (real, real, real, real) -> real)
    requires to.time > from.time
    requires distance(from.lat, from.lon, to.lat, to.lon) == 0.0
    ensures Speed(from, to, distance) == 10.0
  {
  }

  /** `t_i <= m < t_{i+1}`: minute `m` falls in the leg that starts at stop `i`. */
  predicate InBracket(stopTimes: seq<StopTime>, i: int, m: int)
    requires 0 <= i < |stopTimes| - 1
  {
    stopTimes[i].time <= m as real < stopTimes[i + 1].time
  }

  /** The first leg, from index `from` on, that contains minute `m`. */
  function FirstBracket(stopTimes: seq<StopTime>, m: int, from: nat): (r: Option<nat>)
    decreases |stopTimes| - from
    ensures r.Some? ==> from <= r.value < |stopTimes| - 1 && InBracket(stopTimes, r.value, m)
    ensures r.Some? ==> forall j :: from <= j < r.value ==> !InBracket(stopTimes, j, m)
    ensures r.None? ==> forall j :: from <= j < |stopTimes| - 1 ==> !InBracket(stopTimes, j, m)
  {
    if from + 1 >= |stopTimes| then None
    else if InBracket(stopTimes, from, m) then Some(from)
    else FirstBracket(stopTimes, m, from + 1)
  }

  predicate Between(x: real, a: real, b: real)
  {
    (a <= x <= b) || (b <= x <= a)
  }

  lemma MulNonneg(x: real, y: real)
    requires x >= 0.0 && y >= 0.0
    ensures x * y >= 0.0
  {
  }

  lemma MulPos(x: real, y: real)
    requires x > 0.0 && y > 0.0
    ensures x * y > 0.0
  {
  }

  lemma LerpBetween(a: real, b: real, p: real)
    requires 0.0 <= p < 1.0
    ensures Between(a + (b - a) * p, a, b)
  {
    if a <= b {
      MulNonneg(b - a, p);
      MulNonneg(b - a, 1.0 - p);
    } else {
      MulNonneg(a - b, p);
      MulNonneg(a - b, 1.0 - p);
    }
  }

  lemma ProgressInRange(m: real, t0: real, t1: real)
    requires t0 <= m < t1
    ensures 0.0 <= (m - t0) / (t1 - t0) < 1.0
    ensures (m - t0) / (t1 - t0) == 0.0 <==> m == t0
  {
    var d := t1 - t0;
    var p := (m - t0) / d;
    assert p * d == m - t0;
    if p < 0.0 { MulPos(-p, d); }
    if p >= 1.0 { MulNonneg(p - 1.0, d); }
    if p > 0.0 { MulPos(p, d); }
  }

  lemma DivMonotone(a: real, b: real, d: real)
    requires a <= b && d > 0.0
    ensures a / d <= b / d
  {
    var x := a / d;
    var y := b / d;
    assert x * d == a && y * d == b;
    if x > y { MulPos(x - y, d); }
  }

  /** The position on leg `i` at minute `m`: linear interpolation by the progress ratio. */
  function PositionAt(stopTimes: seq<StopTime>, i: nat, m: int, bearing: (StopTime, StopTime) -> Bearing,
                      distance: (real, real, real, real) -> real): (p: Position)
    requires i < |stopTimes| - 1 && InBracket(stopTimes, i, m)
    ensures 0.0 <= p.progress < 1.0
    ensures p.progress == 0.0 <==> m as real == stopTimes[i].time
    ensures m as real == stopTimes[i].time ==> p.lat == stopTimes[i].lat && p.lon == stopTimes[i].lon
    ensures Between(p.lat, stopTimes[i].lat, stopTimes[i + 1].lat)
    ensures Between(p.lon, stopTimes[i].lon, stopTimes[i + 1].lon)
    ensures p.nextStopId == stopTimes[i + 1].id
    ensures 0.0 <= p.heading < 360.0 && 10.0 <= p.speed <= 50.0
  {
    var cur := stopTimes[i];
    var next := stopTimes[i + 1];
    var progress := (m as real - cur.time) / (next.time - cur.time);
    ProgressInRange(m as real, cur.time, next.time);
    LerpBetween(cur.lat, next.lat, progress);
    LerpBetween(cur.lon, next.lon, progress);
    Position(cur.lat + (next.lat - cur.lat) * progress, cur.lon + (next.lon - cur.lon) * progress,
             Heading(cur, next, bearing), Speed(cur, next, distance), next.id, progress)
  }

  /** What the scan in `getVehiclePosition` yields for a trip's stop times: the position on the
      first leg containing `m`, or `None` (`null`). */
  function PositionOf(stopTimes: seq<StopTime>, m: int, bearing: (StopTime, StopTime) -> Bearing,
                      distance: (real, real, real, real) -> real): (p: Option<Position>)
    ensures p.Some? ==> 0.0 <= p.value.progress < 1.0
    ensures p.Some? ==> 0.0 <= p.value.heading < 360.0 && 10.0 <= p.value.speed <= 50.0
  {
    match FirstBracket(stopTimes, m, 0)
    case None => None
    case Some(i) => Some(PositionAt(stopTimes, i, m, bearing, distance))
  }

  /** The bracket scan of `getVehiclePosition` (lines 21-40) run on a trip's stop times. */
  method Interpolate(stopTimes: seq<StopTime>, m: int, bearing: (StopTime, StopTime) -> Bearing,
                     distance: (real, real, real, real) -> real) returns (p: Option<Position>)
    ensures p == PositionOf(stopTimes, m, bearing, distance)
    ensures p.None? <==> forall j :: 0 <= j < |stopTimes| - 1 ==> !InBracket(stopTimes, j, m)
    ensures p.Some? ==>
              exists i :: 0 <= i < |stopTimes| - 1 && InBracket(stopTimes, i, m)
                && (forall j :: 0 <= j < i ==> !InBracket(stopTimes, j, m))
                && p.value.nextStopId == stopTimes[i + 1].id
  {
    var i := 0;
    while i < |stopTimes| - 1
      invariant 0 <= i && (i <= |stopTimes| - 1 || i == 0)
      invariant FirstBracket(stopTimes, m, 0) == FirstBracket(stopTimes, m, i)
    {
      var currentStop := stopTimes[i];
      var nextStop := stopTimes[i + 1];
      if m as real >= currentStop.time && m as real < nextStop.time {
        var progress := (m as real - currentStop.time) / (nextStop.time - currentStop.time);
        var position := Position(currentStop.lat + (nextStop.lat - currentStop.lat) * progress,
                                 currentStop.lon + (nextStop.lon - currentStop.lon) * progress,
                                 Heading(currentStop, nextStop, bearing), Speed(currentStop, nextStop, distance),
                                 nextStop.id, progress);
        assert FirstBracket(stopTimes, m, i) == Some(i);
        assert position == PositionAt(stopTimes, i, m, bearing, distance);
        return Some(position);
      }
      i := i + 1;
    }
    return None;
  }

  /** From `from` on, a leg containing `m` exists when `m` lies in [t_from, t_last). */
  lemma {:induction false} BracketExists(stopTimes: seq<StopTime>, m: int, from: nat)
    requires StrictlyIncreasing(stopTimes)
    requires from < |stopTimes| - 1
    requires stopTimes[from].time <= m as real < stopTimes[|stopTimes| - 1].time
    ensures FirstBracket(stopTimes, m, from).Some?
    decreases |stopTimes| - from
  {
    if !InBracket(stopTimes, from, m) {
      BracketExists(stopTimes, m, from + 1);
    }
  }

  /** For strictly increasing times there is a position exactly when t_0 <= m < t_last:
      `null` before the first stop, and also at and after the last stop time. */
  lemma PositionOfDefinedIff(stopTimes: seq<StopTime>, m: int, bearing: (StopTime, StopTime) -> Bearing,
                             distance: (real, real, real, real) -> real)
    requires StrictlyIncreasing(stopTimes) && |stopTimes| >= 2
    ensures PositionOf(stopTimes, m, bearing, distance).Some?
            <==> stopTimes[0].time <= m as real < stopTimes[|stopTimes| - 1].time
  {
    var last := |stopTimes| - 1;
    if stopTimes[0].time <= m as real < stopTimes[last].time {
      BracketExists(stopTimes, m, 0);
    }
  }

  /** Within one leg the progress ratio grows with the minute. */
  lemma ProgressMonotone(stopTimes: seq<StopTime>, i: nat, m1: int, m2: int, bearing: (StopTime, StopTime) -> Bearing,
                         distance: (real, real, real, real) -> real)
    requires i < |stopTimes| - 1 && InBracket(stopTimes, i, m1) && InBracket(stopTimes, i, m2) && m1 <= m2
    ensures PositionAt(stopTimes, i, m1, bearing, distance).progress <= PositionAt(stopTimes, i, m2, bearing, distance).progress
  {
    var t0, t1 := stopTimes[i].time, stopTimes[i + 1].time;
    DivMonotone(m1 as real - t0, m2 as real - t0, t1 - t0);
  }

  /** `estimateOccupancy(m)` with the one `Math.random()` draw it makes given as `r`. */
  function EstimateOccupancy(m: int, r: Unit): (o: Occupancy)
    // morning peak 7:30-9:30: FULL with probability 0.7, else STANDING
    ensures 450 <= m <= 570 ==> (o == Full || o == Standing) && (o == Full <==> r > 0.3)
    // evening peak 17:30-19:30: STANDING with probability 0.7, else FEW_SEATS
    ensures !(450 <= m <= 570) && 1050 <= m <= 1170 ==>
              (o == Standing || o == FewSeats) && (o == Standing <==> r > 0.3)
    // day 6:00-22:00 outside the peaks: one of three, each on a third of the draws
    ensures !(450 <= m <= 570) && !(1050 <= m <= 1170) && 360 <= m <= 1320 ==>
              && (o == ManySeats <==> 3.0 * r < 1.0)
              && (o == FewSeats <==> 1.0 <= 3.0 * r < 2.0)
              && (o == Standing <==> 2.0 <= 3.0 * r)
    // night: MANY_SEATS or EMPTY, half each
    ensures !(360 <= m <= 1320) ==> (o == ManySeats || o == Empty) && (o == ManySeats <==> r > 0.5)
  {
    if 450 <= m <= 570 then (if r > 0.3 then Full else Standing)
    else if 1050 <= m <= 1170 then (if r > 0.3 then Standing else FewSeats)
    else if 360 <= m <= 1320 then [ManySeats, FewSeats, Standing][Pick(r, 3)]
    else if r > 0.5 then ManySeats else Empty
  }

  /** FULL is only ever estimated inside the morning peak. */
  lemma FullOnlyInMorningPeak(m: int, r: Unit)
    requires EstimateOccupancy(m, r) == Full
    ensures 450 <= m <= 570
  {
  }
}
