/** The deterministic parts of src/services/transportAPI.js: nearby-stop selection, the line
    filter on simulated vehicles, line search and the mock arrival board. Distances, the clock and
    `Math.random` are parameters. */
module TransportApi {
  import opened Wrappers
  import opened Transit
  import opened Text
  import opened Seqs
  import opened Simulator

  /** A stop of the mock stop table: `{ id, name, lat, lon, lines, type }`. */
  datatype MockStop = MockStop(id: string, name: string, lat: real, lon: real, lines: seq<string>, kind: VehicleKind)

  /** A stop of the table spread out with its `distance` in kilometres. */
  datatype NearbyStop = NearbyStop(id: string, name: string, lat: real, lon: real, lines: seq<string>,
                                   kind: VehicleKind, distance: real)

  /** A line of `getMockLines()`; the fallback record built for an unknown id has no `fullName`. */
  datatype MockLine = MockLine(id: string, name: string, kind: VehicleKind, color: string, fullName: Option<string>)

  /** An entry of the arrival board (the two `Date` fields are milliseconds since the epoch). */
  datatype Arrival = Arrival(lineId: string, lineName: string, lineType: VehicleKind, lineColor: string,
                             destination: string, scheduledTime: int, estimatedTime: int, minutesAway: int,
                             delay: int, realtime: bool, vehicleId: string)

  /** The stop table of `getMockNearbyStops` (lines 148-176). */
  const AllStops: seq<MockStop> := [
    MockStop("stop_duomo", "Duomo M1/M3", 45.4640, 9.1900, ["M1", "M3"], Metro),
    MockStop("stop_cadorna", "Cadorna M1/M2", 45.4690, 9.1740, ["M1", "M2"], Metro),
    MockStop("stop_repubblica", "Repubblica M3", 45.4810, 9.1990, ["M3"], Metro),
    MockStop("stop_porta_venezia", "Porta Venezia M1", 45.4750, 9.2050, ["M1"], Metro),
    MockStop("stop_san_babila", "San Babila M1", 45.4620, 9.1970, ["M1"], Metro),
    MockStop("stop_lanza", "Lanza M2", 45.4730, 9.1870, ["M2"], Metro),
    MockStop("stop_greco", "Greco", 45.5012, 9.2156, ["1"], Tram),
    MockStop("stop_bausan", "Bausan", 45.4520, 9.1680, ["2"], Tram),
    MockStop("stop_gratosoglio", "Gratosoglio", 45.4245, 9.1456, ["3"], Tram),
    MockStop("stop_niguarda", "Niguarda", 45.5186, 9.1867, ["4"], Tram),
    MockStop("stop_cimitero", "Cimitero Maggiore", 45.4985, 9.1625, ["5", "14"], Tram),
    MockStop("stop_roserio", "Roserio", 45.5245, 9.1780, ["12", "15"], Tram),
    MockStop("stop_castello", "Piazza Castello", 45.4701, 9.1795, ["10"], Tram),
    MockStop("stop_genova", "Porta Genova", 45.4535, 9.1685, ["9"], Tram),
    MockStop("stop_precotto", "Precotto M1", 45.5156, 9.2378, ["54"], Bus),
    MockStop("stop_romolo", "Romolo M2", 45.4456, 9.1678, ["54"], Bus),
    MockStop("stop_lambrate", "Lambrate", 45.4865, 9.2467, ["61"], Bus),
    MockStop("stop_bisceglie", "Bisceglie M1", 45.4675, 9.1245, ["61"], Bus),
    MockStop("stop_linate", "Linate Aeroporto", 45.4456, 9.2756, ["90"], Bus),
    MockStop("stop_forlanini", "Forlanini", 45.4598, 9.2556, ["90"], Bus),
    MockStop("stop_lampugnano", "Lampugnano M1", 45.5023, 9.1267, ["91"], Bus),
    MockStop("stop_portello", "Portello", 45.4820, 9.1480, ["91"], Bus),
    MockStop("stop_famagosta", "Famagosta M2", 45.4378, 9.1567, ["94"], Bus),
    MockStop("stop_crocetta", "Crocetta M3", 45.4598, 9.2045, ["94"], Bus)
  ]

  /** `getMockLines()` (lines 273-305). */
  const MockLines: seq<MockLine> := [
    MockLine("M1", "M1", Metro, "#E30613", Some("Linea M1 (Rossa)")),
    MockLine("M2", "M2", Metro, "#00843D", Some("Linea M2 (Verde)")),
    MockLine("M3", "M3", Metro, "#FFD700", Some("Linea M3 (Gialla)")),
    MockLine("M5", "M5", Metro, "#8B4EBE", Some("Linea M5 (Lilla)")),
    MockLine("1", "1", Tram, "#FFD700", Some("Tram 1")),
    MockLine("2", "2", Tram, "#FFD700", Some("Tram 2")),
    MockLine("3", "3", Tram, "#FFD700", Some("Tram 3")),
    MockLine("4", "4", Tram, "#FFD700", Some("Tram 4")),
    MockLine("5", "5", Tram, "#FFD700", Some("Tram 5")),
    MockLine("9", "9", Tram, "#FFD700", Some("Tram 9")),
    MockLine("10", "10", Tram, "#FFD700", Some("Tram 10")),
    MockLine("12", "12", Tram, "#FFD700", Some("Tram 12")),
    MockLine("14", "14", Tram, "#FFD700", Some("Tram 14")),
    MockLine("15", "15", Tram, "#FFD700", Some("Tram 15")),
    MockLine("16", "16", Tram, "#FFD700", Some("Tram 16")),
    MockLine("19", "19", Tram, "#FFD700", Some("Tram 19")),
    MockLine("54", "54", Bus, "#007ACC", Some("Bus 54")),
    MockLine("57", "57", Bus, "#007ACC", Some("Bus 57")),
    MockLine("58", "58", Bus, "#007ACC", Some("Bus 58")),
    MockLine("60", "60", Bus, "#007ACC", Some("Bus 60")),
    MockLine("61", "61", Bus, "#007ACC", Some("Bus 61")),
    MockLine("73", "73", Bus, "#007ACC", Some("Bus 73")),
    MockLine("90", "90", Bus, "#007ACC", Some("Bus 90/91 Circolare")),
    MockLine("94", "94", Bus, "#007ACC", Some("Bus 94"))
  ]

  // ---------------------------------------------------------------------------------------
  // getMockNearbyStops

  /** `{ ...stop, distance: calculateDistance(lat, lon, stop.lat, stop.lon) / 1000 }`, where
      `metres` is the rounded haversine distance in metres. */
  function WithDistance(s: MockStop, lat: real, lon: real, metres: (real, real, real, real) -> int): NearbyStop
  {
    NearbyStop(s.id, s.name, s.lat, s.lon, s.lines, s.kind, metres(lat, lon, s.lat, s.lon) as real / 1000.0)
  }

  /** `allStops.map(stop => WithDistance(stop))`: every stop of the table with its distance. */
  function WithDistances(stops: seq<MockStop>, lat: real, lon: real, metres: (real, real, real, real) -> int)
    : (r: seq<NearbyStop>)
    ensures |r| == |stops|
  {
    if stops == [] then []
    else WithDistances(stops[..|stops| - 1], lat, lon, metres) + [WithDistance(stops[|stops| - 1], lat, lon, metres)]
  }

  /** The stops of the table within 3 km: exactly the stops nearer than 3 km, with their
      distance. */
  function WithinRadius(stops: seq<MockStop>, lat: real, lon: real, metres: (real, real, real, real) -> int)
    : (r: seq<NearbyStop>)
    ensures forall x :: x in r <==> exists s :: s in stops && x == WithDistance(s, lat, lon, metres) && x.distance < 3.0
  {
    if stops == [] then []
    else
      var front := stops[..|stops| - 1];
      var s := stops[|stops| - 1];
      assert stops == front + [s];
      var x := WithDistance(s, lat, lon, metres);
      WithinRadius(front, lat, lon, metres) + (if x.distance < 3.0 then [x] else [])
  }

  /** The filter keeps table order: the stops within range are a subsequence of the mapped
      table. */
  lemma {:induction false} WithinRadiusInOrder(stops: seq<MockStop>, lat: real, lon: real, metres: (real, real, real, real) -> int)
    ensures IsSubsequence(WithinRadius(stops, lat, lon, metres), WithDistances(stops, lat, lon, metres))
    ensures |WithinRadius(stops, lat, lon, metres)| <= |stops|
  {
    if stops != [] {
      var front := stops[..|stops| - 1];
      var x := WithDistance(stops[|stops| - 1], lat, lon, metres);
      var kept := WithinRadius(front, lat, lon, metres);
      var mapped := WithDistances(front, lat, lon, metres);
      assert WithDistances(stops, lat, lon, metres) == mapped + [x];
      WithinRadiusInOrder(front, lat, lon, metres);
      SubsequenceExtend(kept, mapped, x);
      if x.distance < 3.0 {
        assert WithinRadius(stops, lat, lon, metres) == kept + [x];
      } else {
        assert WithinRadius(stops, lat, lon, metres) == kept;
      }
    }
  }

  function DistanceKey(x: NearbyStop): real { x.distance }

  function Min(a: int, b: int): int { if a <= b then a else b }

  /** The selection chain of `getMockNearbyStops` on a stop table: the stops within 3 km, nearest
      first, at most 20. The result is sorted, is drawn from the stops within range, and no stop
      left out is nearer than any stop returned; stops at the same distance keep their table
      order, and those cut by the limit are the last of them. */
  function NearestAmong(stops: seq<MockStop>, lat: real, lon: real, metres: (real, real, real, real) -> int)
    : (r: seq<NearbyStop>)
    ensures var within := WithinRadius(stops, lat, lon, metres);
            && |r| == Min(20, |within|)
            && SortedBy(r, DistanceKey)
            && multiset(r) <= multiset(within)
            && (forall x, y :: x in r && y in multiset(within) - multiset(r) ==> x.distance <= y.distance)
            && (forall v :: WithKey(r, DistanceKey, v) <= WithKey(within, DistanceKey, v))
    ensures forall x :: x in r ==>
              x.distance < 3.0 && exists s :: s in stops && x == WithDistance(s, lat, lon, metres)
  {
    var within := WithinRadius(stops, lat, lon, metres);
    var r := SmallestBy(within, 20, DistanceKey);
    assert forall x :: x in r ==> x in within by {
      forall x | x in r
        ensures x in within
      {
        assert x in multiset(r);
      }
    }
    r
  }

  /** `getMockNearbyStops(lat, lon)` on the shipped stop table. */
  function NearbyStops(lat: real, lon: real, metres: (real, real, real, real) -> int): (r: seq<NearbyStop>)
    ensures |r| <= 20 && SortedBy(r, DistanceKey)
    ensures forall x :: x in r ==>
              x.distance < 3.0 && exists s :: s in AllStops && x == WithDistance(s, lat, lon, metres)
  {
    NearestAmong(AllStops, lat, lon, metres)
  }

  // ---------------------------------------------------------------------------------------
  // getVehiclePositions with the simulator

  /** `vehicles.filter(v => lineIds.includes(v.lineId))` when `lineIds` is not empty, else the
      simulator's list unchanged. */
  function FilterByLines(vehicles: seq<Vehicle>, lineIds: seq<string>): (r: seq<Vehicle>)
    ensures lineIds == [] ==> r == vehicles
    ensures IsSubsequence(r, vehicles)
    ensures lineIds != [] ==> forall v :: v in r <==> v in vehicles && v.lineId in lineIds
  {
    if lineIds == [] then
      SubsequenceRefl(vehicles);
      vehicles
    else
      KeepLines(vehicles, lineIds)
  }

  function KeepLines(vehicles: seq<Vehicle>, lineIds: seq<string>): (r: seq<Vehicle>)
    ensures IsSubsequence(r, vehicles)
    ensures forall v :: v in r <==> v in vehicles && v.lineId in lineIds
  {
    if vehicles == [] then []
    else
      var front := vehicles[..|vehicles| - 1];
      var v := vehicles[|vehicles| - 1];
      assert vehicles == front + [v];
      var kept := KeepLines(front, lineIds);
      SubsequenceExtend(kept, front, v);
      if v.lineId in lineIds then kept + [v] else kept
  }

  // ---------------------------------------------------------------------------------------
  // searchLines

  /** The line name contains the query, both lowercased. */
  predicate NameMatches(l: MockLine, query: string)
  {
    Contains(ToLower(l.name), ToLower(query))
  }

  /** The lines whose name matches the query, in table order. */
  function LinesMatching(lines: seq<MockLine>, query: string): (r: seq<MockLine>)
    ensures IsSubsequence(r, lines)
    ensures forall l :: l in r <==> l in lines && NameMatches(l, query)
    ensures (forall l :: l in lines ==> NameMatches(l, query)) ==> r == lines
  {
    if lines == [] then []
    else
      var front := lines[..|lines| - 1];
      var l := lines[|lines| - 1];
      assert lines == front + [l];
      var kept := LinesMatching(front, query);
      SubsequenceExtend(kept, front, l);
      if NameMatches(l, query) then kept + [l] else kept
  }

  /** `searchLines(query)` on the mock lines. */
  function SearchLines(query: string): (r: seq<MockLine>)
    ensures IsSubsequence(r, MockLines)
    ensures forall l :: l in r <==> l in MockLines && NameMatches(l, query)
  {
    LinesMatching(MockLines, query)
  }

  /** The empty query matches every line. */
  lemma EmptyQueryReturnsAll()
    ensures SearchLines("") == MockLines
  {
    forall l | l in MockLines
      ensures NameMatches(l, "")
    {
      EmptyIsContained(ToLower(l.name));
    }
  }

  // ---------------------------------------------------------------------------------------
  // getMockStopArrivals

  /** The first line with the given id. */
  function FindLine(lines: seq<MockLine>, id: string): (r: Option<MockLine>)
    ensures r.Some? ==> r.value in lines && r.value.id == id
    ensures r.None? <==> forall l :: l in lines ==> l.id != id
  {
    if lines == [] then None
    else if lines[0].id == id then Some(lines[0])
    else FindLine(lines[1..], id)
  }

  /** `find` returns the first match: the entry at `i` when it has the id and none before it does. */
  lemma {:induction false} FindLineFirst(lines: seq<MockLine>, id: string, i: nat)
    requires i < |lines| && lines[i].id == id
    requires forall j :: 0 <= j < i ==> lines[j].id != id
    ensures FindLine(lines, id) == Some(lines[i])
  {
    if i > 0 {
      assert forall j :: 0 <= j < i - 1 ==> lines[1..][j] == lines[j + 1];
      FindLineFirst(lines[1..], id, i - 1);
    }
  }

  /** The first nearby stop with the given id. */
  function FindStop(stops: seq<NearbyStop>, id: string): (r: Option<NearbyStop>)
    ensures r.Some? ==> r.value in stops && r.value.id == id
    ensures r.None? <==> forall s :: s in stops ==> s.id != id
  {
    if stops == [] then None
    else if stops[0].id == id then Some(stops[0])
    else FindStop(stops[1..], id)
  }

  /** `find` returns the first match: the entry at `i` when it has the id and none before it does. */
  lemma {:induction false} FindStopFirst(stops: seq<NearbyStop>, id: string, i: nat)
    requires i < |stops| && stops[i].id == id
    requires forall j :: 0 <= j < i ==> stops[j].id != id
    ensures FindStop(stops, id) == Some(stops[i])
  {
    if i > 0 {
      assert forall j :: 0 <= j < i - 1 ==> stops[1..][j] == stops[j + 1];
      FindStopFirst(stops[1..], id, i - 1);
    }
  }

  const MetroRed: string := "#E30613"
  const TramYellow: string := "#FFD700"
  const BusBlue: string := "#007ACC"

  /** `parseInt(lineId) <= 20`; `NaN` compares false. */
  predicate LowNumbered(lineId: string)
  {
    var n := ParseInt(lineId);
    n.Some? && n.value <= 20
  }

  /** The record used for a line id missing from the mock lines: metro when the id starts with
      'M', else tram when its leading integer is at most 20, else bus, each with its colour. */
  function FallbackLine(lineId: string): (l: MockLine)
    ensures l.id == lineId && l.name == lineId && l.fullName == None
    ensures l.kind == Metro <==> StartsWith(lineId, "M")
    ensures l.kind == Tram <==> !StartsWith(lineId, "M") && LowNumbered(lineId)
    ensures l.kind == Bus <==> !StartsWith(lineId, "M") && !LowNumbered(lineId)
    ensures l.color == (match l.kind case Metro => MetroRed case Tram => TramYellow case Bus => BusBlue)
  {
    var metro := StartsWith(lineId, "M");
    var low := LowNumbered(lineId);
    MockLine(lineId, lineId,
             if metro then Metro else if low then Tram else Bus,
             if metro then MetroRed else if low then TramYellow else BusBlue,
             None)
  }

  /** `lines.find(l => l.id === lineId) || fallback`: always a line with the asked id, the mock
      line when there is one and the fallback record only when there is none. */
  function LineFor(lineId: string): (l: MockLine)
    ensures l.id == lineId
    ensures (exists m :: m in MockLines && m.id == lineId) ==> l in MockLines
    ensures (forall m :: m in MockLines ==> m.id != lineId) ==> l == FallbackLine(lineId)
  {
    match FindLine(MockLines, lineId)
    case Some(l) => l
    case None => FallbackLine(lineId)
  }

  /** The mock M5 keeps its own lilac rather than the red of the metro fallback. */
  lemma LineForM5()
    ensures LineFor("M5") == MockLine("M5", "M5", Metro, "#8B4EBE", Some("Linea M5 (Lilla)"))
  {
    var m5 := MockLines[3];
    assert m5 == MockLine("M5", "M5", Metro, "#8B4EBE", Some("Linea M5 (Lilla)"));
    assert MockLines[0].id != "M5" && MockLines[1].id != "M5" && MockLines[2].id != "M5";
    FindLineFirst(MockLines, "M5", 3);
  }

  /** The destination lists of `getRandomDestination`. */
  const MetroDestinations: seq<string> := ["Sesto FS", "Bisceglie", "San Donato", "Comasina", "Abbiategrasso", "Lilla"]
  const TramDestinations: seq<string> := ["Roserio", "Lodi", "Gratosoglio", "Precotto", "Cimitero Maggiore", "Cascina Gobba"]
  const BusDestinations: seq<string> := ["Cadorna", "Loreto", "Lambrate", "Bonola", "Famagosta", "Romolo"]

  function Destinations(kind: VehicleKind): (d: seq<string>)
    ensures |d| == 6
  {
    match kind
    case Metro => MetroDestinations
    case Tram => TramDestinations
    case Bus => BusDestinations
  }

  /** `getRandomDestination(lineType)` with the draw `r`: an entry of the list for that type
      (every list has six entries, so the index is `floor(r * 6)`). */
  function RandomDestination(kind: VehicleKind, r: Unit): (d: string)
    ensures d in Destinations(kind)
  {
    Destinations(kind)[Pick(r, 6)]
  }

  /** The lines served by the stop: those of the nearby stop with that id (searched around the
      Duomo), else '1', '2' and '3'. */
  function StopLines(stopId: string, metres: (real, real, real, real) -> int): (ids: seq<string>)
    ensures FindStop(NearbyStops(45.4642, 9.1900, metres), stopId).None? ==> ids == ["1", "2", "3"]
    ensures FindStop(NearbyStops(45.4642, 9.1900, metres), stopId).Some? ==>
              exists s :: s in AllStops && s.id == stopId && ids == s.lines
  {
    match FindStop(NearbyStops(45.4642, 9.1900, metres), stopId)
    case Some(s) => s.lines
    case None => ["1", "2", "3"]
  }

  /** The arrival pushed in iteration `i` of a line's loop; draws `c` to `c + 4` give
      the minutes, destination, delay, realtime flag and vehicle number. */
  function ArrivalAt(line: MockLine, i: nat, now: int, draw: nat -> Unit, c: nat): Arrival
  {
    var minutesAway := Pick(draw(c), 15) + 1 + i * 5;
    var time := now + minutesAway * 60000;
    Arrival(line.id, line.name, line.kind, line.color, RandomDestination(line.kind, draw(c + 1)), time, time,
            minutesAway, Pick(draw(c + 2), 3) - 1, draw(c + 3) > 0.3, line.id + "-" + NatToString(Pick(draw(c + 4), 100)))
  }

  /** The test `i < floor(random * 2) + 2` with draw `r`. */
  predicate Continues(i: nat, r: Unit) { i < Pick(r, 2) + 2 }

  /** How many iterations a line's loop still runs from iteration `i`, whose test draw is at `c`:
      every iteration takes six draws, the test and five for its arrival. */
  function LineLength(draw: nat -> Unit, c: nat, i: nat): nat
    decreases 3 - i
  {
    if Continues(i, draw(c)) then 1 + LineLength(draw, c + 6, i + 1) else 0
  }

  /** The arrivals of the first `n` iterations of a line's loop whose first test draw is at `c`:
      iteration `k` tests draw `c + 6k` and builds its arrival from the five draws after it. */
  function ArrivalsUpTo(line: MockLine, now: int, draw: nat -> Unit, c: nat, n: nat): (a: seq<Arrival>)
    ensures |a| == n
  {
    seq(n, k requires 0 <= k => ArrivalAt(line, k, now, draw, c + 6 * k + 1))
  }

  lemma ArrivalsUpToSnoc(line: MockLine, now: int, draw: nat -> Unit, c: nat, n: nat)
    ensures ArrivalsUpTo(line, now, draw, c, n + 1)
            == ArrivalsUpTo(line, now, draw, c, n) + [ArrivalAt(line, n, now, draw, c + 6 * n + 1)]
  {
  }

  /** The arrivals a line's loop pushes when its first test draw is at `c`. */
  function LineArrivals(line: MockLine, now: int, draw: nat -> Unit, c: nat): (a: seq<Arrival>)
    ensures |a| == LineLength(draw, c, 0)
  {
    ArrivalsUpTo(line, now, draw, c, LineLength(draw, c, 0))
  }

  /** The first draw a line's loop leaves unused: the one after its failing test. */
  function LineDrawsEnd(draw: nat -> Unit, c: nat): nat
  {
    c + 6 * LineLength(draw, c, 0) + 1
  }

  /** The `forEach` over the stop's lines: their arrivals one line after another. */
  function AllArrivals(lineIds: seq<string>, now: int, draw: nat -> Unit, c: nat): seq<Arrival>
    decreases |lineIds|
  {
    if lineIds == [] then []
    else
      LineArrivals(LineFor(lineIds[0]), now, draw, c) + AllArrivals(lineIds[1..], now, draw, LineDrawsEnd(draw, c))
  }

  function MinutesKey(a: Arrival): real { a.minutesAway as real }

  /** `arrivals.push({ ... })` in iteration `i` of a line's loop, whose arrival draws start at `c`. */
  method PushArrival(arrivals: seq<Arrival>, line: MockLine, i: nat, now: int, draw: nat -> Unit, c0: nat, c: nat)
    returns (pushed: seq<Arrival>)
    requires arrivals == ArrivalsUpTo(line, now, draw, c0, i) && c == c0 + 6 * i + 1
    ensures pushed == ArrivalsUpTo(line, now, draw, c0, i + 1)
  {
    var minutesAway := Pick(draw(c), 15) + 1 + i * 5;
    var arrivalTime := now + minutesAway * 60000;
    pushed := arrivals + [Arrival(line.id, line.name, line.kind, line.color, RandomDestination(line.kind, draw(c + 1)),
                                  arrivalTime, arrivalTime, minutesAway, Pick(draw(c + 2), 3) - 1, draw(c + 3) > 0.3,
                                  line.id + "-" + NatToString(Pick(draw(c + 4), 100)))];
    ArrivalsUpToSnoc(line, now, draw, c0, i);
  }

  /** The `for` loop of one stop line, with the next draw at `c0`: it pushes two or three
      arrivals and returns the next unused draw. */
  method PushLineArrivals(line: MockLine, now: int, draw: nat -> Unit, c0: nat) returns (pushed: seq<Arrival>, c: nat)
    ensures pushed == LineArrivals(line, now, draw, c0) && c == LineDrawsEnd(draw, c0)
  {
    pushed := [];
    c := c0;
    var i := 0;
    while i < Pick(draw(c), 2) + 2
      invariant i <= 3
      invariant c == c0 + 6 * i
      invariant i + LineLength(draw, c, i) == LineLength(draw, c0, 0)
      invariant pushed == ArrivalsUpTo(line, now, draw, c0, i)
      decreases 3 - i
    {
      c := c + 1;
      pushed := PushArrival(pushed, line, i, now, draw, c0, c);
      i := i + 1;
      c := c + 5;
    }
    // the draw of the test that ended the loop
    c := c + 1;
  }

  /** The lines from `idx` on: the arrivals of line `idx`, then those of the lines after it. */
  lemma AllArrivalsFrom(lineIds: seq<string>, idx: nat, now: int, draw: nat -> Unit, c: nat)
    requires idx < |lineIds|
    ensures AllArrivals(lineIds[idx..], now, draw, c)
            == LineArrivals(LineFor(lineIds[idx]), now, draw, c) + AllArrivals(lineIds[idx + 1..], now, draw, LineDrawsEnd(draw, c))
  {
    assert lineIds[idx..][1..] == lineIds[idx + 1..];
  }

  /** The `forEach` of `getMockStopArrivals` over the stop's lines, with the next draw at `c0`:
      each line's loop in turn, its arrivals appended. */
  method PushStopArrivals(stopLines: seq<string>, now: int, draw: nat -> Unit, c0: nat) returns (pushed: seq<Arrival>)
    ensures pushed == AllArrivals(stopLines, now, draw, c0)
  {
    pushed := [];
    var c := c0;
    for idx := 0 to |stopLines|
      invariant AllArrivals(stopLines, now, draw, c0) == pushed + AllArrivals(stopLines[idx..], now, draw, c)
    {
      var line := LineFor(stopLines[idx]);
      AllArrivalsFrom(stopLines, idx, now, draw, c);
      var lineArrivals;
      lineArrivals, c := PushLineArrivals(line, now, draw, c);
      AppendAssoc(pushed, lineArrivals, AllArrivals(stopLines[idx + 1..], now, draw, c));
      pushed := pushed + lineArrivals;
    }
  }

  /** `getMockStopArrivals(stopId)` at epoch milliseconds `now`, drawing `draw(0)`, `draw(1)`, ...
      in call order: the arrivals of every line of the stop, sorted by minutes away; arrivals
      due in the same minute keep the order in which they were pushed. */
  method GetMockStopArrivals(stopId: string, now: int, draw: nat -> Unit, metres: (real, real, real, real) -> int)
    returns (arrivals: seq<Arrival>)
    ensures var all := AllArrivals(StopLines(stopId, metres), now, draw, 0);
            SortedBy(arrivals, MinutesKey) && multiset(arrivals) == multiset(all)
    ensures var all := AllArrivals(StopLines(stopId, metres), now, draw, 0);
            forall v :: WithKey(arrivals, MinutesKey, v) == WithKey(all, MinutesKey, v)
  {
    var stopLines := StopLines(stopId, metres);
    var pushed := PushStopArrivals(stopLines, now, draw, 0);
    arrivals := SortBy(pushed, MinutesKey);
    forall v
      ensures WithKey(arrivals, MinutesKey, v) == WithKey(pushed, MinutesKey, v)
    {
      SortByStable(pushed, MinutesKey, v);
    }
  }

  // ---------------------------------------------------------------------------------------
  // What one line's arrivals look like

  /** Iterations 0 and 1 always run and iteration 3 never does. */
  lemma {:induction false} LineLengthBounds(draw: nat -> Unit, c: nat, i: nat)
    requires i <= 3
    ensures i <= 2 ==> LineLength(draw, c, i) <= 3 - i
    ensures i < 2 ==> LineLength(draw, c, i) >= 2 - i
    ensures i == 3 ==> LineLength(draw, c, i) == 0
    decreases 3 - i
  {
    if Continues(i, draw(c)) {
      LineLengthBounds(draw, c + 6, i + 1);
    }
  }

  /** A line yields two or three arrivals; the k-th is for that line, due in 1 + 5k to
      15 + 5k minutes, with a delay of -1, 0 or 1 minutes and no gap between the times. */
  lemma LineArrivalsShape(line: MockLine, now: int, draw: nat -> Unit, c: nat)
    ensures var a := LineArrivals(line, now, draw, c);
            && 2 <= |a| <= 3
            && forall k :: 0 <= k < |a| ==>
                 a[k].lineId == line.id && 1 + 5 * k <= a[k].minutesAway <= 15 + 5 * k
                 && -1 <= a[k].delay <= 1 && a[k].estimatedTime == a[k].scheduledTime
  {
    LineLengthBounds(draw, c, 0);
  }

  /** A stop with `n` lines shows between 2n and 3n arrivals, each due within 1 to 25 minutes. */
  lemma {:induction false} AllArrivalsShape(lineIds: seq<string>, now: int, draw: nat -> Unit, c: nat)
    ensures var a := AllArrivals(lineIds, now, draw, c);
            && 2 * |lineIds| <= |a| <= 3 * |lineIds|
            && forall x :: x in a ==> x.lineId in lineIds && 1 <= x.minutesAway <= 25
    decreases |lineIds|
  {
    if lineIds != [] {
      var first := LineArrivals(LineFor(lineIds[0]), now, draw, c);
      var next := LineDrawsEnd(draw, c);
      LineArrivalsShape(LineFor(lineIds[0]), now, draw, c);
      AllArrivalsShape(lineIds[1..], now, draw, next);
      var rest := AllArrivals(lineIds[1..], now, draw, next);
      forall x | x in first
        ensures x.lineId in lineIds && 1 <= x.minutesAway <= 25
      {
        var k :| 0 <= k < |first| && first[k] == x;
      }
      forall x | x in rest
        ensures x.lineId in lineIds
      {
        assert x.lineId in lineIds[1..];
      }
    }
  }
}
