/** The mapping helpers of the real-data client (`RealTransportAPI` in src/services/realAPI.js):
    GTFS `route_type`, GTFS Realtime `OccupancyStatus` and GTFS `location_type` codes to the
    application's labels, and route ids to the ATM Milan line colours. A field read from a
    remote record is `Some(n)` when it is the JavaScript number `n` and `None` for anything
    else (`undefined`, `null`, a string), which the strict `switch` comparisons send to the
    `default` branch. */
module RealApi {
  import opened Wrappers
  import opened Text
  import opened Transit

  // ---------------------------------------------------------------------------------------
  // getVehicleType

  /** GTFS `route_type` to the kind of vehicle: 0 is a tram, 1 a metro, and every other code
      (3 bus, 11 and 800 trolleybus, anything unknown) a bus. */
  function VehicleType(routeType: Option<int>): (k: VehicleKind)
    ensures k == Metro <==> routeType == Some(1)
    ensures k == Tram <==> routeType == Some(0)
  {
    match routeType
    case Some(0) => Tram
    case Some(1) => Metro
    case Some(3) => Bus
    case Some(11) => Bus
    case Some(800) => Bus
    case _ => Bus
  }

  /** The route types the source names explicitly as buses and trolleybuses, and a route type
      GTFS reserves for rail that the table does not list, all come out as buses. */
  lemma VehicleTypeBuses()
    ensures VehicleType(Some(3)) == Bus && VehicleType(Some(11)) == Bus && VehicleType(Some(800)) == Bus
    ensures VehicleType(Some(2)) == Bus && VehicleType(None) == Bus
  {
  }

  // ---------------------------------------------------------------------------------------
  // getLineColor

  const M1Red := "#E30613"
  const M2Green := "#00843D"
  const M3Yellow := "#FFD700"
  const M5Lilac := "#6E3AA7"
  /** Trams share the M3 yellow. */
  const TramYellow := "#FFD700"
  const BusBlue := "#007ACC"

  /** `routeId?.startsWith(p)`: false for a missing id. */
  predicate IdStartsWith(routeId: Option<string>, p: string)
  {
    routeId.Some? && StartsWith(routeId.value, p)
  }

  /** One of the four metro prefixes with a colour of its own. */
  predicate HasMetroPrefix(routeId: Option<string>)
  {
    IdStartsWith(routeId, "M1") || IdStartsWith(routeId, "M2")
    || IdStartsWith(routeId, "M3") || IdStartsWith(routeId, "M5")
  }

  /** `parseInt(routeId) <= 30`: false when the parse gives `NaN`, a missing id included. */
  predicate NumberAtMost30(routeId: Option<string>)
  {
    routeId.Some? && var n := ParseInt(routeId.value); n.Some? && n.value <= 30
  }

  /** The metro prefixes are tried in the order M1, M2, M3, M5 and win over the number test;
      without one of them the colour is tram yellow exactly when the id reads as a number up
      to 30, and bus blue otherwise. */
  function LineColor(routeId: Option<string>): (c: string)
    ensures IdStartsWith(routeId, "M1") ==> c == M1Red
    ensures !IdStartsWith(routeId, "M1") && IdStartsWith(routeId, "M2") ==> c == M2Green
    ensures !IdStartsWith(routeId, "M1") && !IdStartsWith(routeId, "M2") && IdStartsWith(routeId, "M3") ==> c == M3Yellow
    ensures (!IdStartsWith(routeId, "M1") && !IdStartsWith(routeId, "M2") && !IdStartsWith(routeId, "M3")
             && IdStartsWith(routeId, "M5")) ==> c == M5Lilac
    ensures !HasMetroPrefix(routeId) ==> (c == TramYellow <==> NumberAtMost30(routeId))
    ensures !HasMetroPrefix(routeId) ==> (c == BusBlue <==> !NumberAtMost30(routeId))
  {
    if IdStartsWith(routeId, "M1") then M1Red
    else if IdStartsWith(routeId, "M2") then M2Green
    else if IdStartsWith(routeId, "M3") then M3Yellow
    else if IdStartsWith(routeId, "M5") then M5Lilac
    else if NumberAtMost30(routeId) then TramYellow
    else BusBlue
  }

  /** Every colour is one of the five of the palette. */
  lemma LineColorPalette(routeId: Option<string>)
    ensures LineColor(routeId) in {M1Red, M2Green, M5Lilac, TramYellow, BusBlue}
  {
  }

  /** A string that differs from `p` at some position of `p` does not start with `p`. */
  lemma NotStartsWith(s: string, p: string, i: nat)
    requires i < |p| <= |s| && s[i] != p[i]
    ensures !StartsWith(s, p)
  {
    assert s[..|p|][i] == s[i];
  }

  /** M4 has no colour of its own and "M4" does not read as a number, so it is drawn blue like
      a bus; so is a missing id. */
  lemma LineColorOfM4()
    ensures LineColor(Some("M4")) == BusBlue
    ensures LineColor(None) == BusBlue
  {
    var m4 := "M4";
    assert |m4| == 2 && m4[1] == '4' && m4[0] == 'M';
    NotStartsWith(m4, "M1", 1);
    NotStartsWith(m4, "M2", 1);
    NotStartsWith(m4, "M3", 1);
    NotStartsWith(m4, "M5", 1);
    ParseIntOfNonNumeric(m4);
  }

  /** An id that does not start with 'M' has none of the metro prefixes. */
  lemma NoMetroPrefix(id: string)
    requires |id| >= 2 && id[0] != 'M'
    ensures !HasMetroPrefix(Some(id))
  {
    NotStartsWith(id, "M1", 0);
    NotStartsWith(id, "M2", 0);
    NotStartsWith(id, "M3", 0);
    NotStartsWith(id, "M5", 0);
  }

  /** Tram 15 is yellow. */
  lemma LineColorOfTram15()
    ensures LineColor(Some("15")) == TramYellow
  {
    var id := NatToString(15);
    assert id == "15";
    NoMetroPrefix(id);
    ParseIntOfNatToString(15);
  }

  /** Bus 90, above 30, is blue. */
  lemma LineColorOfBus90()
    ensures LineColor(Some("90")) == BusBlue
  {
    var id := NatToString(90);
    assert id == "90";
    NoMetroPrefix(id);
    ParseIntOfNatToString(90);
  }

  // ---------------------------------------------------------------------------------------
  // parseOccupancy

  /** GTFS Realtime `OccupancyStatus` 0..5 to its label; every other value, 6
      (NOT_ACCEPTING_PASSENGERS) included, is UNKNOWN. */
  function ParseOccupancy(status: Option<int>): (o: Occupancy)
    ensures o == Unknown <==> !(status.Some? && 0 <= status.value <= 5)
  {
    match status
    case Some(0) => Empty
    case Some(1) => ManySeats
    case Some(2) => FewSeats
    case Some(3) => Standing
    case Some(4) => CrushedStanding
    case Some(5) => Full
    case _ => Unknown
  }

  /** The `OccupancyStatus` code of a label other than UNKNOWN. */
  function OccupancyCode(o: Occupancy): (code: int)
    requires o != Unknown
    ensures 0 <= code <= 5
  {
    match o
    case Empty => 0
    case ManySeats => 1
    case FewSeats => 2
    case Standing => 3
    case CrushedStanding => 4
    case Full => 5
  }

  /** Parsing a label's code gives the label back, and a code in 0..5 is the code of the label
      it parses to: the six codes get six distinct labels. */
  lemma ParseOccupancyRoundTrip(o: Occupancy, code: int)
    ensures o != Unknown ==> ParseOccupancy(Some(OccupancyCode(o))) == o
    ensures 0 <= code <= 5 ==> OccupancyCode(ParseOccupancy(Some(code))) == code
  {
  }

  lemma ParseOccupancyInjective(a: int, b: int)
    requires 0 <= a <= 5 && 0 <= b <= 5 && a != b
    ensures ParseOccupancy(Some(a)) != ParseOccupancy(Some(b))
  {
    ParseOccupancyRoundTrip(Empty, a);
    ParseOccupancyRoundTrip(Empty, b);
  }

  // ---------------------------------------------------------------------------------------
  // getStopType

  /** The stop labels 'stop', 'station', 'entrance' and 'node'. */
  datatype StopKind = StopPlace | Station | Entrance | Node

  /** GTFS `location_type` 0..3 to its label; every other value (4, a boarding area, a missing
      field) is a plain stop. */
  function StopType(locationType: Option<int>): (k: StopKind)
    ensures k == Station <==> locationType == Some(1)
    ensures k == Entrance <==> locationType == Some(2)
    ensures k == Node <==> locationType == Some(3)
    ensures k == StopPlace <==> !(locationType.Some? && 1 <= locationType.value <= 3)
  {
    match locationType
    case Some(0) => StopPlace
    case Some(1) => Station
    case Some(2) => Entrance
    case Some(3) => Node
    case _ => StopPlace
  }

  /** The `location_type` code of each label. */
  function LocationTypeCode(k: StopKind): (code: int)
    ensures 0 <= code <= 3
  {
    match k
    case StopPlace => 0
    case Station => 1
    case Entrance => 2
    case Node => 3
  }

  lemma StopTypeRoundTrip(k: StopKind, code: int)
    ensures StopType(Some(LocationTypeCode(k))) == k
    ensures 0 <= code <= 3 ==> LocationTypeCode(StopType(Some(code))) == code
  {
  }
}
