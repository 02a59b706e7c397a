/** Vocabulary shared by the simulator, the mock API, the real-data API and the store. */
module Transit {

  /** The three kinds of vehicle the application shows ('metro', 'tram', 'bus'). */
  datatype VehicleKind = Metro | Tram | Bus

  /** Crowding labels. The simulator produces the first five; the GTFS Realtime parser
      also produces CRUSHED_STANDING and UNKNOWN. */
  datatype Occupancy = Empty | ManySeats | FewSeats | Standing | CrushedStanding | Full | Unknown

  /** A value returned by `Math.random()`: a real number in [0, 1). */
  type Unit = r: real | 0.0 <= r < 1.0

  /** `Math.floor(r * n)` for a draw `r`: an index into a list of `n` choices. */
  function Pick(r: Unit, n: nat): (i: nat)
    requires n > 0
    ensures i < n
    ensures i as real <= r * n as real < i as real + 1.0
  {
    (r * n as real).Floor
  }
}
