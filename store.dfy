/** The application store of src/store/useStore.js: favourites, recent searches and routes,
    the map filters, the route planner's end points and result, and the tracked vehicle. Each
    action replaces some fields of the store and keeps the others; `AppStore` holds the fields,
    and the pure functions below say what each action computes from the old values. */
module Store {
  import opened Wrappers
  import opened Seqs
  import opened Transit

  /** A saved stop or line (`{ id, type, name, ... }`). */
  datatype Favorite = Favorite(id: string, kind: string, name: string)

  /** A point picked as origin or destination of a journey. */
  datatype Place = Place(name: string, lat: real, lon: real)

  /** An entry of the route history: `{ from, to, timestamp }`. */
  datatype RecentRoute = RecentRoute(from: Place, to: Place, timestamp: int)

  /** A journey alternative as the routing service returns it. */
  datatype Itinerary = Itinerary(id: string, duration: nat)

  datatype Vehicle = Vehicle(id: string, lineId: string)

  /** The path of a tracked vehicle's line. */
  datatype VehicleRoute = VehicleRoute(lineId: string, stops: seq<string>)

  /** `activeView`: 'map', 'stops', 'lines', 'favorites' or 'route'. */
  datatype View = MapView | StopsView | LinesView | FavoritesView | RouteView

  /** `filters`: which vehicle kinds the map shows, and the lines picked in the line list. */
  datatype Filters = Filters(showMetro: bool, showTram: bool, showBus: bool, selectedLines: seq<string>)

  /** The object `setFilters` spreads over the filters: a key is either present with a value or
      absent. */
  datatype FiltersPatch = FiltersPatch(showMetro: Option<bool>, showTram: Option<bool>,
                                       showBus: Option<bool>, selectedLines: Option<seq<string>>)

  const InitialFilters := Filters(true, true, true, [])
  const MaxRecentSearches := 10
  const MaxRecentRoutes := 20
  const MissingEndpoints := "Seleziona origine e destinazione"
  const RoutingFailed := "Errore nel calcolo del percorso"

  function Min(a: nat, b: nat): nat { if a <= b then a else b }

  // ---------------------------------------------------------------------------------------
  // Favourites

  /** `favorites.some(f => f.id === id)`. */
  predicate HasId(favorites: seq<Favorite>, id: string)
  {
    exists i :: 0 <= i < |favorites| && favorites[i].id == id
  }

  /** `favorites.filter(f => f.id !== id)`: every entry with that id goes, every other entry
      stays, as many times as before and in the same order. */
  function WithoutId(favorites: seq<Favorite>, id: string): (r: seq<Favorite>)
    ensures IsSubsequence(r, favorites)
    ensures forall i :: 0 <= i < |r| ==> r[i].id != id
    ensures forall f: Favorite :: f.id != id ==> multiset(r)[f] == multiset(favorites)[f]
  {
    if favorites == [] then []
    else
      var front := favorites[..|favorites| - 1];
      var f := favorites[|favorites| - 1];
      assert favorites == front + [f];
      var kept := WithoutId(front, id);
      SubsequenceExtend(kept, front, f);
      if f.id != id then kept + [f] else kept
  }

  /** Removing an id keeps every other id that was there. */
  lemma WithoutIdKeepsOthers(favorites: seq<Favorite>, id: string, other: string)
    requires other != id
    ensures HasId(WithoutId(favorites, id), other) <==> HasId(favorites, other)
  {
    var r := WithoutId(favorites, id);
    if HasId(favorites, other) {
      var i :| 0 <= i < |favorites| && favorites[i].id == other;
      assert favorites[i] in multiset(favorites);
      assert favorites[i] in multiset(r);
      var j :| 0 <= j < |r| && r[j] == favorites[i];
    }
    if HasId(r, other) {
      var j :| 0 <= j < |r| && r[j].id == other;
      assert r[j] in multiset(r);
      assert r[j] in multiset(favorites);
      var i :| 0 <= i < |favorites| && favorites[i] == r[j];
    }
  }

  // ---------------------------------------------------------------------------------------
  // Recent searches and routes

  /** `[search, ...recent.filter(s => s !== search)].slice(0, 10)`. */
  function RecentSearchesAfter(recent: seq<string>, search: string): (r: seq<string>)
    ensures |r| == Min(MaxRecentSearches, |Without(recent, search)| + 1)
    ensures r[0] == search && search !in r[1..]
    ensures r[1..] == Without(recent, search)[..|r| - 1]
  {
    var rest := Without(recent, search);
    var r := ([search] + rest)[..Min(MaxRecentSearches, |rest| + 1)];
    assert r[1..] == rest[..|r| - 1];
    assert forall k :: 0 <= k < |r[1..]| ==> r[1..][k] in rest;
    r
  }

  /** No entry occurs twice. */
  ghost predicate Distinct<T>(s: seq<T>)
  {
    forall i, j :: 0 <= i < j < |s| ==> s[i] != s[j]
  }

  lemma {:induction false} SubsequenceDistinct<T>(r: seq<T>, s: seq<T>)
    requires IsSubsequence(r, s) && Distinct(s)
    ensures Distinct(r)
    decreases |s|
  {
    if r != [] {
      var s' := s[..|s| - 1];
      assert Distinct(s') by {
        forall i, j | 0 <= i < j < |s'| ensures s'[i] != s'[j] { assert s'[i] == s[i] && s'[j] == s[j]; }
      }
      if r[|r| - 1] == s[|s| - 1] && IsSubsequence(r[..|r| - 1], s') {
        var r' := r[..|r| - 1];
        SubsequenceDistinct(r', s');
        SubsequenceMembers(r', s');
        forall i, j | 0 <= i < j < |r| ensures r[i] != r[j] {
          if j < |r'| {
            assert r[i] == r'[i] && r[j] == r'[j];
          } else {
            assert r[i] == r'[i] && r'[i] in s';
            var k :| 0 <= k < |s'| && s'[k] == r'[i];
            assert s[k] == s'[k];
          }
        }
      } else {
        SubsequenceDistinct(r, s');
      }
    }
  }

  lemma {:induction false} SubsequenceMembers<T>(r: seq<T>, s: seq<T>)
    requires IsSubsequence(r, s)
    ensures forall x :: x in r ==> x in s
    decreases |s|
  {
    if r != [] {
      var s' := s[..|s| - 1];
      if r[|r| - 1] == s[|s| - 1] && IsSubsequence(r[..|r| - 1], s') {
        SubsequenceMembers(r[..|r| - 1], s');
        assert r == r[..|r| - 1] + [r[|r| - 1]];
      } else {
        SubsequenceMembers(r, s');
      }
      assert s == s' + [s[|s| - 1]];
    }
  }

  /** A history without repeats stays without repeats after a new search. */
  lemma RecentSearchesStayDistinct(recent: seq<string>, search: string)
    requires Distinct(recent)
    ensures Distinct(RecentSearchesAfter(recent, search))
  {
    var rest := Without(recent, search);
    SubsequenceDistinct(rest, recent);
    var r := RecentSearchesAfter(recent, search);
    forall i, j | 0 <= i < j < |r| ensures r[i] != r[j] {
      if i == 0 {
        assert r[j] == r[1..][j - 1];
      } else {
        assert r[i] == rest[i - 1] && r[j] == rest[j - 1];
      }
    }
  }

  /** Searching for the same text twice in a row leaves the history as after the first time. */
  lemma RecentSearchesIdempotent(recent: seq<string>, search: string)
    ensures RecentSearchesAfter(RecentSearchesAfter(recent, search), search) == RecentSearchesAfter(recent, search)
  {
    var r := RecentSearchesAfter(recent, search);
    var t := r[1..];
    assert r == [search] + t;
    WithoutHeadAbsent(search, t);
    var again := RecentSearchesAfter(r, search);
    assert again[1..] == t[..|again| - 1];
  }

  /** `[route, ...recent].slice(0, 20)`: the new route first, then the newest of the old ones. */
  function RecentRoutesAfter(recent: seq<RecentRoute>, route: RecentRoute): (r: seq<RecentRoute>)
    ensures |r| == Min(MaxRecentRoutes, |recent| + 1)
    ensures r[0] == route
    ensures r[1..] == recent[..|r| - 1]
  {
    var r := ([route] + recent)[..Min(MaxRecentRoutes, |recent| + 1)];
    assert r[1..] == recent[..|r| - 1];
    r
  }

  /** Each route saved once it is one of the last twenty survives until twenty newer ones push it out. */
  lemma RecentRoutesShift(recent: seq<RecentRoute>, route: RecentRoute, k: nat)
    requires k < |recent| && k + 1 < MaxRecentRoutes
    ensures RecentRoutesAfter(recent, route)[k + 1] == recent[k]
  {
    var r := RecentRoutesAfter(recent, route);
    assert r[k + 1] == r[1..][k];
  }

  // ---------------------------------------------------------------------------------------
  // Filters

  /** `toggleLineFilter(id)`: drop the id when it is selected, append it when it is not. */
  function ToggledLines(lines: seq<string>, id: string): (r: seq<string>)
    ensures id in r <==> id !in lines
    ensures forall x :: x != id ==> multiset(r)[x] == multiset(lines)[x]
    ensures id in lines ==> IsSubsequence(r, lines)
    ensures id !in lines ==> r == lines + [id]
  {
    if id in lines then Without(lines, id) else lines + [id]
  }

  /** Selecting a line and then unselecting it gives the old selection back. */
  lemma ToggleTwiceRestores(lines: seq<string>, id: string)
    requires id !in lines
    ensures ToggledLines(ToggledLines(lines, id), id) == lines
  {
    WithoutAppend(lines, [id], id);
    WithoutAbsent(lines, id);
    WithoutSingleton(id);
  }

  /** `{ ...filters, ...patch }`: each key present in the patch takes the patch's value, every
      other key keeps the old one. */
  function Patched(f: Filters, p: FiltersPatch): (r: Filters)
    ensures p.showMetro.Some? ==> r.showMetro == p.showMetro.value
    ensures p.showMetro.None? ==> r.showMetro == f.showMetro
    ensures p.showTram.Some? ==> r.showTram == p.showTram.value
    ensures p.showTram.None? ==> r.showTram == f.showTram
    ensures p.showBus.Some? ==> r.showBus == p.showBus.value
    ensures p.showBus.None? ==> r.showBus == f.showBus
    ensures p.selectedLines.Some? ==> r.selectedLines == p.selectedLines.value
    ensures p.selectedLines.None? ==> r.selectedLines == f.selectedLines
  {
    Filters(
      match p.showMetro case Some(v) => v case None => f.showMetro,
      match p.showTram case Some(v) => v case None => f.showTram,
      match p.showBus case Some(v) => v case None => f.showBus,
      match p.selectedLines case Some(v) => v case None => f.selectedLines)
  }

  /** The patch `{ ...p, ...q }`: a key of `q` wins over the same key of `p`. */
  function Merged(p: FiltersPatch, q: FiltersPatch): FiltersPatch
  {
    FiltersPatch(
      if q.showMetro.Some? then q.showMetro else p.showMetro,
      if q.showTram.Some? then q.showTram else p.showTram,
      if q.showBus.Some? then q.showBus else p.showBus,
      if q.selectedLines.Some? then q.selectedLines else p.selectedLines)
  }

  /** An empty patch changes nothing, a patch applied twice acts once, and two patches in a row
      act as their merge. */
  lemma PatchLaws(f: Filters, p: FiltersPatch, q: FiltersPatch)
    ensures Patched(f, FiltersPatch(None, None, None, None)) == f
    ensures Patched(Patched(f, p), p) == Patched(f, p)
    ensures Patched(Patched(f, p), q) == Patched(f, Merged(p, q))
  {
  }

  /** `getPreferredTransport`: the one kind the map shows when it shows exactly one, else `null`. */
  function PreferredTransport(f: Filters): (m: Option<VehicleKind>)
    ensures m == Some(Metro) <==> f.showMetro && !f.showTram && !f.showBus
    ensures m == Some(Tram) <==> f.showTram && !f.showMetro && !f.showBus
    ensures m == Some(Bus) <==> f.showBus && !f.showMetro && !f.showTram
  {
    if f.showMetro && !f.showTram && !f.showBus then Some(Metro)
    else if f.showTram && !f.showMetro && !f.showBus then Some(Tram)
    else if f.showBus && !f.showMetro && !f.showTram then Some(Bus)
    else None
  }

  function FlagCount(f: Filters): nat
  {
    (if f.showMetro then 1 else 0) + (if f.showTram then 1 else 0) + (if f.showBus then 1 else 0)
  }

  /** There is a preference exactly when one kind is shown; the line selection plays no part,
      and the initial filters (all kinds shown) give none. */
  lemma PreferredTransportExactlyOne(f: Filters, lines: seq<string>)
    ensures PreferredTransport(f).Some? <==> FlagCount(f) == 1
    ensures PreferredTransport(f.(selectedLines := lines)) == PreferredTransport(f)
    ensures PreferredTransport(InitialFilters) == None
  {
    if FlagCount(f) == 1 {
      assert f.showMetro || f.showTram || f.showBus;
    }
  }

  // ---------------------------------------------------------------------------------------
  // The store

  /** Every field of the store the modelled actions read or write. */
  datatype StoreState = StoreState(
    favorites: seq<Favorite>,
    recentSearches: seq<string>,
    recentRoutes: seq<RecentRoute>,
    filters: Filters,
    routeOrigin: Option<Place>,
    routeDestination: Option<Place>,
    routes: seq<Itinerary>,
    selectedRoute: Option<Itinerary>,
    isCalculatingRoute: bool,
    activeView: View,
    error: Option<string>,
    trackedVehicle: Option<Vehicle>,
    vehicleRoute: Option<VehicleRoute>,
    upcomingStops: seq<string>)

  /** `swapRoutePoints`: origin and destination change places. */
  function Swapped(s: StoreState): (r: StoreState)
    ensures r.routeOrigin == s.routeDestination && r.routeDestination == s.routeOrigin
    ensures r.(routeOrigin := s.routeOrigin, routeDestination := s.routeDestination) == s
  {
    s.(routeOrigin := s.routeDestination, routeDestination := s.routeOrigin)
  }

  /** Swapping twice is the identity. */
  lemma SwappedTwice(s: StoreState)
    ensures Swapped(Swapped(s)) == s
  {
  }

  /** `clearRoute`: no end points, no routes, no selection; nothing else changes. */
  function Cleared(s: StoreState): (r: StoreState)
    ensures r.routeOrigin.None? && r.routeDestination.None? && r.routes == [] && r.selectedRoute.None?
    ensures r.(routeOrigin := s.routeOrigin, routeDestination := s.routeDestination,
               routes := s.routes, selectedRoute := s.selectedRoute) == s
  {
    s.(routeOrigin := None, routeDestination := None, routes := [], selectedRoute := None)
  }

  /** `stopTrackingVehicle`: no tracked vehicle, no route and no upcoming stops for it. */
  function Untracked(s: StoreState): (r: StoreState)
    ensures r.trackedVehicle.None? && r.vehicleRoute.None? && r.upcomingStops == []
    ensures r.(trackedVehicle := s.trackedVehicle, vehicleRoute := s.vehicleRoute,
               upcomingStops := s.upcomingStops) == s
  {
    s.(trackedVehicle := None, vehicleRoute := None, upcomingStops := [])
  }

  /** Clearing the route and stopping tracking touch disjoint fields, so they commute, and each
      of them done twice acts once. */
  lemma ResetsCommute(s: StoreState)
    ensures Cleared(Untracked(s)) == Untracked(Cleared(s))
    ensures Cleared(Cleared(s)) == Cleared(s) && Untracked(Untracked(s)) == Untracked(s)
  {
  }

  /** What the routing service does with the end points, the mode and the preferred kind:
      the alternatives it computes, or `None` when it throws. */
  type Router = (Place, Place, string, Option<VehicleKind>) -> Option<seq<Itinerary>>

  /** `calculateRoute(mode)` from state `s`, with the routing service's answer. Without both
      end points only `error` is set. */
  function AfterCalculateRoute(s: StoreState, mode: string, router: Router, timestamp: int): (r: StoreState)
    ensures (s.routeOrigin.None? || s.routeDestination.None?) ==> r == s.(error := Some(MissingEndpoints))
    ensures s.routeOrigin.Some? && s.routeDestination.Some? ==>
              !r.isCalculatingRoute
              && r.filters == s.filters && r.routeOrigin == s.routeOrigin && r.routeDestination == s.routeDestination
              && r.favorites == s.favorites && r.trackedVehicle == s.trackedVehicle
    ensures s.routeOrigin.Some? && s.routeDestination.Some? ==>
              var outcome := router(s.routeOrigin.value, s.routeDestination.value, mode, PreferredTransport(s.filters));
              && (outcome.None? ==> r == s.(isCalculatingRoute := false, error := Some(RoutingFailed)))
              && (outcome.Some? ==>
                    && r.routes == outcome.value && r.error.None? && r.activeView == RouteView
                    && r.selectedRoute == (if outcome.value == [] then None else Some(outcome.value[0]))
                    && r.recentRoutes == RecentRoutesAfter(s.recentRoutes,
                                                           RecentRoute(s.routeOrigin.value, s.routeDestination.value, timestamp))
                    && r.(routes := s.routes, selectedRoute := s.selectedRoute, isCalculatingRoute := s.isCalculatingRoute,
                          activeView := s.activeView, error := s.error, recentRoutes := s.recentRoutes) == s)
  {
    if s.routeOrigin.None? || s.routeDestination.None? then s.(error := Some(MissingEndpoints))
    else
      var origin, destination := s.routeOrigin.value, s.routeDestination.value;
      var started := s.(isCalculatingRoute := true, error := None);
      match router(origin, destination, mode, PreferredTransport(started.filters))
      case None => started.(error := Some(RoutingFailed), isCalculatingRoute := false)
      case Some(routes) =>
        var done := started.(routes := routes, selectedRoute := if routes == [] then None else Some(routes[0]),
                             isCalculatingRoute := false, activeView := RouteView);
        done.(recentRoutes := RecentRoutesAfter(done.recentRoutes, RecentRoute(origin, destination, timestamp)))
  }

  /** The state `create` starts from, with the lists read back from local storage. */
  function InitialState(favorites: seq<Favorite>, searches: seq<string>, recentRoutes: seq<RecentRoute>): StoreState
  {
    StoreState(favorites, searches, recentRoutes, InitialFilters, None, None, [], None, false, MapView,
               None, None, None, [])
  }

  class AppStore {
    var favorites: seq<Favorite>
    var recentSearches: seq<string>
    var recentRoutes: seq<RecentRoute>
    var filters: Filters
    var routeOrigin: Option<Place>
    var routeDestination: Option<Place>
    var routes: seq<Itinerary>
    var selectedRoute: Option<Itinerary>
    var isCalculatingRoute: bool
    var activeView: View
    var error: Option<string>
    var trackedVehicle: Option<Vehicle>
    var vehicleRoute: Option<VehicleRoute>
    var upcomingStops: seq<string>

    function State(): StoreState
      reads this
    {
      StoreState(favorites, recentSearches, recentRoutes, filters, routeOrigin, routeDestination, routes,
                 selectedRoute, isCalculatingRoute, activeView, error, trackedVehicle, vehicleRoute, upcomingStops)
    }

    constructor(storedFavorites: seq<Favorite>, storedSearches: seq<string>, storedRoutes: seq<RecentRoute>)
      ensures State() == InitialState(storedFavorites, storedSearches, storedRoutes)
    {
      favorites, recentSearches, recentRoutes := storedFavorites, storedSearches, storedRoutes;
      filters := InitialFilters;
      routeOrigin, routeDestination := None, None;
      routes, selectedRoute, isCalculatingRoute := [], None, false;
      activeView, error := MapView, None;
      trackedVehicle, vehicleRoute, upcomingStops := None, None, [];
    }

    /** `isFavorite(id)`: some favourite, of whatever kind, has the id. */
    predicate IsFavorite(id: string)
      reads this
      ensures IsFavorite(id) <==> exists f :: f in favorites && f.id == id
    {
      HasId(favorites, id)
    }

    /** `addFavorite(item)`: appended at the end, even when an entry with that id is already there. */
    method AddFavorite(item: Favorite)
      modifies this
      ensures State() == old(State()).(favorites := old(favorites) + [item])
      ensures IsFavorite(item.id) && |favorites| == |old(favorites)| + 1
    {
      favorites := favorites + [item];
      assert favorites[|favorites| - 1] == item;
    }

    /** `removeFavorite(id)`. */
    method RemoveFavorite(id: string)
      modifies this
      ensures State() == old(State()).(favorites := WithoutId(old(favorites), id))
      ensures !IsFavorite(id)
    {
      favorites := WithoutId(favorites, id);
      assert forall i :: 0 <= i < |favorites| ==> favorites[i].id != id;
    }

    /** `addRecentSearch(search)`. */
    method AddRecentSearch(search: string)
      modifies this
      ensures State() == old(State()).(recentSearches := RecentSearchesAfter(old(recentSearches), search))
      ensures 1 <= |recentSearches| <= MaxRecentSearches && recentSearches[0] == search
    {
      recentSearches := RecentSearchesAfter(recentSearches, search);
    }

    /** `addRecentRoute(route)`. */
    method AddRecentRoute(route: RecentRoute)
      modifies this
      ensures State() == old(State()).(recentRoutes := RecentRoutesAfter(old(recentRoutes), route))
      ensures 1 <= |recentRoutes| <= MaxRecentRoutes && recentRoutes[0] == route
    {
      recentRoutes := RecentRoutesAfter(recentRoutes, route);
    }

    /** `setFilters(patch)`. */
    method SetFilters(patch: FiltersPatch)
      modifies this
      ensures State() == old(State()).(filters := Patched(old(filters), patch))
    {
      filters := Patched(filters, patch);
    }

    /** `toggleLineFilter(lineId)`: only the line selection changes. */
    method ToggleLineFilter(lineId: string)
      modifies this
      ensures State() == old(State()).(filters := old(filters).(selectedLines := ToggledLines(old(filters).selectedLines, lineId)))
      ensures lineId in filters.selectedLines <==> lineId !in old(filters).selectedLines
    {
      var selectedLines := ToggledLines(filters.selectedLines, lineId);
      filters := filters.(selectedLines := selectedLines);
    }

    /** `getPreferredTransport()`. */
    function GetPreferredTransport(): (m: Option<VehicleKind>)
      reads this
      ensures m.Some? <==> FlagCount(filters) == 1
    {
      PreferredTransportExactlyOne(filters, filters.selectedLines);
      PreferredTransport(filters)
    }

    /** `swapRoutePoints()`. */
    method SwapRoutePoints()
      modifies this
      ensures State() == Swapped(old(State()))
    {
      routeOrigin, routeDestination := routeDestination, routeOrigin;
    }

    /** `clearRoute()`. */
    method ClearRoute()
      modifies this
      ensures State() == Cleared(old(State()))
    {
      routeOrigin, routeDestination := None, None;
      routes, selectedRoute := [], None;
    }

    /** `stopTrackingVehicle()`. */
    method StopTrackingVehicle()
      modifies this
      ensures State() == Untracked(old(State()))
    {
      trackedVehicle, vehicleRoute, upcomingStops := None, None, [];
    }

    /** `calculateRoute(mode)`, with the routing service's answer given by `router` and the
        clock's reading by `timestamp`. A caller that passes no mode gets `'balanced'`; here the
        mode is always given. */
    method CalculateRoute(mode: string, router: Router, timestamp: int)
      modifies this
      ensures State() == AfterCalculateRoute(old(State()), mode, router, timestamp)
    {
      ghost var s0 := State();
      if routeOrigin.None? || routeDestination.None? {
        error := Some(MissingEndpoints);
        return;
      }
      isCalculatingRoute, error := true, None;
      var origin, destination := routeOrigin.value, routeDestination.value;
      var outcome := router(origin, destination, mode, GetPreferredTransport());
      ghost var started := s0.(isCalculatingRoute := true, error := None);
      assert State() == started;
      match outcome
      case None =>
        error, isCalculatingRoute := Some(RoutingFailed), false;
      case Some(computed) =>
        routes := computed;
        selectedRoute := if computed == [] then None else Some(computed[0]);
        isCalculatingRoute, activeView := false, RouteView;
        ghost var done := started.(routes := computed, selectedRoute := selectedRoute,
                                   isCalculatingRoute := false, activeView := RouteView);
        assert State() == done;
        AddRecentRoute(RecentRoute(origin, destination, timestamp));
    }
  }
}
