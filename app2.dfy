/** The earlier engine of src/App2.js: airports and volcanoes on one globe and
    the same search, but no pulsing, no volcano panel, and every point click
    handled as an airport click. */
module App2 {
  import opened Collections
  import opened Entities
  import opened Search

  /** The identifier a point click sends as `airportId`: the clicked record's
      `index`, whether it is an airport or a volcano. */
  function PointIndex(p: Point<VolcanoRecord>): int
  {
    match p
    case AirportPoint(a) => a.index
    case VolcanoPoint(v) => v.index
  }

  /** `pointRadius`: `type == 'airport' ? 0.2 : vmag * 0.2`. */
  function PointRadius(p: Point<VolcanoRecord>): real
  {
    if TypeTag(p) == "airport" then AirportRadius else p.volcano.vmag * 0.2
  }

  /** Airports are drawn with radius 0.2 and a volcano with a fifth of its
      magnitude, so only a volcano of magnitude 1 is drawn as large as an airport. */
  lemma PointRadiusSpec(p: Point<VolcanoRecord>)
    ensures p.AirportPoint? ==> PointRadius(p) == 0.2
    ensures p.VolcanoPoint? ==> PointRadius(p) == p.volcano.vmag / 5.0
    ensures p.VolcanoPoint? ==> (PointRadius(p) == AirportRadius <==> p.volcano.vmag == 1.0)
  {
  }

  /** The component's React state fields. `selectedAirport` holds whatever
      point was clicked last, which may be a volcano. */
  datatype EngineState = EngineState(
    airports: seq<Airport>,
    filteredAirports: seq<Airport>,
    flightPaths: seq<FlightPath>,
    selectedAirport: Option<Point<VolcanoRecord>>,
    selectedFlight: Option<FlightPath>,
    filteredRoutes: seq<Route>,
    searchTerm: string,
    showDropdown: bool,
    airlines: seq<Airline>,
    selectedAirline: Option<Airline>,
    routes: seq<Route>,
    volcanoes: seq<VolcanoRecord>)

  /** What the component's behaviour depends on outside its state: the values
      the Escape listener closed over when it was last bound, the start-up
      fetches still in flight, the identifiers of the flight-path fetches still
      in flight, and the camera commands sent to the globe so far. */
  datatype Surroundings = Surroundings(
    listenerAirports: seq<Airport>,
    listenerVolcanoes: seq<VolcanoRecord>,
    airportsFetch: bool,
    volcanoesFetch: bool,
    airlinesFetch: bool,
    flightRequests: seq<int>,
    camera: seq<CameraCommand>)

  /** The component. `state` holds its React state, `env` what its behaviour
      depends on besides. Each method is one event: its handler, then the
      filter effect when `searchTerm` changed in value or `airports` was
      assigned. */
  class Engine {
    var state: EngineState
    var env: Surroundings

    /** The listener never sees stale airports, no routes are ever selected,
        the visible airports are the filter effect's for the current term, and
        the dropdown is only open when that list is non-empty for a non-empty
        term. */
    ghost predicate Valid()
      reads this
    {
      && env.listenerAirports == state.airports
      && state.routes == [] && state.filteredRoutes == []
      && state.filteredAirports == VisibleAirports(state.airports, state.searchTerm)
      && (state.showDropdown ==> DropdownShown(state.searchTerm, state.filteredAirports))
    }

    /** Mounting: every field at its initial value, the listener bound over the
        empty lists, and the three start-up fetches sent. */
    constructor ()
      ensures Valid()
      ensures state == EngineState([], [], [], None, None, [], "", false, [], None, [], [])
      ensures env == Surroundings([], [], true, true, true, [], [])
    {
      state := EngineState([], [], [], None, None, [], "", false, [], None, [], []);
      env := Surroundings([], [], true, true, true, [], []);
    }

    /** The filter effect: the visible airports and the dropdown flag are
        re-derived from the term and the airports; nothing else changes. */
    method FilterEffect()
      modifies this
      ensures state == old(state).(
        filteredAirports := VisibleAirports(old(state.airports), old(state.searchTerm)),
        showDropdown := DropdownShown(old(state.searchTerm), VisibleAirports(old(state.airports), old(state.searchTerm))))
      ensures env == old(env)
    {
      var results := VisibleAirports(state.airports, state.searchTerm);
      state := state.(filteredAirports := results, showDropdown := state.searchTerm != "" && |results| > 0);
    }

    /** The airports fetch succeeds: the airports are stored, the filter effect
        recomputes the visible ones, and the Escape listener is re-bound. */
    method AirportsLoaded(data: seq<Airport>)
      requires Valid() && env.airportsFetch
      modifies this
      ensures Valid()
      ensures state == old(state).(
        airports := data,
        filteredAirports := VisibleAirports(data, old(state.searchTerm)),
        showDropdown := DropdownShown(old(state.searchTerm), VisibleAirports(data, old(state.searchTerm))))
      ensures env == old(env).(listenerAirports := data, listenerVolcanoes := old(state.volcanoes), airportsFetch := false)
    {
      state := state.(airports := data, filteredAirports := data);
      FilterEffect();
      env := env.(listenerAirports := state.airports, listenerVolcanoes := state.volcanoes, airportsFetch := false);
    }

    /** The airports fetch fails: the error is logged and no state changes. */
    method AirportsFailed()
      requires Valid() && env.airportsFetch
      modifies this
      ensures Valid()
      ensures state == old(state)
      ensures env == old(env).(airportsFetch := false)
    {
      env := env.(airportsFetch := false);
    }

    /** The volcanoes fetch succeeds: the volcanoes are stored as served, with
        no pulse flag. */
    method VolcanoesLoaded(data: seq<VolcanoRecord>)
      requires Valid() && env.volcanoesFetch
      modifies this
      ensures Valid()
      ensures state == old(state).(volcanoes := data)
      ensures env == old(env).(volcanoesFetch := false)
    {
      state := state.(volcanoes := data);
      env := env.(volcanoesFetch := false);
    }

    /** The volcanoes fetch fails: the error is logged and no state changes. */
    method VolcanoesFailed()
      requires Valid() && env.volcanoesFetch
      modifies this
      ensures Valid()
      ensures state == old(state)
      ensures env == old(env).(volcanoesFetch := false)
    {
      env := env.(volcanoesFetch := false);
    }

    /** The airlines fetch succeeds: the airlines are stored as served. */
    method AirlinesLoaded(data: seq<Airline>)
      requires Valid() && env.airlinesFetch
      modifies this
      ensures Valid()
      ensures state == old(state).(airlines := data)
      ensures env == old(env).(airlinesFetch := false)
    {
      state := state.(airlines := data);
      env := env.(airlinesFetch := false);
    }

    /** The airlines fetch fails: the error is logged and no state changes. */
    method AirlinesFailed()
      requires Valid() && env.airlinesFetch
      modifies this
      ensures Valid()
      ensures state == old(state)
      ensures env == old(env).(airlinesFetch := false)
    {
      env := env.(airlinesFetch := false);
    }

    /** A keystroke: the same handler as the newest engine's, then the filter
        effect, which always follows because a controlled input only reports a
        changed value. */
    method SearchChange(value: string)
      requires Valid() && value != state.searchTerm
      modifies this
      ensures Valid()
      ensures state == old(state).(
        searchTerm := value,
        selectedAirline := FirstMatchingAirline(old(state.airlines), value),
        filteredRoutes := MatchedRoutes(old(state.routes), FirstMatchingAirline(old(state.airlines), value)),
        filteredAirports := VisibleAirports(old(state.airports), value),
        showDropdown := DropdownShown(value, VisibleAirports(old(state.airports), value)))
      ensures state.filteredRoutes == []
      ensures env == old(env)
    {
      var matched := FirstMatchingAirline(state.airlines, value);
      state := state.(
        searchTerm := value,
        selectedAirline := matched,
        filteredRoutes := MatchedRoutes(state.routes, matched),
        filteredAirports := KeystrokeAirports(state.airports, value));
      FilterEffect();
    }

    /** A dropdown pick: the term becomes the airport's name, the dropdown
        closes, one camera command centres the globe on the airport, and the
        filter effect runs when the name differs from the previous term. */
    method SelectAirport(a: Airport)
      requires Valid()
      modifies this
      ensures Valid()
      ensures var effectRan := a.name != old(state.searchTerm);
        state == old(state).(
          searchTerm := a.name,
          filteredAirports := if effectRan then VisibleAirports(old(state.airports), a.name) else old(state.filteredAirports),
          showDropdown := effectRan && DropdownShown(a.name, VisibleAirports(old(state.airports), a.name)))
      ensures env == old(env).(camera := old(env.camera) + [FocusOn(a)])
    {
      var previous := state.searchTerm;
      state := state.(searchTerm := a.name, showDropdown := false);
      env := env.(camera := env.camera + [FocusOn(a)]);
      if a.name != previous {
        FilterEffect();
      }
    }

    /** Any point click: the clicked point, airport or volcano, becomes the
        selected airport and flight paths are requested for its `index`. */
    method ClickPoint(p: Point<VolcanoRecord>)
      requires Valid()
      modifies this
      ensures Valid()
      ensures state == old(state).(selectedAirport := Some(p))
      ensures env == old(env).(flightRequests := old(env.flightRequests) + [PointIndex(p)])
    {
      state := state.(selectedAirport := Some(p));
      env := env.(flightRequests := env.flightRequests + [PointIndex(p)]);
    }

    /** Flight paths arrive for the `k`-th outstanding request and replace the
        arcs wholesale, whichever point is selected now. */
    method FlightPathsLoaded(k: nat, data: seq<FlightPath>)
      requires Valid() && k < |env.flightRequests|
      modifies this
      ensures Valid()
      ensures state == old(state).(flightPaths := data)
      ensures env == old(env).(flightRequests := RemoveAt(old(env.flightRequests), k))
    {
      state := state.(flightPaths := data);
      env := env.(flightRequests := RemoveAt(env.flightRequests, k));
    }

    /** The `k`-th outstanding flight-path request fails: the arcs stay as they were. */
    method FlightPathsFailed(k: nat)
      requires Valid() && k < |env.flightRequests|
      modifies this
      ensures Valid()
      ensures state == old(state)
      ensures env == old(env).(flightRequests := RemoveAt(old(env.flightRequests), k))
    {
      env := env.(flightRequests := RemoveAt(env.flightRequests, k));
    }

    /** An arc click opens the flight panel on that arc; nothing else changes. */
    method ClickArc(arc: FlightPath)
      requires Valid()
      modifies this
      ensures Valid()
      ensures state == old(state).(selectedFlight := Some(arc))
      ensures env == old(env)
    {
      state := state.(selectedFlight := Some(arc));
    }

    /** The flight panel's close button; nothing else changes. */
    method CloseFlightDetails()
      requires Valid()
      modifies this
      ensures Valid()
      ensures state == old(state).(selectedFlight := None)
      ensures env == old(env)
    {
      state := state.(selectedFlight := None);
    }

    /** `resetToInitialState` as the current render defines it: the term, the
        dropdown, the flight panel and the arcs are cleared and every airport
        is visible; the volcanoes and the selected point are kept. */
    method ResetToInitialState()
      requires Valid()
      modifies this
      ensures Valid()
      ensures state == old(state).(
        searchTerm := "", showDropdown := false, selectedFlight := None,
        filteredAirports := old(state.airports), flightPaths := [])
      ensures env == old(env)
    {
      var previous := state.searchTerm;
      state := state.(
        searchTerm := "", showDropdown := false, selectedFlight := None,
        filteredAirports := state.airports, volcanoes := state.volcanoes, flightPaths := []);
      if previous != "" {
        FilterEffect();
      }
    }

    /** The Escape key: the reset of the render in which the listener was
        bound, which sets the volcanoes back to the list of that render. */
    method PressEscape()
      requires Valid()
      modifies this
      ensures Valid()
      ensures state == old(state).(
        searchTerm := "", showDropdown := false, selectedFlight := None,
        filteredAirports := old(state.airports), volcanoes := old(env.listenerVolcanoes), flightPaths := [])
      ensures env == old(env)
    {
      var previous := state.searchTerm;
      state := state.(
        searchTerm := "", showDropdown := false, selectedFlight := None,
        filteredAirports := env.listenerAirports, volcanoes := env.listenerVolcanoes, flightPaths := []);
      if previous != "" {
        FilterEffect();
      }
    }

    /** `pointsData`: the visible airports, then every volcano whatever the
        search; the airports shown are the search result for the current term,
        all of them stored. */
    function Points(): (ps: seq<Point<VolcanoRecord>>)
      reads this
      requires Valid()
      ensures ps == PointsData(VisibleAirports(state.airports, state.searchTerm), state.volcanoes)
      ensures AirportsOf(ps) == VisibleAirports(state.airports, state.searchTerm)
      ensures VolcanoesOf(ps) == state.volcanoes
      ensures forall a :: a in AirportsOf(ps) ==> a in state.airports
    {
      PointsDataSplits(state.filteredAirports, state.volcanoes);
      ShownAirportsAreStored(state.airports, state.searchTerm);
      PointsData(state.filteredAirports, state.volcanoes)
    }
  }

  /** Clicking a volcano selects it as the airport and asks for the flight
      paths of the airport whose index is the volcano's. */
  method VolcanoClickSelectsAirport(v: VolcanoRecord) returns (selected: Option<Point<VolcanoRecord>>, requested: seq<int>)
    ensures selected == Some(VolcanoPoint(v))
    ensures requested == [v.index]
  {
    var e := new Engine();
    e.VolcanoesLoaded([v]);
    e.ClickPoint(VolcanoPoint(v));
    selected, requested := e.state.selectedAirport, e.env.flightRequests;
  }

  /** Volcanoes that arrive after the airports are wiped by the next Escape. */
  method LateVolcanoesLostOnEscape(a: Airport, v: VolcanoRecord)
    returns (shown: seq<VolcanoRecord>, afterEscape: seq<VolcanoRecord>)
    ensures shown == [v]
    ensures afterEscape == []
  {
    var e := new Engine();
    e.AirportsLoaded([a]);
    e.VolcanoesLoaded([v]);
    shown := e.state.volcanoes;
    e.PressEscape();
    afterEscape := e.state.volcanoes;
  }

  /** The same events with the reset of the current render keep the volcanoes. */
  method LateVolcanoesKeptOnReset(a: Airport, v: VolcanoRecord)
    returns (shown: seq<VolcanoRecord>, afterReset: seq<VolcanoRecord>)
    ensures shown == [v]
    ensures afterReset == shown
  {
    var e := new Engine();
    e.AirportsLoaded([a]);
    e.VolcanoesLoaded([v]);
    shown := e.state.volcanoes;
    e.ResetToInitialState();
    afterReset := e.state.volcanoes;
  }
}
