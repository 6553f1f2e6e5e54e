/** The first engine of dataset/App1.js: airports only, a search box whose
    keystrokes only store the term, a flight panel, and an Escape key that
    resets the view. */
module App1 {
  import opened Collections
  import opened Entities
  import opened Search

  /** The component's React state fields. */
  datatype EngineState = EngineState(
    airports: seq<Airport>,
    filteredAirports: seq<Airport>,
    flightPaths: seq<FlightPath>,
    selectedAirport: Option<Airport>,
    selectedFlight: Option<FlightPath>,
    searchTerm: string,
    showDropdown: bool)

  /** What the component's behaviour depends on outside its state: whether
      the airports fetch is still in flight, the airport identifiers of the
      flight-path fetches still in flight, and the camera commands sent so far. */
  datatype Surroundings = Surroundings(
    airportsFetch: bool,
    flightRequests: seq<int>,
    camera: seq<CameraCommand>)

  /** The component. `state` holds its React state, `env` what its behaviour
      depends on besides. Each method is one event: its handler, then the
      filter effect when `searchTerm` changed in value or `airports` was
      assigned. The Escape listener is re-bound whenever `airports` changes and
      reads nothing else, so Escape runs `ResetToInitialState` exactly. */
  class Engine {
    var state: EngineState
    var env: Surroundings

    /** Only the filter effect writes the visible airports, so they are always
        the filter effect's for the current term; the dropdown is only open
        when that list is non-empty for a non-empty term. */
    ghost predicate Valid()
      reads this
    {
      && state.filteredAirports == VisibleAirports(state.airports, state.searchTerm)
      && (state.showDropdown ==> DropdownShown(state.searchTerm, state.filteredAirports))
    }

    /** Mounting: every field at its initial value and the airports fetch sent. */
    constructor ()
      ensures Valid()
      ensures state == EngineState([], [], [], None, None, "", false)
      ensures env == Surroundings(true, [], [])
    {
      state := EngineState([], [], [], None, None, "", false);
      env := Surroundings(true, [], []);
    }

    /** The filter effect: the visible airports and the dropdown flag are
        re-derived from the term and the airports; nothing else changes. */
    method FilterEffect()
      modifies this
      ensures state == old(state).(
        filteredAirports := VisibleAirports(old(state.airports), old(state.searchTerm)),
        showDropdown := DropdownShown(old(state.searchTerm), VisibleAirports(old(state.airports), old(state.searchTerm))))
      ensures env == old(env)
    {
      var results := VisibleAirports(state.airports, state.searchTerm);
      state := state.(filteredAirports := results, showDropdown := state.searchTerm != "" && |results| > 0);
    }

    /** The airports fetch succeeds: the airports are stored as served and the
        filter effect recomputes the visible ones for the current term. */
    method AirportsLoaded(data: seq<Airport>)
      requires Valid() && env.airportsFetch
      modifies this
      ensures Valid()
      ensures state == old(state).(
        airports := data,
        filteredAirports := VisibleAirports(data, old(state.searchTerm)),
        showDropdown := DropdownShown(old(state.searchTerm), VisibleAirports(data, old(state.searchTerm))))
      ensures env == old(env).(airportsFetch := false)
    {
      state := state.(airports := data, filteredAirports := data);
      FilterEffect();
      env := env.(airportsFetch := false);
    }

    /** The airports fetch fails: the error is logged and no state changes. */
    method AirportsFailed()
      requires Valid() && env.airportsFetch
      modifies this
      ensures Valid()
      ensures state == old(state)
      ensures env == old(env).(airportsFetch := false)
    {
      env := env.(airportsFetch := false);
    }

    /** A keystroke stores the term; when it changed, the filter effect then
        derives the visible airports and the dropdown from it. A controlled
        input only reports a changed value, so the unchanged case does not
        arise in the program; it is kept total here and changes nothing. */
    method SearchChange(value: string)
      requires Valid()
      modifies this
      ensures Valid()
      ensures value != old(state.searchTerm) ==>
        state == old(state).(
          searchTerm := value,
          filteredAirports := VisibleAirports(old(state.airports), value),
          showDropdown := DropdownShown(value, VisibleAirports(old(state.airports), value)))
      ensures value == old(state.searchTerm) ==> state == old(state)
      ensures env == old(env)
    {
      var previous := state.searchTerm;
      state := state.(searchTerm := value);
      if value != previous {
        FilterEffect();
      }
    }

    /** A dropdown pick: the term becomes the airport's name, the dropdown
        closes, one camera command centres the globe on the airport, and the
        filter effect runs when the name differs from the previous term. */
    method SelectAirport(a: Airport)
      requires Valid()
      modifies this
      ensures Valid()
      ensures var effectRan := a.name != old(state.searchTerm);
        state == old(state).(
          searchTerm := a.name,
          filteredAirports := VisibleAirports(old(state.airports), a.name),
          showDropdown := effectRan && DropdownShown(a.name, VisibleAirports(old(state.airports), a.name)))
      ensures env == old(env).(camera := old(env.camera) + [FocusOn(a)])
    {
      var previous := state.searchTerm;
      state := state.(searchTerm := a.name, showDropdown := false);
      env := env.(camera := env.camera + [FocusOn(a)]);
      if a.name != previous {
        FilterEffect();
      }
    }

    /** An airport click: the airport is selected and its flight paths are requested. */
    method ClickAirport(a: Airport)
      requires Valid()
      modifies this
      ensures Valid()
      ensures state == old(state).(selectedAirport := Some(a))
      ensures env == old(env).(flightRequests := old(env.flightRequests) + [a.index])
    {
      state := state.(selectedAirport := Some(a));
      env := env.(flightRequests := env.flightRequests + [a.index]);
    }

    /** Flight paths arrive for the `k`-th outstanding request and replace the
        arcs wholesale, whichever airport is selected now. */
    method FlightPathsLoaded(k: nat, data: seq<FlightPath>)
      requires Valid() && k < |env.flightRequests|
      modifies this
      ensures Valid()
      ensures state == old(state).(flightPaths := data)
      ensures env == old(env).(flightRequests := RemoveAt(old(env.flightRequests), k))
    {
      state := state.(flightPaths := data);
      env := env.(flightRequests := RemoveAt(env.flightRequests, k));
    }

    /** The `k`-th outstanding flight-path request fails: the arcs stay as they were. */
    method FlightPathsFailed(k: nat)
      requires Valid() && k < |env.flightRequests|
      modifies this
      ensures Valid()
      ensures state == old(state)
      ensures env == old(env).(flightRequests := RemoveAt(old(env.flightRequests), k))
    {
      env := env.(flightRequests := RemoveAt(env.flightRequests, k));
    }

    /** An arc click opens the flight panel on that arc; nothing else changes. */
    method ClickArc(arc: FlightPath)
      requires Valid()
      modifies this
      ensures Valid()
      ensures state == old(state).(selectedFlight := Some(arc))
      ensures env == old(env)
    {
      state := state.(selectedFlight := Some(arc));
    }

    /** The flight panel's close button; nothing else changes. */
    method CloseFlightDetails()
      requires Valid()
      modifies this
      ensures Valid()
      ensures state == old(state).(selectedFlight := None)
      ensures env == old(env)
    {
      state := state.(selectedFlight := None);
    }

    /** `resetToInitialState`, which the Escape key runs: the term, the
        dropdown, the flight panel and the arcs are cleared and every airport
        is visible; the selected airport is kept. */
    method ResetToInitialState()
      requires Valid()
      modifies this
      ensures Valid()
      ensures state == old(state).(
        searchTerm := "", showDropdown := false, selectedFlight := None,
        filteredAirports := old(state.airports), flightPaths := [])
      ensures env == old(env)
    {
      var previous := state.searchTerm;
      state := state.(
        searchTerm := "", showDropdown := false, selectedFlight := None,
        filteredAirports := state.airports, flightPaths := []);
      if previous != "" {
        FilterEffect();
      }
    }

    /** `pointsData`: exactly the airports the search keeps, in order. */
    function Points(): (ps: seq<Airport>)
      reads this
      requires Valid()
      ensures ps == VisibleAirports(state.airports, state.searchTerm)
      ensures state.searchTerm == "" ==> ps == state.airports
      ensures forall a :: a in ps ==> a in state.airports
    {
      VisibleAirportsSpec(state.airports, state.searchTerm);
      ShownAirportsAreStored(state.airports, state.searchTerm);
      state.filteredAirports
    }
  }

  /** Typing a term and then pressing Escape brings back every airport and
      closes the dropdown. */
  method SearchThenEscapeShowsAll(data: seq<Airport>, term: string) returns (shown: seq<Airport>, open: bool)
    ensures shown == data
    ensures !open
  {
    var e := new Engine();
    e.AirportsLoaded(data);
    e.SearchChange(term);
    e.ResetToInitialState();
    shown, open := e.Points(), e.state.showDropdown;
  }
}
