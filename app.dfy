/** The newest engine (src/App.js): airports and volcanoes on one globe, a
    search over airports and airlines, airport and volcano detail fetched on
    click, a flight detail panel, and an Escape key that resets the view. */
module App {
  import opened Collections
  import opened Entities
  import opened Search

  /** The served records of a list of ingested volcanoes. */
  function RecordsOf(vs: seq<Volcano>): seq<VolcanoRecord>
  {
    seq(|vs|, i requires 0 <= i < |vs| => vs[i].record)
  }

  /** `{...volcano, pulse: true, type: 'volcano'}` for every served volcano:
      stripping the flag gives back what was served, and every volcano pulses. */
  function IngestVolcanoes(data: seq<VolcanoRecord>): (vs: seq<Volcano>)
    ensures RecordsOf(vs) == data
    ensures forall v :: v in vs ==> v.pulse
  {
    seq(|data|, i requires 0 <= i < |data| => Volcano(data[i], true))
  }

  /** `togglePulse(index)`: the list keeps its length and its records, and a
      volcano's flag changes exactly when it stands at `index`. */
  function WithPulseToggled(vs: seq<Volcano>, index: int): (r: seq<Volcano>)
    ensures |r| == |vs| && RecordsOf(r) == RecordsOf(vs)
    ensures forall i :: 0 <= i < |vs| ==> (r[i].pulse != vs[i].pulse <==> i == index)
  {
    seq(|vs|, i requires 0 <= i < |vs| => if i == index then vs[i].(pulse := !vs[i].pulse) else vs[i])
  }

  /** Toggling the same volcano twice restores the list. */
  lemma TogglePulseTwice(vs: seq<Volcano>, index: int)
    ensures WithPulseToggled(WithPulseToggled(vs, index), index) == vs
  {
    var r := WithPulseToggled(WithPulseToggled(vs, index), index);
    forall i | 0 <= i < |vs| ensures r[i] == vs[i] {
      assert r[i].record == RecordsOf(r)[i];
    }
  }

  /** `calculatePulseRadius(volcano, tick)`. The sine is not modelled: `scale`
      stands for `1 + 0.3 * Math.sin(tick / 120)` at the caller's tick. */
  function PulseRadius(v: Volcano, scale: real): real
  {
    if !v.pulse then v.record.vmag * 0.1 else v.record.vmag * 0.1 * scale
  }

  /** `pointRadius`: the fixed airport radius, or the volcano's pulse radius at
      the constant tick the globe is given (`scale` as for `PulseRadius`). */
  function PointRadius(p: Point<Volcano>, scale: real): real
  {
    if TypeTag(p) == "volcano" then PulseRadius(p.volcano, scale) else AirportRadius
  }

  /** A volcano that does not pulse has a radius independent of the tick. */
  lemma SteadyRadiusIgnoresTick(v: Volcano, scale1: real, scale2: real)
    requires !v.pulse
    ensures PulseRadius(v, scale1) == PulseRadius(v, scale2)
  {
  }

  /** A pulsing volcano's radius stays within 30% of its base radius
      `vmag * 0.1` while the factor stays within 0.7 and 1.3. The base is
      negative for a volcano below sea level (the served `vmag` is its
      elevation over 500), and then the bounds swap ends. */
  lemma PulsingRadiusBounds(v: Volcano, scale: real)
    requires v.pulse && 0.7 <= scale <= 1.3
    ensures var base := v.record.vmag * 0.1;
      base >= 0.0 ==> 0.7 * base <= PulseRadius(v, scale) <= 1.3 * base
    ensures var base := v.record.vmag * 0.1;
      base < 0.0 ==> 1.3 * base <= PulseRadius(v, scale) <= 0.7 * base
  {
    var base := v.record.vmag * 0.1;
    if base >= 0.0 {
      ProductOfNonNegatives(base, scale - 0.7);
      ProductOfNonNegatives(base, 1.3 - scale);
      assert base * (scale - 0.7) == base * scale - base * 0.7;
      assert base * (1.3 - scale) == base * 1.3 - base * scale;
    } else {
      ProductOfNonNegatives(-base, scale - 0.7);
      ProductOfNonNegatives(-base, 1.3 - scale);
      assert (-base) * (scale - 0.7) == base * 0.7 - base * scale;
      assert (-base) * (1.3 - scale) == base * scale - base * 1.3;
    }
  }

  /** The product of two non-negative reals is non-negative. */
  lemma ProductOfNonNegatives(x: real, y: real)
    requires x >= 0.0 && y >= 0.0
    ensures x * y >= 0.0
  {
  }

  /** Airports are drawn with the fixed radius 0.2 whatever the tick. */
  lemma AirportRadiusFixed(a: Airport, scale: real)
    ensures PointRadius(AirportPoint(a), scale) == 0.2
  {
  }

  /** The component's React state fields. */
  datatype EngineState = EngineState(
    airports: seq<Airport>,
    filteredAirports: seq<Airport>,
    flightPaths: seq<FlightPath>,
    selectedAirport: Option<Airport>,
    selectedFlight: Option<FlightPath>,
    filteredRoutes: seq<Route>,
    searchTerm: string,
    showDropdown: bool,
    airlines: seq<Airline>,
    selectedAirline: Option<Airline>,
    routes: seq<Route>,
    volcanoes: seq<Volcano>,
    selectedVolcanoes: Option<VolcanoPanel>)

  /** What the component's behaviour depends on outside its state: the values
      the Escape listener closed over when it was last bound, the start-up
      fetches still in flight, the identifiers of the click fetches still in
      flight (flight paths by airport, detail by volcano), and the camera
      commands sent to the globe so far. */
  datatype Surroundings = Surroundings(
    listenerAirports: seq<Airport>,
    listenerVolcanoes: seq<Volcano>,
    airportsFetch: bool,
    volcanoesFetch: bool,
    airlinesFetch: bool,
    flightRequests: seq<int>,
    volcanoRequests: seq<int>,
    camera: seq<CameraCommand>)

  /** The component. `state` holds its React state, `env` what its behaviour
      depends on besides. Each method is one event: its handler, then the
      filter effect when one of its dependencies (`searchTerm` by value,
      `airports` by identity) changed. */
  class Engine {
    var state: EngineState
    var env: Surroundings

    /** The listener is re-bound whenever `airports` changes, so it never sees
        stale airports; `routes` is never assigned, so no routes are ever
        selected; the visible airports are the filter effect's for the current
        term, and the dropdown is only open when that list is non-empty for a
        non-empty term. */
    ghost predicate Valid()
      reads this
    {
      && env.listenerAirports == state.airports
      && state.routes == [] && state.filteredRoutes == []
      && state.filteredAirports == VisibleAirports(state.airports, state.searchTerm)
      && (state.showDropdown ==> DropdownShown(state.searchTerm, state.filteredAirports))
    }

    /** Mounting: every field at its initial value, the filter effect's first
        run (which changes nothing), the listener bound over the empty lists,
        and the three start-up fetches sent. */
    constructor ()
      ensures Valid()
      ensures state == EngineState([], [], [], None, None, [], "", false, [], None, [], [], None)
      ensures env == Surroundings([], [], true, true, true, [], [], [])
    {
      state := EngineState([], [], [], None, None, [], "", false, [], None, [], [], None);
      env := Surroundings([], [], true, true, true, [], [], []);
    }

    /** The filter effect: the visible airports and the dropdown flag are
        re-derived from the term and the airports; nothing else changes. */
    method FilterEffect()
      modifies this
      ensures state == old(state).(
        filteredAirports := VisibleAirports(old(state.airports), old(state.searchTerm)),
        showDropdown := DropdownShown(old(state.searchTerm), VisibleAirports(old(state.airports), old(state.searchTerm))))
      ensures env == old(env)
    {
      var results := VisibleAirports(state.airports, state.searchTerm);
      state := state.(filteredAirports := results, showDropdown := state.searchTerm != "" && |results| > 0);
    }

    /** The airports fetch succeeds: the airports are stored (the filter
        effect then recomputes the visible ones for the current term) and the
        Escape listener is re-bound over the current airports and volcanoes. */
    method AirportsLoaded(data: seq<Airport>)
      requires Valid() && env.airportsFetch
      modifies this
      ensures Valid()
      ensures state == old(state).(
        airports := data,
        filteredAirports := VisibleAirports(data, old(state.searchTerm)),
        showDropdown := DropdownShown(old(state.searchTerm), VisibleAirports(data, old(state.searchTerm))))
      ensures env == old(env).(listenerAirports := data, listenerVolcanoes := old(state.volcanoes), airportsFetch := false)
    {
      state := state.(airports := data, filteredAirports := data);
      FilterEffect();
      env := env.(listenerAirports := state.airports, listenerVolcanoes := state.volcanoes, airportsFetch := false);
    }

    /** The airports fetch fails: the error is logged and no state changes. */
    method AirportsFailed()
      requires Valid() && env.airportsFetch
      modifies this
      ensures Valid()
      ensures state == old(state)
      ensures env == old(env).(airportsFetch := false)
    {
      env := env.(airportsFetch := false);
    }

    /** The volcanoes fetch succeeds: every volcano is stored pulsing. The
        filter effect and the listener do not depend on volcanoes. */
    method VolcanoesLoaded(data: seq<VolcanoRecord>)
      requires Valid() && env.volcanoesFetch
      modifies this
      ensures Valid()
      ensures state == old(state).(volcanoes := IngestVolcanoes(data))
      ensures env == old(env).(volcanoesFetch := false)
    {
      state := state.(volcanoes := IngestVolcanoes(data));
      env := env.(volcanoesFetch := false);
    }

    /** The volcanoes fetch fails: the error is logged and no state changes. */
    method VolcanoesFailed()
      requires Valid() && env.volcanoesFetch
      modifies this
      ensures Valid()
      ensures state == old(state)
      ensures env == old(env).(volcanoesFetch := false)
    {
      env := env.(volcanoesFetch := false);
    }

    /** The airlines fetch succeeds: the airlines are stored as served. */
    method AirlinesLoaded(data: seq<Airline>)
      requires Valid() && env.airlinesFetch
      modifies this
      ensures Valid()
      ensures state == old(state).(airlines := data)
      ensures env == old(env).(airlinesFetch := false)
    {
      state := state.(airlines := data);
      env := env.(airlinesFetch := false);
    }

    /** The airlines fetch fails: the error is logged and no state changes. */
    method AirlinesFailed()
      requires Valid() && env.airlinesFetch
      modifies this
      ensures Valid()
      ensures state == old(state)
      ensures env == old(env).(airlinesFetch := false)
    {
      env := env.(airlinesFetch := false);
    }

    /** A keystroke. The handler stores the term, selects the first airline
        whose name contains it (an empty term selects the first airline), stores
        that airline's routes (always none) and the airports whose name or code
        contains it. A controlled input only reports a changed value, so the
        filter effect always follows and overwrites the airports with those
        matching by name, code or city, and sets the dropdown. */
    method SearchChange(value: string)
      requires Valid() && value != state.searchTerm
      modifies this
      ensures Valid()
      ensures state == old(state).(
        searchTerm := value,
        selectedAirline := FirstMatchingAirline(old(state.airlines), value),
        filteredRoutes := MatchedRoutes(old(state.routes), FirstMatchingAirline(old(state.airlines), value)),
        filteredAirports := VisibleAirports(old(state.airports), value),
        showDropdown := DropdownShown(value, VisibleAirports(old(state.airports), value)))
      ensures state.filteredRoutes == []
      ensures env == old(env)
    {
      var matched := FirstMatchingAirline(state.airlines, value);
      state := state.(
        searchTerm := value,
        selectedAirline := matched,
        filteredRoutes := MatchedRoutes(state.routes, matched),
        filteredAirports := KeystrokeAirports(state.airports, value));
      FilterEffect();
    }

    /** A dropdown pick: the term becomes the airport's name, the dropdown
        closes and one camera command centres the globe on the airport. When
        the name differs from the previous term the filter effect runs and
        reopens the dropdown whenever some airport matches. */
    method SelectAirport(a: Airport)
      requires Valid()
      modifies this
      ensures Valid()
      ensures var effectRan := a.name != old(state.searchTerm);
        state == old(state).(
          searchTerm := a.name,
          filteredAirports := if effectRan then VisibleAirports(old(state.airports), a.name) else old(state.filteredAirports),
          showDropdown := effectRan && DropdownShown(a.name, VisibleAirports(old(state.airports), a.name)))
      ensures env == old(env).(camera := old(env.camera) + [FocusOn(a)])
    {
      var previous := state.searchTerm;
      state := state.(searchTerm := a.name, showDropdown := false);
      env := env.(camera := env.camera + [FocusOn(a)]);
      if a.name != previous {
        FilterEffect();
      }
    }

    /** `togglePulse(index)` on the current volcanoes. */
    method TogglePulse(index: int)
      requires Valid()
      modifies this
      ensures Valid()
      ensures state == old(state).(volcanoes := WithPulseToggled(old(state.volcanoes), index))
      ensures env == old(env)
    {
      state := state.(volcanoes := WithPulseToggled(state.volcanoes, index));
    }

    /** An airport click: the airport is selected and its flight paths are requested. */
    method ClickAirport(a: Airport)
      requires Valid()
      modifies this
      ensures Valid()
      ensures state == old(state).(selectedAirport := Some(a))
      ensures env == old(env).(flightRequests := old(env.flightRequests) + [a.index])
    {
      state := state.(selectedAirport := Some(a));
      env := env.(flightRequests := env.flightRequests + [a.index]);
    }

    /** Flight paths arrive for the `k`-th outstanding request: they replace the
        arcs wholesale, whichever airport is selected now. */
    method FlightPathsLoaded(k: nat, data: seq<FlightPath>)
      requires Valid() && k < |env.flightRequests|
      modifies this
      ensures Valid()
      ensures state == old(state).(flightPaths := data)
      ensures env == old(env).(flightRequests := RemoveAt(old(env.flightRequests), k))
    {
      state := state.(flightPaths := data);
      env := env.(flightRequests := RemoveAt(env.flightRequests, k));
    }

    /** The `k`-th outstanding flight-path request fails: the arcs stay as they were. */
    method FlightPathsFailed(k: nat)
      requires Valid() && k < |env.flightRequests|
      modifies this
      ensures Valid()
      ensures state == old(state)
      ensures env == old(env).(flightRequests := RemoveAt(old(env.flightRequests), k))
    {
      env := env.(flightRequests := RemoveAt(env.flightRequests, k));
    }

    /** A volcano click: the clicked volcano is shown and its detail requested. */
    method ClickVolcano(v: Volcano)
      requires Valid()
      modifies this
      ensures Valid()
      ensures state == old(state).(selectedVolcanoes := Some(Summary(v)))
      ensures env == old(env).(volcanoRequests := old(env.volcanoRequests) + [v.record.index])
    {
      state := state.(selectedVolcanoes := Some(Summary(v)));
      env := env.(volcanoRequests := env.volcanoRequests + [v.record.index]);
    }

    /** The detail of the `k`-th outstanding request replaces what the volcano
        panel shows, whichever volcano is shown now. */
    method VolcanoDetailLoaded(k: nat, detail: VolcanoDetail)
      requires Valid() && k < |env.volcanoRequests|
      modifies this
      ensures Valid()
      ensures state == old(state).(selectedVolcanoes := Some(Detail(detail)))
      ensures env == old(env).(volcanoRequests := RemoveAt(old(env.volcanoRequests), k))
    {
      state := state.(selectedVolcanoes := Some(Detail(detail)));
      env := env.(volcanoRequests := RemoveAt(env.volcanoRequests, k));
    }

    /** The `k`-th outstanding detail request fails: the panel stays as it was. */
    method VolcanoDetailFailed(k: nat)
      requires Valid() && k < |env.volcanoRequests|
      modifies this
      ensures Valid()
      ensures state == old(state)
      ensures env == old(env).(volcanoRequests := RemoveAt(old(env.volcanoRequests), k))
    {
      env := env.(volcanoRequests := RemoveAt(env.volcanoRequests, k));
    }

    /** A point click, dispatched on the point's type tag. Selecting an airport
        leaves the volcano panel alone and the other way round. */
    method ClickPoint(p: Point<Volcano>)
      requires Valid()
      modifies this
      ensures Valid()
      ensures p.AirportPoint? ==>
        state == old(state).(selectedAirport := Some(p.airport)) &&
        env == old(env).(flightRequests := old(env.flightRequests) + [p.airport.index])
      ensures p.VolcanoPoint? ==>
        state == old(state).(selectedVolcanoes := Some(Summary(p.volcano))) &&
        env == old(env).(volcanoRequests := old(env.volcanoRequests) + [p.volcano.record.index])
    {
      if TypeTag(p) == "airport" {
        ClickAirport(p.airport);
      } else if TypeTag(p) == "volcano" {
        ClickVolcano(p.volcano);
      }
    }

    /** An arc click opens the flight panel on that arc; nothing else changes. */
    method ClickArc(arc: FlightPath)
      requires Valid()
      modifies this
      ensures Valid()
      ensures state == old(state).(selectedFlight := Some(arc))
      ensures env == old(env)
    {
      state := state.(selectedFlight := Some(arc));
    }

    /** The flight panel's close button; nothing else changes. */
    method CloseFlightDetails()
      requires Valid()
      modifies this
      ensures Valid()
      ensures state == old(state).(selectedFlight := None)
      ensures env == old(env)
    {
      state := state.(selectedFlight := None);
    }

    /** The volcano panel's close button; nothing else changes. */
    method CloseVolcanoDetails()
      requires Valid()
      modifies this
      ensures Valid()
      ensures state == old(state).(selectedVolcanoes := None)
      ensures env == old(env)
    {
      state := state.(selectedVolcanoes := None);
    }

    /** `resetToInitialState` as the current render defines it: the term, the
        dropdown, the flight panel and the arcs are cleared and every airport is
        visible; the volcanoes and both point selections are kept. */
    method ResetToInitialState()
      requires Valid()
      modifies this
      ensures Valid()
      ensures state == old(state).(
        searchTerm := "", showDropdown := false, selectedFlight := None,
        filteredAirports := old(state.airports), flightPaths := [])
      ensures env == old(env)
    {
      var previous := state.searchTerm;
      state := state.(
        searchTerm := "", showDropdown := false, selectedFlight := None,
        filteredAirports := state.airports, volcanoes := state.volcanoes, flightPaths := []);
      if previous != "" {
        FilterEffect();
      }
    }

    /** The Escape key. The listener runs the reset of the render in which it
        was bound, so the volcanoes are set back to the list of that render. */
    method PressEscape()
      requires Valid()
      modifies this
      ensures Valid()
      ensures state == old(state).(
        searchTerm := "", showDropdown := false, selectedFlight := None,
        filteredAirports := old(state.airports), volcanoes := old(env.listenerVolcanoes), flightPaths := [])
      ensures env == old(env)
    {
      var previous := state.searchTerm;
      state := state.(
        searchTerm := "", showDropdown := false, selectedFlight := None,
        filteredAirports := env.listenerAirports, volcanoes := env.listenerVolcanoes, flightPaths := []);
      if previous != "" {
        FilterEffect();
      }
    }

    /** `pointsData`: the visible airports, then every volcano whatever the
        search; the airports shown are the search result for the current term,
        all of them stored. */
    function Points(): (ps: seq<Point<Volcano>>)
      reads this
      requires Valid()
      ensures ps == PointsData(VisibleAirports(state.airports, state.searchTerm), state.volcanoes)
      ensures AirportsOf(ps) == VisibleAirports(state.airports, state.searchTerm)
      ensures VolcanoesOf(ps) == state.volcanoes
      ensures forall a :: a in AirportsOf(ps) ==> a in state.airports
    {
      PointsDataSplits(state.filteredAirports, state.volcanoes);
      ShownAirportsAreStored(state.airports, state.searchTerm);
      PointsData(state.filteredAirports, state.volcanoes)
    }
  }

  /** Volcanoes that arrive after the airports are wiped by the next Escape: the
      listener was bound when the airports arrived, over an empty volcano list. */
  method LateVolcanoesLostOnEscape(a: Airport, v: VolcanoRecord)
    returns (shown: seq<Volcano>, afterEscape: seq<Volcano>)
    ensures shown == [Volcano(v, true)]
    ensures afterEscape == []
  {
    var e := new Engine();
    e.AirportsLoaded([a]);
    e.VolcanoesLoaded([v]);
    shown := e.state.volcanoes;
    e.PressEscape();
    afterEscape := e.state.volcanoes;
  }

  /** The same events with the reset of the current render keep the volcanoes. */
  method LateVolcanoesKeptOnReset(a: Airport, v: VolcanoRecord)
    returns (shown: seq<Volcano>, afterReset: seq<Volcano>)
    ensures shown == [Volcano(v, true)]
    ensures afterReset == shown
  {
    var e := new Engine();
    e.AirportsLoaded([a]);
    e.VolcanoesLoaded([v]);
    shown := e.state.volcanoes;
    e.ResetToInitialState();
    afterReset := e.state.volcanoes;
  }

  /** No fetch is cancelled or checked for staleness: when the flight paths of
      an earlier click arrive last, they are shown for the later selection. */
  method LateFlightPathsWin(a: Airport, b: Airport, pathsA: seq<FlightPath>, pathsB: seq<FlightPath>)
    returns (selected: Option<Airport>, arcs: seq<FlightPath>)
    ensures selected == Some(b)
    ensures arcs == pathsA
  {
    var e := new Engine();
    e.ClickAirport(a);
    e.ClickAirport(b);
    e.FlightPathsLoaded(1, pathsB);
    e.FlightPathsLoaded(0, pathsA);
    selected, arcs := e.state.selectedAirport, e.state.flightPaths;
  }

  /** Picking a stored airport with a non-empty name from the dropdown closes
      the dropdown, and the filter effect that follows opens it again. */
  method PickReopensDropdown(data: seq<Airport>, a: Airport) returns (open: bool, focus: seq<CameraCommand>)
    requires a in data && a.name != ""
    ensures open
    ensures focus == [PointOfView(a.lat, a.lng, 2.0, 1000)]
  {
    var e := new Engine();
    e.AirportsLoaded(data);
    e.SelectAirport(a);
    PickedAirportReopensDropdown(data, a);
    open, focus := e.state.showDropdown, e.env.camera;
  }

  /** Clearing the search box with airlines loaded selects the first airline. */
  method ClearedSearchSelectsFirstAirline(data: seq<Airline>) returns (selected: Option<Airline>)
    requires data != []
    ensures selected == Some(data[0])
  {
    var e := new Engine();
    e.AirlinesLoaded(data);
    e.SearchChange("x");
    e.SearchChange("");
    EmptyTermSelectsFirstAirline(data);
    selected := e.state.selectedAirline;
  }
}
