# Globe viewer state engine

This project models the client-side state engine of a React globe viewer. The
viewer shows airports and volcanoes as points on a 3D globe and flight routes as
arcs. It lets the user search airports, pick one from a dropdown, click points
and arcs to open detail panels, and press Escape to reset the view. The
repository holds three versions of the engine:

- `src/App.js` is the newest, modelled in module `App`. Volcanoes pulse, a
  volcano click opens a volcano panel, and the search also picks an airline.
- `src/App2.js` is an earlier version, modelled in module `App2`. Volcanoes have
  no pulse flag, and every point click, volcano or not, is handled as an airport
  click.
- `dataset/App1.js` is the first version, modelled in module `App1`. It shows
  airports only, and a keystroke only stores the term.

Shared pieces live in their own modules:

- `Collections`: JavaScript's `null` as `Option`, and `Array.prototype.filter`
  with its order-preserving facts.
- `Text`: ASCII `toLowerCase` and `String.prototype.includes`.
- `Entities`: the served records, the tagged globe points, the camera command,
  and the point merge and colour.
- `Search`: the filter effect's airport test, the keystroke handler's narrower
  test, the dropdown flag and the first-match airline lookup.

Each engine is a class `Engine` with two fields:

- `state` holds the component's React state fields in one record.
- `env` holds what the behaviour depends on besides. This is the values the
  Escape listener closed over when it was last bound, the fetches still in
  flight, and the camera commands sent to the globe.

Most methods are one event each: the constructor (mounting), the fetch
completions, the keystroke, the dropdown pick, the clicks, the close buttons and
the pulse toggle. `FilterEffect` is not an event but the step that ends one. In
App and App2, Escape runs `PressEscape`, and `ResetToInitialState` is the reset
as the current render would run it, the corrected behaviour of the finding
below. In App1, Escape runs `ResetToInitialState` itself. In each event the
handler runs, then the filter effect runs when one of its dependencies changed. `searchTerm` counts as changed when its value
differs. `airports` counts as changed on every assignment, because React
compares arrays by identity. State updates within one event are batched, so the
effect sees the handler's writes.

A fetch is split into its request and its completion. The request is made by
the constructor (start-up fetches) or by a click method, which appends the
requested identifier to `env`. The completion is a pair of methods, `…Loaded`
with the payload and `…Failed`, that the caller may invoke in any order.
Nothing checks whether a completion is stale, so the last completion wins. The
scenario method `LateFlightPathsWin` shows this.

The `Valid()` invariant every method keeps has four parts in App and App2:

- the Escape listener always sees the current airports;
- `routes` and `filteredRoutes` stay empty;
- the visible airports are the filter effect's for the current term;
- the dropdown is only open when that list is non-empty for a non-empty term.

App1 has no listener snapshot and no routes, so its `Valid()` has only the last
two parts.

The keystroke handler of the two newer engines writes its own name-or-code list
first. The filter effect always overwrites it, because a controlled input only
reports a changed value. App1's `SearchChange` also accepts an unchanged term and
then changes nothing; the program never produces that case.

Facts about selection:

- In App, point selection is not exclusive: `selectedAirport` and
  `selectedVolcanoes` are independent fields, and reset keeps both.
- App2 and App1 have a single `selectedAirport`. In App2 a volcano click also
  writes it, because every point click is handled as an airport click.
- In all three engines no control clears `selectedAirport`, and reset keeps it.

## Model

| member | source | states |
|---|---|---|
| Collections.Filter | src/App.js:88-92 | `filter` never lengthens the list, and every element it returns comes from the input and passes the test |
| Text.ToLower | src/App.js:89 | lower-casing keeps the length and lower-cases each character in place |
| Text.IncludesIffOccurs | src/App.js:89 | `includes` holds exactly when the term occurs at some position of the text |
| Text.ToLowerIdempotent | src/App.js:89 | lower-casing an already lower-cased string changes nothing |
| Text.ExactOccurrenceMatches | src/App.js:89-91 | a field that contains the term exactly also contains it ignoring case |
| Text.ContainsItself | src/App.js:138 | every name contains itself ignoring case, which is why a picked airport matches its own name |
| Text.ContainsEmpty | src/App.js:115-117 | every field contains the empty term |
| Entities.FocusOn | src/App.js:140 | the camera command for a pick centres on the airport's latitude and longitude at altitude 2 over 1000 ms |
| Entities.PointsDataSplits | src/App.js:213 | the merged point list holds exactly the visible airports and exactly all volcanoes, each in order, whatever the search found |
| Entities.PointsDataTagsAndColours | src/App.js:213-217 | in the merged list every airport comes first and is tagged `airport` and drawn gold; every volcano follows and is tagged `volcano` and drawn red |
| Search.VisibleAirportsSpec | src/App.js:87-95 | for the empty term the effect keeps every airport; otherwise it keeps, in order, exactly the airports whose lower-cased name, code or city contains the lower-cased term, each as often as it occurs |
| Search.DropdownShownIff | src/App.js:94 | after the effect the dropdown is open exactly when the term is non-empty and some airport matches it |
| Search.VisibleAirportsIgnoresCase | src/App.js:88-92 | two terms that lower-case alike select the same airports |
| Search.ShownAirportsAreStored | src/App.js:87-95 | the visible list the filter effect leaves is an order-preserving sub-list of the stored airports |
| Search.KeystrokeEmptyTermKeepsAll | src/App.js:118-121 | with the empty term the keystroke handler's list is every airport |
| Search.KeystrokeWithinVisible | src/App.js:118-121 | the keystroke handler's name-or-code list is a sub-list of the effect's name-code-or-city list for the same term |
| Search.PickedAirportReopensDropdown | src/App.js:137-141 | a stored airport with a non-empty name matches its own name, so the effect after a pick finds it and opens the dropdown |
| Search.FirstMatchingAirlineSpec | src/App.js:115-130 | the selected airline is null exactly when no airline name contains the term, and otherwise it is the first such airline in list order |
| Search.EmptyTermSelectsFirstAirline | src/App.js:115-124 | an empty term selects the first airline, not null |
| Search.HeathrowByLowerCaseCode | src/App.js:88-94 | searching "lhr" over a list holding only Heathrow (code LHR) finds Heathrow and opens the dropdown |
| App.IngestVolcanoes | src/App.js:64 | ingestion keeps every served volcano record, in order, and sets every volcano pulsing |
| App.WithPulseToggled | src/App.js:98-102 | `togglePulse(i)` keeps the length and every record, and changes a volcano's flag exactly when it stands at `i` |
| App.TogglePulseTwice | src/App.js:98-102 | toggling the same index twice restores the list |
| App.SteadyRadiusIgnoresTick | src/App.js:104-105 | a volcano that does not pulse has a radius that does not depend on the tick |
| App.PulsingRadiusBounds | src/App.js:104-108 | a pulsing volcano's radius stays between 0.7 and 1.3 times `vmag * 0.1` while the factor does, with the ends swapped for a volcano below sea level, whose `vmag` is negative |
| App.AirportRadiusFixed | src/App.js:219 | an airport point is drawn with radius 0.2 |
| App.Engine.constructor | src/App.js:9-21 | every state field starts at its initial value, and the three start-up fetches are outstanding |
| App.Engine.FilterEffect | src/App.js:87-95 | the effect sets the visible airports and the dropdown flag from the term and the airports, and changes nothing else |
| App.Engine.AirportsLoaded | src/App.js:50-59 | the served airports are stored, the effect recomputes the visible ones for the current term, and the Escape listener is re-bound over the current airports and volcanoes |
| App.Engine.AirportsFailed | src/App.js:58 | a failed airports fetch changes no state |
| App.Engine.VolcanoesLoaded | src/App.js:61-70 | the served volcanoes are stored pulsing, and nothing else changes |
| App.Engine.VolcanoesFailed | src/App.js:69 | a failed volcanoes fetch changes no state |
| App.Engine.AirlinesLoaded | src/App.js:78-84 | the served airlines are stored, and nothing else changes |
| App.Engine.AirlinesFailed | src/App.js:83 | a failed airlines fetch changes no state |
| App.Engine.SearchChange | src/App.js:110-133 | a keystroke stores the new term and the first airline whose name contains it, with its (empty) routes. The effect that follows replaces the handler's name-or-code list with the name-code-or-city matches and sets the dropdown |
| App.Engine.SelectAirport | src/App.js:137-141 | a pick sets the term to the airport's name and sends exactly one camera command. The dropdown stays closed unless the name differs from the old term, in which case the effect reopens it when some airport matches |
| App.Engine.TogglePulse | src/App.js:98-102 | the volcano list is replaced by its toggled form, and nothing else changes |
| App.Engine.ClickAirport | src/App.js:145-147 | an airport click selects the airport and requests flight paths for its index |
| App.Engine.FlightPathsLoaded | src/App.js:148-151 | arriving flight paths replace the arcs wholesale, whichever airport is selected now |
| App.Engine.FlightPathsFailed | src/App.js:152 | a failed flight-path fetch leaves the arcs as they were |
| App.Engine.ClickVolcano | src/App.js:155-157 | a volcano click shows the clicked volcano and requests its detail |
| App.Engine.VolcanoDetailLoaded | src/App.js:158-161 | the arriving detail record replaces what the volcano panel shows |
| App.Engine.VolcanoDetailFailed | src/App.js:163 | a failed detail fetch leaves the panel as it was |
| App.Engine.ClickPoint | src/App.js:222-228 | a point click is dispatched on the type tag. An airport changes only the airport selection and its request; a volcano changes only the volcano panel and its request |
| App.Engine.ClickArc | src/App.js:237 | an arc click selects that arc, and nothing else changes |
| App.Engine.CloseFlightDetails | src/App.js:284 | the flight panel's close button clears the selected arc, and nothing else changes |
| App.Engine.CloseVolcanoDetails | src/App.js:340 | the volcano panel's close button clears it, and nothing else changes |
| App.Engine.ResetToInitialState | src/App.js:22-29 | reset clears the term, the dropdown, the selected arc and the arcs, and shows every airport. It keeps the volcanoes and both point selections |
| App.Engine.PressEscape | src/App.js:32-46 | Escape runs the reset captured when the airports last changed, so the volcanoes revert to the list of that moment |
| App.Engine.Points | src/App.js:213 | the points are exactly the merge of the search result for the current term followed by every volcano, and every airport shown is a stored one |
| App.LateVolcanoesLostOnEscape | src/App.js:27 | volcanoes that arrive after the airports are shown and then wiped by the next Escape |
| App.LateVolcanoesKeptOnReset | src/App.js:22-29 | after the same events, the current render's reset keeps those volcanoes |
| App.LateFlightPathsWin | src/App.js:145-153 | when an earlier click's flight paths arrive last, they are shown for the later selection |
| App.PickReopensDropdown | src/App.js:137-141 | picking a stored airport with a non-empty name leaves the dropdown open and sends one camera command centred on it |
| App.ClearedSearchSelectsFirstAirline | src/App.js:115-124 | clearing the search box with airlines loaded selects the first airline |
| App2.PointRadiusSpec | src/App2.js:196 | airports are drawn with radius 0.2 and volcanoes with `vmag / 5`, so a volcano matches an airport's size exactly when its magnitude is 1 |
| App2.Engine.constructor | src/App2.js:9-20 | every state field starts at its initial value, and the three start-up fetches are outstanding |
| App2.Engine.FilterEffect | src/App2.js:85-93 | the effect sets the visible airports and the dropdown flag from the term and the airports, and changes nothing else |
| App2.Engine.AirportsLoaded | src/App2.js:49-58 | the served airports are stored, the effect recomputes the visible ones, and the Escape listener is re-bound |
| App2.Engine.AirportsFailed | src/App2.js:57 | a failed airports fetch changes no state |
| App2.Engine.VolcanoesLoaded | src/App2.js:60-69 | the served volcanoes are stored unchanged, with no pulse flag |
| App2.Engine.VolcanoesFailed | src/App2.js:68 | a failed volcanoes fetch changes no state |
| App2.Engine.AirlinesLoaded | src/App2.js:76-82 | the served airlines are stored, and nothing else changes |
| App2.Engine.AirlinesFailed | src/App2.js:81 | a failed airlines fetch changes no state |
| App2.Engine.SearchChange | src/App2.js:97-120 | a keystroke stores the new term and the first matching airline with its (empty) routes. The effect that follows replaces the handler's name-or-code list with the name-code-or-city matches and sets the dropdown |
| App2.Engine.SelectAirport | src/App2.js:124-128 | a pick sets the term to the airport's name and sends exactly one camera command at altitude 2 over 1000 ms. The dropdown is reopened only by the effect |
| App2.Engine.ClickPoint | src/App2.js:132-140 | any clicked point, volcano included, becomes the selected airport, and flight paths are requested for its index |
| App2.Engine.FlightPathsLoaded | src/App2.js:134-138 | arriving flight paths replace the arcs wholesale |
| App2.Engine.FlightPathsFailed | src/App2.js:139 | a failed flight-path fetch leaves the arcs as they were |
| App2.Engine.ClickArc | src/App2.js:206 | an arc click selects that arc, and nothing else changes |
| App2.Engine.CloseFlightDetails | src/App2.js:245 | the close button clears the selected arc, and nothing else changes |
| App2.Engine.ResetToInitialState | src/App2.js:21-28 | reset clears the term, the dropdown, the selected arc and the arcs, and shows every airport. It keeps the volcanoes and the selected point |
| App2.Engine.PressEscape | src/App2.js:31-45 | Escape runs the reset captured when the airports last changed, so the volcanoes revert to the list of that moment |
| App2.Engine.Points | src/App2.js:189 | the points are exactly the merge of the search result for the current term followed by every volcano, and every airport shown is a stored one |
| App2.VolcanoClickSelectsAirport | src/App2.js:197 | clicking a volcano makes it the selected airport and requests flight paths for the volcano's index |
| App2.LateVolcanoesLostOnEscape | src/App2.js:26 | volcanoes that arrive after the airports are wiped by the next Escape |
| App2.LateVolcanoesKeptOnReset | src/App2.js:21-28 | after the same events, the current render's reset keeps those volcanoes |
| App1.Engine.constructor | dataset/App1.js:9-15 | every state field starts at its initial value, and the airports fetch is outstanding |
| App1.Engine.FilterEffect | dataset/App1.js:56-64 | the effect sets the visible airports and the dropdown flag from the term and the airports, and changes nothing else |
| App1.Engine.AirportsLoaded | dataset/App1.js:44-52 | the served airports are stored as served, and the effect recomputes the visible ones |
| App1.Engine.AirportsFailed | dataset/App1.js:51 | a failed airports fetch changes no state |
| App1.Engine.SearchChange | dataset/App1.js:66-68 | a keystroke changes only the term; the visible airports and the dropdown then come from the effect alone. An unchanged term changes nothing, a case a controlled input never reports |
| App1.Engine.SelectAirport | dataset/App1.js:70-74 | a pick sets the term to the airport's name and sends exactly one camera command. The dropdown is reopened only when the name differs from the old term |
| App1.Engine.ClickAirport | dataset/App1.js:76-77 | an airport click selects the airport and requests its flight paths |
| App1.Engine.FlightPathsLoaded | dataset/App1.js:78-82 | arriving flight paths replace the arcs wholesale |
| App1.Engine.FlightPathsFailed | dataset/App1.js:83 | a failed flight-path fetch leaves the arcs as they were |
| App1.Engine.ClickArc | dataset/App1.js:147 | an arc click selects that arc, and nothing else changes |
| App1.Engine.CloseFlightDetails | dataset/App1.js:186 | the close button clears the selected arc, and nothing else changes |
| App1.Engine.ResetToInitialState | dataset/App1.js:17-23 | reset, which Escape runs, clears the term, the dropdown, the selected arc and the arcs, and shows every airport |
| App1.Engine.Points | dataset/App1.js:132 | the rendered points are exactly the airports the search keeps, in order, and every airport when the term is empty |
| App1.SearchThenEscapeShowsAll | dataset/App1.js:26-40 | after any search, Escape brings back every airport and closes the dropdown |

## Left out

- `app.py`, the Flask back end, is not part of this model. It covers HTTP routing, pandas CSV loading and a matplotlib colour map.
- Network requests, JSON parsing and `console` logging are not modelled. Each request appears only as an identifier appended to `env`, and its outcome as a completion method.
- The logging effects (src/App.js:73-76, src/App2.js:71-74) only print, so they are left out.
- App.Engine.SearchChange requires a term different from the current one, because React fires a controlled input's `onChange` only when its value changed (src/App.js:169-172).
- App2.Engine.SearchChange requires a term different from the current one for the same reason (src/App2.js:145-148).
- App.PulseRadius: the factor `1 + 0.3 * Math.sin(tick / 120)` is a parameter `scale`, because the sine is transcendental floating point. The only call site passes the constant tick 90.
- App.PointRadius: takes the same `scale` in place of the tick.
- Latitudes, longitudes, magnitudes and radii are exact reals, not IEEE doubles.
- `toLowerCase` is modelled for ASCII only; Unicode case mapping is not modelled.
- JSX layout, the MUI cards, framer-motion animation, HTML label templates and react-globe.gl internals are not modelled. `pointOfView` is recorded only as an emitted camera command.
- Registering and removing the keydown listener is not modelled. Its closure is the pair `listenerAirports`/`listenerVolcanoes`, re-bound whenever `airports` is assigned. App1's closure reads only `airports`, which is always current, so Escape there is `ResetToInitialState` itself.
- Any key other than Escape is not modelled, because the listener ignores it.
- The `type` field spread into each record is the `Point` constructor. In App.js the `pulse` field is a separate `Volcano` wrapper around the served record.
- Each start-up fetch runs once, because its effect has no dependencies. It is an "in flight" flag whose completion clears it, so a second completion cannot be expressed.
- App.Engine.SelectAirport, App2.Engine.SelectAirport and App1.Engine.SelectAirport accept any airport, not only one shown in the dropdown, because the handler itself does not check.
- The served airline records carry `index` while the handler reads `id`. This has no effect because `routes` is never assigned, so `filteredRoutes` is always empty.
- `togglePulse` is defined in src/App.js but no element calls it. It is modelled as an event anyway.
- React 17's unbatched updates outside event handlers are not modelled. Every event applies its writes together, then the effect.

## Findings

| source | as written | input that shows it | evidently intended | confidence | as-written member | corrected member |
|---|---|---|---|---|---|---|
| src/App.js:27 | the Escape listener is re-bound only when `airports` changes, so its `setVolcanoes(volcanoes)` writes back the volcanoes of that render | airports fetch completes, then volcanoes fetch completes, then Escape: the volcanoes disappear | reset keeps the current volcanoes | high (not executed) | App.LateVolcanoesLostOnEscape | App.Engine.ResetToInitialState |
| src/App2.js:26 | the same stale `setVolcanoes(volcanoes)` in the Escape listener bound on `[airports]` | airports fetch completes, then volcanoes fetch completes, then Escape: the volcanoes disappear | reset keeps the current volcanoes | high (not executed) | App2.LateVolcanoesLostOnEscape | App2.Engine.ResetToInitialState |
