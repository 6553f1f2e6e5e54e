/** The search shared by the three engines: which airports the filter effect
    keeps for a term, which ones the newer engines' keystroke handler keeps,
    whether the dropdown opens, and which airline a keystroke selects. */
module Search {
  import opened Collections
  import opened Text
  import opened Entities

  /** The filter effect's test: the lower-cased name, code or city of the
      airport contains the lower-cased term. */
  predicate AirportMatches(a: Airport, term: string)
  {
    ContainsIgnoringCase(a.name, term) || ContainsIgnoringCase(a.code, term) || ContainsIgnoringCase(a.city, term)
  }

  /** The keystroke handler's test, which leaves the city out. */
  predicate AirportMatchesNameOrCode(a: Airport, term: string)
  {
    ContainsIgnoringCase(a.name, term) || ContainsIgnoringCase(a.code, term)
  }

  /** The keystroke handler's airline test on the airline's name. */
  predicate AirlineMatches(al: Airline, term: string)
  {
    ContainsIgnoringCase(al.name, term)
  }

  function MatchesTerm(term: string): Airport -> bool
  {
    a => AirportMatches(a, term)
  }

  function MatchesNameOrCode(term: string): Airport -> bool
  {
    a => AirportMatchesNameOrCode(a, term)
  }

  function MatchesAirlineName(term: string): Airline -> bool
  {
    al => AirlineMatches(al, term)
  }

  function BelongsTo(airlineId: int): Route -> bool
  {
    (r: Route) => r.airlineId == airlineId
  }

  /** What the filter effect stores in `filteredAirports`:
      `searchTerm ? airports.filter(...) : airports`. */
  function VisibleAirports(airports: seq<Airport>, term: string): seq<Airport>
  {
    if term == "" then airports else Filter(MatchesTerm(term), airports)
  }

  /** The `matchedAirports` a keystroke handler computes before the effect runs. */
  function KeystrokeAirports(airports: seq<Airport>, term: string): seq<Airport>
  {
    Filter(MatchesNameOrCode(term), airports)
  }

  /** `searchTerm !== '' && results.length > 0`. */
  predicate DropdownShown(term: string, results: seq<Airport>)
  {
    term != "" && |results| > 0
  }

  /** `matchedAirlines[0]` when some airline matches, else `null`. */
  function FirstMatchingAirline(airlines: seq<Airline>, term: string): Option<Airline>
  {
    var matched := Filter(MatchesAirlineName(term), airlines);
    if |matched| > 0 then Some(matched[0]) else None
  }

  /** The routes stored for the selected airline: those whose airline identifier
      is the airline's, or none when no airline matched. */
  function MatchedRoutes(routes: seq<Route>, selected: Option<Airline>): seq<Route>
  {
    match selected
    case None => []
    case Some(al) => Filter(BelongsTo(al.id), routes)
  }

  /** The filter effect's result. With the empty term it is the whole list.
      Otherwise it keeps, in their original order, exactly the airports whose
      name, code or city contains the term: each matching airport as often as
      it occurs in the list, no other airport at all. */
  lemma VisibleAirportsSpec(airports: seq<Airport>, term: string)
    ensures term == "" ==> VisibleAirports(airports, term) == airports
    ensures IsSubsequence(VisibleAirports(airports, term), airports)
    ensures term != "" ==> forall a :: a in VisibleAirports(airports, term) <==> a in airports && AirportMatches(a, term)
    ensures term != "" ==> forall a :: multiset(VisibleAirports(airports, term))[a] ==
                                   if AirportMatches(a, term) then multiset(airports)[a] else 0
  {
    if term == "" {
      SubsequenceOfItself(airports);
    } else {
      FilterIsSubsequence(MatchesTerm(term), airports);
      forall a ensures a in VisibleAirports(airports, term) <==> a in airports && AirportMatches(a, term) {
        FilterMembership(MatchesTerm(term), airports, a);
      }
      forall a ensures multiset(VisibleAirports(airports, term))[a] ==
        if AirportMatches(a, term) then multiset(airports)[a] else 0
      {
        FilterCounts(MatchesTerm(term), airports, a);
      }
    }
  }

  /** The list of visible airports, as the filter effect leaves it, is a
      sub-list of the stored airports. */
  lemma ShownAirportsAreStored(airports: seq<Airport>, term: string)
    ensures IsSubsequence(VisibleAirports(airports, term), airports)
    ensures forall a :: a in VisibleAirports(airports, term) ==> a in airports
  {
    VisibleAirportsSpec(airports, term);
    forall a | a in VisibleAirports(airports, term) ensures a in airports {
      SubsequenceMembers(VisibleAirports(airports, term), airports, a);
    }
  }

  /** The dropdown opens exactly when the term is non-empty and some airport's
      name, code or city contains it. */
  lemma DropdownShownIff(airports: seq<Airport>, term: string)
    ensures DropdownShown(term, VisibleAirports(airports, term)) <==>
      term != "" && exists a :: a in airports && AirportMatches(a, term)
  {
    if term != "" {
      FilterEmptyIff(MatchesTerm(term), airports);
    }
  }

  /** The search ignores case: terms that lower-case alike give the same airports. */
  lemma VisibleAirportsIgnoresCase(airports: seq<Airport>, t1: string, t2: string)
    requires ToLower(t1) == ToLower(t2)
    ensures VisibleAirports(airports, t1) == VisibleAirports(airports, t2)
  {
    assert |t1| == |t2|;
    FilterCongruent(MatchesTerm(t1), MatchesTerm(t2), airports);
  }

  /** With the empty term the keystroke handler also keeps every airport. */
  lemma KeystrokeEmptyTermKeepsAll(airports: seq<Airport>)
    ensures KeystrokeAirports(airports, "") == airports
  {
    forall a | a in airports ensures MatchesNameOrCode("")(a) {
      ContainsEmpty(a.name);
    }
    FilterAllPass(MatchesNameOrCode(""), airports);
  }

  /** The keystroke handler's list is a sub-list of the filter effect's: the
      effect can only add airports, those that match by city alone. */
  lemma KeystrokeWithinVisible(airports: seq<Airport>, term: string)
    ensures IsSubsequence(KeystrokeAirports(airports, term), VisibleAirports(airports, term))
  {
    if term == "" {
      KeystrokeEmptyTermKeepsAll(airports);
      SubsequenceOfItself(airports);
    } else {
      FilterStrongerIsSubsequence(MatchesNameOrCode(term), MatchesTerm(term), airports);
    }
  }

  /** An airport picked from the dropdown matches its own name, so when its name
      is not empty the filter effect that follows finds it and opens the dropdown again. */
  lemma PickedAirportReopensDropdown(airports: seq<Airport>, a: Airport)
    requires a in airports && a.name != ""
    ensures a in VisibleAirports(airports, a.name)
    ensures DropdownShown(a.name, VisibleAirports(airports, a.name))
  {
    ContainsItself(a.name);
    FilterKeepsMatches(MatchesTerm(a.name), airports, a);
  }

  /** The selected airline is the first airline, in list order, whose name
      contains the term, and there is none exactly when no airline's name does. */
  lemma FirstMatchingAirlineSpec(airlines: seq<Airline>, term: string)
    ensures FirstMatchingAirline(airlines, term) == None <==>
      forall al :: al in airlines ==> !AirlineMatches(al, term)
    ensures forall i :: FirstMatchAt(MatchesAirlineName(term), airlines, i) ==>
      FirstMatchingAirline(airlines, term) == Some(airlines[i])
  {
    var p := MatchesAirlineName(term);
    FilterEmptyIff(p, airlines);
    forall i | FirstMatchAt(p, airlines, i) ensures FirstMatchingAirline(airlines, term) == Some(airlines[i]) {
      FilterKeepsMatches(p, airlines, airlines[i]);
      FilterHeadIsFirstMatch(p, airlines);
      var j :| FirstMatchAt(p, airlines, j) && Filter(p, airlines)[0] == airlines[j];
    }
  }

  /** The empty string is contained in every airline name, so clearing the
      search selects the first airline rather than none. */
  lemma EmptyTermSelectsFirstAirline(airlines: seq<Airline>)
    requires airlines != []
    ensures FirstMatchingAirline(airlines, "") == Some(airlines[0])
  {
    ContainsEmpty(airlines[0].name);
    assert FirstMatchAt(MatchesAirlineName(""), airlines, 0);
    FirstMatchingAirlineSpec(airlines, "");
  }

  /** Searching "lhr" in a list holding only Heathrow finds Heathrow and opens the dropdown. */
  lemma HeathrowByLowerCaseCode()
    ensures var heathrow := Airport(1, "Heathrow", "LHR", "London", 51.5, -0.45);
      VisibleAirports([heathrow], "lhr") == [heathrow] &&
      DropdownShown("lhr", VisibleAirports([heathrow], "lhr"))
  {
    var heathrow := Airport(1, "Heathrow", "LHR", "London", 51.5, -0.45);
    assert ToLower("LHR") == "lhr" by {
      assert ToLower("LHR")[0] == 'l' && ToLower("LHR")[1] == 'h' && ToLower("LHR")[2] == 'r';
    }
    assert ToLower("lhr") == "lhr" by {
      assert ToLower("lhr")[0] == 'l' && ToLower("lhr")[1] == 'h' && ToLower("lhr")[2] == 'r';
    }
    assert ContainsIgnoringCase(heathrow.code, "lhr") by {
      assert ToLower("LHR")[..3] == "lhr";
    }
    assert Filter(MatchesTerm("lhr"), [heathrow]) == [heathrow] + Filter(MatchesTerm("lhr"), []);
  }
}
