/** The list logic of the ponds page (pages/ponds-page.tsx): the page keeps
    the loaded ponds and the shown ones, and `filterAndSortPonds` refills
    the shown list from the search, the status filter and the sort
    settings.  Dates are read by a `timeOf` function. */
module PondsPage {
  import opened Text
  import opened Sorting
  import opened Collections
  import opened WaterQuality
  import opened Ponds

  /** `pond.status` as the page compares it. */
  function PondStatusText(s: PondStatus): string {
    match s
    case Healthy => "healthy"
    case PondWarning => "warning"
    case PondCritical => "critical"
  }

  /** The search box: empty, or found in the name or the location, ignoring
      case. */
  predicate SearchMatches(p: Pond, search: string) {
    search == "" || ContainsIgnoringCase(p.name, search) || ContainsIgnoringCase(p.location, search)
  }

  predicate StatusMatches(p: Pond, statusFilter: string) {
    statusFilter == "all" || PondStatusText(p.status) == statusFilter
  }

  function Selected(ponds: seq<Pond>, search: string, statusFilter: string): seq<Pond> {
    var searched := if search != "" then Filter(ponds, p => SearchMatches(p, search)) else ponds;
    if statusFilter != "all" then Filter(searched, p => StatusMatches(p, statusFilter)) else searched
  }

  /** A pond is selected exactly when it passes both filters, and the
      selection holds no pond more often than the list does. */
  lemma SelectedExactly(ponds: seq<Pond>, search: string, statusFilter: string)
    ensures forall p :: p in Selected(ponds, search, statusFilter) <==>
      p in ponds && SearchMatches(p, search) && StatusMatches(p, statusFilter)
    ensures multiset(Selected(ponds, search, statusFilter)) <= multiset(ponds)
  {
    var searched := if search != "" then Filter(ponds, p => SearchMatches(p, search)) else ponds;
    if search != "" { FilterSubMultiset(ponds, p => SearchMatches(p, search)); }
    if statusFilter != "all" { FilterSubMultiset(searched, p => StatusMatches(p, statusFilter)); }
  }

  /** The sort key `sortBy` names; an unknown name sorts by name. */
  function PondKey(sortBy: string, timeOf: string -> int): Pond -> Key {
    if sortBy == "location" then (p: Pond) => Str(Lower(p.location))
    else if sortBy == "status" then (p: Pond) => Str(PondStatusText(p.status))
    else if sortBy == "lastUpdate" then (p: Pond) => Num(timeOf(p.lastUpdate))
    else (p: Pond) => Str(Lower(p.name))
  }

  /** The body of `filterAndSortPonds`: a copy of the list, filtered, then
      sorted in place. */
  method FilterAndSort(ponds: seq<Pond>, search: string, statusFilter: string, sortBy: string, sortOrder: string,
                       timeOf: string -> int)
    returns (shown: seq<Pond>)
    ensures multiset(shown) == multiset(Selected(ponds, search, statusFilter))
    ensures multiset(shown) <= multiset(ponds)
    ensures SortedBy(shown, PondKey(sortBy, timeOf), sortOrder != "asc")
    ensures KeepsTies(Selected(ponds, search, statusFilter), shown, PondKey(sortBy, timeOf))
  {
    var filtered := ponds;
    if search != "" {
      filtered := Filter(filtered, p => SearchMatches(p, search));
    }
    if statusFilter != "all" {
      filtered := Filter(filtered, p => StatusMatches(p, statusFilter));
    }
    var arr := new Pond[|filtered|](i requires 0 <= i < |filtered| => filtered[i]);
    assert arr[..] == filtered == Selected(ponds, search, statusFilter);
    SortInPlace(arr, PondKey(sortBy, timeOf), sortOrder != "asc");
    shown := arr[..];
    SelectedExactly(ponds, search, statusFilter);
  }

  class PondsPageState {
    var ponds: seq<Pond>
    var filteredPonds: seq<Pond>
    var search: string
    var statusFilter: string
    var sortBy: string
    var sortOrder: string

    /** The first render: nothing loaded, sorted by name, ascending. */
    constructor()
      ensures ponds == [] && filteredPonds == [] && search == "" && statusFilter == "all"
      ensures sortBy == "name" && sortOrder == "asc"
    {
      ponds := [];
      filteredPonds := [];
      search := "";
      statusFilter := "all";
      sortBy := "name";
      sortOrder := "asc";
    }

    /** `filterAndSortPonds`: the shown list becomes the selection, sorted
        in place ascending for "asc" and descending otherwise. */
    method FilterAndSortPonds(timeOf: string -> int)
      modifies this`filteredPonds
      ensures multiset(filteredPonds) == multiset(Selected(ponds, search, statusFilter))
      ensures multiset(filteredPonds) <= multiset(ponds)
      ensures SortedBy(filteredPonds, PondKey(sortBy, timeOf), sortOrder != "asc")
      ensures KeepsTies(Selected(ponds, search, statusFilter), filteredPonds, PondKey(sortBy, timeOf))
    {
      filteredPonds := FilterAndSort(ponds, search, statusFilter, sortBy, sortOrder, timeOf);
    }
  }
}
