/** The list logic of the alerts page (pages/alerts-page.tsx): the search,
    severity and status filters, the sort by time, severity or pond name
    in either direction, and the counts shown above the list.  Dates are
    read by a `timeOf` function from a stamp's text to milliseconds. */
module AlertsPage {
  import opened Text
  import opened Sorting
  import opened Collections
  import opened Ponds

  const DefaultSortBy := "timestamp"
  const DefaultSortOrder := "desc"

  function SeverityText(s: Severity): string {
    match s
    case SeverityWarning => "warning"
    case SeverityCritical => "critical"
  }

  /** `severityOrder[a.severity] || 0`: critical 3, warning 2 (info, 1,
      never occurs among the service's alerts). */
  function SeverityRank(s: Severity): (r: int)
    ensures s.SeverityCritical? <==> r == 3
    ensures 2 <= r <= 3
  {
    match s
    case SeverityWarning => 2
    case SeverityCritical => 3
  }

  /** `new Date(a.timestamp).getTime()`. */
  function StampTime(t: Stamp, timeOf: string -> int): int {
    match t
    case CsvTime(text) => timeOf(text)
    case Instant(ms) => ms
  }

  /** The search box: empty, or found in the message, the pond name or the
      parameter, ignoring case. */
  predicate SearchMatches(a: Alert, search: string) {
    search == ""
    || ContainsIgnoringCase(MessageText(a.message), search)
    || ContainsIgnoringCase(a.pondName, search)
    || ContainsIgnoringCase(a.parameter, search)
  }

  predicate SeverityMatches(a: Alert, severityFilter: string) {
    severityFilter == "all" || SeverityText(a.severity) == severityFilter
  }

  /** "active" keeps the active alerts, "resolved" the others, anything
      else all of them. */
  predicate StatusMatches(a: Alert, statusFilter: string) {
    if statusFilter == "active" then a.isActive
    else if statusFilter == "resolved" then !a.isActive
    else true
  }

  /** The three filters applied in turn, each only when it is set. */
  function Selected(alerts: seq<Alert>, search: string, severityFilter: string, statusFilter: string): seq<Alert> {
    var searched := if search != "" then Filter(alerts, a => SearchMatches(a, search)) else alerts;
    var graded := if severityFilter != "all" then Filter(searched, a => SeverityMatches(a, severityFilter)) else searched;
    if statusFilter != "all" then Filter(graded, a => StatusMatches(a, statusFilter)) else graded
  }

  /** An alert is selected exactly when it passes all three filters, and
      the selection holds no alert more often than the list does. */
  lemma SelectedExactly(alerts: seq<Alert>, search: string, severityFilter: string, statusFilter: string)
    ensures forall a :: a in Selected(alerts, search, severityFilter, statusFilter) <==>
      a in alerts && SearchMatches(a, search) && SeverityMatches(a, severityFilter) && StatusMatches(a, statusFilter)
    ensures multiset(Selected(alerts, search, severityFilter, statusFilter)) <= multiset(alerts)
  {
    var searched := if search != "" then Filter(alerts, a => SearchMatches(a, search)) else alerts;
    var graded := if severityFilter != "all" then Filter(searched, a => SeverityMatches(a, severityFilter)) else searched;
    if search != "" { FilterSubMultiset(alerts, a => SearchMatches(a, search)); }
    if severityFilter != "all" { FilterSubMultiset(searched, a => SeverityMatches(a, severityFilter)); }
    if statusFilter != "all" { FilterSubMultiset(graded, a => StatusMatches(a, statusFilter)); }
  }

  /** The sort key `sortBy` names; an unknown name sorts by time. */
  function AlertKey(sortBy: string, timeOf: string -> int): Alert -> Key {
    if sortBy == "severity" then (a: Alert) => Num(SeverityRank(a.severity))
    else if sortBy == "pondName" then (a: Alert) => Str(Lower(a.pondName))
    else (a: Alert) => Num(StampTime(a.timestamp, timeOf))
  }

  /** `filterAndSortAlerts`: a copy of the list, filtered, then sorted in
      place, ascending for "asc" and descending otherwise.  The result is
      the selection, rearranged into order. */
  method FilterAndSortAlerts(alerts: seq<Alert>, search: string, severityFilter: string, statusFilter: string,
                             sortBy: string, sortOrder: string, timeOf: string -> int)
    returns (shown: seq<Alert>)
    ensures multiset(shown) == multiset(Selected(alerts, search, severityFilter, statusFilter))
    ensures multiset(shown) <= multiset(alerts)
    ensures SortedBy(shown, AlertKey(sortBy, timeOf), sortOrder != "asc")
    ensures KeepsTies(Selected(alerts, search, severityFilter, statusFilter), shown, AlertKey(sortBy, timeOf))
  {
    var filtered := alerts;
    if search != "" {
      filtered := Filter(filtered, a => SearchMatches(a, search));
    }
    if severityFilter != "all" {
      filtered := Filter(filtered, a => SeverityMatches(a, severityFilter));
    }
    if statusFilter != "all" {
      filtered := Filter(filtered, a => StatusMatches(a, statusFilter));
    }
    var arr := new Alert[|filtered|](i requires 0 <= i < |filtered| => filtered[i]);
    assert arr[..] == filtered == Selected(alerts, search, severityFilter, statusFilter);
    SortInPlace(arr, AlertKey(sortBy, timeOf), sortOrder != "asc");
    shown := arr[..];
    SelectedExactly(alerts, search, severityFilter, statusFilter);
  }

  /** The counts above the list. */
  datatype Stats = Stats(total: nat, critical: nat, warning: nat, info: nat, active: nat, resolved: nat)

  /** `getSeverityStats`: every alert is either active or resolved and
      either critical or a warning; none is informational. */
  function SeverityStats(alerts: seq<Alert>): (r: Stats)
    ensures r.total == |alerts|
    ensures r.active + r.resolved == r.total
    ensures r.critical + r.warning == r.total
    ensures r.info == 0
  {
    var critical := Filter(alerts, (a: Alert) => a.severity == SeverityCritical);
    var warning := Filter(alerts, (a: Alert) => a.severity == SeverityWarning);
    var active := Filter(alerts, (a: Alert) => a.isActive);
    var resolved := Filter(alerts, (a: Alert) => !a.isActive);
    FilterComplement(alerts, (a: Alert) => a.severity == SeverityCritical, (a: Alert) => a.severity == SeverityWarning);
    FilterComplement(alerts, (a: Alert) => a.isActive, (a: Alert) => !a.isActive);
    Stats(|alerts|, |critical|, |warning|, 0, |active|, |resolved|)
  }
}
