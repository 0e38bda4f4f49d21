/** The alerts page fed by the backend API (components/enhanced-alerts-page.tsx):
    the severity, pond and search filters, the list of ponds offered by the
    pond filter, the clear-filters button, and the set of alerts whose
    resolve request is in flight, which keeps a second click on the same
    alert from sending a second request. */
module EnhancedAlertsPage {
  import opened Text
  import opened Collections
  import opened Wrappers
  import opened DashboardHooks

  /** An alert as the API returns it; severity is free text. */
  datatype ApiAlert = ApiAlert(id: string, pondId: string, severity: string, parameter: string, message: string)

  /** The search box: empty, or found in the message, the parameter or the
      pond id, ignoring case. */
  predicate SearchMatches(a: ApiAlert, search: string) {
    search == ""
    || ContainsIgnoringCase(a.message, search)
    || ContainsIgnoringCase(a.parameter, search)
    || ContainsIgnoringCase(a.pondId, search)
  }

  /** The three tests of the `filteredAlerts` filter. */
  predicate Kept(a: ApiAlert, severity: string, pond: string, search: string) {
    (severity == "all" || a.severity == severity)
    && (pond == "all" || a.pondId == pond)
    && SearchMatches(a, search)
  }

  /** `filteredAlerts`: the alerts passing all three tests, in list order. */
  function FilteredAlerts(alerts: seq<ApiAlert>, severity: string, pond: string, search: string): (r: seq<ApiAlert>)
    ensures forall a :: a in r <==> a in alerts && Kept(a, severity, pond, search)
    ensures multiset(r) <= multiset(alerts)
  {
    var keep := (a: ApiAlert) => Kept(a, severity, pond, search);
    FilterSubMultiset(alerts, keep);
    Filter(alerts, keep)
  }

  /** `uniquePonds`: the pond ids of the alerts, each once, in the order
      they first occur (the insertion order of a `Set`). */
  function UniquePonds(alerts: seq<ApiAlert>): (r: seq<string>)
    ensures Distinct(r)
    ensures forall a :: a in alerts ==> a.pondId in r
    ensures forall id :: id in r ==> exists a :: a in alerts && a.pondId == id
    decreases |alerts|
  {
    if |alerts| == 0 then []
    else
      var init := alerts[..|alerts| - 1];
      var last := alerts[|alerts| - 1];
      assert alerts == init + [last];
      var u := UniquePonds(init);
      if last.pondId in u then u
      else
        assert (u + [last.pondId])[..|u|] == u;
        u + [last.pondId]
  }

  /** Every pond the pond filter offers selects at least one alert once
      the other filters are cleared. */
  lemma OfferedPondsSelectAlerts(alerts: seq<ApiAlert>, id: string)
    requires id in UniquePonds(alerts)
    ensures FilteredAlerts(alerts, "all", id, "") != []
  {
    var a :| a in alerts && a.pondId == id;
    assert a in FilteredAlerts(alerts, "all", id, "");
  }

  /** With the filters cleared the whole list is shown, in its order. */
  lemma {:induction false} ClearedShowsAll(alerts: seq<ApiAlert>)
    ensures FilteredAlerts(alerts, "all", "all", "") == alerts
  {
    FilterAll(alerts, (a: ApiAlert) => Kept(a, "all", "all", ""));
  }

  /** The page's own state. */
  class PageState {
    var filterSeverity: string
    var filterPond: string
    var searchTerm: string
    /** `resolvingAlerts`: the ids whose resolve request has not settled. */
    var resolving: set<string>

    constructor()
      ensures filterSeverity == "all" && filterPond == "all" && searchTerm == ""
      ensures resolving == {}
    {
      filterSeverity := "all";
      filterPond := "all";
      searchTerm := "";
      resolving := {};
    }

    /** The clear-filters button: afterwards every alert is shown, in list
        order. */
    method ClearFilters(alerts: seq<ApiAlert>)
      modifies this`filterSeverity, this`filterPond, this`searchTerm
      ensures filterSeverity == "all" && filterPond == "all" && searchTerm == ""
      ensures FilteredAlerts(alerts, filterSeverity, filterPond, searchTerm) == alerts
    {
      filterSeverity := "all";
      filterPond := "all";
      searchTerm := "";
      ClearedShowsAll(alerts);
    }

    /** The start of `handleResolveAlert`: nothing happens for an id already
        in flight; otherwise the id is marked as in flight and the request
        is sent. */
    method StartResolve(alertId: string) returns (sent: bool)
      modifies this`resolving
      ensures sent <==> alertId !in old(resolving)
      ensures resolving == old(resolving) + {alertId}
    {
      if alertId in resolving {
        return false;
      }
      resolving := resolving + {alertId};
      sent := true;
    }

    /** The `finally` of `handleResolveAlert`: the id is no longer in
        flight, whatever the request gave. */
    method FinishResolve(alertId: string)
      modifies this`resolving
      ensures resolving == old(resolving) - {alertId}
    {
      resolving := resolving - {alertId};
    }

    /** `handleResolveAlert` run to completion with no other event in
        between: the alerts hook resolves and refetches only when the id
        was not already in flight, and the set of ids in flight ends as it
        began. */
    method HandleResolveAlert(alertId: string, hook: AlertsHook, resolved: Outcome<()>, refetch: Outcome<string>)
      returns (sent: bool)
      modifies this`resolving, hook
      ensures sent <==> alertId !in old(resolving)
      ensures resolving == old(resolving)
      ensures !sent ==> unchanged(hook)
      ensures sent && resolved.Success? && refetch.Success? ==>
        hook.alerts == Some(refetch.value) && hook.error == None && !hook.loading
      ensures sent && resolved.Success? && refetch.Failure? ==>
        hook.alerts == old(hook.alerts) && hook.error == Some(ErrorText(refetch.thrown, "Failed to fetch alerts"))
        && !hook.loading
      ensures sent && resolved.Failure? ==> unchanged(hook)
    {
      sent := StartResolve(alertId);
      if !sent {
        return;
      }
      var ok := hook.ResolveAlert(alertId, resolved, refetch);
      FinishResolve(alertId);
    }
  }

  /** Two clicks on the same alert before its request settles send one
      request; once it settles, a click sends again. */
  method DoubleClick(alertId: string) returns (first: bool, second: bool, afterwards: bool)
    ensures first && !second && afterwards
  {
    var page := new PageState();
    first := page.StartResolve(alertId);
    second := page.StartResolve(alertId);
    page.FinishResolve(alertId);
    afterwards := page.StartResolve(alertId);
  }
}
