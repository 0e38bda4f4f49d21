/** The polling hooks of hooks/use-dashboard.ts: `useDashboard`,
    `usePondData` and `useAlerts`.  Each holds its data, `loading` and
    `error`; a fetch is one event whose request outcomes are inputs, and
    the refresh interval is reduced to whether one is installed.  The
    response bodies are opaque text. */
module DashboardHooks {
  import opened Wrappers

  /** What a rejected request throws: an `Error` with a message, or some
      other value. */
  datatype Thrown = ErrorObject(message: string) | NotAnError

  datatype Outcome<T> = Success(value: T) | Failure(thrown: Thrown)

  /** `err instanceof Error ? err.message : fallback`. */
  function ErrorText(thrown: Thrown, fallback: string): (r: string)
    ensures thrown.ErrorObject? ==> r == thrown.message
    ensures thrown.NotAnError? ==> r == fallback
  {
    match thrown
    case ErrorObject(message) => message
    case NotAnError => fallback
  }

  /** `Promise.all` of three requests: all three values when every request
      succeeds, otherwise a failure; which failure is reported depends on
      timing, and is taken here as the first in argument order. */
  function All<A, B, C>(a: Outcome<A>, b: Outcome<B>, c: Outcome<C>): (r: Outcome<(A, B, C)>)
    ensures r.Success? <==> a.Success? && b.Success? && c.Success?
    ensures r.Success? ==> r.value == (a.value, b.value, c.value)
    ensures r.Failure? ==>
      (a.Failure? && r.thrown == a.thrown) || (b.Failure? && r.thrown == b.thrown) || (c.Failure? && r.thrown == c.thrown)
  {
    if a.Failure? then Failure(a.thrown)
    else if b.Failure? then Failure(b.thrown)
    else if c.Failure? then Failure(c.thrown)
    else Success((a.value, b.value, c.value))
  }

  /** `refreshInterval > 0`: whether an auto-refresh interval is set up. */
  predicate AutoRefreshes(refreshInterval: int) {
    refreshInterval > 0
  }

  /** `useDashboard`. */
  class DashboardHook {
    var overview: Option<string>
    var activeAlerts: Option<string>
    var systemStatus: Option<string>
    var loading: bool
    var error: Option<string>

    constructor()
      ensures overview == None && activeAlerts == None && systemStatus == None
      ensures loading && error == None
    {
      overview := None;
      activeAlerts := None;
      systemStatus := None;
      loading := true;
      error := None;
    }

    /** `fetchDashboardData`: the three values are replaced together when
        all three requests succeed; otherwise all three stay as they were
        and `error` holds the reason.  `loading` ends false either way. */
    method Fetch(overviewR: Outcome<string>, alertsR: Outcome<string>, statusR: Outcome<string>)
      modifies this
      ensures !loading
      ensures var all := All(overviewR, alertsR, statusR);
        if all.Success? then
          overview == Some(all.value.0) && activeAlerts == Some(all.value.1)
          && systemStatus == Some(all.value.2) && error == None
        else
          overview == old(overview) && activeAlerts == old(activeAlerts)
          && systemStatus == old(systemStatus)
          && error == Some(ErrorText(all.thrown, "Failed to fetch dashboard data"))
    {
      error := None;
      var all := All(overviewR, alertsR, statusR);
      match all {
        case Success(values) =>
          overview := Some(values.0);
          activeAlerts := Some(values.1);
          systemStatus := Some(values.2);
        case Failure(thrown) =>
          error := Some(ErrorText(thrown, "Failed to fetch dashboard data"));
      }
      loading := false;
    }

    /** `refresh`: loading again, then a fetch, which leaves the hook as
        `Fetch` does: the error is clear exactly when all three requests
        succeeded. */
    method Refresh(overviewR: Outcome<string>, alertsR: Outcome<string>, statusR: Outcome<string>)
      modifies this
      ensures !loading
      ensures var all := All(overviewR, alertsR, statusR);
        all.Success? <==> error == None
      ensures var all := All(overviewR, alertsR, statusR);
        if all.Success? then
          overview == Some(all.value.0) && activeAlerts == Some(all.value.1)
          && systemStatus == Some(all.value.2)
        else
          overview == old(overview) && activeAlerts == old(activeAlerts)
          && systemStatus == old(systemStatus)
          && error == Some(ErrorText(all.thrown, "Failed to fetch dashboard data"))
    {
      loading := true;
      Fetch(overviewR, alertsR, statusR);
    }
  }

  /** `usePondData` of hooks/use-dashboard.ts. */
  class PondDataHook {
    const pondId: string
    var latestData: Option<string>
    var history: Option<string>
    var alerts: Option<string>
    var loading: bool
    var error: Option<string>

    constructor(pondId: string)
      ensures this.pondId == pondId
      ensures latestData == None && history == None && alerts == None
      ensures loading && error == None
    {
      this.pondId := pondId;
      latestData := None;
      history := None;
      alerts := None;
      loading := true;
      error := None;
    }

    /** `fetchPondData`: nothing at all without a pond; otherwise as the
        dashboard's fetch, over the latest data, the history and the
        alerts of the pond. */
    method Fetch(latestR: Outcome<string>, historyR: Outcome<string>, alertsR: Outcome<string>)
      modifies this
      ensures pondId == "" ==> unchanged(this)
      ensures pondId != "" ==> !loading
      ensures var all := All(latestR, historyR, alertsR);
        pondId != "" ==>
          if all.Success? then
            latestData == Some(all.value.0) && history == Some(all.value.1)
            && alerts == Some(all.value.2) && error == None
          else
            latestData == old(latestData) && history == old(history) && alerts == old(alerts)
            && error == Some(ErrorText(all.thrown, "Failed to fetch pond data"))
    {
      if pondId == "" {
        return;
      }
      error := None;
      var all := All(latestR, historyR, alertsR);
      match all {
        case Success(values) =>
          latestData := Some(values.0);
          history := Some(values.1);
          alerts := Some(values.2);
        case Failure(thrown) =>
          error := Some(ErrorText(thrown, "Failed to fetch pond data"));
      }
      loading := false;
    }

    /** `refresh`: loading again, then a fetch.  Without a pond the fetch
        does nothing, so the hook stays loading for good with its data and
        error as they were. */
    method Refresh(latestR: Outcome<string>, historyR: Outcome<string>, alertsR: Outcome<string>)
      modifies this
      ensures loading <==> pondId == ""
      ensures pondId == "" ==>
        latestData == old(latestData) && history == old(history) && alerts == old(alerts)
        && error == old(error)
      ensures var all := All(latestR, historyR, alertsR);
        pondId != "" ==>
          if all.Success? then
            latestData == Some(all.value.0) && history == Some(all.value.1)
            && alerts == Some(all.value.2) && error == None
          else
            latestData == old(latestData) && history == old(history) && alerts == old(alerts)
            && error == Some(ErrorText(all.thrown, "Failed to fetch pond data"))
    {
      loading := true;
      Fetch(latestR, historyR, alertsR);
    }
  }

  /** `useAlerts`. */
  class AlertsHook {
    var alerts: Option<string>
    var loading: bool
    var error: Option<string>

    constructor()
      ensures alerts == None && loading && error == None
    {
      alerts := None;
      loading := true;
      error := None;
    }

    /** `fetchAlerts`: the alerts are replaced on success and kept, with the
        reason in `error`, on failure. */
    method Fetch(response: Outcome<string>)
      modifies this
      ensures !loading
      ensures response.Success? ==> alerts == Some(response.value) && error == None
      ensures response.Failure? ==>
        alerts == old(alerts) && error == Some(ErrorText(response.thrown, "Failed to fetch alerts"))
    {
      error := None;
      match response {
        case Success(value) => alerts := Some(value);
        case Failure(thrown) => error := Some(ErrorText(thrown, "Failed to fetch alerts"));
      }
      loading := false;
    }

    /** `resolveAlert`: a failed resolve answers false and changes nothing;
        a successful one fetches again and answers true, whatever that
        fetch gives, since the fetch catches its own failure. */
    method ResolveAlert(alertId: string, resolved: Outcome<()>, refetch: Outcome<string>) returns (ok: bool)
      modifies this
      ensures ok <==> resolved.Success?
      ensures !ok ==> unchanged(this)
      ensures ok ==> !loading
      ensures ok && refetch.Success? ==> alerts == Some(refetch.value) && error == None
      ensures ok && refetch.Failure? ==>
        alerts == old(alerts) && error == Some(ErrorText(refetch.thrown, "Failed to fetch alerts"))
    {
      if resolved.Failure? {
        return false;
      }
      Fetch(refetch);
      ok := true;
    }

    /** `refresh`: loading again, then a fetch. */
    method Refresh(response: Outcome<string>)
      modifies this
      ensures !loading
      ensures response.Success? <==> error == None
      ensures response.Success? ==> alerts == Some(response.value)
      ensures response.Failure? ==>
        alerts == old(alerts) && error == Some(ErrorText(response.thrown, "Failed to fetch alerts"))
    {
      loading := true;
      Fetch(response);
    }
  }
}
