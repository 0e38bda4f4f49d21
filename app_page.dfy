/** The home page (app/page.tsx): the page switch with its login flag, the
    averages the dashboard shows over the loaded ponds, the status each
    average is given, and the status of the active-alerts metric. */
module HomePage {
  import opened WaterQuality
  import opened Ponds

  // ---------------------------------------------------------------- page switch

  /** What `renderPage` renders, or the login page when logged out. */
  datatype Screen = LoginScreen | PondsScreen | AlertsScreen | SettingsScreen | ProfileScreen | DashboardScreen

  /** `renderPage`: the page named, and the dashboard for any other name. */
  function Rendered(page: string): (s: Screen)
    ensures s != LoginScreen
    ensures s == DashboardScreen <==>
      page != "ponds" && page != "alerts" && page != "settings" && page != "profile"
  {
    if page == "ponds" then PondsScreen
    else if page == "alerts" then AlertsScreen
    else if page == "settings" then SettingsScreen
    else if page == "profile" then ProfileScreen
    else DashboardScreen
  }

  class App {
    var currentPage: string
    var isLoggedIn: bool

    constructor()
      ensures currentPage == "dashboard" && isLoggedIn
      ensures Showing() == DashboardScreen
    {
      currentPage := "dashboard";
      isLoggedIn := true;
    }

    /** The login page while logged out, otherwise the rendered page. */
    function Showing(): (s: Screen)
      reads this
      ensures s == LoginScreen <==> !isLoggedIn
    {
      if !isLoggedIn then LoginScreen else Rendered(currentPage)
    }

    /** `handleLogin`: logged in, on the dashboard. */
    method HandleLogin()
      modifies this
      ensures isLoggedIn && currentPage == "dashboard"
      ensures Showing() == DashboardScreen
    {
      isLoggedIn := true;
      currentPage := "dashboard";
    }

    /** `handlePageChange`: "login" logs out; every page name is stored,
        and nothing else changes. */
    method HandlePageChange(page: string)
      modifies this
      ensures currentPage == page
      ensures isLoggedIn == (old(isLoggedIn) && page != "login")
      ensures page == "login" ==> Showing() == LoginScreen
      ensures page != "login" && old(isLoggedIn) ==> Showing() == Rendered(page)
    {
      if page == "login" {
        isLoggedIn := false;
      }
      currentPage := page;
    }
  }

  // ---------------------------------------------------------------- averages

  /** The six parameters the dashboard averages, in its order. */
  const Averaged: seq<Parameter> := [Temperature, Ph, Oxygen, Turbidity, Nitrate, Ammonia]

  datatype Averages = Averages(temperature: real, ph: real, oxygen: real, turbidity: real, nitrate: real, ammonia: real)

  /** The field of `Averages` that holds parameter `q`. */
  function Field(a: Averages, q: Parameter): real
    requires q in Averaged
  {
    match q
    case Temperature => a.temperature
    case Ph => a.ph
    case Oxygen => a.oxygen
    case Turbidity => a.turbidity
    case Nitrate => a.nitrate
    case Ammonia => a.ammonia
  }

  /** `pond.parameters?.<q>?.value || 0`. */
  function ValueIn(p: Pond, q: Parameter): real
    requires q in Averaged
  {
    match q
    case Temperature => p.parameters.temperature.value
    case Ph => p.parameters.ph.value
    case Oxygen => p.parameters.oxygen.value
    case Turbidity => p.parameters.turbidity.value
    case Nitrate => p.parameters.nitrate.value
    case Ammonia => p.parameters.ammonia.value
  }

  /** The sum of parameter `q` over the ponds. */
  function Total(ponds: seq<Pond>, q: Parameter): real
    requires q in Averaged
    decreases |ponds|
  {
    if |ponds| == 0 then 0.0 else Total(ponds[..|ponds| - 1], q) + ValueIn(ponds[|ponds| - 1], q)
  }

  /** The average of parameter `q`, 0 when there are no ponds. */
  function Average(ponds: seq<Pond>, q: Parameter): real
    requires q in Averaged
  {
    if |ponds| == 0 then 0.0 else Total(ponds, q) / |ponds| as real
  }

  /** `calculateAverages`: the totals accumulate pond by pond, then each is
      divided by the number of ponds; with no ponds every average is 0. */
  method CalculateAverages(ponds: seq<Pond>) returns (avg: Averages)
    ensures forall q :: q in Averaged ==> Field(avg, q) == Average(ponds, q)
    ensures ponds == [] ==> avg == Averages(0.0, 0.0, 0.0, 0.0, 0.0, 0.0)
  {
    if |ponds| == 0 {
      return Averages(0.0, 0.0, 0.0, 0.0, 0.0, 0.0);
    }
    var acc := Averages(0.0, 0.0, 0.0, 0.0, 0.0, 0.0);
    var i := 0;
    while i < |ponds|
      invariant 0 <= i <= |ponds|
      invariant forall q :: q in Averaged ==> Field(acc, q) == Total(ponds[..i], q)
    {
      var p := ponds[i];
      acc := Averages(
        acc.temperature + ValueIn(p, Temperature), acc.ph + ValueIn(p, Ph), acc.oxygen + ValueIn(p, Oxygen),
        acc.turbidity + ValueIn(p, Turbidity), acc.nitrate + ValueIn(p, Nitrate), acc.ammonia + ValueIn(p, Ammonia));
      assert ponds[..i + 1][..i] == ponds[..i];
      i := i + 1;
    }
    assert ponds[..i] == ponds;
    var n := |ponds| as real;
    avg := Averages(acc.temperature / n, acc.ph / n, acc.oxygen / n, acc.turbidity / n, acc.nitrate / n, acc.ammonia / n);
  }

  /** A sum of values that all lie in `[lo, hi]` lies between `n · lo` and
      `n · hi`. */
  lemma {:induction false} TotalBounds(ponds: seq<Pond>, q: Parameter, lo: real, hi: real)
    requires q in Averaged
    requires forall k :: 0 <= k < |ponds| ==> lo <= ValueIn(ponds[k], q) <= hi
    ensures |ponds| as real * lo <= Total(ponds, q) <= |ponds| as real * hi
    decreases |ponds|
  {
    if |ponds| > 0 {
      TotalBounds(ponds[..|ponds| - 1], q, lo, hi);
      assert lo <= ValueIn(ponds[|ponds| - 1], q) <= hi;
    }
  }

  /** An average lies between the smallest and the largest value it
      averages. */
  lemma AverageBetween(ponds: seq<Pond>, q: Parameter, lo: real, hi: real)
    requires q in Averaged && |ponds| > 0
    requires forall k :: 0 <= k < |ponds| ==> lo <= ValueIn(ponds[k], q) <= hi
    ensures lo <= Average(ponds, q) <= hi
  {
    TotalBounds(ponds, q, lo, hi);
    var n := |ponds| as real;
    assert Average(ponds, q) == Total(ponds, q) / n;
    assert n * lo / n == lo && n * hi / n == hi;
  }

  // ---------------------------------------------------------------- statuses

  /** `getOverallStatus(average, parameter)`. */
  function AverageStatus(average: real, parameter: string): Status {
    if parameter == "temperature" then
      if average > 30.0 then Critical else if average > 27.0 || average < 20.0 then Warning else Normal
    else if parameter == "ph" then
      if average > 9.0 || average < 6.0 then Critical else if average > 8.5 || average < 6.5 then Warning else Normal
    else if parameter == "oxygen" then
      if average < 3.0 then Critical else if average < 5.0 then Warning else Normal
    else if parameter == "turbidity" then
      if average > 15.0 then Critical else if average > 10.0 then Warning else Normal
    else if parameter == "nitrate" then
      if average > 50.0 then Critical else if average > 30.0 then Warning else Normal
    else if parameter == "ammonia" then
      if average > 2.0 then Critical else if average > 1.0 then Warning else Normal
    else Normal
  }

  /** The dashboard grades an average exactly as the data service grades a
      reading, for every parameter but nitrite, which the dashboard does
      not know and so always calls normal. */
  lemma AverageStatusAgrees(average: real, parameter: string)
    ensures parameter != "nitrite" ==> AverageStatus(average, parameter) == ParameterStatus(average, parameter)
    ensures parameter == "nitrite" ==> AverageStatus(average, parameter) == Normal
  {
    match Named(parameter)
    case None =>
    case Some(p) => assert Name(p) == parameter;
  }

  /** Each averaged parameter is graded by the service's bands (the page
      shows cards for the first five; the ammonia average is computed but
      not shown). */
  lemma MetricCardsUseServiceBands(average: real, q: Parameter)
    requires q in Averaged
    ensures AverageStatus(average, Name(q)) == Band(average, q)
  {
    AverageStatusAgrees(average, Name(q));
    NamedName(q);
  }

  /** The active-alerts metric: critical exactly when an active alert is
      loaded, normal otherwise. */
  function AlertsMetric(activeAlerts: seq<Alert>): (s: Status)
    ensures s == Critical <==> |activeAlerts| > 0
    ensures s == Normal <==> |activeAlerts| == 0
  {
    if |activeAlerts| > 0 then Critical else Normal
  }
}
