/** What `RealDataService` (lib/mongodb.ts) derives from the parsed rows:
    the rows grouped by `PondID`, the alerts of every pond's latest record
    plus two resolved demonstration alerts (`generateAllAlerts`), and one
    pond summary per group whose `alerts` field counts that pond's active
    alerts (`getPonds`).  The main results are `PondAlertCount`, which
    shows that this count equals the number of the pond's parameters that
    are not normal, and `HealthyIffNoAlerts`. */
module Ponds {
  import opened Wrappers
  import opened Text
  import opened Numbers
  import opened Sorting
  import opened Collections
  import opened Csv
  import opened WaterQuality

  // ---------------------------------------------------------------- groups

  function PondOf(row: Row): string {
    Cell(row, "PondID")
  }

  /** Some row belongs to pond `id`. */
  predicate Mentions(rows: seq<Row>, id: string) {
    exists i :: 0 <= i < |rows| && PondOf(rows[i]) == id
  }

  /** The pond ids in the order their first row appears. */
  function FirstSeen(rows: seq<Row>): (ids: seq<string>)
    ensures Distinct(ids)
    ensures forall id :: id in ids <==> Mentions(rows, id)
    decreases |rows|
  {
    if |rows| == 0 then []
    else
      var init := rows[..|rows| - 1];
      var ids := FirstSeen(init);
      var id := PondOf(rows[|rows| - 1]);
      assert forall x :: Mentions(rows, x) <==> Mentions(init, x) || x == id by {
        forall x | Mentions(rows, x) && x != id ensures Mentions(init, x) {
          var i :| 0 <= i < |rows| && PondOf(rows[i]) == x;
          assert PondOf(init[i]) == x;
        }
        forall x | Mentions(init, x) ensures Mentions(rows, x) {
          var i :| 0 <= i < |init| && PondOf(init[i]) == x;
          assert PondOf(rows[i]) == x;
        }
      }
      if id in ids then ids else ids + [id]
  }

  /** A key JavaScript treats as an array index: the canonical decimal text
      of a number below 2^32 - 1.  Such keys come first in `Object.entries`,
      in increasing numeric order. */
  predicate IsArrayIndex(k: string) {
    |k| > 0 && (forall i :: 0 <= i < |k| ==> '0' <= k[i] <= '9')
    && (|k| == 1 || k[0] != '0') && DigitsValue(k) < 0xFFFF_FFFF
  }

  function IndexKey(k: string): int {
    if IsArrayIndex(k) then DigitsValue(k) else 0
  }

  predicate IsOtherKey(k: string) {
    !IsArrayIndex(k)
  }

  /** The order of `Object.entries(pondGroups)`: the array-index ids in
      increasing numeric order, then the other ids in order of first
      appearance.  Every pond occurs exactly once. */
  function PondIds(rows: seq<Row>): (ids: seq<string>)
    ensures Distinct(ids)
    ensures forall id :: id in ids <==> Mentions(rows, id)
  {
    var seen := FirstSeen(rows);
    EntriesOrder(seen);
    Sorted(Filter(seen, IsArrayIndex), IndexKey) + Filter(seen, IsOtherKey)
  }

  lemma EntriesOrder(seen: seq<string>)
    requires Distinct(seen)
    ensures var ids := Sorted(Filter(seen, IsArrayIndex), IndexKey) + Filter(seen, IsOtherKey);
      Distinct(ids) && forall x :: x in ids <==> x in seen
  {
    var indices := Filter(seen, IsArrayIndex);
    var others := Filter(seen, IsOtherKey);
    var sorted := Sorted(indices, IndexKey);
    PermutationKeepsDistinct(indices, sorted);
    forall x ensures x in sorted <==> x in indices {
      assert x in sorted <==> x in multiset(sorted);
    }
    DistinctAppend(sorted, others);
  }

  /** `pondGroups[id]`: the rows of pond `id`, in file order. */
  function PondRows(rows: seq<Row>, id: string): (r: seq<Row>)
    ensures Mentions(rows, id) <==> |r| > 0
    ensures forall row :: row in r ==> PondOf(row) == id
  {
    var r := Filter(rows, (row: Row) => PondOf(row) == id);
    assert Mentions(rows, id) ==> rows[Pick(rows, id)] in r;
    assert |r| > 0 ==> r[0] in rows;
    r
  }

  /** A position of a row of pond `id`. */
  ghost function Pick(rows: seq<Row>, id: string): (i: nat)
    requires Mentions(rows, id)
    ensures i < |rows| && PondOf(rows[i]) == id
  {
    var i :| 0 <= i < |rows| && PondOf(rows[i]) == id;
    i
  }

  /** `pondData[pondData.length - 1]`: the last row of the pond in file order. */
  function LatestRow(rows: seq<Row>, id: string): (row: Row)
    requires Mentions(rows, id)
    ensures PondOf(row) == id
  {
    var r := PondRows(rows, id);
    assert r[|r| - 1] in r;
    r[|r| - 1]
  }

  /** `pondData[0]`: the first row of the pond. */
  function FirstRow(rows: seq<Row>, id: string): (row: Row)
    requires Mentions(rows, id)
    ensures PondOf(row) == id
  {
    var r := PondRows(rows, id);
    assert r[0] in r;
    r[0]
  }

  // ---------------------------------------------------------------- alerts

  /** `"warning" | "critical"`. */
  datatype Severity = SeverityWarning | SeverityCritical

  /** A time stamp: the text of a CSV cell, or an instant in milliseconds
      (the demonstration alerts are dated relative to the clock). */
  datatype Stamp = CsvTime(text: string) | Instant(ms: int)

  datatype Notified = Notified(sms: bool, whatsapp: bool, email: bool)

  /** The text of an alert: a generated alert names the level reached and
      the value with its unit; the demonstration alerts carry fixed text. */
  datatype Message =
    | LevelMessage(icon: string, critical: bool, value: Decimal, unit: string)
    | FixedMessage(text: string)

  /** `${icon} Niveau critique détecté (${value}${unit})`, or the attention
      variant, or the fixed text. */
  function MessageText(m: Message): string {
    match m
    case LevelMessage(icon, critical, value, unit) =>
      icon + (if critical then " Niveau critique détecté (" else " Niveau d'attention détecté (")
      + NumberText(value) + unit + ")"
    case FixedMessage(text) => text
  }

  /** The id of an alert: a generated alert is named after its pond, the
      label of its parameter and its level; the demonstration alerts carry
      fixed text. */
  datatype AlertId =
    | LevelId(pondId: string, name: string, critical: bool)
    | FixedId(text: string)

  /** `alert-${pondId}-${check.name.toLowerCase()}-critical` (or `-warning`),
      or the fixed text. */
  function IdText(a: AlertId): string {
    match a
    case LevelId(pondId, name, critical) =>
      "alert-" + pondId + "-" + Lower(name) + (if critical then "-critical" else "-warning")
    case FixedId(text) => text
  }

  /** An `AlertData` record. */
  datatype Alert = Alert(
    id: AlertId, pondId: string, pondName: string, parameter: string, message: Message,
    severity: Severity, isActive: bool, location: string, timestamp: Stamp,
    resolvedAt: Option<Stamp>, notified: Notified)

  function PondName(id: string): string {
    "Bassin " + (if id == "1" then "Alpha" else "Beta")
  }

  function PondLocation(id: string): string {
    "Section " + id + " - " + (if id == "1" then "Nord" else "Sud")
  }

  /** The alert one table entry raises for the latest record `row` of pond
      `id`: a critical alert when the entry is critical, else an attention
      alert when it needs attention, else none. */
  function CheckAlert(id: string, row: Row, c: Check): (r: Option<Alert>)
    ensures r.Some? <==> Grade(c) != Normal
    ensures r.Some? ==> r.value.pondId == id && r.value.isActive && r.value.parameter == c.name
    ensures r.Some? ==> (r.value.severity == SeverityCritical <==> Grade(c) == Critical)
  {
    var stamp := CsvTime(Cell(row, "Timestamp"));
    if c.critical then
      Some(Alert(LevelId(id, c.name, true), id, PondName(id), c.name,
        LevelMessage(c.icon, true, c.value, c.unit), SeverityCritical, true, PondLocation(id),
        stamp, None, Notified(true, true, true)))
    else if c.warning then
      Some(Alert(LevelId(id, c.name, false), id, PondName(id), c.name,
        LevelMessage(c.icon, false, c.value, c.unit), SeverityWarning, true, PondLocation(id),
        stamp, None, Notified(true, false, true)))
    else None
  }

  /** The alerts of a run of table entries, in table order. */
  function ChecksAlerts(id: string, row: Row, checks: seq<Check>): (r: seq<Alert>)
    ensures |r| <= |checks|
    ensures forall a :: a in r ==> a.pondId == id && a.isActive
    decreases |checks|
  {
    if |checks| == 0 then []
    else
      var init := ChecksAlerts(id, row, checks[..|checks| - 1]);
      match CheckAlert(id, row, checks[|checks| - 1])
      case Some(a) => init + [a]
      case None => init
  }

  /** The alerts of one pond, from its latest record. */
  function PondAlerts(rows: seq<Row>, id: string): (r: seq<Alert>)
    requires Mentions(rows, id)
    ensures forall a :: a in r ==> a.pondId == id && a.isActive
  {
    var latest := LatestRow(rows, id);
    ChecksAlerts(id, latest, AlertChecks(ReadingsOf(latest)))
  }

  /** The alerts of the ponds `ids`, pond after pond. */
  function AlertsFor(rows: seq<Row>, ids: seq<string>): (r: seq<Alert>)
    requires forall id :: id in ids ==> Mentions(rows, id)
    ensures forall a :: a in r ==> a.isActive && a.pondId in ids
    decreases |ids|
  {
    if |ids| == 0 then []
    else AlertsFor(rows, ids[..|ids| - 1]) + PondAlerts(rows, ids[|ids| - 1])
  }

  const Hour := 60 * 60 * 1000

  /** The two resolved alerts added for demonstration, dated from `now`. */
  function DemoAlerts(now: int): (r: seq<Alert>)
    ensures forall a :: a in r ==> !a.isActive
  {
    [ Alert(FixedId("alert-resolved-1"), "1", "Bassin Alpha", "Température",
        FixedMessage("\U{1F321}\U{FE0F} Température élevée résolue (26.2°C)"), SeverityWarning, false,
        "Section 1 - Nord", Instant(now - 2 * Hour), Some(Instant(now - Hour)), Notified(true, true, true)),
      Alert(FixedId("alert-resolved-2"), "2", "Bassin Beta", "pH",
        FixedMessage("\U{2697}\U{FE0F} Niveau de pH normalisé (7.1)"), SeverityWarning, false,
        "Section 2 - Sud", Instant(now - 4 * Hour), Some(Instant(now - 3 * Hour)), Notified(true, false, true)) ]
  }

  /** `finalAlerts`: every pond's alerts followed by the demonstration alerts. */
  function DerivedAlerts(rows: seq<Row>, now: int): (r: seq<Alert>)
    ensures |r| >= 2
  {
    AlertsFor(rows, PondIds(rows)) + DemoAlerts(now)
  }

  // ---------------------------------------------------------------- counting

  function IsActive(a: Alert): bool {
    a.isActive
  }

  /** `alert.pondId === pondId && alert.isActive`. */
  function ActiveIn(id: string): Alert -> bool {
    (a: Alert) => a.pondId == id && a.isActive
  }

  /** The alert count of a pond summary. */
  function ActiveCount(alerts: seq<Alert>, id: string): nat {
    |Filter(alerts, ActiveIn(id))|
  }

  function IsRaised(s: Status): bool {
    s != Normal
  }

  /** How many grades are not normal. */
  function RaisedCount(statuses: seq<Status>): nat {
    |Filter(statuses, IsRaised)|
  }

  function Grades(checks: seq<Check>): (r: seq<Status>)
    ensures |r| == |checks|
    ensures forall k :: 0 <= k < |checks| ==> r[k] == Grade(checks[k])
  {
    seq(|checks|, k requires 0 <= k < |checks| => Grade(checks[k]))
  }

  /** A run of table entries raises one active alert per entry that is not
      normal, all for its own pond. */
  lemma ChecksAlertsCount(id: string, row: Row, checks: seq<Check>, other: string)
    ensures ActiveCount(ChecksAlerts(id, row, checks), other)
      == if other == id then RaisedCount(Grades(checks)) else 0
  {
    if other != id {
      FilterEmpty(ChecksAlerts(id, row, checks), ActiveIn(other));
    } else {
      OwnAlertsCount(id, row, checks);
    }
  }

  lemma {:induction false} OwnAlertsCount(id: string, row: Row, checks: seq<Check>)
    ensures ActiveCount(ChecksAlerts(id, row, checks), id) == RaisedCount(Grades(checks))
    decreases |checks|
  {
    if |checks| > 0 {
      var init := checks[..|checks| - 1];
      var c := checks[|checks| - 1];
      assert checks == init + [c];
      OwnAlertsCount(id, row, init);
      GradesSnoc(init, c);
      FilterSnoc(Grades(init), Grade(c), IsRaised);
      ChecksAlertsSnoc(id, row, init, c);
    }
  }

  /** One more table entry adds its alert, when it raises one, to the count. */
  lemma ChecksAlertsSnoc(id: string, row: Row, init: seq<Check>, c: Check)
    ensures ActiveCount(ChecksAlerts(id, row, init + [c]), id)
      == ActiveCount(ChecksAlerts(id, row, init), id) + (if Grade(c) != Normal then 1 else 0)
  {
    assert (init + [c])[..|init|] == init;
    var a := CheckAlert(id, row, c);
    if a.Some? {
      FilterSnoc(ChecksAlerts(id, row, init), a.value, ActiveIn(id));
    }
  }

  lemma GradesSnoc(init: seq<Check>, c: Check)
    ensures Grades(init + [c]) == Grades(init) + [Grade(c)]
  {
  }

  /** One pond's alerts count for itself only, once per raised grade. */
  lemma PondAlertsCount(rows: seq<Row>, id: string, other: string)
    requires Mentions(rows, id)
    ensures ActiveCount(PondAlerts(rows, id), other)
      == if other == id then RaisedCount(Grades(AlertChecks(ReadingsOf(LatestRow(rows, id))))) else 0
  {
    var latest := LatestRow(rows, id);
    ChecksAlertsCount(id, latest, AlertChecks(ReadingsOf(latest)), other);
  }

  /** The ponds in `ids` contribute the alerts of `other` only through its own entry. */
  lemma {:induction false} AlertsForCount(rows: seq<Row>, ids: seq<string>, other: string)
    requires forall id :: id in ids ==> Mentions(rows, id)
    requires Distinct(ids)
    ensures ActiveCount(AlertsFor(rows, ids), other)
      == if other in ids then RaisedCount(Grades(AlertChecks(ReadingsOf(LatestRow(rows, other))))) else 0
    decreases |ids|
  {
    if |ids| > 0 {
      var init := ids[..|ids| - 1];
      var last := ids[|ids| - 1];
      assert ids == init + [last];
      AlertsForCount(rows, init, other);
      FilterAppend(AlertsFor(rows, init), PondAlerts(rows, last), ActiveIn(other));
      PondAlertsCount(rows, last, other);
    }
  }

  // ---------------------------------------------------------------- ponds

  /** `{ value, status, timestamp }` of one parameter. */
  datatype Reading = Reading(value: real, status: Status, timestamp: string)

  datatype Parameters = Parameters(
    temperature: Reading, ph: Reading, oxygen: Reading, turbidity: Reading,
    nitrate: Reading, nitrite: Reading, ammonia: Reading, waterLevel: Reading)

  /** A `PondData` summary. */
  datatype Pond = Pond(
    id: string, name: string, location: string, status: PondStatus, parameters: Parameters,
    alerts: nat, lastUpdate: string, createdAt: string, updatedAt: string)

  /** The parameters of a latest record. */
  function ParametersOf(row: Row): (p: Parameters) {
    ParametersFrom(ReadingsOf(row), Cell(row, "Timestamp"))
  }

  /** Each value graded by the band of `getParameterStatus` for its
      parameter, the water level always normal. */
  function ParametersFrom(v: Readings, at: string): (p: Parameters)
    ensures p.waterLevel.status == Normal
  {
    Parameters(
      Reading(Value(v.temperature), Band(Value(v.temperature), Temperature), at),
      Reading(Value(v.ph), Band(Value(v.ph), Ph), at),
      Reading(Value(v.oxygen), Band(Value(v.oxygen), Oxygen), at),
      Reading(Value(v.turbidity), Band(Value(v.turbidity), Turbidity), at),
      Reading(Value(v.nitrate), Band(Value(v.nitrate), Nitrate), at),
      Reading(Value(v.nitrite), Band(Value(v.nitrite), Nitrite), at),
      Reading(Value(v.ammonia), Band(Value(v.ammonia), Ammonia), at),
      Reading(Value(v.waterLevel), Normal, at))
  }

  /** `Object.values(parameters).map(p => p.status)`. */
  function Statuses(p: Parameters): (r: seq<Status>)
    ensures |r| == 8
  {
    [p.temperature.status, p.ph.status, p.oxygen.status, p.turbidity.status,
     p.nitrate.status, p.nitrite.status, p.ammonia.status, p.waterLevel.status]
  }

  /** The summary of pond `id`, with its active alerts counted in `alerts`. */
  function MakePond(rows: seq<Row>, id: string, alerts: seq<Alert>): (p: Pond)
    requires Mentions(rows, id)
    ensures p.id == "pond-" + id
    ensures p.status == OverallStatus(Statuses(p.parameters))
    ensures p.alerts == ActiveCount(alerts, id)
  {
    var latest := LatestRow(rows, id);
    var parameters := ParametersOf(latest);
    var at := Cell(latest, "Timestamp");
    Pond("pond-" + id, PondName(id), PondLocation(id), OverallStatus(Statuses(parameters)),
      parameters, ActiveCount(alerts, id), at, Cell(FirstRow(rows, id), "Timestamp"), at)
  }

  /** `id => summary of pond id`, for the ponds `rows` mentions. */
  function SummaryOf(rows: seq<Row>, alerts: seq<Alert>): string --> Pond {
    id requires Mentions(rows, id) => MakePond(rows, id, alerts)
  }

  /** The summaries of the ponds `ids`, in that order: the `k`-th summary
      is that of the `k`-th pond. */
  function PondsFor(rows: seq<Row>, ids: seq<string>, alerts: seq<Alert>): (r: seq<Pond>)
    requires forall id :: id in ids ==> Mentions(rows, id)
    ensures |r| == |ids|
    ensures forall k :: 0 <= k < |ids| ==> r[k] == MakePond(rows, ids[k], alerts)
  {
    Map(ids, SummaryOf(rows, alerts))
  }

  // ---------------------------------------------------------------- results

  /** The summary grades each latest value as `getParameterStatus` does
      under the parameter's name, the water level aside, always normal. */
  lemma StatusesAreGraded(v: Readings, at: string)
    ensures var s := Statuses(ParametersFrom(v, at));
      s[7] == Normal
      && forall k :: 0 <= k < 7 ==>
           s[k] == ParameterStatus(Value(ValueOf(v, GradedParameters[k])), Name(GradedParameters[k]))
  {
    var s := Statuses(ParametersFrom(v, at));
    forall k | 0 <= k < 7
      ensures s[k] == ParameterStatus(Value(ValueOf(v, GradedParameters[k])), Name(GradedParameters[k]))
    {
      NamedName(GradedParameters[k]);
    }
  }

  /** The alert table grades the latest values exactly as the parameters
      of the pond summary are graded, water level aside. */
  lemma GradesMatchStatuses(v: Readings, at: string)
    ensures Statuses(ParametersFrom(v, at)) == Grades(AlertChecks(v)) + [Normal]
  {
    ChecksAgreeWithStatus(v);
    StatusesAreGraded(v, at);
    var g := Grades(AlertChecks(v));
    var s := Statuses(ParametersFrom(v, at));
    assert forall k :: 0 <= k < 7 ==> s[k] == g[k];
    assert s == g + [Normal];
  }

  /** The alert count of every pond summary, computed over the alerts
      derived from the same rows, is the number of its parameters that are
      not normal: the summaries and the alert list never disagree. */
  lemma PondAlertCount(rows: seq<Row>, now: int, id: string)
    requires Mentions(rows, id)
    ensures MakePond(rows, id, DerivedAlerts(rows, now)).alerts
      == RaisedCount(Statuses(MakePond(rows, id, DerivedAlerts(rows, now)).parameters))
  {
    var ids := PondIds(rows);
    var latest := LatestRow(rows, id);
    FilterAppend(AlertsFor(rows, ids), DemoAlerts(now), ActiveIn(id));
    FilterEmpty(DemoAlerts(now), ActiveIn(id));
    AlertsForCount(rows, ids, id);
    GradesMatchStatuses(ReadingsOf(latest), Cell(latest, "Timestamp"));
    FilterAppend(Grades(AlertChecks(ReadingsOf(latest))), [Normal], IsRaised);
  }

  /** A pond summary is healthy exactly when it counts no active alert,
      and critical exactly when one of its parameters is critical. */
  lemma HealthyIffNoAlerts(rows: seq<Row>, now: int, id: string)
    requires Mentions(rows, id)
    ensures var p := MakePond(rows, id, DerivedAlerts(rows, now));
      (p.status == Healthy <==> p.alerts == 0)
      && (p.status == PondCritical <==> Critical in Statuses(p.parameters))
  {
    var p := MakePond(rows, id, DerivedAlerts(rows, now));
    PondAlertCount(rows, now, id);
    FilterEmpty(Statuses(p.parameters), IsRaised);
  }

  /** The active alerts do not depend on the clock: regenerating the alerts
      from the same rows gives back every active alert, so an alert that
      was resolved reappears while its condition lasts. */
  lemma ActiveAlertsIgnoreClock(rows: seq<Row>, t1: int, t2: int)
    ensures Filter(DerivedAlerts(rows, t1), IsActive) == Filter(DerivedAlerts(rows, t2), IsActive)
  {
    var mine := AlertsFor(rows, PondIds(rows));
    FilterAppend(mine, DemoAlerts(t1), IsActive);
    FilterAppend(mine, DemoAlerts(t2), IsActive);
    FilterEmpty(DemoAlerts(t1), IsActive);
    FilterEmpty(DemoAlerts(t2), IsActive);
  }

  /** Counting a pond's alerts among the active ones (`getActiveAlerts`)
      gives the same number as counting among all of them (`getPonds`). */
  lemma ActiveListCount(alerts: seq<Alert>, id: string)
    ensures ActiveCount(Filter(alerts, IsActive), id) == ActiveCount(alerts, id)
  {
    FilterNarrower(alerts, IsActive, ActiveIn(id));
  }
}
