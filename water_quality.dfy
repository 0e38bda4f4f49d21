/** The water-quality thresholds of lib/mongodb.ts.  The service states them
    twice: `getParameterStatus` grades one value of a named parameter, and
    the `alertChecks` table in `generateAllAlerts` says, per parameter,
    whether the latest value is critical or needs attention.  The two are
    written independently in the source; `ChecksAgreeWithStatus` proves
    that they grade every value alike. */
module WaterQuality {
  import opened Text
  import opened Numbers
  import opened Csv
  import opened Wrappers
  import opened Collections

  /** `"normal" | "warning" | "critical"`. */
  datatype Status = Normal | Warning | Critical

  /** `"healthy" | "warning" | "critical"`, the status of a whole pond. */
  datatype PondStatus = Healthy | PondWarning | PondCritical

  /** The parameters `getParameterStatus` grades, in the order of the alert
      table. */
  datatype Parameter = Temperature | Ph | Oxygen | Turbidity | Nitrate | Nitrite | Ammonia

  const GradedParameters: seq<Parameter> := [Temperature, Ph, Oxygen, Turbidity, Nitrate, Nitrite, Ammonia]

  /** The name the service passes for a parameter. */
  function Name(p: Parameter): string {
    match p
    case Temperature => "temperature"
    case Ph => "ph"
    case Oxygen => "oxygen"
    case Turbidity => "turbidity"
    case Nitrate => "nitrate"
    case Nitrite => "nitrite"
    case Ammonia => "ammonia"
  }

  /** The `case` of the `switch (parameter)` a name selects, if any. */
  function Named(name: string): (r: Option<Parameter>)
    ensures r.Some? ==> Name(r.value) == name
    ensures r.None? ==> forall p :: Name(p) != name
  {
    if name == "temperature" then Some(Temperature)
    else if name == "ph" then Some(Ph)
    else if name == "oxygen" then Some(Oxygen)
    else if name == "turbidity" then Some(Turbidity)
    else if name == "nitrate" then Some(Nitrate)
    else if name == "nitrite" then Some(Nitrite)
    else if name == "ammonia" then Some(Ammonia)
    else None
  }

  /** Every parameter is selected by its own name. */
  lemma NamedName(p: Parameter)
    ensures Named(Name(p)) == Some(p)
  {
  }

  /** One `case` of `getParameterStatus`: the critical band is tested
      before the warning band. */
  function Band(value: real, p: Parameter): Status {
    match p
    case Temperature => if value > 30.0 then Critical else if value > 27.0 || value < 20.0 then Warning else Normal
    case Ph => if value > 9.0 || value < 6.0 then Critical else if value > 8.5 || value < 6.5 then Warning else Normal
    case Oxygen => if value < 3.0 then Critical else if value < 5.0 then Warning else Normal
    case Turbidity => if value > 15.0 then Critical else if value > 10.0 then Warning else Normal
    case Nitrate => if value > 50.0 then Critical else if value > 30.0 then Warning else Normal
    case Nitrite => if value > 1.0 then Critical else if value > 0.5 then Warning else Normal
    case Ammonia => if value > 2.0 then Critical else if value > 1.0 then Warning else Normal
  }

  /** `getParameterStatus(value, parameter)`: the band of the named
      parameter; a name the `switch` does not know (such as `waterLevel`)
      is always normal. */
  function ParameterStatus(value: real, parameter: string): (r: Status)
    ensures (forall p :: Name(p) != parameter) ==> r == Normal
    ensures forall p :: Name(p) == parameter ==> r == Band(value, p)
  {
    match Named(parameter)
    case None => Normal
    case Some(p) => Band(value, p)
  }

  /** `getPondOverallStatus`: the worst status among the parameters. */
  function OverallStatus(statuses: seq<Status>): (r: PondStatus)
    ensures r == PondCritical <==> Critical in statuses
    ensures r == PondWarning <==> Critical !in statuses && Warning in statuses
    ensures r == Healthy <==> forall s :: s in statuses ==> s == Normal
  {
    if Critical in statuses then PondCritical
    else if Warning in statuses then PondWarning
    else
      assert forall s :: s in statuses ==> s == Normal || s == Warning || s == Critical;
      Healthy
  }

  /** The values of the latest record of a pond, each read with
      `Number.parseFloat(cell) || 0`. */
  datatype Readings = Readings(
    temperature: Decimal, ph: Decimal, oxygen: Decimal, turbidity: Decimal,
    nitrate: Decimal, nitrite: Decimal, ammonia: Decimal, waterLevel: Decimal)

  function ReadingsOf(row: Row): Readings {
    Readings(
      ReadOrZero(Cell(row, "Temp")), ReadOrZero(Cell(row, "pH")), ReadOrZero(Cell(row, "DO")),
      ReadOrZero(Cell(row, "Turbidity")), ReadOrZero(Cell(row, "Nitrate")),
      ReadOrZero(Cell(row, "Nitrite")), ReadOrZero(Cell(row, "Ammonia")),
      ReadOrZero(Cell(row, "WaterLevel")))
  }

  /** The value a record gives a graded parameter. */
  function ValueOf(v: Readings, p: Parameter): Decimal {
    match p
    case Temperature => v.temperature
    case Ph => v.ph
    case Oxygen => v.oxygen
    case Turbidity => v.turbidity
    case Nitrate => v.nitrate
    case Nitrite => v.nitrite
    case Ammonia => v.ammonia
  }

  /** One entry of the alert table: the French label, the value, whether it
      is critical, whether it needs attention, the unit and the icon. */
  datatype Check = Check(name: string, value: Decimal, critical: bool, warning: bool, unit: string, icon: string)

  /** The grade an alert-table entry gives: critical first, then attention. */
  function Grade(c: Check): Status {
    if c.critical then Critical else if c.warning then Warning else Normal
  }

  /** The entry of the alert table for parameter `p` with value `d`.  Its
      thresholds are written apart from those of `getParameterStatus`; the
      entry grades the value exactly as that function's band does. */
  function CheckOf(p: Parameter, d: Decimal): (c: Check)
    ensures c.value == d && Grade(c) == Band(Value(d), p)
  {
    var x := Value(d);
    match p
    case Temperature => Check("Température", d, x > 30.0, x > 27.0 || x < 20.0, "°C", "\U{1F321}\U{FE0F}")
    case Ph => Check("pH", d, x > 9.0 || x < 6.0, x > 8.5 || x < 6.5, "", "\U{2697}\U{FE0F}")
    case Oxygen => Check("Oxygène", d, x < 3.0, x < 5.0, "mg/L", "\U{1F4A7}")
    case Turbidity => Check("Turbidité", d, x > 15.0, x > 10.0, "NTU", "\U{1F30A}")
    case Nitrate => Check("Nitrate", d, x > 50.0, x > 30.0, "mg/L", "\U{1F9EA}")
    case Nitrite => Check("Nitrite", d, x > 1.0, x > 0.5, "mg/L", "\U{1F9EA}")
    case Ammonia => Check("Ammoniac", d, x > 2.0, x > 1.0, "mg/L", "\U{26A0}\U{FE0F}")
  }

  /** The entry of the alert table for parameter `p` of a record. */
  function EntryOf(v: Readings): Parameter -> Check {
    p => CheckOf(p, ValueOf(v, p))
  }

  /** The `alertChecks` table for the latest values of a pond: one entry
      per graded parameter, in order. */
  function AlertChecks(v: Readings): (r: seq<Check>)
    ensures |r| == |GradedParameters|
    ensures forall k :: 0 <= k < |r| ==> r[k] == CheckOf(GradedParameters[k], ValueOf(v, GradedParameters[k]))
  {
    Map(GradedParameters, EntryOf(v))
  }

  /** The alert table and the status table grade every value alike: an
      entry raises a critical (attention) alert exactly when
      `getParameterStatus` gives the same value, under the parameter's
      name, a critical (warning) status. */
  lemma ChecksAgreeWithStatus(v: Readings)
    ensures forall k :: 0 <= k < |GradedParameters| ==>
      Grade(AlertChecks(v)[k])
        == ParameterStatus(Value(ValueOf(v, GradedParameters[k])), Name(GradedParameters[k]))
  {
    forall k | 0 <= k < |GradedParameters|
      ensures Grade(AlertChecks(v)[k])
        == ParameterStatus(Value(ValueOf(v, GradedParameters[k])), Name(GradedParameters[k]))
    {
      NamedName(GradedParameters[k]);
    }
  }
}
