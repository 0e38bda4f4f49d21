/** The live chart (components/realtime-chart.tsx): the pairing of the
    response's timestamps with its values, the trend of the last five
    points against the five before them, the load state, and the colour
    rules.  A value the response lacks (`values[index]` past the end) is
    `None`, and so is any average that includes one, as `NaN` would be. */
module RealtimeChart {
  import opened Wrappers
  import opened DashboardHooks

  // ---------------------------------------------------------------- transform

  datatype ChartPoint = ChartPoint(timestamp: string, value: Option<real>)

  /** `timestamps.map((timestamp, index) => ...)`: one point per timestamp,
      paired with the value at the same index. */
  function Transform(timestamps: seq<string>, values: seq<real>): (r: seq<ChartPoint>)
    ensures |r| == |timestamps|
    ensures forall i :: 0 <= i < |r| ==> r[i].timestamp == timestamps[i]
    ensures forall i :: 0 <= i < |r| ==> (r[i].value.Some? <==> i < |values|)
    ensures forall i :: 0 <= i < |r| && i < |values| ==> r[i].value == Some(values[i])
    decreases |timestamps|
  {
    if |timestamps| == 0 then []
    else
      var k := |timestamps| - 1;
      Transform(timestamps[..k], values) + [ChartPoint(timestamps[k], if k < |values| then Some(values[k]) else None)]
  }

  // ---------------------------------------------------------------- trend

  datatype Trend = Up | Down | Stable

  /** `transformed.slice(-5)`. */
  function Recent(points: seq<ChartPoint>): (r: seq<ChartPoint>)
    ensures |r| == if |points| < 5 then |points| else 5
    ensures r == points[|points| - |r|..]
  {
    if |points| < 5 then points else points[|points| - 5..]
  }

  /** `transformed.slice(-10, -5)`: the up to five points before the
      recent ones. */
  function Older(points: seq<ChartPoint>): (r: seq<ChartPoint>)
    ensures |points| <= 5 ==> r == []
    ensures 5 < |points| <= 10 ==> r == points[..|points| - 5]
    ensures 10 < |points| ==> r == points[|points| - 10..|points| - 5]
  {
    if |points| <= 5 then []
    else if |points| <= 10 then points[..|points| - 5]
    else points[|points| - 10..|points| - 5]
  }

  /** The sum of the values, `None` once one is missing. */
  function Sum(points: seq<ChartPoint>): Option<real>
    decreases |points|
  {
    if |points| == 0 then Some(0.0)
    else
      var init := Sum(points[..|points| - 1]);
      var last := points[|points| - 1].value;
      if init.Some? && last.Some? then Some(init.value + last.value) else None
  }

  function Mean(points: seq<ChartPoint>): Option<real>
    requires |points| > 0
  {
    var s := Sum(points);
    if s.Some? then Some(s.value / |points| as real) else None
  }

  /** The comparison of the two averages as written: stable when they
      differ by less than 2% of the older one, else up when the recent one
      is larger, else down.  Every comparison with a `NaN` is false, so a
      missing average gives down. */
  function TrendAsWritten(recent: Option<real>, older: Option<real>): (t: Trend)
    ensures recent.None? || older.None? ==> t == Down
    ensures recent.Some? && older.Some? && older.value > 0.0 ==>
      (t == Up <==> recent.value - older.value >= older.value * 0.02)
      && (t == Down <==> older.value - recent.value >= older.value * 0.02)
  {
    if recent.Some? && older.Some? then
      var difference := if recent.value < older.value then older.value - recent.value else recent.value - older.value;
      if difference < older.value * 0.02 then Stable
      else if recent.value > older.value then Up
      else Down
    else Down
  }

  /** A series of ten zeros reads as falling: its threshold is 0, which no
      difference is below, and 0 is not above 0. */
  lemma ZerosTrendDown()
    ensures var zeros := seq(10, i => ChartPoint("t", Some(0.0)));
      TrendAsWritten(Mean(Recent(zeros)), Mean(Older(zeros))) == Down
  {
    var zeros := seq(10, i => ChartPoint("t", Some(0.0)));
    SumOfZeros(Recent(zeros));
    SumOfZeros(Older(zeros));
  }

  lemma {:induction false} SumOfZeros(points: seq<ChartPoint>)
    requires forall i :: 0 <= i < |points| ==> points[i].value == Some(0.0)
    ensures Sum(points) == Some(0.0)
    decreases |points|
  {
    if |points| > 0 {
      SumOfZeros(points[..|points| - 1]);
    }
  }

  /** Equal averages of a negative quantity read as falling too. */
  lemma NegativeLevelTrendDown(level: real)
    requires level < 0.0
    ensures TrendAsWritten(Some(level), Some(level)) == Down
  {
  }

  /** The intended comparison: stable within 2% of the older average's
      magnitude, so equal averages are stable whatever their sign. */
  function TrendCorrected(recent: Option<real>, older: Option<real>): (t: Trend)
    ensures recent.None? || older.None? ==> t == Down
  {
    if recent.Some? && older.Some? then
      var difference := if recent.value < older.value then older.value - recent.value else recent.value - older.value;
      var magnitude := if older.value < 0.0 then -older.value else older.value;
      if difference <= magnitude * 0.02 then Stable
      else if recent.value > older.value then Up
      else Down
    else Down
  }

  /** The corrected rule: equal averages are stable, a rise beyond the
      tolerance is up and a fall beyond it is down; and where the older
      average is positive and not exactly at the tolerance it agrees with
      the rule as written. */
  lemma TrendCorrectedMeaning(r: real, o: real)
    ensures r == o ==> TrendCorrected(Some(r), Some(o)) == Stable
    ensures TrendCorrected(Some(r), Some(o)) == Up <==> r - o > (if o < 0.0 then -o else o) * 0.02
    ensures TrendCorrected(Some(r), Some(o)) == Down <==> o - r > (if o < 0.0 then -o else o) * 0.02
    ensures o > 0.0 && (r - o != o * 0.02) && (o - r != o * 0.02) ==>
      TrendCorrected(Some(r), Some(o)) == TrendAsWritten(Some(r), Some(o))
  {
  }

  // ---------------------------------------------------------------- load state

  datatype RealtimeResponse = RealtimeResponse(timestamps: seq<string>, values: seq<real>)

  /** The state of `RealtimeChart`. */
  class Chart {
    var chartData: seq<ChartPoint>
    var trend: Option<Trend>
    var loading: bool
    var error: Option<string>
    /** Whether the trend uses the corrected comparison. */
    const corrected: bool

    constructor(corrected: bool)
      ensures this.corrected == corrected
      ensures chartData == [] && trend == None && loading && error == None
    {
      this.corrected := corrected;
      chartData := [];
      trend := None;
      loading := true;
      error := None;
    }

    /** The trend of a series with more than five points. */
    function TrendOf(points: seq<ChartPoint>): Trend
      requires |points| > 5
      reads this
    {
      if corrected then TrendCorrected(Mean(Recent(points)), Mean(Older(points)))
      else TrendAsWritten(Mean(Recent(points)), Mean(Older(points)))
    }

    /** `loadRealtimeData`, called by a closure that saw `loading` as
        `seenLoading`: the interval keeps calling the closure of the render
        that installed it, which saw the first load still pending, so the
        value it tests need not be the current one.  Such a closure clears
        the error and ends loading; a response replaces the points and,
        when there are more than five, the trend; a failure records its
        message and ends loading.  `loading` never becomes true again, so a
        closure that saw it false sees the current value. */
    method Load(response: Outcome<RealtimeResponse>, seenLoading: bool)
      requires seenLoading || !loading
      modifies this
      ensures !loading
      ensures response.Success? ==>
        chartData == Transform(response.value.timestamps, response.value.values)
        && error == (if seenLoading then None else old(error))
        && trend == (if |chartData| > 5 then Some(TrendOf(chartData)) else old(trend))
      ensures response.Failure? ==>
        chartData == old(chartData) && trend == old(trend)
        && error == Some(ErrorText(response.thrown, "Failed to load realtime data"))
    {
      if seenLoading {
        error := None;
      }
      match response {
        case Success(data) =>
          var transformed := Transform(data.timestamps, data.values);
          chartData := transformed;
          if |transformed| >= 2 {
            var recent := Recent(transformed);
            var older := Older(transformed);
            if |recent| > 0 && |older| > 0 {
              trend := Some(TrendOf(transformed));
            }
          }
          if seenLoading {
            loading := false;
          }
        case Failure(thrown) =>
          error := Some(ErrorText(thrown, "Failed to load realtime data"));
          loading := false;
      }
    }
  }

  // ---------------------------------------------------------------- colours

  datatype Thresholds = Thresholds(criticalLow: Option<real>, criticalHigh: Option<real>,
                                   warningLow: Option<real>, warningHigh: Option<real>)

  datatype Color = Gray | Red | Yellow | Green

  predicate Below(v: real, bound: Option<real>) { bound.Some? && v < bound.value }
  predicate Above(v: real, bound: Option<real>) { bound.Some? && v > bound.value }

  /** `getStatusColor`: gray without a value or thresholds; red past a
      critical bound, tested first; yellow past a warning bound only;
      green otherwise. */
  function StatusColor(value: Option<real>, thresholds: Option<Thresholds>): (c: Color)
    ensures c == Gray <==> value.None? || thresholds.None?
    ensures c == Red <==> (value.Some? && thresholds.Some?
      && (Below(value.value, thresholds.value.criticalLow) || Above(value.value, thresholds.value.criticalHigh)))
    ensures c == Yellow ==> Below(value.value, thresholds.value.warningLow) || Above(value.value, thresholds.value.warningHigh)
  {
    if value.None? || thresholds.None? then Gray
    else
      var v := value.value;
      var t := thresholds.value;
      if Below(v, t.criticalLow) || Above(v, t.criticalHigh) then Red
      else if Below(v, t.warningLow) || Above(v, t.warningHigh) then Yellow
      else Green
  }

  function ColorRank(c: Color): nat {
    match c
    case Gray => 0
    case Green => 0
    case Yellow => 1
    case Red => 2
  }

  /** Whatever the thresholds, a value between two others is never
      coloured worse than both of them. */
  lemma ColorBandsNested(t: Thresholds, x: real, y: real, z: real)
    requires x <= y <= z
    ensures var ry := ColorRank(StatusColor(Some(y), Some(t)));
      ry <= ColorRank(StatusColor(Some(x), Some(t))) || ry <= ColorRank(StatusColor(Some(z), Some(t)))
  {
  }

  const DefaultColor := "#3b82f6"

  const ParameterColors: map<string, string> := map[
    "temperature" := "#f97316", "ph" := "#a855f7", "dissolved_oxygen" := "#3b82f6",
    "water_level" := "#06b6d4", "turbidity" := "#6b7280", "nitrate" := "#10b981",
    "nitrite" := "#f59e0b", "ammonia" := "#ef4444"]

  /** `getParameterColor`: the table's colour, else the default blue. */
  function ParameterColor(parameter: string): (c: string)
    ensures parameter !in ParameterColors ==> c == DefaultColor
    ensures parameter in ParameterColors ==> c == ParameterColors[parameter]
    ensures c != ""
  {
    if parameter in ParameterColors then ParameterColors[parameter] else DefaultColor
  }
}
