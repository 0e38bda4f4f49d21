/** Chart series (lib/chart-data.ts): the real history of a pond when the
    lookup yields any point, otherwise a generated series of fixed length
    around a base value.  The clock reading and the numbers `Math.random`
    draws are parameters; the locale time labels are left out, so a point
    keeps its value and its instant. */
module ChartData {
  import opened Wrappers
  import opened Sorting
  import opened Collections
  import opened History
  import opened Csv
  import opened Numbers

  datatype Language = En | Fr

  const HourMs := 60 * 60 * 1000

  /** The time ranges the labels table knows. */
  const Ranges: seq<string> := ["24h", "7d", "1m", "3m", "1y"]

  /** `getDefaultValue`: the typical value of a parameter, 0 when unknown. */
  function DefaultValue(parameter: string): (r: real)
    ensures r >= 0.0
  {
    if parameter == "temperature" then 25.0
    else if parameter == "ph" then 7.2
    else if parameter == "oxygen" then 6.5
    else if parameter == "turbidity" then 5.0
    else if parameter == "nitrate" then 20.0
    else if parameter == "nitrite" then 0.3
    else if parameter == "ammonia" then 0.5
    else if parameter == "waterLevel" then 1.5
    else 0.0
  }

  /** `getParameterVariance`: the spread of the generated values, 1 when
      the parameter is unknown. */
  function Variance(parameter: string): (r: real)
    ensures r > 0.0
  {
    if parameter == "temperature" then 3.0
    else if parameter == "ph" then 0.5
    else if parameter == "oxygen" then 2.0
    else if parameter == "turbidity" then 2.0
    else if parameter == "nitrate" then 5.0
    else if parameter == "nitrite" then 0.2
    else if parameter == "ammonia" then 0.3
    else if parameter == "waterLevel" then 0.2
    else 1.0
  }

  /** The two tables know the same parameters as the history's column map:
      exactly these have a default other than 0, and every other name gets
      the neutral spread 1. */
  lemma TablesKnowMappedParameters(parameter: string)
    ensures DefaultValue(parameter) != 0.0 <==> ColumnOf(parameter).Some?
    ensures ColumnOf(parameter).None? ==> Variance(parameter) == 1.0
  {
  }

  /** How many fallback points there are and how far apart they lie. */
  datatype Spacing = Spacing(count: nat, step: nat)

  /** The `switch (timeRange)` of `generateFallbackData`. */
  function SpacingOf(range: string): (r: Spacing)
    ensures r.count > 0 && r.step > 0
  {
    if range == "24h" then Spacing(24, HourMs)
    else if range == "7d" then Spacing(14, 12 * HourMs)
    else Spacing(20, HourMs)
  }

  /** `currentValue || getDefaultValue(parameter)`: a current value of 0 is
      replaced by the default. */
  function Base(currentValue: real, parameter: string): (r: real)
    ensures currentValue != 0.0 ==> r == currentValue
    ensures currentValue == 0.0 ==> r == DefaultValue(parameter)
  {
    if currentValue != 0.0 then currentValue else DefaultValue(parameter)
  }

  function Max0(x: real): (r: real)
    ensures r >= 0.0 && r >= x && (r == 0.0 || r == x)
  {
    if x < 0.0 then 0.0 else x
  }

  /** The `k`-th of `n` fallback points, drawn with `random`: the base moved
      by `(random - 0.5) * variance`, kept non-negative and rounded to two
      decimals, at `now` less `n - 1 - k` steps. */
  function FallbackPoint(base: real, variance: real, random: real, now: int, spacing: Spacing, k: nat): Point {
    Point(Round2(Max0(base + (random - 0.5) * variance)), now - (spacing.count - 1 - k) * spacing.step)
  }

  /** The whole fallback series, one point per draw of `randoms`. */
  function FallbackSeries(currentValue: real, parameter: string, range: string, now: int, randoms: seq<real>): seq<Point>
    requires |randoms| == SpacingOf(range).count
  {
    seq(|randoms|, k requires 0 <= k < |randoms| =>
      FallbackPoint(Base(currentValue, parameter), Variance(parameter), randoms[k], now, SpacingOf(range), k))
  }

  /** `generateFallbackData`: counts `i` down from `n - 1` to 0 and pushes
      the point `i` steps before `now`, each with the next random draw. */
  method GenerateFallbackData(currentValue: real, parameter: string, range: string, now: int, randoms: seq<real>)
    returns (data: seq<Point>)
    requires |randoms| == SpacingOf(range).count
    ensures data == FallbackSeries(currentValue, parameter, range, now, randoms)
  {
    var base := Base(currentValue, parameter);
    var variance := Variance(parameter);
    var spacing := SpacingOf(range);
    var n := spacing.count;
    data := [];
    var i: int := n - 1;
    while i >= 0
      invariant -1 <= i <= n - 1
      invariant |data| == n - 1 - i
      invariant forall k :: 0 <= k < |data| ==> data[k] == FallbackPoint(base, variance, randoms[k], now, spacing, k)
    {
      var k := n - 1 - i;
      var value := Max0(base + (randoms[k] - 0.5) * variance);
      data := data + [Point(Round2(value), now - i * spacing.step)];
      i := i - 1;
    }
  }

  /** `Math.round` to two decimals keeps a value that is non-negative
      non-negative. */
  lemma Round2NonNegative(v: real)
    requires v >= 0.0
    ensures Round2(v) >= 0.0
  {
    assert v * 100.0 + 0.5 >= 0.0;
  }

  /** The fallback series has the length of its range, ends at `now`, has
      strictly ascending instants an equal step apart, and never holds a
      negative value. */
  lemma FallbackShape(currentValue: real, parameter: string, range: string, now: int, randoms: seq<real>)
    requires |randoms| == SpacingOf(range).count
    ensures var s := FallbackSeries(currentValue, parameter, range, now, randoms);
      |s| == SpacingOf(range).count
      && s[|s| - 1].at == now
      && s[0].at == now - (|s| - 1) * SpacingOf(range).step
      && (forall j, k :: 0 <= j < k < |s| ==> s[j].at < s[k].at)
      && (forall k :: 0 <= k && k + 1 < |s| ==> s[k + 1].at - s[k].at == SpacingOf(range).step)
      && (forall k :: 0 <= k < |s| ==> s[k].value >= 0.0)
  {
    FallbackInstants(currentValue, parameter, range, now, randoms);
    var s := FallbackSeries(currentValue, parameter, range, now, randoms);
    forall k | 0 <= k < |s| ensures s[k].value >= 0.0 {
      Round2NonNegative(Max0(Base(currentValue, parameter) + (randoms[k] - 0.5) * Variance(parameter)));
    }
  }

  /** The instants of the fallback series: ascending, one step apart,
      ending at `now`. */
  lemma FallbackInstants(currentValue: real, parameter: string, range: string, now: int, randoms: seq<real>)
    requires |randoms| == SpacingOf(range).count
    ensures var s := FallbackSeries(currentValue, parameter, range, now, randoms);
      s[|s| - 1].at == now
      && s[0].at == now - (|s| - 1) * SpacingOf(range).step
      && (forall j, k :: 0 <= j < k < |s| ==> s[j].at < s[k].at)
      && (forall k :: 0 <= k && k + 1 < |s| ==> s[k + 1].at - s[k].at == SpacingOf(range).step)
  {
    var s := FallbackSeries(currentValue, parameter, range, now, randoms);
    var n := |s|;
    var step := SpacingOf(range).step;
    assert forall k :: 0 <= k < n ==> s[k].at == now - (n - 1 - k) * step;
    forall k | 0 <= k && k + 1 < n ensures s[k + 1].at - s[k].at == step {
      assert (n - 1 - k) * step == (n - 1 - (k + 1)) * step + step;
    }
    forall j, k | 0 <= j < k < n ensures s[j].at < s[k].at {
      StepsApart(n - 1 - k, n - 1 - j, step);
    }
  }

  /** More steps reach further back. */
  lemma StepsApart(a: int, b: int, step: nat)
    requires a < b && step > 0
    ensures a * step < b * step
  {
    assert b * step == a * step + (b - a) * step;
  }

  /** With draws in [0, 1) every fallback value lies within half the
      spread of the base, up to the clamp at 0 and the rounding. */
  lemma FallbackNearBase(currentValue: real, parameter: string, range: string, now: int, randoms: seq<real>, k: nat)
    requires |randoms| == SpacingOf(range).count && k < |randoms|
    requires 0.0 <= randoms[k] < 1.0
    ensures var v := FallbackSeries(currentValue, parameter, range, now, randoms)[k].value;
      var base := Base(currentValue, parameter);
      var half := Variance(parameter) / 2.0;
      base - half - 0.005 < v < Max0(base + half) + 0.005
  {
    var variance := Variance(parameter);
    var moved := Base(currentValue, parameter) + (randoms[k] - 0.5) * variance;
    assert (randoms[k] - 0.5) * variance < 0.5 * variance;
    assert (randoms[k] - 0.5) * variance >= -0.5 * variance;
    assert Max0(moved) <= Max0(Base(currentValue, parameter) + variance / 2.0);
  }

  /** `Number(value.toFixed(2))` and the timestamp of a real point. */
  function Processed(p: Point): Point {
    Point(Fixed2(p.value), p.at)
  }

  /** The real branch: every point rounded to two decimals, then sorted by
      ascending instant with equal instants kept in order. */
  function RealSeries(points: seq<Point>): seq<Point> {
    Sorted(Map(points, Processed), (p: Point) => p.at)
  }

  /** A real point is rounded with `toFixed(2)`, not with `Math.round` as
      the history and the fallback are: on a tie below zero the two part,
      -0.125 becoming -0.13 here and -0.12 there. */
  lemma Fixed2TiesAwayFromZero()
    ensures Fixed2(-0.125) == -0.13
    ensures Round2(-0.125) == -0.12
  {
  }

  /** The real series is in ascending time order and holds each point,
      rounded, exactly once; points already rounded, as the history's are,
      come back unchanged, only reordered. */
  lemma RealSeriesShape(points: seq<Point>)
    ensures Ascending(RealSeries(points))
    ensures multiset(RealSeries(points)) == multiset(Map(points, Processed))
    ensures KeepsTies(Map(points, Processed), RealSeries(points), (p: Point) => p.at)
    ensures (forall p :: p in points ==> Fixed2(p.value) == p.value) ==>
      multiset(RealSeries(points)) == multiset(points)
  {
    var r := RealSeries(points);
    assert forall i, j :: 0 <= i < j < |r| ==> (((p: Point) => p.at)(r[i])) <= (((p: Point) => p.at)(r[j]));
    if forall p :: p in points ==> Fixed2(p.value) == p.value {
      var m := Map(points, Processed);
      assert forall k :: 0 <= k < |points| ==> m[k] == points[k];
      assert m == points;
    }
  }

  /** The history's points are whole hundredths already, which
      `toFixed(2)` leaves as they are. */
  lemma HistoryPointsRounded(rows: seq<Row>, column: string, timeOf: string -> int)
    ensures forall p :: p in PointsOf(rows, column, timeOf) ==> Fixed2(p.value) == p.value
  {
    forall p | p in PointsOf(rows, column, timeOf) ensures Fixed2(p.value) == p.value {
      var k :| 0 <= k < |rows| && PointsOf(rows, column, timeOf)[k] == p;
      Fixed2OfCents((Value(ReadOrZero(Cell(rows[k], column))) * 100.0 + 0.5).Floor);
    }
  }

  /** The real points are used when a pond is named and its lookup yields
      at least one point; a lookup that throws is `None`. */
  predicate UsesReal(pondId: string, lookup: Option<seq<Point>>) {
    pondId != "" && lookup.Some? && |lookup.value| > 0
  }

  /** `generateHistoricalData`: the real series when there is one, the
      fallback series otherwise. */
  method GenerateHistoricalData(currentValue: real, parameter: string, range: string, pondId: string,
                                lookup: Option<seq<Point>>, now: int, randoms: seq<real>)
    returns (series: seq<Point>)
    requires |randoms| == SpacingOf(range).count
    ensures UsesReal(pondId, lookup) ==> series == RealSeries(lookup.value)
    ensures !UsesReal(pondId, lookup) ==> series == FallbackSeries(currentValue, parameter, range, now, randoms)
    ensures |series| > 0
  {
    if UsesReal(pondId, lookup) {
      series := RealSeries(lookup.value);
    } else {
      series := GenerateFallbackData(currentValue, parameter, range, now, randoms);
    }
  }

  /** `getTimeRangeLabel(range, language)`: the entry of the labels table;
      a range outside it makes the lookup throw. */
  function TimeRangeLabel(range: string, language: Language): (r: Option<string>)
    ensures r.Some? <==> range in Ranges
  {
    match (range, language)
    case ("24h", En) => Some("Last 24 Hours")
    case ("24h", Fr) => Some("24 Dernières Heures")
    case ("7d", En) => Some("Last 7 Days")
    case ("7d", Fr) => Some("7 Derniers Jours")
    case ("1m", En) => Some("Last Month")
    case ("1m", Fr) => Some("Dernier Mois")
    case ("3m", En) => Some("Last 3 Months")
    case ("3m", Fr) => Some("3 Derniers Mois")
    case ("1y", En) => Some("Last Year")
    case ("1y", Fr) => Some("Dernière Année")
    case _ => None
  }

  /** Within one language the known ranges have different labels. */
  lemma LabelsTellRangesApart(a: string, b: string, language: Language)
    requires a in Ranges && b in Ranges && a != b
    ensures TimeRangeLabel(a, language) != TimeRangeLabel(b, language)
  {
  }
}
