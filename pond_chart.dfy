/** The single-parameter chart (components/pond-chart.tsx): which view it
    renders, which points it keeps and how it labels them, the Y-axis
    domain and the X-axis tick settings.  A point whose value is not a
    number, or is `NaN`, has value `None`; a missing time label is the
    empty text. */
module PondChart {
  import opened Wrappers
  import opened Text
  import opened Collections
  import opened Numbers
  import opened EnhancedPondsPage

  datatype InputPoint = InputPoint(time: string, value: Option<real>)

  datatype ChartPoint = ChartPoint(time: string, value: real, originalValue: real)

  // ---------------------------------------------------------------- points

  predicate IsValid(p: InputPoint) { p.value.Some? }

  /** The label of the point at 1-based position `n`. */
  function Label(time: string, n: nat): (r: string)
    ensures time != "" ==> r == time
    ensures r != ""
  {
    if time != "" then time else "Point " + NatText(n)
  }

  /** The filter and map of the component: the valid points, in order,
      each labelled by its time or by its position among them, with its
      value rounded and the original kept. */
  function Processed(data: seq<InputPoint>): (r: seq<ChartPoint>)
    ensures |r| == |Filter(data, IsValid)|
    ensures forall i :: 0 <= i < |r| ==>
      var p := Filter(data, IsValid)[i];
      p.value.Some? && r[i] == ChartPoint(Label(p.time, i + 1), Fixed2(p.value.value), p.value.value)
  {
    var valid := Filter(data, IsValid);
    assert forall i :: 0 <= i < |valid| ==> valid[i].value.Some? by {
      forall i | 0 <= i < |valid| ensures valid[i].value.Some? {
        assert valid[i] in valid;
      }
    }
    seq(|valid|, i requires 0 <= i < |valid| =>
      ChartPoint(Label(valid[i].time, i + 1), Fixed2(valid[i].value.value), valid[i].value.value))
  }

  /** No point is kept exactly when no point is valid. */
  lemma ProcessedEmpty(data: seq<InputPoint>)
    ensures Processed(data) == [] <==> forall p :: p in data ==> p.value.None?
  {
    FilterEmpty(data, IsValid);
  }

  // ---------------------------------------------------------------- axes

  function Values(points: seq<ChartPoint>): (r: seq<real>)
    ensures |r| == |points|
    ensures forall i :: 0 <= i < |r| ==> r[i] == points[i].value
  {
    seq(|points|, i requires 0 <= i < |points| => points[i].value)
  }

  /** `Math.min(...values)`. */
  function MinOf(values: seq<real>): (m: real)
    requires |values| > 0
    ensures m in values
    ensures forall v :: v in values ==> m <= v
    decreases |values|
  {
    if |values| == 1 then values[0]
    else
      var init := values[..|values| - 1];
      var last := values[|values| - 1];
      assert values == init + [last];
      var m := MinOf(init);
      if last < m then last else m
  }

  /** `Math.max(...values)`. */
  function MaxOf(values: seq<real>): (m: real)
    requires |values| > 0
    ensures m in values
    ensures forall v :: v in values ==> v <= m
    decreases |values|
  {
    if |values| == 1 then values[0]
    else
      var init := values[..|values| - 1];
      var last := values[|values| - 1];
      assert values == init + [last];
      var m := MaxOf(init);
      if last > m then last else m
  }

  /** The Y-axis domain: ten percent of the range, and at least 0.1, added
      on both sides, with the lower end not below 0.  Every value lies
      strictly below the upper end, and, when no value is negative, at or
      above the lower end. */
  function YDomain(values: seq<real>): (d: (real, real))
    requires |values| > 0
    ensures d.0 >= 0.0
    ensures d.1 >= MaxOf(values) + 0.1
    ensures forall v :: v in values ==> v < d.1
    ensures (forall v :: v in values ==> v >= 0.0) ==> forall v :: v in values ==> d.0 <= v
    ensures MaxOf(values) > -0.1 ==> d.0 < d.1
  {
    var lo := MinOf(values);
    var hi := MaxOf(values);
    var spread := (hi - lo) * 0.1;
    var padding := if spread > 0.1 then spread else 0.1;
    (if lo - padding > 0.0 then lo - padding else 0.0, hi + padding)
  }

  /** When every value is below -0.1 the lower end, held at 0, lies above
      the upper end: the domain of [-5] is [0, -4.9]. */
  lemma NegativeValuesInvertDomain()
    ensures YDomain([-5.0]) == (0.0, -4.9)
  {
    assert MinOf([-5.0]) == -5.0 && MaxOf([-5.0]) == -5.0;
  }

  /** The X-axis settings: slanted labels on a taller axis beyond ten
      points, and beyond fifteen points a tick interval of an eighth of
      the points. */
  datatype XAxis = XAxis(angle: int, height: nat, interval: nat)

  function XAxisFor(n: nat): (x: XAxis)
    ensures x.angle == -45 <==> n > 10
    ensures x.angle == 0 <==> n <= 10
    ensures x.height == (if n > 10 then 60 else 30)
    ensures x.interval == (if n > 15 then n / 8 else 0)
  {
    XAxis(if n > 10 then -45 else 0, if n > 10 then 60 else 30, if n > 15 then n / 8 else 0)
  }

  /** Beyond fifteen points some ticks are skipped, and a tick every
      `interval + 1` points gives fewer than nine labels. */
  lemma LongAxisThinned(n: nat)
    requires n > 15
    ensures XAxisFor(n).interval >= 1
    ensures n < 8 * (XAxisFor(n).interval + 1)
  {
  }

  // ---------------------------------------------------------------- view

  datatype View =
    | Placeholder
    | NoValidData
    | ChartView(points: seq<ChartPoint>, domain: (real, real), xAxis: XAxis)

  /** What `PondChart` renders: the loading placeholder for missing or
      empty data, the "no valid data" note when no point is valid, else
      the chart of the kept points. */
  function Render(data: Option<seq<InputPoint>>): (v: View)
    ensures v == Placeholder <==> data.None? || |data.value| == 0
    ensures v == NoValidData <==> data.Some? && |data.value| > 0 && forall p :: p in data.value ==> p.value.None?
    ensures v.ChartView? ==>
      v.points == Processed(data.value) && |v.points| > 0
      && v.domain == YDomain(Values(v.points)) && v.xAxis == XAxisFor(|v.points|)
  {
    if data.None? || |data.value| == 0 then Placeholder
    else
      var points := Processed(data.value);
      ProcessedEmpty(data.value);
      if |points| == 0 then NoValidData
      else ChartView(points, YDomain(Values(points)), XAxisFor(|points|))
  }
}
