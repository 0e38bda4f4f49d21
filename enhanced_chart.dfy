/** The multi-parameter chart (components/enhanced-chart.tsx): how the
    response's per-parameter series are merged into one list of points,
    the trend arrow of a parameter, and the load state.  The response's
    `chart_data` record is given as its entries, in `Object.entries`
    order. */
module EnhancedChart {
  import opened Wrappers
  import opened Collections
  import opened DashboardHooks

  /** `stats` of one parameter; `null` or `NaN` fields are `None`. */
  datatype ParamStats = ParamStats(latest: Option<real>, avg: Option<real>)

  /** One parameter's series: its time labels, its values and its stats. */
  datatype Series = Series(labels: seq<string>, values: seq<real>, stats: ParamStats)

  type Entry = (string, Series)

  /** A merged point: its time label and a value for each parameter that
      has one at this index. */
  datatype DataPoint = DataPoint(time: string, values: map<string, real>)

  // ---------------------------------------------------------------- transformChartData

  /** The index of the entry the `reduce` picks as the base: the first
      entry with the most labels. */
  function BaseIndex(entries: seq<Entry>): (k: nat)
    requires |entries| > 0
    ensures k < |entries|
    ensures forall j :: 0 <= j < |entries| ==> |entries[j].1.labels| <= |entries[k].1.labels|
    ensures forall j :: 0 <= j < k ==> |entries[j].1.labels| < |entries[k].1.labels|
    decreases |entries|
  {
    if |entries| == 1 then 0
    else
      var k := BaseIndex(entries[..|entries| - 1]);
      if |entries[|entries| - 1].1.labels| > |entries[k].1.labels| then |entries| - 1 else k
  }

  /** The keys the `forEach` assigns on point `index`, each entry in turn,
      for the entries that have a value there. */
  function Assigned(entries: seq<Entry>, index: nat): map<string, real>
    decreases |entries|
  {
    if |entries| == 0 then map[]
    else
      var last := entries[|entries| - 1];
      var init := Assigned(entries[..|entries| - 1], index);
      if index < |last.1.values| then init[last.0 := last.1.values[index]] else init
  }

  /** A point has a key for a parameter exactly when that parameter has a
      value at the point's index. */
  lemma {:induction false} AssignedKeys(entries: seq<Entry>, index: nat, name: string)
    ensures name in Assigned(entries, index) <==>
      exists j :: 0 <= j < |entries| && entries[j].0 == name && index < |entries[j].1.values|
    decreases |entries|
  {
    if |entries| > 0 {
      var init := entries[..|entries| - 1];
      AssignedKeys(init, index, name);
      if name in Assigned(init, index) {
        var j :| 0 <= j < |init| && init[j].0 == name && index < |init[j].1.values|;
        assert entries[j] == init[j];
      }
      if exists j :: 0 <= j < |entries| && entries[j].0 == name && index < |entries[j].1.values| {
        var j :| 0 <= j < |entries| && entries[j].0 == name && index < |entries[j].1.values|;
        if j < |init| { assert init[j] == entries[j]; }
      }
    }
  }

  /** The names of the entries, which a record holds once each. */
  function Names(entries: seq<Entry>): (r: seq<string>)
    ensures |r| == |entries|
    ensures forall j :: 0 <= j < |entries| ==> r[j] == entries[j].0
  {
    seq(|entries|, j requires 0 <= j < |entries| => entries[j].0)
  }

  /** With each name once, the key of a parameter holds its own value. */
  lemma {:induction false} AssignedValue(entries: seq<Entry>, index: nat, j: nat)
    requires Distinct(Names(entries))
    requires j < |entries| && index < |entries[j].1.values|
    ensures entries[j].0 in Assigned(entries, index)
    ensures Assigned(entries, index)[entries[j].0] == entries[j].1.values[index]
    decreases |entries|
  {
    var init := entries[..|entries| - 1];
    var last := entries[|entries| - 1];
    assert Names(init) == Names(entries)[..|entries| - 1];
    if j < |init| {
      AssignedValue(init, index, j);
      assert Names(entries)[j] == entries[j].0;
      assert entries[j].0 in Names(init);
      assert last.0 != entries[j].0;
    }
  }

  /** `transformChartData`: no entries give no points; otherwise one point
      per label of the base series, at that label, with the keys the
      `forEach` assigns. */
  method TransformChartData(entries: seq<Entry>) returns (data: seq<DataPoint>)
    ensures |entries| == 0 ==> data == []
    ensures |entries| > 0 ==> |data| == |entries[BaseIndex(entries)].1.labels|
    ensures |entries| > 0 ==> forall i :: 0 <= i < |data| ==>
      data[i] == DataPoint(entries[BaseIndex(entries)].1.labels[i], Assigned(entries, i))
  {
    if |entries| == 0 {
      return [];
    }
    var labels := entries[BaseIndex(entries)].1.labels;
    data := [];
    var i := 0;
    while i < |labels|
      invariant 0 <= i <= |labels| && |data| == i
      invariant forall k :: 0 <= k < i ==> data[k] == DataPoint(labels[k], Assigned(entries, k))
    {
      var point: map<string, real> := map[];
      var j := 0;
      while j < |entries|
        invariant 0 <= j <= |entries|
        invariant point == Assigned(entries[..j], i)
      {
        assert entries[..j + 1][..j] == entries[..j];
        if i < |entries[j].1.values| {
          point := point[entries[j].0 := entries[j].1.values[i]];
        }
        j := j + 1;
      }
      assert entries[..j] == entries;
      data := data + [DataPoint(labels[i], point)];
      i := i + 1;
    }
  }

  // ---------------------------------------------------------------- getParameterTrend

  datatype Trend = Up | Down

  /** JavaScript truthiness of a number: present and not zero. */
  predicate Truthy(x: Option<real>) { x.Some? && x.value != 0.0 }

  /** `getParameterTrend`: no arrow without stats or with a falsy latest
      value or average (zero included); otherwise up exactly when the
      latest value is above the average. */
  function ParameterTrend(stats: map<string, ParamStats>, param: string): (r: Option<Trend>)
    ensures r.None? <==> param !in stats || !Truthy(stats[param].latest) || !Truthy(stats[param].avg)
    ensures r == Some(Up) <==>
      param in stats && Truthy(stats[param].latest) && Truthy(stats[param].avg)
      && stats[param].latest.value > stats[param].avg.value
  {
    if param !in stats then None
    else
      var s := stats[param];
      if !Truthy(s.latest) || !Truthy(s.avg) then None
      else if s.latest.value > s.avg.value then Some(Up)
      else Some(Down)
  }

  /** `paramStats[param] = data.stats` for each entry in turn. */
  function StatsOf(entries: seq<Entry>): (m: map<string, ParamStats>)
    ensures forall name :: name in m <==> exists j :: 0 <= j < |entries| && entries[j].0 == name
    decreases |entries|
  {
    if |entries| == 0 then map[]
    else
      var last := entries[|entries| - 1];
      var init := entries[..|entries| - 1];
      var m := StatsOf(init);
      assert forall j :: 0 <= j < |init| ==> init[j] == entries[j];
      m[last.0 := last.1.stats]
  }

  /** A reading that falls to exactly zero shows no arrow, although it is
      below any positive average. */
  lemma ZeroLatestHasNoTrend(avg: real)
    ensures ParameterTrend(map["ph" := ParamStats(Some(0.0), Some(avg))], "ph") == None
  {
  }

  // ---------------------------------------------------------------- loadChartData

  class Chart {
    var chartData: seq<DataPoint>
    var stats: map<string, ParamStats>
    var loading: bool
    var error: Option<string>

    constructor()
      ensures chartData == [] && stats == map[] && loading && error == None
    {
      chartData := [];
      stats := map[];
      loading := true;
      error := None;
    }

    /** `loadChartData`: loading and no error at the start; a response
        replaces the points and the stats; a failure keeps both and records
        its message; loading ends false either way. */
    method Load(response: Outcome<seq<Entry>>)
      modifies this
      ensures !loading
      ensures response.Success? ==>
        error == None && stats == StatsOf(response.value)
        && (|response.value| == 0 ==> chartData == [])
        && (|response.value| > 0 ==> |chartData| == |response.value[BaseIndex(response.value)].1.labels|)
      ensures response.Success? ==> forall i :: 0 <= i < |chartData| ==>
        chartData[i] == DataPoint(response.value[BaseIndex(response.value)].1.labels[i], Assigned(response.value, i))
      ensures response.Failure? ==>
        chartData == old(chartData) && stats == old(stats)
        && error == Some(ErrorText(response.thrown, "Failed to load chart data"))
    {
      loading := true;
      error := None;
      match response {
        case Success(entries) =>
          chartData := TransformChartData(entries);
          stats := StatsOf(entries);
        case Failure(thrown) =>
          error := Some(ErrorText(thrown, "Failed to load chart data"));
      }
      loading := false;
    }
  }
}
