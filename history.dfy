/** The pure part of `RealDataService.getHistoricalData` (lib/mongodb.ts):
    which CSV column a parameter reads, how far back a time range reaches,
    which of a pond's time-ordered rows are shown (those inside the window,
    or the last 20 when none is) and the point each row becomes.  Dates are
    read by a `timeOf` function from a cell's text to milliseconds. */
module History {
  import opened Wrappers
  import opened Numbers
  import opened Sorting
  import opened Collections
  import opened Csv

  /** A chart point: the rounded value and the instant of its row. */
  datatype Point = Point(value: real, at: int)

  /** The names `parameterMap` knows. */
  const MappedParameters: seq<string> :=
    ["temperature", "ph", "oxygen", "turbidity", "nitrate", "nitrite", "ammonia", "waterLevel"]

  /** `parameterMap[parameter]`: the CSV column of a parameter, if any. */
  function ColumnOf(parameter: string): (r: Option<string>)
    ensures r.Some? <==> parameter in MappedParameters
  {
    if parameter == "temperature" then Some("Temp")
    else if parameter == "ph" then Some("pH")
    else if parameter == "oxygen" then Some("DO")
    else if parameter == "turbidity" then Some("Turbidity")
    else if parameter == "nitrate" then Some("Nitrate")
    else if parameter == "nitrite" then Some("Nitrite")
    else if parameter == "ammonia" then Some("Ammonia")
    else if parameter == "waterLevel" then Some("WaterLevel")
    else None
  }

  const DayMs := 24 * 60 * 60 * 1000

  /** How far before `now` the window starts; an unknown range leaves the
      start at `now` itself. */
  function WindowMs(range: string): (r: nat)
    ensures range !in ["24h", "7d", "1m", "3m", "1y"] ==> r == 0
  {
    if range == "24h" then DayMs
    else if range == "7d" then 7 * DayMs
    else if range == "1m" then 30 * DayMs
    else if range == "3m" then 90 * DayMs
    else if range == "1y" then 365 * DayMs
    else 0
  }

  /** The sort key of a row: the instant of its `Timestamp`. */
  function ByTime(timeOf: string -> int): Row -> Key {
    (r: Row) => Num(timeOf(Cell(r, "Timestamp")))
  }

  /** `new Date(record.Timestamp) >= startTime`. */
  function From(start: int, timeOf: string -> int): Row -> bool {
    (r: Row) => timeOf(Cell(r, "Timestamp")) >= start
  }

  /** `s.slice(-n)`: the last `n` elements, or all of them when fewer. */
  function LastN<T>(s: seq<T>, n: nat): (r: seq<T>)
    ensures |r| == if |s| <= n then |s| else n
    ensures r == s[|s| - |r|..]
  {
    if |s| <= n then s else s[|s| - n..]
  }

  /** The rows shown: those inside the window, or the last 20 when none is. */
  function Chosen(ordered: seq<Row>, start: int, timeOf: string -> int): seq<Row> {
    var inside := Filter(ordered, From(start, timeOf));
    if |inside| == 0 then LastN(ordered, 20) else inside
  }

  /** `Math.round(v * 100) / 100`: rounding half up to two decimals. */
  function Round2(v: real): (r: real)
    ensures v - 0.005 < r <= v + 0.005
  {
    (v * 100.0 + 0.5).Floor as real / 100.0
  }

  /** The point a row becomes; an unreadable cell reads as 0. */
  function PointOf(row: Row, column: string, timeOf: string -> int): Point {
    Point(Round2(Value(ReadOrZero(Cell(row, column)))), timeOf(Cell(row, "Timestamp")))
  }

  function PointsOf(rows: seq<Row>, column: string, timeOf: string -> int): (r: seq<Point>)
    ensures |r| == |rows|
    ensures forall k :: 0 <= k < |rows| ==> r[k] == PointOf(rows[k], column, timeOf)
  {
    seq(|rows|, k requires 0 <= k < |rows| => PointOf(rows[k], column, timeOf))
  }

  /** Points in ascending time order. */
  predicate Ascending(points: seq<Point>) {
    forall i, j :: 0 <= i < j < |points| ==> points[i].at <= points[j].at
  }

  /** A filter keeps the order of an ordered sequence. */
  lemma {:induction false} FilterKeepsOrder<T(!new)>(s: seq<T>, p: T -> bool, key: T -> Key)
    requires SortedBy(s, key, false)
    ensures SortedBy(Filter(s, p), key, false)
    decreases |s|
  {
    if |s| > 0 {
      var init := s[..|s| - 1];
      var last := s[|s| - 1];
      assert SortedBy(init, key, false);
      FilterKeepsOrder(init, p, key);
      if p(last) {
        var f := Filter(init, p);
        forall i | 0 <= i < |f| ensures InOrder(f[i], last, key, false) {
          assert f[i] in init;
          var k :| 0 <= k < |init| && init[k] == f[i];
          assert s[k] == f[i];
        }
      }
    }
  }

  /** A suffix of an ordered sequence is ordered. */
  lemma LastKeepsOrder<T>(s: seq<T>, n: nat, key: T -> Key)
    requires SortedBy(s, key, false)
    ensures SortedBy(LastN(s, n), key, false)
  {
    var r := LastN(s, n);
    forall i, j | 0 <= i < j < |r| ensures InOrder(r[i], r[j], key, false) {
      assert r[i] == s[|s| - |r| + i] && r[j] == s[|s| - |r| + j];
    }
  }

  /** What is shown of a pond's time-ordered rows: never more rows than
      there are, in time order; when some row lies inside the window exactly
      the rows inside it, otherwise the last (at most) 20 rows. */
  lemma ChosenRows(ordered: seq<Row>, start: int, timeOf: string -> int)
    requires SortedBy(ordered, ByTime(timeOf), false)
    ensures var r := Chosen(ordered, start, timeOf);
      |r| <= |ordered|
      && SortedBy(r, ByTime(timeOf), false)
      && (forall row :: row in r ==> row in ordered)
      && ((exists row :: row in ordered && From(start, timeOf)(row)) ==>
            forall row :: row in r <==> row in ordered && From(start, timeOf)(row))
      && ((forall row :: row in ordered ==> !From(start, timeOf)(row)) ==>
            r == ordered[|ordered| - |r|..] && |r| == (if |ordered| <= 20 then |ordered| else 20))
  {
    var inside := Filter(ordered, From(start, timeOf));
    FilterEmpty(ordered, From(start, timeOf));
    if |inside| == 0 {
      LastKeepsOrder(ordered, 20, ByTime(timeOf));
    } else {
      FilterKeepsOrder(ordered, From(start, timeOf), ByTime(timeOf));
    }
  }

  /** Rows in time order give points in time order. */
  lemma PointsAscending(rows: seq<Row>, column: string, timeOf: string -> int)
    requires SortedBy(rows, ByTime(timeOf), false)
    ensures Ascending(PointsOf(rows, column, timeOf))
  {
    var points := PointsOf(rows, column, timeOf);
    forall i, j | 0 <= i < j < |points| ensures points[i].at <= points[j].at {
      assert InOrder(rows[i], rows[j], ByTime(timeOf), false);
    }
  }

  /** `getHistoricalData` once its rows are fetched and the pond's rows put
      in time order: `None` stands for the empty answer given for an unknown
      pond or parameter. */
  function HistoryPoints(ordered: seq<Row>, parameter: string, start: int, timeOf: string -> int): seq<Point>
    requires ColumnOf(parameter).Some?
  {
    PointsOf(Chosen(ordered, start, timeOf), ColumnOf(parameter).value, timeOf)
  }

  /** The points shown are in ascending time order and never more than the
      pond's rows. */
  lemma HistoryPointsShape(ordered: seq<Row>, parameter: string, start: int, timeOf: string -> int)
    requires ColumnOf(parameter).Some?
    requires SortedBy(ordered, ByTime(timeOf), false)
    ensures Ascending(HistoryPoints(ordered, parameter, start, timeOf))
    ensures |HistoryPoints(ordered, parameter, start, timeOf)| <= |ordered|
  {
    ChosenRows(ordered, start, timeOf);
    PointsAscending(Chosen(ordered, start, timeOf), ColumnOf(parameter).value, timeOf);
  }

  /** An unreadable cell is shown as 0. */
  lemma UnreadableIsZero(row: Row, column: string, timeOf: string -> int)
    requires ParseFloat(Cell(row, column)).None?
    ensures PointOf(row, column, timeOf).value == 0.0
  {
    assert ReadOrZero(Cell(row, column)) == Zero;
    assert Value(Zero) == 0.0;
    assert Round2(0.0) == 0.0;
  }

  /** What `getHistoricalData` answers for a pond's rows `own`: nothing
      when there are none or the parameter is unknown; otherwise the points
      of the rows put in time order (`ordered`, rows with equal times
      keeping their order) and then chosen, which are in time order and
      never more than the rows. */
  ghost predicate IsHistory(own: seq<Row>, parameter: string, start: int, timeOf: string -> int,
                      points: seq<Point>, ordered: seq<Row>)
  {
    (|own| == 0 || ColumnOf(parameter).None? ==> points == [])
    && (|own| > 0 && ColumnOf(parameter).Some? ==>
          multiset(ordered) == multiset(own) && SortedBy(ordered, ByTime(timeOf), false)
          && KeepsTies(own, ordered, ByTime(timeOf))
          && points == HistoryPoints(ordered, parameter, start, timeOf))
    && Ascending(points) && |points| <= |own|
  }
}
