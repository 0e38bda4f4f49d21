/** `RealDataService` (lib/mongodb.ts): the object that keeps the parsed CSV
    rows for two minutes, keeps the alert list derived from them until it is
    cleared, and answers the dashboard's questions from both.  The clock and
    the network are parameters: `now` is the reading of `Date.now()` and a
    `Fetch` is what one request for the CSV file yields. */
module DataService {
  import opened Wrappers
  import opened Text
  import opened Sorting
  import opened Collections
  import opened Csv
  import opened WaterQuality
  import opened Ponds
  import opened History

  /** `cacheTimeout`: two minutes, in milliseconds. */
  const CacheTimeout := 2 * 60 * 1000

  /** The outcome of one request for the CSV file: a network error or a
      status that is not 2xx, or the body text. */
  datatype Fetch = Failed | Received(text: string)

  /** The rows a request yields when its body parses. */
  function Parsed(fetched: Fetch): Option<seq<Row>> {
    if fetched.Received? then ParsedCsv(fetched.text) else None
  }

  /** What the service keeps: the cached rows, the cached alerts and when
      the rows were fetched. */
  datatype Cache = Cache(data: Option<seq<Row>>, alerts: Option<seq<Alert>>, lastFetch: int)

  /** `fetchRealData` on a cache at `now`: the rows it returns and the cache
      it leaves.  Fresh rows are returned as they are; otherwise a request
      whose body parses replaces the rows, stamps them with `now` and drops
      the alerts, and any other request leaves the cache and returns none. */
  function Fetched(c: Cache, now: int, fetched: Fetch): (r: (seq<Row>, Cache))
    ensures |r.0| > 0 ==> r.1.data == Some(r.0)
    ensures r.1.alerts == c.alerts || r.1.alerts.None?
  {
    if c.data.Some? && now - c.lastFetch < CacheTimeout then (c.data.value, c)
    else match Parsed(fetched)
      case None => ([], c)
      case Some(rows) => (rows, Cache(Some(rows), None, now))
  }

  /** `generateAllAlerts` on a cache at `now`: the cached alerts when there
      are any; otherwise the alerts derived at `now` from the rows
      `fetchRealData` gives, cached when there are rows.  Afterwards the
      cache holds the returned list or no list at all. */
  function Alerted(c: Cache, now: int, fetched: Fetch): (r: (seq<Alert>, Cache))
    ensures r.1.alerts == Some(r.0) || (r.1.alerts.None? && r.0 == [])
    ensures c.alerts.Some? ==> r == (c.alerts.value, c)
  {
    if c.alerts.Some? then (c.alerts.value, c)
    else
      var (rows, after) := Fetched(c, now, fetched);
      if |rows| == 0 then ([], after)
      else (DerivedAlerts(rows, now), after.(alerts := Some(DerivedAlerts(rows, now))))
  }

  /** `getPonds` on a cache: the summaries and the alert list they were
      counted against, and the cache left.  The rows are read at `first`;
      when there are any, the alerts are read at `second` from the cache the
      first read left. */
  function PondsRead(c: Cache, first: int, firstFetch: Fetch, second: int, secondFetch: Fetch)
    : (r: (seq<Pond>, seq<Alert>, Cache))
  {
    var (rows, after) := Fetched(c, first, firstFetch);
    if |rows| == 0 then ([], [], after)
    else
      var (alerts, last) := Alerted(after, second, secondFetch);
      (PondsFor(rows, PondIds(rows), alerts), alerts, last)
  }

  /** `Fetched` from what `fetchRealData` did: the cached rows while they
      are fresh; otherwise the rows the request yields, stored with `now`
      when it parses, and the cache kept when it does not. */
  lemma FetchedFrom(c: Cache, now: int, fetched: Fetch, rows: seq<Row>, d: Cache)
    requires c.data.Some? && now - c.lastFetch < CacheTimeout ==> rows == c.data.value && d == c
    requires !(c.data.Some? && now - c.lastFetch < CacheTimeout) ==>
      rows == Parsed(fetched).GetOr([])
      && d == (if Parsed(fetched).Some? then Cache(Some(rows), None, now) else c)
    ensures Fetched(c, now, fetched) == (rows, d)
  {
  }

  /** `PondsRead` from the two reads it is made of. */
  lemma PondsReadOf(c: Cache, first: int, firstFetch: Fetch, second: int, secondFetch: Fetch,
                    rows: seq<Row>, after: Cache, alerts: seq<Alert>, last: Cache)
    requires Fetched(c, first, firstFetch) == (rows, after)
    requires |rows| > 0 ==> Alerted(after, second, secondFetch) == (alerts, last)
    ensures PondsRead(c, first, firstFetch, second, secondFetch)
      == if |rows| == 0 then ([], [], after) else (PondsFor(rows, PondIds(rows), alerts), alerts, last)
  {
  }

  /** `ponds.find(pond => pond._id === id) || null`. */
  function FindPond(ponds: seq<Pond>, id: string): (r: Option<Pond>)
    ensures r.Some? ==> r.value in ponds && r.value.id == id
    ensures r.None? <==> forall p :: p in ponds ==> p.id != id
    decreases |ponds|
  {
    if |ponds| == 0 then None
    else if ponds[0].id == id then Some(ponds[0])
    else
      assert forall p :: p in ponds <==> p == ponds[0] || p in ponds[1..];
      FindPond(ponds[1..], id)
  }

  /** Each summary of `ponds` counts exactly its parameters that are not
      normal. */
  predicate CountsAgree(ponds: seq<Pond>) {
    forall k :: 0 <= k < |ponds| ==> ponds[k].alerts == RaisedCount(Statuses(ponds[k].parameters))
  }

  /** Summing up the ponds against the alert list derived from the same
      rows: every summary's count agrees with its parameters. */
  lemma SynchronizedCounts(rows: seq<Row>, alerts: seq<Alert>, t: int)
    requires alerts == DerivedAlerts(rows, t)
    ensures CountsAgree(PondsFor(rows, PondIds(rows), alerts))
  {
    var ids := PondIds(rows);
    var ponds := PondsFor(rows, ids, alerts);
    forall k | 0 <= k < |ponds| ensures ponds[k].alerts == RaisedCount(Statuses(ponds[k].parameters)) {
      PondAlertCount(rows, t, ids[k]);
    }
  }

  /** The `alertChecks.forEach` of `generateAllAlerts`: the alerts the
      table entries `checks` raise for the latest record of pond `id`. */
  method RaiseAlerts(id: string, latest: Row, checks: seq<Check>) returns (raised: seq<Alert>)
    ensures raised == ChecksAlerts(id, latest, checks)
  {
    raised := [];
    var j := 0;
    while j < |checks|
      invariant 0 <= j <= |checks|
      invariant raised == ChecksAlerts(id, latest, checks[..j])
    {
      assert checks[..j + 1][..j] == checks[..j];
      var alert := CheckAlert(id, latest, checks[j]);
      if alert.Some? {
        raised := raised + [alert.value];
      }
      j := j + 1;
    }
    assert checks[..j] == checks;
  }

  /** The pond loop of `generateAllAlerts`: each pond of `ids` in turn
      raises the alerts of its latest record. */
  method AlertsOfPonds(rows: seq<Row>, ids: seq<string>) returns (all: seq<Alert>)
    requires forall id :: id in ids ==> Mentions(rows, id)
    ensures all == AlertsFor(rows, ids)
  {
    all := [];
    var k := 0;
    while k < |ids|
      invariant 0 <= k <= |ids|
      invariant all == AlertsFor(rows, ids[..k])
    {
      var latest := LatestRow(rows, ids[k]);
      var raised := RaiseAlerts(ids[k], latest, AlertChecks(ReadingsOf(latest)));
      assert ids[..k + 1][..k] == ids[..k];
      assert raised == PondAlerts(rows, ids[k]);
      assert AlertsFor(rows, ids[..k + 1]) == AlertsFor(rows, ids[..k]) + raised;
      all := all + raised;
      k := k + 1;
    }
    assert ids[..k] == ids;
  }

  /** The alerts `generateAllAlerts` derives from `rows`: every pond's
      alerts, then the two resolved demonstration alerts. */
  method DeriveAlerts(rows: seq<Row>, now: int) returns (alerts: seq<Alert>)
    ensures alerts == DerivedAlerts(rows, now)
  {
    var mine := AlertsOfPonds(rows, PondIds(rows));
    alerts := mine + DemoAlerts(now);
  }

  /** The loop of `getPonds`: one summary per pond of `ids`, in order,
      counting its active alerts in `alerts`. */
  method Summaries(rows: seq<Row>, ids: seq<string>, alerts: seq<Alert>) returns (ponds: seq<Pond>)
    requires forall id :: id in ids ==> Mentions(rows, id)
    ensures ponds == PondsFor(rows, ids, alerts)
  {
    var summary := SummaryOf(rows, alerts);
    assert forall i :: 0 <= i < |ids| ==> summary.requires(ids[i]) by {
      forall i | 0 <= i < |ids| ensures summary.requires(ids[i]) {
        assert ids[i] in ids;
      }
    }
    ponds := [];
    var k := 0;
    while k < |ids|
      invariant 0 <= k <= |ids|
      invariant ponds == Map(ids[..k], summary)
    {
      MapSnoc(ids, k, summary);
      ponds := ponds + [summary(ids[k])];
      k := k + 1;
    }
    assert ids[..k] == ids;
  }

  /** `pondData.sort(...)`: a copy of the rows sorted in place by time;
      rows with equal times keep their order. */
  method SortedByTime(rows: seq<Row>, timeOf: string -> int) returns (sorted: seq<Row>)
    ensures |sorted| == |rows| && multiset(sorted) == multiset(rows)
    ensures SortedBy(sorted, ByTime(timeOf), false)
    ensures KeepsTies(rows, sorted, ByTime(timeOf))
  {
    var a := new Row[|rows|](i requires 0 <= i < |rows| => rows[i]);
    assert a[..] == rows;
    SortInPlace(a, ByTime(timeOf), false);
    sorted := a[..];
  }

  /** The points `getHistoricalData` answers from all the rows. */
  method HistoryOf(rows: seq<Row>, pondId: string, parameter: string, start: int, timeOf: string -> int)
    returns (points: seq<Point>, ghost ordered: seq<Row>)
    ensures IsHistory(OwnRows(rows, pondId), parameter, start, timeOf, points, ordered)
  {
    points, ordered := SelectHistory(OwnRows(rows, pondId), parameter, start, timeOf);
  }

  /** The selection of `getHistoricalData` among a pond's rows `own`: none
      when there are no rows or the parameter is unknown, otherwise the rows
      sorted by time, and those inside the window (or the last 20) turned
      into points. */
  method SelectHistory(own: seq<Row>, parameter: string, start: int, timeOf: string -> int)
    returns (points: seq<Point>, ghost ordered: seq<Row>)
    ensures IsHistory(own, parameter, start, timeOf, points, ordered)
  {
    if |own| == 0 || ColumnOf(parameter).None? {
      return [], [];
    }
    var sorted := SortedByTime(own, timeOf);
    HistoryPointsShape(sorted, parameter, start, timeOf);
    ordered := sorted;
    points := HistoryPoints(sorted, parameter, start, timeOf);
  }

  /** The rows of the pond named `pond-<id>` or `<id>`. */
  function OwnRows(rows: seq<Row>, pondId: string): seq<Row> {
    PondRows(rows, ReplaceFirst(pondId, "pond-", ""))
  }

  /** A summary named `id` is found exactly when `id` is `pond-` followed
      by one of the ponds. */
  lemma FindSummary(rows: seq<Row>, ids: seq<string>, alerts: seq<Alert>, id: string)
    requires forall x :: x in ids ==> Mentions(rows, x)
    ensures FindPond(PondsFor(rows, ids, alerts), id).None? <==> forall x :: x in ids ==> "pond-" + x != id
  {
    var ponds := PondsFor(rows, ids, alerts);
    forall k | 0 <= k < |ponds| ensures ponds[k].id == "pond-" + ids[k] {
      assert ponds[k] == MakePond(rows, ids[k], alerts);
    }
    FindNamed(ponds, ids, id);
  }

  /** Among the summaries of every pond of `rows`, one named `id` is found
      exactly when `id` is `pond-` followed by a pond of the rows. */
  lemma FindPondOfRows(rows: seq<Row>, alerts: seq<Alert>, id: string)
    ensures FindPond(PondsFor(rows, PondIds(rows), alerts), id).None? <==>
      forall x :: Mentions(rows, x) ==> "pond-" + x != id
  {
    FindSummary(rows, PondIds(rows), alerts, id);
  }

  /** Among summaries named after `ids`, one named `id` is found exactly
      when `id` is `pond-` followed by one of them. */
  lemma FindNamed(ponds: seq<Pond>, ids: seq<string>, id: string)
    requires |ponds| == |ids| && forall k :: 0 <= k < |ponds| ==> ponds[k].id == "pond-" + ids[k]
    ensures FindPond(ponds, id).None? <==> forall x :: x in ids ==> "pond-" + x != id
  {
    if FindPond(ponds, id).Some? {
      var k :| 0 <= k < |ponds| && ponds[k] == FindPond(ponds, id).value;
      assert ids[k] in ids;
    } else {
      forall x | x in ids ensures "pond-" + x != id {
        var k :| 0 <= k < |ids| && ids[k] == x;
        assert ponds[k] in ponds;
      }
    }
  }

  class RealDataService {
    /** The rows of the last successful fetch (`null` before it). */
    var cachedData: Option<seq<Row>>
    /** The alert list, kept until a fetch or a change clears it. */
    var cachedAlerts: Option<seq<Alert>>
    /** When the cached rows were fetched. */
    var lastFetch: int
    /** The clock reading the cached alerts were derived at. */
    ghost var alertsMadeAt: int
    /** `generateAllAlerts`'s derivation of the alert list from the rows and
        the clock, under a name of its own: the cache is described in terms
        of it, and `Faithful` says it is `DerivedAlerts`. */
    ghost const derive: (seq<Row>, int) -> seq<Alert>

    /** `derive` is `DerivedAlerts`. */
    ghost predicate Faithful() {
      forall rows, t {:trigger DerivedAlerts(rows, t)} :: derive(rows, t) == DerivedAlerts(rows, t)
    }

    /** The cached alerts are always those derived from the cached rows, and
        the cached rows all carry the required fields. */
    ghost predicate Valid()
      reads this
    {
      Faithful()
      && (cachedData.Some? ==> forall row :: row in cachedData.value ==> HasRequiredFields(row))
      && (cachedAlerts.Some? ==>
            cachedData.Some? && |cachedData.value| > 0
            && cachedAlerts.value == derive(cachedData.value, alertsMadeAt))
    }

    /** The cached rows may be used at `now`. */
    predicate Fresh(now: int)
      reads this
    {
      cachedData.Some? && now - lastFetch < CacheTimeout
    }

    /** The cache as a value. */
    function CacheOf(): Cache
      reads this
    {
      Cache(cachedData, cachedAlerts, lastFetch)
    }

    /** The rows `fetchRealData` returns at `now` when a request would
        yield `fetched`. */
    function FetchResult(now: int, fetched: Fetch): seq<Row>
      reads this
    {
      if Fresh(now) then cachedData.value
      else match fetched
        case Failed => []
        case Received(text) => ParsedCsv(text).GetOr([])
    }

    /** The alerts `generateAllAlerts` returns at `now`. */
    ghost function AlertsAt(now: int, fetched: Fetch): seq<Alert>
      reads this
    {
      if cachedAlerts.Some? then cachedAlerts.value
      else
        var rows := FetchResult(now, fetched);
        if |rows| == 0 then [] else DerivedAlerts(rows, now)
    }

    /** `fetchRealData` at `now` replaces the cached rows: they are stale
        and the request yields a file that parses. */
    predicate Refreshes(now: int, fetched: Fetch)
      reads this
    {
      !Fresh(now) && fetched.Received? && ParsedCsv(fetched.text).Some?
    }

    constructor ()
      ensures Valid()
      ensures cachedData == None && cachedAlerts == None && lastFetch == 0
    {
      cachedData := None;
      cachedAlerts := None;
      lastFetch := 0;
      alertsMadeAt := 0;
      derive := (rows, t) => DerivedAlerts(rows, t);
    }

    /** `fetchRealData`: the cached rows while they are fresh, else the rows
        of a newly fetched file (cached, and the alerts dropped), else none. */
    method FetchRealData(now: int, fetched: Fetch) returns (rows: seq<Row>)
      requires Valid()
      modifies this
      ensures Valid()
      ensures rows == old(FetchResult(now, fetched))
      ensures old(Fresh(now)) ==> unchanged(this)
      ensures !old(Fresh(now)) && fetched.Failed? ==> unchanged(this)
      ensures !old(Fresh(now)) && fetched.Received? && ParsedCsv(fetched.text).None? ==> unchanged(this)
      ensures !old(Fresh(now)) && fetched.Received? && ParsedCsv(fetched.text).Some? ==>
        cachedData == Some(rows) && lastFetch == now && cachedAlerts == None && alertsMadeAt == old(alertsMadeAt)
      ensures forall row :: row in rows ==> HasRequiredFields(row)
      ensures |rows| > 0 ==> cachedData == Some(rows)
      ensures !old(Refreshes(now, fetched)) ==> unchanged(this)
      ensures old(Refreshes(now, fetched)) ==>
        cachedData == Some(old(FetchResult(now, fetched))) && lastFetch == now && cachedAlerts == None
    {
      if cachedData.Some? && now - lastFetch < CacheTimeout {
        return cachedData.value;
      }
      if fetched.Failed? {
        return [];
      }
      var parsed := ParseCsv(fetched.text);
      if parsed.None? {
        return [];
      }
      rows := parsed.value;
      Store(rows, now);
    }

    /** The store at the end of `fetchRealData`: the new rows with their
        fetch time, and no alerts. */
    method Store(rows: seq<Row>, now: int)
      requires Valid() && forall row :: row in rows ==> HasRequiredFields(row)
      modifies this
      ensures Valid()
      ensures CacheOf() == Cache(Some(rows), None, now) && alertsMadeAt == old(alertsMadeAt)
    {
      cachedData := Some(rows);
      lastFetch := now;
      cachedAlerts := None;
    }

    /** The cache-miss half of `generateAllAlerts`: the rows `fetchRealData`
        gives, their alerts derived at `now` and cached when there are rows. */
    method DeriveAndCache(now: int, fetched: Fetch) returns (alerts: seq<Alert>)
      requires Valid() && cachedAlerts.None?
      modifies this
      ensures Valid()
      ensures var rows := old(FetchResult(now, fetched));
        alerts == if |rows| == 0 then [] else DerivedAlerts(rows, now)
      ensures |old(FetchResult(now, fetched))| > 0 ==>
        cachedData == Some(old(FetchResult(now, fetched))) && cachedAlerts == Some(alerts) && alertsMadeAt == now
      ensures |old(FetchResult(now, fetched))| == 0 ==> cachedAlerts == None
      ensures old(Refreshes(now, fetched)) ==> cachedData == Some(old(FetchResult(now, fetched))) && lastFetch == now
      ensures !old(Refreshes(now, fetched)) ==> cachedData == old(cachedData) && lastFetch == old(lastFetch)
      ensures (alerts, CacheOf()) == Alerted(old(CacheOf()), now, fetched)
    {
      ghost var before := CacheOf();
      var rows := FetchRealData(now, fetched);
      FetchedFrom(before, now, fetched, rows, CacheOf());
      if |rows| == 0 {
        return [];
      }
      alerts := DeriveAlerts(rows, now);
      CacheAlerts(rows, now, alerts);
    }

    /** Caches `alerts`, the alerts of the cached rows derived at `now`. */
    method CacheAlerts(rows: seq<Row>, now: int, alerts: seq<Alert>)
      requires Valid() && cachedAlerts.None? && cachedData == Some(rows) && |rows| > 0
      requires alerts == derive(rows, now)
      modifies this
      ensures Valid()
      ensures cachedData == Some(rows) && lastFetch == old(lastFetch)
      ensures cachedAlerts == Some(alerts) && alertsMadeAt == now
    {
      cachedAlerts := Some(alerts);
      alertsMadeAt := now;
    }

    /** `generateAllAlerts`: the cached alerts if any; otherwise, from the
        rows `fetchRealData` gives, one alert per graded parameter of each
        pond's latest record that is not normal, pond after pond, then the
        two resolved demonstration alerts; the list is cached. */
    method GenerateAllAlerts(now: int, fetched: Fetch) returns (alerts: seq<Alert>)
      requires Valid()
      modifies this
      ensures Valid()
      ensures alerts == old(AlertsAt(now, fetched))
      ensures old(cachedAlerts).Some? ==> unchanged(this)
      ensures old(cachedAlerts).None? && |old(FetchResult(now, fetched))| > 0 ==>
        cachedData == Some(old(FetchResult(now, fetched))) && cachedAlerts == Some(alerts) && alertsMadeAt == now
      ensures old(cachedAlerts).None? && |old(FetchResult(now, fetched))| == 0 ==> cachedAlerts == None
      ensures old(cachedAlerts).None? && old(Refreshes(now, fetched)) ==>
        cachedData == Some(old(FetchResult(now, fetched))) && lastFetch == now
      ensures old(cachedAlerts).None? && !old(Refreshes(now, fetched)) ==>
        cachedData == old(cachedData) && lastFetch == old(lastFetch)
      ensures (alerts, CacheOf()) == Alerted(old(CacheOf()), now, fetched)
    {
      if cachedAlerts.Some? {
        return cachedAlerts.value;
      }
      alerts := DeriveAndCache(now, fetched);
    }

    /** `getPonds`: reads the rows at `first`, then the alerts at `second`
        (which fetch again only when no alerts are cached and the rows have
        gone stale meanwhile), and sums up every pond in key order.  Unless
        the rows went stale between the two readings, each summary's alert
        count is the number of its parameters that are not normal. */
    method GetPonds(first: int, firstFetch: Fetch, second: int, secondFetch: Fetch)
      returns (ponds: seq<Pond>, ghost alerts: seq<Alert>)
      requires Valid()
      modifies this
      ensures Valid()
      ensures var rows := old(FetchResult(first, firstFetch));
        (|rows| == 0 ==> ponds == [])
        && (|rows| > 0 ==> ponds == PondsFor(rows, PondIds(rows), alerts))
      ensures var rows := old(FetchResult(first, firstFetch));
        |rows| > 0 && old(Coherent(first, second)) ==>
          cachedAlerts == Some(alerts) && alerts == DerivedAlerts(rows, alertsMadeAt) && CountsAgree(ponds)
      ensures (ponds, alerts, CacheOf()) == PondsRead(old(CacheOf()), first, firstFetch, second, secondFetch)
    {
      ghost var before := CacheOf();
      var rows := FetchRealData(first, firstFetch);
      ghost var after := CacheOf();
      FetchedFrom(before, first, firstFetch, rows, after);
      if |rows| == 0 {
        PondsReadOf(before, first, firstFetch, second, secondFetch, rows, after, [], after);
        return [], [];
      }
      ponds, alerts := CountedPonds(rows, second, secondFetch);
      PondsReadOf(before, first, firstFetch, second, secondFetch, rows, after, alerts, CacheOf());
    }

    /** The second half of `getPonds`: the alerts read at `second` and the
        summaries of the cached `rows` counted against them.  The counts
        agree when the alert list was derived from these same rows. */
    method CountedPonds(rows: seq<Row>, second: int, secondFetch: Fetch)
      returns (ponds: seq<Pond>, ghost alerts: seq<Alert>)
      requires Valid() && |rows| > 0 && cachedData == Some(rows)
      modifies this
      ensures Valid()
      ensures (alerts, CacheOf()) == Alerted(old(CacheOf()), second, secondFetch)
      ensures ponds == PondsFor(rows, PondIds(rows), alerts)
      ensures old(cachedAlerts.Some? || Fresh(second)) ==>
        cachedAlerts == Some(alerts) && alerts == DerivedAlerts(rows, alertsMadeAt) && CountsAgree(ponds)
    {
      ghost var coherent := cachedAlerts.Some? || Fresh(second);
      var all := GenerateAllAlerts(second, secondFetch);
      alerts := all;
      ponds := Summaries(rows, PondIds(rows), all);
      if coherent {
        assert cachedData == Some(rows);
        SynchronizedCounts(rows, alerts, alertsMadeAt);
      }
    }

    /** Between the two clock readings of `getPonds` the rows stay the same:
        the alerts are cached already, or the rows are still fresh at the
        second reading. */
    predicate Coherent(first: int, second: int)
      reads this
    {
      if Fresh(first) then cachedAlerts.Some? || second - lastFetch < CacheTimeout
      else second - first < CacheTimeout
    }

    /** `getPondById`: the summary whose id is `id`, if any. */
    method GetPondById(id: string, first: int, firstFetch: Fetch, second: int, secondFetch: Fetch)
      returns (pond: Option<Pond>, ghost ponds: seq<Pond>)
      requires Valid()
      modifies this
      ensures Valid()
      ensures (ponds, CacheOf()) == (PondsRead(old(CacheOf()), first, firstFetch, second, secondFetch).0,
                                     PondsRead(old(CacheOf()), first, firstFetch, second, secondFetch).2)
      ensures pond == FindPond(ponds, id)
      ensures var rows := old(FetchResult(first, firstFetch));
        |rows| > 0 && old(Coherent(first, second)) ==> CountsAgree(ponds)
      ensures pond.Some? ==> pond.value.id == id && pond.value in ponds
      ensures var rows := old(FetchResult(first, firstFetch));
        pond.None? <==> |rows| == 0 || forall x :: Mentions(rows, x) ==> "pond-" + x != id
    {
      ghost var rows := FetchResult(first, firstFetch);
      var all, alerts := GetPonds(first, firstFetch, second, secondFetch);
      ponds := all;
      pond := FindPond(all, id);
      if |rows| > 0 {
        FindPondOfRows(rows, alerts, id);
      }
    }

    /** `getActiveAlerts`: the active alerts, in list order. */
    method GetActiveAlerts(now: int, fetched: Fetch) returns (active: seq<Alert>)
      requires Valid()
      modifies this
      ensures Valid()
      ensures active == Filter(old(AlertsAt(now, fetched)), IsActive)
      ensures forall a :: a in active ==> a.isActive
      ensures active == Filter(Alerted(old(CacheOf()), now, fetched).0, IsActive)
      ensures CacheOf() == Alerted(old(CacheOf()), now, fetched).1
    {
      var all := GenerateAllAlerts(now, fetched);
      active := Filter(all, IsActive);
    }

    /** `getAllAlerts`: the active alerts and the resolved ones. */
    method GetAllAlerts(now: int, fetched: Fetch) returns (all: seq<Alert>)
      requires Valid()
      modifies this
      ensures Valid()
      ensures all == old(AlertsAt(now, fetched))
      ensures (all, CacheOf()) == Alerted(old(CacheOf()), now, fetched)
    {
      all := GenerateAllAlerts(now, fetched);
    }

    /** `createAlert`: names the new alert after the clock and drops the
        cached alerts; nothing is stored. */
    method CreateAlert(now: int) returns (id: string)
      requires Valid()
      modifies this
      ensures Valid()
      ensures id == "alert-" + IntText(now)
      ensures cachedAlerts == None && cachedData == old(cachedData) && lastFetch == old(lastFetch)
    {
      id := "alert-" + IntText(now);
      cachedAlerts := None;
    }

    /** `resolveAlert`: drops the cached alerts; nothing is stored, so the
        alert comes back on the next derivation while its cause lasts. */
    method ResolveAlert(id: string)
      requires Valid()
      modifies this
      ensures Valid()
      ensures cachedAlerts == None && cachedData == old(cachedData) && lastFetch == old(lastFetch)
    {
      cachedAlerts := None;
    }

    /** `refreshData`: forgets everything, fetches at `first` and derives the
        alerts at `second`.  The second step fetches again when the first
        rows have gone stale by `second` or the first request gave none; the
        cache ends up with the rows of the last request that parsed, and
        with the alerts of the rows the second step read, when there are
        any. */
    method RefreshData(first: int, firstFetch: Fetch, second: int, secondFetch: Fetch)
      requires Valid()
      modifies this
      ensures Valid()
      ensures var kept := Parsed(firstFetch).Some? && second - first < CacheTimeout;
        var rows := if kept then Parsed(firstFetch).value else Parsed(secondFetch).GetOr([]);
        (if kept || Parsed(secondFetch).None?
         then cachedData == Parsed(firstFetch) && lastFetch == (if Parsed(firstFetch).Some? then first else 0)
         else cachedData == Parsed(secondFetch) && lastFetch == second)
        && cachedAlerts == (if |rows| > 0 then Some(DerivedAlerts(rows, second)) else None)
    {
      cachedData := None;
      cachedAlerts := None;
      lastFetch := 0;
      var rows := FetchRealData(first, firstFetch);
      assert cachedAlerts == None;
      assert cachedData == Parsed(firstFetch) && lastFetch == (if Parsed(firstFetch).Some? then first else 0);
      ghost var kept := Parsed(firstFetch).Some? && second - first < CacheTimeout;
      assert Fresh(second) == kept;
      assert FetchResult(second, secondFetch)
        == if kept then Parsed(firstFetch).value else Parsed(secondFetch).GetOr([]);
      assert Refreshes(second, secondFetch) == (!kept && Parsed(secondFetch).Some?);
      var alerts := GenerateAllAlerts(second, secondFetch);
    }

    /** `getHistoricalData`: the points of one parameter of one pond (named
        `pond-<id>` or `<id>`), from its rows put in time order: those inside
        the window, or the last 20 when none is.  No rows, no row of that
        pond or an unknown parameter give no points. */
    method GetHistoricalData(pondId: string, parameter: string, range: string, now: int,
                             fetched: Fetch, timeOf: string -> int)
      returns (points: seq<Point>, ghost ordered: seq<Row>)
      requires Valid()
      modifies this
      ensures Valid()
      ensures !old(Refreshes(now, fetched)) ==> unchanged(this)
      ensures old(Refreshes(now, fetched)) ==>
        cachedData == Some(old(FetchResult(now, fetched))) && lastFetch == now && cachedAlerts == None
      ensures IsHistory(OwnRows(old(FetchResult(now, fetched)), pondId), parameter, now - WindowMs(range), timeOf,
                        points, ordered)
    {
      var rows := FetchRealData(now, fetched);
      // No rows at all leave the pond without rows, which answers nothing too.
      points, ordered := HistoryOf(rows, pondId, parameter, now - WindowMs(range), timeOf);
    }
  }
}
