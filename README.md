# Pond monitoring dashboard: a verified model of its client-side logic

This project models the logic of a pond-monitoring dashboard (a Next.js
application written in TypeScript) and proves properties of it. The
network, the clock, timers, local storage and `Math.random` are not
modelled as such. They become inputs: a fetch outcome, a `now` reading,
a close code, an incoming frame, a saved token, or the numbers drawn.
Each piece of the dashboard is one Dafny module.

- **Data service** (`lib/mongodb.ts`):
  - `Csv` reads the pond CSV file.
  - `Numbers` covers `parseFloat(..) || 0`, and `${value}` for values that print in plain decimal notation.
  - `WaterQuality` holds the two threshold tables and proves that they agree.
  - `Ponds` derives the alerts and the pond summaries. It proves that a pond's `alerts` count equals both its active alerts and its parameters that are not normal.
  - `History` holds the historical-window selection.
  - `DataService` is the `RealDataService` class with its row cache and alert cache.
- **Live feed** (`hooks/use-websocket.ts`): `WebSocketHook` is the reconnecting socket as a class with one method per event.
- **Polling hooks** (`hooks/use-dashboard.ts`): `DashboardHooks`.
- **API client** (`lib/api-client.ts`): `ApiClient`.
- **Authentication** (`hooks/use-auth.ts`): `Auth`.
- **Connection badge** (`components/connection-status.tsx`): `ConnectionStatus`.
- **Notifications** (`lib/notifications.ts`): `Notifications`.
- **Chart series and charts**:
  - `ChartData` (`lib/chart-data.ts`).
  - `RealtimeChart` (`components/realtime-chart.tsx`).
  - `EnhancedChart` (`components/enhanced-chart.tsx`).
  - `PondChart` (`components/pond-chart.tsx`).
- **Pages and cards**:
  - `AlertsPage` (`pages/alerts-page.tsx`).
  - `PondsPage` (`pages/ponds-page.tsx`).
  - `EnhancedAlertsPage` (`components/enhanced-alerts-page.tsx`).
  - `EnhancedPondsPage` (`components/enhanced-ponds-page.tsx`).
  - `HomePage` (`app/page.tsx`).
  - `AlertCard` (`components/alert-card.tsx`).
- **Helpers**:
  - `Wrappers` (Option).
  - `Text`: JavaScript's `trim`, `split`, `toLowerCase`, `includes`, `replace` and string `<` (on Unicode scalar values, not UTF-16 code units).
  - `Collections` (`filter`).
  - `Sorting`: `sort` with the pages' comparators, both as an in-place array sort and as a value.

Code that changes state step by step is modelled imperatively:
- `RealDataService`, the socket hook, the polling hooks, the API client's token, the auth provider and the page states are classes. Their methods carry `modifies` clauses.
- The CSV loop, `generateFallbackData`, `filterAndSortAlerts`, `filterAndSortPonds` and `calculateAverages` are methods with loop invariants, proved against specification functions.

Filters, thresholds and formatting are functions. Lemmas relate them.

Sensor values and averages are exact `real` numbers. A value that is `null`, `undefined` or `NaN` is `None`.

Where the code and the repository's own description differ, the model follows the code:
- `getHeaders` sends the `Authorization` header only for a non-empty token, because it tests `if (this.token)`.
- "Latest" means the last row in file order, not the latest timestamp.
- An explicit `disconnect` does not by itself stop a retry: the close code decides.

## Model

| member | source | states |
|---|---|---|
| Csv.CellText | lib/mongodb.ts:98 | a cell past the end of the line reads as the empty text; any other cell is trimmed |
| Csv.BuildRow | lib/mongodb.ts:96-99 | the row of a data line has exactly the column names as keys |
| Csv.ReadRow | lib/mongodb.ts:95-99 | assigning the cells column by column builds the row in which each name holds the cell of its last column |
| Csv.Headers | lib/mongodb.ts:89 | one column name per comma-separated field of the first line, each trimmed |
| Csv.RowsOf | lib/mongodb.ts:92-108 | no more rows are kept than there are data lines |
| Csv.Lines | lib/mongodb.ts:84 | splitting the trimmed text always gives at least one line |
| Csv.ParseCsv | lib/mongodb.ts:84-108 | fewer than two lines is a failure; otherwise the kept rows of the data lines, each of which has the four required cells |
| Csv.KeepRows | lib/mongodb.ts:93-108 | the loop over the data lines keeps the rows `RowsOf` describes, in file order |
| Csv.KeptRowsAreValid | lib/mongodb.ts:101-104 | every kept row has non-empty `PondID`, `Timestamp`, `Temp` and `pH` cells and the header names as keys |
| Csv.LineKeptIffValid | lib/mongodb.ts:101-104 | a data line adds its row exactly when the row passes validation, and nothing otherwise |
| Numbers.ReadOrZero | lib/mongodb.ts:325-331 | `parseFloat(cell) \|\| 0`: text that is not a number and any zero read as 0; every other parsed number is kept |
| Numbers.ParseFloatOfNatText | lib/mongodb.ts:325 | reading the digits of a natural number gives that number back |
| Numbers.Canonical | lib/mongodb.ts:400 | the printed form of a value keeps no trailing zero in its fraction |
| Numbers.CanonicalKeepsValue | lib/mongodb.ts:400 | dropping trailing zeros before printing keeps the value |
| Numbers.NumberTextOfNat | lib/mongodb.ts:400 | a whole value prints as its digits |
| Numbers.RoundedUnits | components/enhanced-ponds-page.tsx:27 | the rounded units of `toFixed` lie within half a unit of the scaled value |
| Numbers.Fixed2 | lib/chart-data.ts:52 | `Number(v.toFixed(2))` lies within half a hundredth of `v`, and is not negative when `v` is not |
| Numbers.Fixed2OfCents | lib/chart-data.ts:52 | a whole number of hundredths comes back from `toFixed(2)` unchanged |
| WaterQuality.Named | lib/mongodb.ts:250-282 | the `case` a parameter name selects, and none for a name the `switch` does not list |
| WaterQuality.NamedName | lib/mongodb.ts:250-282 | every graded parameter is selected by its own name |
| WaterQuality.ParameterStatus | lib/mongodb.ts:250-283 | a listed name grades by its band, critical tested first; any other name is normal |
| WaterQuality.OverallStatus | lib/mongodb.ts:285-290 | critical exactly when some parameter is critical, warning exactly when none is critical and one is warning, healthy exactly when all are normal |
| WaterQuality.CheckOf | lib/mongodb.ts:334-391 | each entry of the alert table grades its value exactly as `getParameterStatus`'s band for that parameter |
| WaterQuality.AlertChecks | lib/mongodb.ts:334-391 | the table has one entry per graded parameter, in table order, each for the latest value of that parameter |
| WaterQuality.ChecksAgreeWithStatus | lib/mongodb.ts:393-421 | the table raises a critical (attention) alert exactly when `getParameterStatus` grades the same value critical (warning) |
| Ponds.FirstSeen | lib/mongodb.ts:308-316 | each pond id once, exactly the ids some row carries |
| Ponds.PondIds | lib/mongodb.ts:319 | the `Object.entries` order of the groups lists every pond once and only the ponds of the rows |
| Ponds.EntriesOrder | lib/mongodb.ts:319 | putting the numeric keys first, in increasing order, keeps every id exactly once |
| Ponds.PondRows | lib/mongodb.ts:308-316 | a pond's group holds only its rows, and is non-empty exactly when some row names it |
| Ponds.LatestRow | lib/mongodb.ts:320 | the latest record of a pond belongs to that pond |
| Ponds.FirstRow | lib/mongodb.ts:552 | the first record of a pond belongs to that pond |
| Ponds.CheckAlert | lib/mongodb.ts:393-421 | an entry raises an active alert of its pond exactly when it is not normal, critical exactly when the entry is critical |
| Ponds.ChecksAlerts | lib/mongodb.ts:393-421 | a pond's entries raise at most one alert each, all active and of that pond |
| Ponds.PondAlerts | lib/mongodb.ts:319-422 | every alert of a pond's latest record is active and belongs to that pond |
| Ponds.AlertsFor | lib/mongodb.ts:319-422 | every generated alert is active and belongs to one of the ponds |
| Ponds.DemoAlerts | lib/mongodb.ts:425-452 | the two demonstration alerts are resolved |
| Ponds.DerivedAlerts | lib/mongodb.ts:454 | the final list holds the generated alerts and then the two demonstration alerts |
| Ponds.Grades | lib/mongodb.ts:393-421 | one grade per table entry, in order |
| Ponds.ChecksAlertsCount | lib/mongodb.ts:393-421 | a pond's entries give that pond one active alert per grade that is not normal, and other ponds none |
| Ponds.OwnAlertsCount | lib/mongodb.ts:393-421 | the active alerts a pond's entries raise for it number its raised grades |
| Ponds.ChecksAlertsSnoc | lib/mongodb.ts:393-421 | one more entry adds one alert to the count exactly when it is not normal |
| Ponds.PondAlertsCount | lib/mongodb.ts:319-422 | one pond's alerts count for it once per raised grade of its latest record, and for no other pond |
| Ponds.AlertsForCount | lib/mongodb.ts:319-422 | over all ponds, the active alerts of a pond number the raised grades of its own latest record |
| Ponds.ParametersFrom | lib/mongodb.ts:496-537 | the water level is always normal |
| Ponds.Statuses | lib/mongodb.ts:286 | the statuses of the eight parameters |
| Ponds.MakePond | lib/mongodb.ts:483-554 | a summary is named `pond-<id>`, its status is the worst of its parameters and its alert count is the number of that pond's active alerts |
| Ponds.PondsFor | lib/mongodb.ts:483-555 | one summary per pond, in the order of the groups |
| Ponds.StatusesAreGraded | lib/mongodb.ts:496-537 | each summary parameter is graded as `getParameterStatus` grades it under its name, the water level always normal |
| Ponds.GradesMatchStatuses | lib/mongodb.ts:496-537 | the alert table's grades and the summary's statuses are the same list, water level aside |
| Ponds.PondAlertCount | lib/mongodb.ts:541-550 | a summary's alert count equals the number of its parameters that are not normal |
| Ponds.HealthyIffNoAlerts | lib/mongodb.ts:541-550 | a summary is healthy exactly when it counts no alert, and critical exactly when a parameter is critical |
| Ponds.ActiveAlertsIgnoreClock | lib/mongodb.ts:424-454 | the active alerts derived from the same rows do not depend on the clock |
| Ponds.ActiveListCount | lib/mongodb.ts:571-577 | a pond's count among the active alerts equals its count among all alerts |
| History.ColumnOf | lib/mongodb.ts:152-167 | a parameter has a CSV column exactly when it is one of the eight names of `parameterMap` |
| History.WindowMs | lib/mongodb.ts:175-194 | an unknown time range leaves the window start at the present instant |
| History.LastN | lib/mongodb.ts:208 | the last 20 rows, or all rows when there are fewer: a suffix of that length |
| History.Round2 | lib/mongodb.ts:228 | the shown value lies within half a hundredth of the value read |
| History.PointsOf | lib/mongodb.ts:214-239 | one point per chosen row, in row order |
| History.FilterKeepsOrder | lib/mongodb.ts:197-203 | filtering the time-ordered rows by window keeps them in time order |
| History.LastKeepsOrder | lib/mongodb.ts:208 | the last rows of the time-ordered rows stay in time order |
| History.ChosenRows | lib/mongodb.ts:196-209 | the rows shown are time-ordered pond rows; when a row lies in the window, exactly the rows in it; when none does, the last (at most) 20 rows |
| History.PointsAscending | lib/mongodb.ts:172-239 | rows in time order give points in time order |
| History.HistoryPointsShape | lib/mongodb.ts:172-247 | the points returned are in ascending time order and never outnumber the pond's rows |
| History.UnreadableIsZero | lib/mongodb.ts:218 | a cell that does not parse shows as 0 |
| DataService.FindPond | lib/mongodb.ts:565-568 | a summary is found only when it is one of the summaries and carries the id; none is found exactly when no summary carries it |
| DataService.SynchronizedCounts | lib/mongodb.ts:541-550 | summed up against the alerts derived from the same rows, every summary counts exactly its parameters that are not normal |
| DataService.RaiseAlerts | lib/mongodb.ts:393-421 | the loop over the alert table raises the alerts `ChecksAlerts` describes, in table order |
| DataService.AlertsOfPonds | lib/mongodb.ts:319-422 | the loop over the ponds collects each pond's alerts in pond order |
| DataService.DeriveAlerts | lib/mongodb.ts:302-454 | the derived list is every pond's alerts followed by the two demonstration alerts |
| DataService.Summaries | lib/mongodb.ts:483-555 | the loop over the ponds builds one summary per pond, in order |
| DataService.SortedByTime | lib/mongodb.ts:172 | the rows sorted in place are a permutation of the pond's rows, in time order, with rows of equal time in their former order |
| DataService.SelectHistory | lib/mongodb.ts:133-247 | no points for no rows or an unknown parameter; otherwise the points of the time-sorted rows (equal times in file order), chosen by window |
| DataService.FindSummary | lib/mongodb.ts:544-568 | a summary named `id` is found exactly when `id` is `pond-` followed by one of the ponds |
| DataService.FindPondOfRows | lib/mongodb.ts:565-568 | among the summaries of all ponds of the rows, `id` is found exactly when it is `pond-` and a pond id of the rows |
| DataService.FindNamed | lib/mongodb.ts:565-568 | among summaries named after a list of ids, one is found exactly when `id` is `pond-` followed by one of them |
| DataService.RealDataService.constructor | lib/mongodb.ts:58-61 | the service starts with no rows, no alerts and no fetch time |
| DataService.RealDataService.FetchRealData | lib/mongodb.ts:63-122 | fresh cached rows are returned untouched; otherwise a file that parses replaces the rows, stamps the fetch time and drops the alerts; a failure returns nothing and changes nothing; every row returned carries the required fields |
| DataService.Fetched | lib/mongodb.ts:63-122 | `fetchRealData` on a cache value: any rows returned are the rows cached afterwards, and the cached alerts are either kept or dropped |
| DataService.FetchedFrom | lib/mongodb.ts:63-122 | the cases `fetchRealData` states for its rows and new cache (fresh rows kept; otherwise the parsed rows stored with the time, or nothing and no change) make up `Fetched` |
| DataService.Alerted | lib/mongodb.ts:293-461 | `generateAllAlerts` on a cache value: a cached list is returned with the cache unchanged; otherwise the list returned is the one cached, or empty with nothing cached |
| DataService.RealDataService.DeriveAndCache | lib/mongodb.ts:302-460 | with no cached alerts, the alerts of the rows fetched are derived and cached, or none when there are no rows; the list and the new cache are those `Alerted` gives |
| DataService.RealDataService.CacheAlerts | lib/mongodb.ts:456 | the alert list kept is the one derived from the cached rows |
| DataService.RealDataService.GenerateAllAlerts | lib/mongodb.ts:293-461 | cached alerts are returned unchanged; otherwise the alerts derived from the rows `fetchRealData` gives, which are then cached; the cached list always equals the derivation from the cached rows; the list and the new cache are those `Alerted` gives |
| DataService.RealDataService.GetPonds | lib/mongodb.ts:463-563 | no rows, no summaries; otherwise one summary per pond of the rows, counted against the alert list read at the second clock reading (the cached list if any, else the alerts of the rows read then); the summaries, that list and the new cache are those `PondsRead` gives; when the rows stay the same between the two clock readings, every summary's alert count is its number of parameters that are not normal |
| DataService.RealDataService.CountedPonds | lib/mongodb.ts:468-563 | the alert list and new cache `Alerted` gives, one summary per pond of the cached rows counted against that list, and agreeing counts when the list was derived from those rows |
| DataService.RealDataService.GetPondById | lib/mongodb.ts:565-568 | the answer is `FindPond` over the summaries `getPonds` gives (those of `PondsRead`, with agreeing counts when the rows stay the same), and the new cache is `getPonds`'s; the summary returned carries the id; none is returned exactly when there are no rows or `id` is not `pond-` followed by a pond id |
| DataService.RealDataService.GetActiveAlerts | lib/mongodb.ts:571-577 | the active alerts of the full list `Alerted` gives, in list order; the new cache is `Alerted`'s |
| DataService.RealDataService.GetAllAlerts | lib/mongodb.ts:580-585 | the full list `generateAllAlerts` gives and its new cache, as `Alerted` states them |
| DataService.RealDataService.CreateAlert | lib/mongodb.ts:587-595 | the new id is `alert-` and the clock reading; the cached alerts are dropped, the rows kept |
| DataService.RealDataService.ResolveAlert | lib/mongodb.ts:597-602 | the cached alerts are dropped, the rows kept |
| DataService.RealDataService.RefreshData | lib/mongodb.ts:605-616 | after the reset the cache holds the rows of the last request that parsed, with its fetch time (or nothing, at time 0), and the alerts of the rows the alert step read: the first rows while fresh at the second reading, else those of the second request |
| DataService.RealDataService.GetHistoricalData | lib/mongodb.ts:125-248 | the points of one parameter of one pond as `IsHistory` describes them (rows of equal time in file order); the cache changes only when the rows are stale and a parsing file replaces them |
| ChartData.DefaultValue | lib/chart-data.ts:125-146 | the typical value of a parameter is never negative |
| ChartData.Variance | lib/chart-data.ts:148-169 | the spread of the generated values is always positive |
| ChartData.TablesKnowMappedParameters | lib/chart-data.ts:125-169 | both tables know exactly the eight parameters the history's column map knows; an unknown parameter gets a spread of 1 |
| ChartData.SpacingOf | lib/chart-data.ts:87-102 | every range gives at least one point and a positive distance between points |
| ChartData.Base | lib/chart-data.ts:84 | a current value of 0 falls back to the parameter's typical value; any other is kept |
| ChartData.Max0 | lib/chart-data.ts:107 | the value is clamped at 0 from below |
| ChartData.GenerateFallbackData | lib/chart-data.ts:75-123 | the loop counting down from `intervals - 1` pushes the points of `FallbackSeries`, in order |
| ChartData.Round2NonNegative | lib/chart-data.ts:116 | rounding a value that is not negative keeps it not negative |
| ChartData.FallbackShape | lib/chart-data.ts:104-119 | the fallback series has the length of its range, ends at the present instant, is one step apart and strictly ascending in time, and holds no negative value |
| ChartData.FallbackInstants | lib/chart-data.ts:104-105 | the instants of the fallback series ascend strictly, one interval apart, and the last is the present instant |
| ChartData.FallbackNearBase | lib/chart-data.ts:106-116 | with draws in [0, 1) each value lies within half the spread around the base, up to the clamp at 0 and the rounding |
| ChartData.Fixed2TiesAwayFromZero | lib/chart-data.ts:52 | a real point's `toFixed(2)` rounds -0.125 to -0.13, away from zero, where the `Math.round` of the history and the fallback gives -0.12 |
| ChartData.RealSeriesShape | lib/chart-data.ts:29-58 | the real series is in ascending time order, holds each point, rounded by `toFixed(2)`, exactly once, and keeps points of equal time in their order; points already rounded come back unchanged, only reordered |
| ChartData.HistoryPointsRounded | lib/mongodb.ts:228 | the history's points are whole hundredths, which `toFixed(2)` (lib/chart-data.ts:52) leaves unchanged |
| ChartData.GenerateHistoricalData | lib/chart-data.ts:10-73 | a named pond with real points gives the sorted real series, anything else the fallback series; the series is never empty |
| ChartData.TimeRangeLabel | lib/chart-data.ts:171-181 | a label exists exactly for the five known ranges |
| ChartData.LabelsTellRangesApart | lib/chart-data.ts:172-178 | within one language the five ranges have five different labels |
| WebSocketHook.PushAlert | hooks/use-websocket.ts:71 | the new alert comes first, followed by the earlier alerts cut to 49, so at most 50 are kept |
| WebSocketHook.PushKeepsNewest | hooks/use-websocket.ts:71 | below 50 alerts nothing is dropped; at 50 exactly the oldest is dropped |
| WebSocketHook.PondSocket.ShouldPing | hooks/use-websocket.ts:134-140 | a ping is sent on a tick only while connected with a current socket that is open |
| WebSocketHook.PondSocket.constructor | hooks/use-websocket.ts:19-28 | the hook starts disconnected with nothing received and no attempts; with `autoConnect` it connects at once (the auto-connect effect is at lines 121-126) |
| WebSocketHook.PondSocket.Connect | hooks/use-websocket.ts:42-113 | an open current socket leaves everything as it is; otherwise a new socket becomes current and the status is connecting, or the status is an error when the socket cannot be created |
| WebSocketHook.PondSocket.OnOpen | hooks/use-websocket.ts:53-57 | the socket opens, the status is connected and the attempts start again from 0 |
| WebSocketHook.PondSocket.OnClose | hooks/use-websocket.ts:87-102 | the socket closes and the hook drops its current socket; a close code other than 1000 with attempts left schedules a retry and reads connecting, anything else reads disconnected |
| WebSocketHook.PondSocket.ScheduleRetry | hooks/use-websocket.ts:93-98 | a new three-second retry timer is pending and becomes the one the hook remembers |
| WebSocketHook.PondSocket.OnError | hooks/use-websocket.ts:104-107 | the status is an error and nothing else changes |
| WebSocketHook.PondSocket.OnMessage | hooks/use-websocket.ts:59-85 | a parsed frame becomes the last message; a reading replaces the sensor data; an alert is pushed in front; a frame that does not parse changes nothing |
| WebSocketHook.PondSocket.RetryFires | hooks/use-websocket.ts:94-98 | a firing retry counts one more attempt and connects |
| WebSocketHook.PondSocket.Disconnect | hooks/use-websocket.ts:30-40 | the current socket is closed and dropped, the remembered retry is cleared, the status is disconnected |
| WebSocketHook.PondSocket.Reconnect | hooks/use-websocket.ts:115-119 | a disconnect, the attempts back to 0, and one delayed connect scheduled |
| WebSocketHook.PondSocket.ReconnectFires | hooks/use-websocket.ts:118 | the delayed connect of `reconnect` runs `connect` |
| WebSocketHook.RetriesBounded | hooks/use-websocket.ts:91-98 | when scheduling a retry replaces the pending one, at most one retry is pending and at most five attempts are made between two opens, whatever the events |
| WebSocketHook.StaleCloseRetriesSixTimes | hooks/use-websocket.ts:87-119 | as written, one open, a `reconnect` and failing sockets reach six attempts, beyond the limit of five |
| WebSocketHook.BothChainsFail | hooks/use-websocket.ts:87-98 | as written, two pending retries whose sockets fail leave two retries pending and spend two attempts |
| WebSocketHook.PondView | hooks/use-websocket.ts:157-167 | the sensor data is kept only when it is about the pond; the alerts are `filter` of the pond's alerts: every copy of each is kept, in list order, and no other alert |
| WebSocketHook.PondViewAppend | hooks/use-websocket.ts:160 | the pond's alerts keep their arrival order: one more alert lands at the end of its own pond's list and leaves the others' lists as they were |
| WebSocketHook.StatusTextsDiffer | hooks/use-websocket.ts:173-201 | different statuses have different texts and different colours |
| WebSocketHook.ConnectionStatusHook | hooks/use-websocket.ts:170-209 | the status hook does not connect: it reads disconnected, with no socket |
| DashboardHooks.ErrorText | hooks/use-dashboard.ts:31 | an `Error` gives its message; any other thrown value gives the fallback text |
| DashboardHooks.All | hooks/use-dashboard.ts:21-25 | all three values exactly when every request succeeds; otherwise the failure of one of the requests that failed |
| DashboardHooks.DashboardHook.constructor | hooks/use-dashboard.ts:12-16 | no data, loading, no error |
| DashboardHooks.DashboardHook.Fetch | hooks/use-dashboard.ts:18-37 | the three values are replaced together when all requests succeed; otherwise all three are kept and the error holds the reason; loading ends either way |
| DashboardHooks.DashboardHook.Refresh | hooks/use-dashboard.ts:52-55 | after a refresh loading has ended; when all three requests succeed their answers are stored and the error is clear, otherwise the data is kept and the first failure's message (or the fallback) is the error |
| DashboardHooks.PondDataHook.constructor | hooks/use-dashboard.ts:68-72 | no data, loading, no error |
| DashboardHooks.PondDataHook.Fetch | hooks/use-dashboard.ts:74-95 | without a pond nothing changes; otherwise as the dashboard's fetch over the pond's latest data, history and alerts |
| DashboardHooks.PondDataHook.Refresh | hooks/use-dashboard.ts:108-111 | without a pond the hook stays loading for good and keeps its data and error; with one, a success stores the answer and clears the error, a failure keeps the data and records the message |
| DashboardHooks.AlertsHook.constructor | hooks/use-dashboard.ts:124-126 | no alerts, loading, no error |
| DashboardHooks.AlertsHook.Fetch | hooks/use-dashboard.ts:128-140 | the alerts are replaced on success and kept, with the reason in the error, on failure |
| DashboardHooks.AlertsHook.ResolveAlert | hooks/use-dashboard.ts:142-152 | true exactly when the resolve request succeeds; a failed resolve changes nothing; a successful one fetches the alerts again |
| DashboardHooks.AlertsHook.Refresh | hooks/use-dashboard.ts:165-168 | after a refresh loading has ended; a success stores the alerts and clears the error, a failure keeps the alerts and records the message |
| ApiClient.BodyMessage | lib/api-client.ts:221-229 | never empty: the body's `detail`, else its `message`, else `HTTP <status>`; for a body that is not JSON, the status text, else `HTTP <status>` |
| ApiClient.ErrorMessage | lib/api-client.ts:231-242 | never empty; statuses 0, 401, 403, 404 and 500 or above have fixed messages, every other status the body's message |
| ApiClient.FixedStatusIgnoresBody | lib/api-client.ts:231-242 | for those statuses the body and status text make no difference to the message |
| ApiClient.ServerErrorsNamed | lib/api-client.ts:240-241 | different server-error statuses throw different messages |
| ApiClient.HandleResponse | lib/api-client.ts:219-247 | a value exactly for an OK response with a JSON body, and then the body itself; a failed response throws its error message |
| ApiClient.Client.constructor | lib/api-client.ts:182-189 | the client starts with the saved token, if any |
| ApiClient.Client.Headers | lib/api-client.ts:191-202 | JSON content type and accept always; an authorization header exactly when a non-empty token is held, and then `Bearer <token>` |
| ApiClient.Client.FetchOptions | lib/api-client.ts:204-217 | the verb and headers given, CORS mode, no cookies, and a body exactly when a truthy one is supplied |
| ApiClient.Client.Login | lib/api-client.ts:250-280 | a parsed answer stores its `access_token`; any failure keeps the token and is thrown again as `Login failed: ` and the reason |
| ApiClient.Client.Logout | lib/api-client.ts:282-287 | the token is gone |
| ApiClient.WebSocketSchemes | lib/api-client.ts:415-418 | an `http` base gives a `ws` address and an `https` base a `wss` address on the same host, ending in `/mvp/ws` |
| Auth.Provider.constructor | hooks/use-auth.ts:23-26 | signed out, no token, loading, no error |
| Auth.Provider.Snapshot | hooks/use-auth.ts:62-71 | the context value carries the provider's four fields |
| Auth.Provider.Mount | hooks/use-auth.ts:29-36 | a saved token that is present and not empty is taken and authenticates; otherwise the state is kept; loading ends either way |
| Auth.Provider.Login | hooks/use-auth.ts:38-53 | a successful login stores the answer's `access_token` (in the client too), authenticates and clears the error; a failure keeps the session and the client's token, records the `Login failed: ` message and throws it again; loading ends either way |
| Auth.Provider.Logout | hooks/use-auth.ts:55-60 | no token, signed out, no error, and the client holds no token |
| Auth.UseAuth | hooks/use-auth.ts:74-80 | the provider's value when there is one; otherwise the error `useAuth must be used within an AuthProvider` |
| Auth.RequireAuth | hooks/use-auth.ts:83-95 | loading as the session is; authenticated exactly when loaded and signed in |
| Auth.MountWithToken | hooks/use-auth.ts:29-36 | after a mount with a usable saved token a protected page is let in (the guard is at lines 83-95) |
| Auth.LoggedOutRefused | hooks/use-auth.ts:55-60 | after a logout a protected page is refused (the guard is at lines 83-95) |
| Notifications.Upper | lib/notifications.ts:52 | the severity upper-cased letter by letter, same length |
| Notifications.MessageLines | lib/notifications.ts:47-55 | the template has nine lines |
| Notifications.MessageSplitsIntoLines | lib/notifications.ts:23-56 | when no field holds a line break, splitting the message at line breaks gives back its nine lines: title, blank, pond, parameter, value, upper-cased status, time, blank, call to act |
| Notifications.LabelsOneLine | lib/notifications.ts:24-43 | no label of either language holds a line break |
| Notifications.MockNotificationService.SendSms | lib/notifications.ts:8-13 | every SMS send succeeds |
| Notifications.MockNotificationService.SendWhatsApp | lib/notifications.ts:15-20 | every WhatsApp send succeeds |
| Notifications.Planned | lib/notifications.ts:58-76 | at most two sends, only to a user with a phone, each to that phone with the message in the user's language; SMS exactly when wanted, WhatsApp exactly when wanted, SMS first |
| Notifications.SendAlertNotifications | lib/notifications.ts:58-76 | the sends started are exactly the planned ones |
| Notifications.EmailPreferenceIgnored | lib/notifications.ts:58-76 | the email preference changes nothing that is sent |
| ConnectionStatus.Classify | components/connection-status.tsx:36-54 | connected exactly on a true answer; a CORS error exactly when the failure mentions `cors` in any case; offline exactly when it mentions `network` or `fetch` and not `cors`; a server error otherwise |
| ConnectionStatus.FailureText | components/connection-status.tsx:46 | the failure's message when it has one, otherwise `Unknown error`; never empty |
| ConnectionStatus.CaseIgnored | components/connection-status.tsx:48-53 | a message `CORS` is a CORS error; a failure without a message is a server error |
| ConnectionStatus.Monitor.constructor | components/connection-status.tsx:28-29 | checking, with no error |
| ConnectionStatus.Monitor.CheckConnection | components/connection-status.tsx:31-58 | the status is the classification of the probe, the error text is kept only from a failure, and `connected` is reported exactly when connected |
| ConnectionStatus.StatusText | components/connection-status.tsx:90-103 | each status has its own label |
| PondChart.Label | components/pond-chart.tsx:33 | the point's time when it has one, otherwise `Point <n>`; never empty |
| PondChart.Processed | components/pond-chart.tsx:30-36 | one chart point per valid input point, in order, labelled by its time or its position among the valid points, its value rounded and the original kept |
| PondChart.ProcessedEmpty | components/pond-chart.tsx:30-41 | no point is kept exactly when no input point has a value |
| PondChart.MinOf | components/pond-chart.tsx:55 | the least of the values, one of them |
| PondChart.MaxOf | components/pond-chart.tsx:56 | the greatest of the values, one of them |
| PondChart.YDomain | components/pond-chart.tsx:53-58 | the lower end is not negative; every value lies strictly below the upper end, which is at least 0.1 above the largest; when no value is negative, every value lies at or above the lower end; the domain is proper when the largest value exceeds -0.1 |
| PondChart.NegativeValuesInvertDomain | components/pond-chart.tsx:58 | when every value is below -0.1 the domain is inverted: the domain of [-5] is [0, -4.9] |
| PondChart.XAxisFor | components/pond-chart.tsx:70-73 | slanted labels and a taller axis exactly beyond ten points; beyond fifteen points a tick interval of an eighth of the points |
| PondChart.LongAxisThinned | components/pond-chart.tsx:73 | beyond fifteen points ticks are skipped, and fewer than nine labels are shown |
| PondChart.Render | components/pond-chart.tsx:15-58 | the placeholder exactly for missing or empty data; the no-valid-data note exactly when no point is valid; otherwise the chart of the processed points with its domain and axis |
| AlertCard.MinutesBetween | components/alert-card.tsx:46 | the whole minutes elapsed, rounded down |
| AlertCard.FormatTimestamp | components/alert-card.tsx:42-63 | under an hour the minutes; under a day the whole hours from 1 to 23 with the singular label only for 1; otherwise, and for a timestamp that does not parse, the date in the locale's format |
| AlertCard.MinuteAgesDiffer | components/alert-card.tsx:48-50 | within the first hour two different minute counts read differently |
| AlertCard.SingularHour | components/alert-card.tsx:51-55 | the singular hour label is shown exactly for ages of 60 to 119 minutes |
| AlertCard.LeadingOne | components/alert-card.tsx:55 | a number printed before a space reads `1` only for 1 |
| AlertCard.SeverityBadge | components/alert-card.tsx:27-40 | red and `Critical` (`Critique`) exactly for a critical alert; yellow and `Warning` (`Attention`) for any other |
| RealtimeChart.Transform | components/realtime-chart.tsx:103-111 | one point per timestamp, in order, carrying the value at the same index, and no value past the end of the values |
| RealtimeChart.Recent | components/realtime-chart.tsx:117 | the last five points, or all when fewer |
| RealtimeChart.Older | components/realtime-chart.tsx:118 | the up to five points before the last five |
| RealtimeChart.TrendAsWritten | components/realtime-chart.tsx:121-131 | a missing average reads as falling; for a positive older average, up exactly for a rise of at least 2% of it and down exactly for a fall of at least 2% |
| RealtimeChart.ZerosTrendDown | components/realtime-chart.tsx:121-131 | as written, ten zero readings read as falling |
| RealtimeChart.SumOfZeros | components/realtime-chart.tsx:121-122 | zero readings sum to zero |
| RealtimeChart.NegativeLevelTrendDown | components/realtime-chart.tsx:124-131 | as written, equal averages of a negative quantity read as falling |
| RealtimeChart.TrendCorrected | components/realtime-chart.tsx:121-131 | a missing average reads as falling (its meaning for present averages is stated by TrendCorrectedMeaning) |
| RealtimeChart.TrendCorrectedMeaning | components/realtime-chart.tsx:121-131 | with the tolerance taken on the older average's magnitude, equal averages are stable, up exactly for a rise beyond the tolerance and down exactly for a fall beyond it; for a positive older average, away from the tolerance's edge, it agrees with the rule as written |
| RealtimeChart.Chart.constructor | components/realtime-chart.tsx:67-74 | no points, no trend, loading, no error |
| RealtimeChart.Chart.Load | components/realtime-chart.tsx:90-142 | a response replaces the points and, beyond five points, the trend; the error is cleared only by a closure that saw the first load pending; a failure keeps the points and trend and records its message; loading ends |
| RealtimeChart.StatusColor | components/realtime-chart.tsx:148-157 | gray exactly without a value or thresholds; red exactly past a critical bound; yellow only past a warning bound |
| RealtimeChart.ColorBandsNested | components/realtime-chart.tsx:148-157 | whatever the thresholds, a value between two others is never coloured worse than both |
| RealtimeChart.ParameterColor | components/realtime-chart.tsx:159-161 | the table's colour for a known parameter, otherwise the default blue (the colour table is at lines 36-45) |
| EnhancedChart.BaseIndex | components/enhanced-chart.tsx:126-128 | the base series is the first with the most labels |
| EnhancedChart.AssignedKeys | components/enhanced-chart.tsx:135-139 | a point has a key for a parameter exactly when that parameter has a value at the point's index |
| EnhancedChart.Names | components/enhanced-chart.tsx:123 | the parameter names, in entry order |
| EnhancedChart.AssignedValue | components/enhanced-chart.tsx:135-139 | with each name once, a parameter's key holds its own value at that index |
| EnhancedChart.TransformChartData | components/enhanced-chart.tsx:121-145 | no entries give no points; otherwise one point per label of the base series, at that label, with each parameter's value at that index |
| EnhancedChart.ParameterTrend | components/enhanced-chart.tsx:155-161 | no arrow without stats or with a latest value or average that is zero or missing; otherwise up exactly when the latest value is above the average |
| EnhancedChart.StatsOf | components/enhanced-chart.tsx:101-105 | the stats record has a key exactly for each parameter of the response |
| EnhancedChart.ZeroLatestHasNoTrend | components/enhanced-chart.tsx:157 | a latest reading of exactly zero shows no arrow, although it is below any positive average |
| EnhancedChart.Chart.constructor | components/enhanced-chart.tsx:67-72 | no points, no stats, loading, no error |
| EnhancedChart.Chart.Load | components/enhanced-chart.tsx:85-119 | a response replaces the points and the stats and clears the error; a failure keeps both and records its message; loading ends |
| AlertsPage.SeverityRank | pages/alerts-page.tsx:95-97 | critical ranks 3 and a warning 2 |
| AlertsPage.SelectedExactly | pages/alerts-page.tsx:59-83 | an alert is selected exactly when it matches the search in its message, pond name or parameter ignoring case, has the chosen severity and the chosen status; none is selected more often than it occurs |
| AlertsPage.FilterAndSortAlerts | pages/alerts-page.tsx:59-116 | the list shown is a rearrangement of the selected alerts, in order by time, severity rank or lower-cased pond name, ascending for `asc` and descending otherwise, alerts of equal key in list order |
| AlertsPage.SeverityStats | pages/alerts-page.tsx:118-128 | the total is the number of alerts; active and resolved add up to it, and so do critical and warning; none is informational |
| Sorting.SortInPlace | pages/alerts-page.tsx:86-113 | the array ends up ordered by the key in the direction asked, a permutation of what it held, with elements of equal key in their former order |
| Sorting.Sorted | lib/chart-data.ts:58 | the stable sort by ascending number: ordered, a permutation, and elements of equal key in input order |
| PondsPage.SelectedExactly | pages/ponds-page.tsx:66-80 | a pond is selected exactly when it matches the search in its name or location ignoring case and has the chosen status; none is selected more often than it occurs |
| PondsPage.FilterAndSort | pages/ponds-page.tsx:66-116 | the list shown is a rearrangement of the selected ponds, in order by lower-cased name or location, status text or last update, ascending for `asc` and descending otherwise, ponds of equal key in list order |
| PondsPage.PondsPageState.constructor | pages/ponds-page.tsx:35-43 | nothing loaded, no search, every status, sorted by name ascending |
| PondsPage.PondsPageState.FilterAndSortPonds | pages/ponds-page.tsx:66-116 | the shown list becomes the stably sorted selection of the loaded ponds |
| EnhancedAlertsPage.FilteredAlerts | components/enhanced-alerts-page.tsx:42-51 | an alert is shown exactly when it has the chosen severity, belongs to the chosen pond and matches the search in its message, parameter or pond id ignoring case; none is shown more often than it occurs |
| EnhancedAlertsPage.UniquePonds | components/enhanced-alerts-page.tsx:39 | each pond id of the alerts once, and only those |
| EnhancedAlertsPage.OfferedPondsSelectAlerts | components/enhanced-alerts-page.tsx:39-51 | every pond the pond filter offers selects at least one alert when the other filters are cleared |
| EnhancedAlertsPage.ClearedShowsAll | components/enhanced-alerts-page.tsx:42-51 | with the filters cleared every alert is shown, in list order |
| EnhancedAlertsPage.PageState.constructor | components/enhanced-alerts-page.tsx:30-33 | every severity, every pond, no search, nothing being resolved |
| EnhancedAlertsPage.PageState.ClearFilters | components/enhanced-alerts-page.tsx:284-288 | the filters are reset and the whole list is shown |
| EnhancedAlertsPage.PageState.StartResolve | components/enhanced-alerts-page.tsx:83-86 | a request is sent exactly when the id is not already being resolved, and the id is marked as being resolved |
| EnhancedAlertsPage.PageState.FinishResolve | components/enhanced-alerts-page.tsx:96-101 | the id is no longer being resolved |
| EnhancedAlertsPage.PageState.HandleResolveAlert | components/enhanced-alerts-page.tsx:83-103 | the alerts hook resolves and fetches again only when the id was not being resolved; a refetch stores the alerts or keeps them with its error; a failed resolve leaves the hook alone; the set of ids being resolved ends as it began |
| EnhancedAlertsPage.DoubleClick | components/enhanced-alerts-page.tsx:83-103 | two clicks before the request settles send one request; a click after it settles sends again |
| EnhancedPondsPage.ToFixed | components/enhanced-ponds-page.tsx:27 | the text starts with a minus exactly for a negative value, with a digit otherwise |
| EnhancedPondsPage.ToFixedOfNat | components/enhanced-ponds-page.tsx:27 | a whole number written with no decimals prints as its plain digits |
| EnhancedPondsPage.SafeToFixed | components/enhanced-ponds-page.tsx:23-28 | "N/A" exactly for a null, undefined or NaN value; otherwise the value's `toFixed` text |
| EnhancedPondsPage.TileStatus | components/enhanced-ponds-page.tsx:82-105 | a missing value and an unknown parameter are normal |
| EnhancedPondsPage.TileBandsNested | components/enhanced-ponds-page.tsx:89-101 | the bands are nested: a value between two others is never graded worse than both |
| EnhancedPondsPage.TablesDisagree | components/enhanced-ponds-page.tsx:89-101 | this page's table grades 28 °C, pH 6.2 and the service's oxygen name differently from the data service |
| EnhancedPondsPage.FilteredPonds | components/enhanced-ponds-page.tsx:61-67 | a pond is shown exactly when it is the selected pond (or all are selected) and its id contains the search ignoring case; none is shown more often than listed |
| EnhancedPondsPage.ClearedShowsAll | components/enhanced-ponds-page.tsx:61-67 | with "all" selected and no search every pond is shown, in list order |
| EnhancedPondsPage.PageState.constructor | components/enhanced-ponds-page.tsx:53-54 | pond_001 is selected with no search, so only pond_001 is shown |
| EnhancedPondsPage.PageState.ClearFilters | components/enhanced-ponds-page.tsx:307-310 | the selection becomes "all" and the search empty, and every pond is shown |
| HomePage.Rendered | app/page.tsx:43-56 | the named page for ponds, alerts, settings and profile, the dashboard for every other name, never the login page |
| HomePage.App.constructor | app/page.tsx:22-23 | the app starts logged in on the dashboard |
| HomePage.App.Showing | app/page.tsx:39-41 | the login page is shown exactly while logged out |
| HomePage.App.HandleLogin | app/page.tsx:27-30 | logged in, showing the dashboard |
| HomePage.App.HandlePageChange | app/page.tsx:32-37 | "login" logs out and shows the login page; any other name is shown as rendered when logged in; the name is stored either way |
| HomePage.CalculateAverages | app/page.tsx:167-200 | each of the six averages is the sum of that parameter over the ponds divided by their number, and all are 0 with no ponds |
| HomePage.TotalBounds | app/page.tsx:179-190 | a total of values between two bounds lies between the count times each bound |
| HomePage.AverageBetween | app/page.tsx:192-199 | an average lies between the smallest and largest value averaged |
| HomePage.AverageStatusAgrees | app/page.tsx:205-234 | the dashboard grades an average as the data service grades a reading (lib/mongodb.ts:250-283), except nitrite, which it always calls normal |
| HomePage.MetricCardsUseServiceBands | app/page.tsx:268-300 | each averaged parameter's card status is the service's band for that parameter |
| HomePage.AlertsMetric | app/page.tsx:303-306 | the active-alerts card is critical exactly when an active alert is loaded, normal otherwise |

## Left out

- Network, timers and React: `fetch`, the `WebSocket` object, `setTimeout`/`setInterval`, `useEffect` cleanup and rendering (JSX, recharts, icons, CSS classes beyond the colour and label rules above, `t(...)` lookups). Their outcomes are inputs, and a timer firing or an interval ticking is an explicit method call.
- `DashboardHooks.AutoRefreshes`: the refresh interval is reduced to whether one is installed. Each tick is a call to the hook's `Fetch`.
- Clocks and dates: `Date.now()` is a `now` parameter. `new Date(text).getTime()` is a `timeOf` parameter, or an `Option<int>` on the alert card. `toLocaleString`, `toLocaleDateString` and `toLocaleTimeString` texts are opaque values.
- One `now` stands for several readings of `Date.now()` that the source takes apart. The loop of `generateFallbackData` reads the clock once per point (lib/chart-data.ts:105), so `ChartData.FallbackShape`'s equal steps between points hold only when the readings agree. `fetchRealData` reads the clock before its request (lib/mongodb.ts:64) and `getHistoricalData` after it (lib/mongodb.ts:175); both are one `now` here.
- Calls on the data service are modelled one after another. The dashboard issues `getActiveAlerts` and `getPonds` together (`Promise.all` at app/page.tsx:104). With an empty cache both calls pass the freshness test of `fetchRealData` (lib/mongodb.ts:67-74) before either stores rows, so two requests go out, and the alert list and the pond counts can come from different responses.
- `Numbers.NumberText`: prints plain decimal notation only. JavaScript's `String(x)` uses exponent form when `|x|` is below 1e-6 or at least 1e21 (`1e-7`). Such a reading would change the alert message text built at lib/mongodb.ts:400 and lib/mongodb.ts:413.
- `timeOf` gives every timestamp text a whole number. An unparseable timestamp, which gives `NaN` in the source and compares false with everything, is not modelled.
- Floating point: values are exact reals. IEEE rounding is not modelled. `NaN`, `null` and `undefined` are `None`. `toFixed` rounds a tie away from zero on the exact value.
- `Numbers.ParseFloat` reads leading white space, a sign, digits and a fraction. Exponents and `Infinity` are not modelled.
- `Math.random` is a sequence of draws passed in. `JSON.parse` is modelled only as "the body is JSON with these top-level text fields, or is not JSON".
- `Text.LexLess` compares characters as Unicode scalar values. JavaScript compares UTF-16 code units, so a character beyond U+FFFF sorts before U+FFFF there and after it here. Only names containing such characters are affected.
- `Text.Lower` folds ASCII and Latin-1 capitals only, and `Notifications.Upper` raises ASCII letters only. No other Unicode case mapping is modelled.
- Keys inherited from `Object.prototype` (`toString`, `constructor`, `__proto__` and the like) are treated as absent keys. In the source a parameter named `toString` finds a function in `parameterMap` (lib/mongodb.ts:152-163) and gives points of value 0, where `History.ColumnOf` answers none. A pond id `constructor` finds a truthy entry in the pond groups (lib/mongodb.ts:310-312), so `push` throws. `PARAMETER_COLORS` (components/realtime-chart.tsx:160) and the tables of lib/chart-data.ts are looked up the same way.
- `Promise.all`: when several requests fail, the model reports the first failure in argument order. The source reports whichever rejects first.
- `localStorage` and `console` are not modelled. The saved token is an input to `Auth.Provider.Mount`.
- Only English and French texts are modelled.
- Not modelled, as presentation, probes or wiring with no logic of their own:
  - the settings, profile and login pages, the navigation, the pond table, detail card, detail modal, metrics card, pond filters and API guide components, and the layout;
  - components/api-test-component.tsx and components/cors-troubleshooting.tsx;
  - the API route wrappers;
  - the CSV analysis script;
  - `loadPondHistory` of the enhanced ponds page, which only stores what the API returns.
- `EnhancedPondsPage.TileStatus`: its contract states only the missing-value and unknown-parameter cases. The bands are its body. They are compared with the service's table by `TablesDisagree` and shown to be nested intervals by `TileBandsNested`.
- `HomePage.AverageStatus` carries no contract of its own. Its meaning is stated by `AverageStatusAgrees` and `MetricCardsUseServiceBands`.
- `ConnectionStatus.Monitor.CheckConnection`: `testConnection` catches its own errors and answers `false`, so the `Failed` probe cannot arise through the API client. It is kept as the component handles it.
- `Auth.Provider.Login`: the `'Login failed'` fallback for a thrown value without a message cannot arise, because the client always throws an `Error`. It is not modelled.
- `AlertCard.FormatTimestamp`: its "Unknown time" catch cannot be reached, because an unparseable date gives "Invalid Date" instead of throwing. An unparseable time is shown as a locale date.
- `RealtimeChart.Chart.Load`: the interval calls the closure of the render that installed it. That closure sees `loading` as it was then, so the error is cleared only by a closure that saw the first load pending.
- `EnhancedAlertsPage.PageState.HandleResolveAlert`: each click sees the state left by the previous click's updates. React's batching of updates within one event is not modelled.
- `AlertsPage.FilterAndSortAlerts`: the page loads only active alerts, so the "resolved" status filter shows nothing in practice. The filter itself is modelled as written.
- `EnhancedChart.TransformChartData`: a parameter named "time" would overwrite the time label. The model keeps the label in its own field.
- `PondChart.YDomain`: when every value is below -0.1, the lower end, held at 0, lies above the upper end (`NegativeValuesInvertDomain`). This is the behaviour as written. It is not claimed as a defect, because the pond parameters are non-negative.
- `HomePage.CalculateAverages`: the ammonia average is computed but has no card. The home page's status table has no nitrite entry, so nitrite would be graded normal.

## Findings

| source | as written | input that shows it | evidently intended | confidence | as-written member | corrected member |
|---|---|---|---|---|---|---|
| hooks/use-websocket.ts:87-119 | the `onclose` of a socket that `disconnect` dropped still schedules a retry, beside the retry chain of the new socket, so two chains run and the attempt counter passes the limit of five | open; `reconnect`; the old socket closes with 1005 and the new one with 1006; then every new socket fails | at most one pending retry and at most five attempts between two opens | not executed | WebSocketHook.StaleCloseRetriesSixTimes, WebSocketHook.BothChainsFail | WebSocketHook.RetriesBounded |
| components/realtime-chart.tsx:121-131 | stability is tested with `difference < olderAvg * 0.02`, a threshold that is 0 or negative when the older average is 0 or negative | ten readings of 0, or two equal negative averages | equal averages read as stable: the tolerance is taken on the magnitude of the older average | not executed | RealtimeChart.ZerosTrendDown, RealtimeChart.NegativeLevelTrendDown | RealtimeChart.TrendCorrected, RealtimeChart.TrendCorrectedMeaning |
