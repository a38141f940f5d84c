# SubwaySense core, modelled in Dafny

SubwaySense is a React Native app that shows New York subway lines and
stations with safety, busyness and service information. This project models
the logic under the screens and proves properties about it:

- **ML traffic service** (`MlTraffic`). The app keeps a table of traffic
  predictions keyed by station, day of week, hour and month. It converts the
  clock into that key and looks up the first matching record. It then sorts
  the value into one of five busyness bands. The service object keeps the
  table, a loaded flag and a load-in-progress flag. A failed load still
  counts as loaded.
- **Nearest station** (`StationUtils`). A linear scan over the stations
  that keeps the strictly nearest one with a known coordinate, so the
  earliest station wins a tie.
- **Transiter station service** (`TransiterStation`). It turns a fetched
  stop record into the station view. Arrivals are the future stop times,
  clamped at zero minutes, sorted and cut to ten. Route ids are
  de-duplicated and a route colour map is built. Platforms, transfers and
  coordinates are copied over. A five-minute endpoint cache sits in front of
  the fetch (`TimedCache`).
- **Transiter route service** (`TransiterRoute`). It builds the line list.
  It picks a service map by configuration priority and de-duplicates the
  stops by id. Each station gets placeholder scores from a 32-bit rolling
  hash of its name and mock metrics. Each line gets an aggregate safety
  label. A ten-minute cache sits in front of the fetch.
- **Flask safety service** (`FlaskSafety`). Incident reports become service
  alerts. Ids have the form `flask-<station>-<index>`, and the severity is
  chosen by keywords.
- **Alert panels** (`SafetyAlerts`, `ServiceAlerts`). These hold the
  relevance and line-overlap filters, the active and high-priority
  sublists, the severity colours, icons and texts, and the "time ago"
  wording.
- **Station search** (`LineSearch`). A case-insensitive substring search
  over every line's stations, in line order and then station order.

Shared pieces: `Wrappers` (an `Option` type), `MtaTypes` (the app's records),
`JsText` (JavaScript's `toLowerCase`, `includes`, `startsWith`, `trim`
emptiness and number rendering) and `Seqs` (`filter`, `some` and the
"skip keys already seen" de-duplication loop).

The model takes inputs in place of the outside world:
- A network request is a function from endpoint to an optional payload.
  `None` stands for a failed request.
- The clock is a `now` value passed to each operation.
- The distance between the user and a station is a function of the
  station's coordinate.
- The start time of an alert enters as the elapsed milliseconds. For the
  service panel's fallback, the locale-formatted date enters as a string.
- The outcome of loading the prediction file is a parameter.

Three points where the model follows what the code does:
- The prediction lookup matches station names exactly. There is no fallback
  to name variants.
- There is no 1–10 safety sub-score in the traffic service.
- The placeholder scores range over 6..9. The comments beside the
  generators say 6-10, but 10 is never produced
  (`TransiterRoute.BusynessScoreRange`).

## Model

| member | source | states |
|---|---|---|
| MlTraffic.BusynessCategory | services/mlTrafficService.ts:95-127 | each of the five categories holds exactly on its band: below 7, [7,21), [21,42), [42,77), 77 and above, so the bands have no gaps or overlaps |
| MlTraffic.BusynessMonotone | services/mlTrafficService.ts:95-127 | more traffic never gives a lower busyness rank |
| MlTraffic.ColourSharedByTwoBands | services/mlTrafficService.ts:95-127 | "Low" and "Extremely High" are drawn in the same colour although they are different categories |
| MlTraffic.Dotw | services/mlTrafficService.ts:71 | the Monday-based day lies in 0..6; Sunday maps to 6 and every other day to one less |
| MlTraffic.DotwBijective | services/mlTrafficService.ts:71 | the day conversion is a bijection on 0..6 |
| MlTraffic.TimeKeyOf | services/mlTrafficService.ts:70-73 | the lookup key has a day in 0..6, an hour in 0..23 and a month in 1..12 |
| MlTraffic.FirstMatchIndex | services/mlTrafficService.ts:76-81 | gives no index iff no record matches all four keys; otherwise the index of the first matching record |
| MlTraffic.Lookup | services/mlTrafficService.ts:65-89 | null iff the table is empty or no record matches; otherwise the first match's predicted traffic |
| MlTraffic.BusynessOf | services/mlTrafficService.ts:139-153 | `isMLData` iff a prediction exists; then the level is that prediction's category, otherwise both fields are null |
| MlTraffic.BatchBusyness | services/mlTrafficService.ts:172-195 | one map entry per distinct input name, each equal to the single-station result for the same time key |
| MlTraffic.StationsOf | services/mlTrafficService.ts:210 | the set holds exactly the stations named in the table and is no larger than the table |
| MlTraffic.StatsOf | services/mlTrafficService.ts:203-217 | `uniqueStations` is the number of distinct stations, at most `totalPredictions`, and zero iff the table is empty |
| MlTraffic.MLTrafficService.constructor | services/mlTrafficService.ts:19-21 | starts with an empty table, not loaded and no load started |
| MlTraffic.MLTrafficService.LoadPredictions | services/mlTrafficService.ts:34-57 | a no-op once loaded or started; otherwise loads the table, or on failure sets it empty and still marks it loaded |
| MlTraffic.MLTrafficService.GetCurrentTrafficPrediction | services/mlTrafficService.ts:62-89 | loads if needed, then returns the lookup of the station under the current time key |
| MlTraffic.MLTrafficService.GetCurrentBusyness | services/mlTrafficService.ts:132-154 | loads if needed, then returns the busyness of that lookup |
| MlTraffic.MLTrafficService.GetBatchBusyness | services/mlTrafficService.ts:159-198 | loads if needed, then one entry per distinct name, each the single-station busyness |
| MlTraffic.MLTrafficService.GetPredictionStats | services/mlTrafficService.ts:203-217 | loads if needed, then returns the statistics of the loaded table |
| MlTraffic.MLTrafficService.ClearCache | services/mlTrafficService.ts:222-227 | returns the service to its initial state |
| MlTraffic.FailedLoadIsFinal | services/mlTrafficService.ts:52-56 | after a failed load, whether made by a prediction or a busyness lookup, every lookup is null and the stats report a loaded empty table, even if a later load would succeed |
| MlTraffic.ClearCacheReloads | services/mlTrafficService.ts:222-227 | after clearing, the next lookup reloads and answers from the new table |
| StationUtils.ClosestInNone | utils/stationUtils.ts:61-75 | the result is null iff no input station has a coordinate, including for an empty list |
| StationUtils.ClosestInCorrect | utils/stationUtils.ts:64-73 | a result is the earliest input station at minimum distance among those with a coordinate, with that station's distance |
| StationUtils.UnlocatedIgnored | utils/stationUtils.ts:65-66 | removing the stations without a coordinate does not change the result |
| StationUtils.FindClosestStation | utils/stationUtils.ts:56-76 | the scan returns the earliest nearest located station, and null iff none has a coordinate |
| StationUtils.TieGoesToFirst | utils/stationUtils.ts:4-33 | two ids share a coordinate in the table, and between them the first in input order is returned |
| TimedCache.Serve | services/transiterStationService.ts:211-241 | an entry younger than the timeout is served from the cache; otherwise the fetch result is returned |
| TimedCache.Refresh | services/transiterStationService.ts:211-241 | a successful fetch of a stale or missing entry stores it with the current time; a fresh hit or a failed fetch leaves the cache unchanged |
| TimedCache.ServeStable | services/transiterStationService.ts:211-241 | refreshing one endpoint does not change what any endpoint serves at the same moment |
| TimedCache.ExpiresAfterTimeout | services/transiterStationService.ts:215 | an entry stored now is stale once the timeout has passed |
| TimedCache.RefreshAll | services/transiterRouteService.ts:287-311 | a run of fetches at one instant never drops a cached key and adds only keys that were fetched |
| TimedCache.ServeStableAll | services/transiterRouteService.ts:287-311 | after a run of fetches at one instant, every key is served as before |
| TimedCache.RefreshAllFailing | services/transiterRouteService.ts:287-311 | when every request fails, a run of fetches leaves the cache unchanged |
| MtaTypes.CoordinatesFrom | services/transiterStationService.ts:127-130 | coordinates are set iff latitude and longitude are both present and non-zero, and then carry those values |
| TransiterStation.RoundToMinutes | services/transiterStationService.ts:193 | the rounded minute count is within half a minute of the time difference |
| TransiterStation.ToArrival | services/transiterStationService.ts:191-202 | minutes are never negative; direction is N iff `directionId` is true and S otherwise; delayed iff the delay is positive |
| TransiterStation.SortByMinutes | services/transiterStationService.ts:204 | the result is sorted by minutes and is a permutation of the input |
| TransiterStation.SortByMinutesStable | services/transiterStationService.ts:204 | the sort is stable: arrivals due at the same minute keep their input order, which decides which tied trains the cut to ten keeps |
| TransiterStation.Take | services/transiterStationService.ts:205 | the result is the input's prefix of length min(n, length) |
| TransiterStation.ParseStopTimesShape | services/transiterStationService.ts:186-206 | only future stop times count; the length is min(10, future count); the list is sorted; minutes are never negative |
| TransiterStation.TakeSortedKeepsSoonest | services/transiterStationService.ts:205 | cutting a sorted arrival list after its first n > 0 entries drops nothing due sooner than the last one kept |
| TransiterStation.ParseStopTimesKeepsSoonest | services/transiterStationService.ts:204-205 | the result is a sub-multiset of the future arrivals and every dropped one is no sooner than the last one kept |
| TransiterStation.ColorMapLastWins | services/transiterStationService.ts:143-148 | the colour map's keys are the route ids seen, and each colour is "#" plus the colour of the last route with that id |
| TransiterStation.ColorMapKeys | services/transiterStationService.ts:143-148 | the colour map's keys are exactly the route ids seen |
| TransiterStation.ColorMapValues | services/transiterStationService.ts:143-148 | each key holds "#" plus the colour of the last route with that id |
| TransiterStation.AddServiceMapRoutes | services/transiterStationService.ts:144-147 | the inner loop over one service map's routes extends the ordered id set and the colour map by those routes |
| TransiterStation.ExtractRoutes | services/transiterStationService.ts:139-152 | the nested loops build the de-duplicated route ids in first-seen order and the colour map |
| TransiterStation.RouteIdsProperties | services/transiterStationService.ts:139-152 | the route ids have no repeats and are exactly the colour map's keys |
| TransiterStation.BuildStationData | services/transiterStationService.ts:124-176 | the station view: coordinates only when both are truthy; routes and colours from the service maps; platforms and transfers in order and length; the parsed arrivals |
| TransiterStation.DescribesStopUnique | services/transiterStationService.ts:124-176 | the station view of a stop is determined field by field, so the view built and the view returned are the same record |
| TransiterStation.TransiterStationService.constructor | services/transiterStationService.ts:107-108 | starts with an empty cache |
| TransiterStation.TransiterStationService.FetchWithCache | services/transiterStationService.ts:211-241 | serves a fresh entry; on a miss stores a successful fetch with the current time; a failed fetch gives null and leaves the cache unchanged |
| TransiterStation.TransiterStationService.GetStationData | services/transiterStationService.ts:113-180 | null iff the stop could not be served; otherwise every field of the station view of the served stop (id, name, coordinates, routes, route colours, platforms, transfers, arrivals); the new cache is the refreshed one |
| TransiterStation.TransiterStationService.ClearCache | services/transiterStationService.ts:259-262 | empties the cache |
| TransiterRoute.ToInt32 | services/transiterRouteService.ts:217 | the result is a signed 32-bit value congruent to the input modulo 2^32 |
| TransiterRoute.HashStepIsRoll | services/transiterRouteService.ts:214-218 | the shift-and-subtract step equals the 32-bit reduction of 31·h + code |
| TransiterRoute.StringHash | services/transiterRouteService.ts:213-218 | the rolling hash of a name is a signed 32-bit value |
| TransiterRoute.HashName | services/transiterRouteService.ts:213-218 | the loop computes the rolling hash of the name |
| TransiterRoute.ScoreOf | services/transiterRouteService.ts:219 | the absolute value of the seeded hash, modulo 4, plus 6, lies in 6..9 |
| TransiterRoute.GenerateBusynessScore | services/transiterRouteService.ts:211-220 | the score of the unseeded name hash, in 6..9 |
| TransiterRoute.GenerateCrimeScore | services/transiterRouteService.ts:225-236 | the score of the hash plus 12345, in 6..9 |
| TransiterRoute.GenerateOverallScore | services/transiterRouteService.ts:241-253 | the score of the hash plus 54321, in 6..9 |
| TransiterRoute.BusynessScoreRange | services/transiterRouteService.ts:219 | every value 6, 7, 8 and 9 occurs, and 10 never does |
| TransiterRoute.MockMetrics | services/transiterRouteService.ts:258-268 | each metric comes from its fixed list; the character-based ones are missing iff the name is too short; incidents are 0 for even-length names and 3 for odd |
| TransiterRoute.IncidentIndex | services/transiterRouteService.ts:265 | the incident index `(length * 3) % 6` is 0 for even lengths and 3 for odd ones |
| TransiterRoute.AggregateSafety | services/transiterRouteService.ts:273-282 | "Unknown" iff the station list is empty |
| TransiterRoute.AggregateSafetyBands | services/transiterRouteService.ts:276-281 | a non-empty line's label is fixed by the band of its mean overall score: 8.5, 7.5 and 6.5 are the lower bounds |
| TransiterRoute.AggregateSafetyAllHigh | services/transiterRouteService.ts:276-278 | a line whose every station scores at least 8.5 is "Very High" |
| TransiterRoute.AggregateSafetyAllLow | services/transiterRouteService.ts:276-281 | a line whose every station scores below 6.5 is "Low" |
| TransiterRoute.FirstPreferred | services/transiterRouteService.ts:160-164 | the index of the first service map whose configuration is alltimes, weekday or realtime, or none if there is no such map |
| TransiterRoute.ChooseServiceMap | services/transiterRouteService.ts:160-164 | the first preferred map if there is one, else the first map, else nothing for an empty list |
| TransiterRoute.StationsOf | services/transiterRouteService.ts:174-187 | one station per stop, in order |
| TransiterRoute.CollectStations | services/transiterRouteService.ts:166-189 | the loop with its seen-id set builds the stations of the de-duplicated stops |
| TransiterRoute.CollectedIdsDistinct | services/transiterRouteService.ts:168-171 | the stations of a line have pairwise distinct ids |
| TransiterRoute.CollectedFromFirstStops | services/transiterRouteService.ts:168-171 | each station is built from the first stop carrying its id |
| TransiterRoute.CollectedCoversStops | services/transiterRouteService.ts:168-171 | every stop's id has a station |
| TransiterRoute.LineOf | services/transiterRouteService.ts:193-199 | the line is named "longName (shortName)", has the short name as its only icon, colour "#" plus the route colour, and its label is the aggregate safety of its stations |
| TransiterRoute.LineFor | services/transiterRouteService.ts:121-127 | a route contributes its line exactly when its detail was served and yields at least one station |
| TransiterRoute.LinesForSound | services/transiterRouteService.ts:117-132 | every kept line comes from a route whose detail was served and yields it |
| TransiterRoute.LinesForComplete | services/transiterRouteService.ts:117-132 | every route whose detail yields a line with stations is kept, whatever happens to the other routes |
| TransiterRoute.LinesForMembership | services/transiterRouteService.ts:117-132 | a line is kept iff some route's served detail yields it with at least one station |
| TransiterRoute.TransiterRouteService.constructor | services/transiterRouteService.ts:95-96 | starts with an empty cache |
| TransiterRoute.TransiterRouteService.FetchWithCache | services/transiterRouteService.ts:287-316 | serves a fresh entry, else fetches and stores a success with the current time |
| TransiterRoute.TransiterRouteService.GetRouteWithStations | services/transiterRouteService.ts:145-205 | null iff the route's detail could not be served; otherwise that route's line |
| TransiterRoute.TransiterRouteService.GetAllRoutesWithStations | services/transiterRouteService.ts:101-139 | empty when the route index is missing; otherwise, in route order, the lines of the routes whose detail yields a station; the new cache is the old one refreshed at the index and then at each route's detail endpoint, and it serves every endpoint exactly as the old one did |
| TransiterRoute.OfflineKeepsCache | services/transiterRouteService.ts:101-139 | with every request failing, loading all lines leaves the cache as it was |
| TransiterRoute.TransiterRouteService.ClearCache | services/transiterRouteService.ts:322-325 | empties the cache |
| FlaskSafety.DetermineSeverity | services/flaskSafetyService.ts:63-75 | high iff the lower-cased description mentions a high keyword; medium iff it mentions a medium keyword and no high one; low otherwise |
| FlaskSafety.HighKeywordAnywhere | services/flaskSafetyService.ts:64-68 | a high keyword in any letter case, anywhere in the description, makes it high whatever else it says |
| FlaskSafety.MediumKeywordAnywhere | services/flaskSafetyService.ts:70-72 | a medium keyword in any letter case makes it medium when no high keyword occurs |
| FlaskSafety.IncidentAlert | services/flaskSafetyService.ts:43-51 | the alert has the id `flask-<station>-<index>`, the fixed title, the description "<description> at <station> (<time>)", the keyword severity, no affected lines and is active |
| FlaskSafety.GetSafetyAlerts | services/flaskSafetyService.ts:21-58 | a failed request or a missing `response` gives no alerts; otherwise one alert per incident, in order |
| FlaskSafety.AlertIdsDistinct | services/flaskSafetyService.ts:44 | alerts for different incident indices have different ids |
| FlaskSafety.SafetyAlertIds | services/flaskSafetyService.ts:43-44 | all alert ids start with "flask-" and are pairwise distinct |
| SafetyAlerts.RelevanceCharacterised | components/SafetyAlerts.tsx:49-62 | a Flask alert is always relevant; any other alert is relevant iff there are no line icons, the icon list is empty, or it shares a line with the icons; the station id plays no part |
| SafetyAlerts.RelevantAlerts | components/SafetyAlerts.tsx:46-62 | every kept alert comes from the combined list and passes the relevance test |
| SafetyAlerts.FlaskAlertsAlwaysShown | components/SafetyAlerts.tsx:46-51 | the relevant list is all the Flask alerts, in order, followed by the relevant service alerts in order |
| SafetyAlerts.RelevantIsSubsequence | components/SafetyAlerts.tsx:46-62 | the relevant list keeps the order of the combined list |
| SafetyAlerts.ActiveAlerts | components/SafetyAlerts.tsx:121 | exactly the relevant alerts that are active |
| SafetyAlerts.HighPriorityAlerts | components/SafetyAlerts.tsx:122 | exactly the active alerts of high severity |
| SafetyAlerts.HighPriorityIsActiveHigh | components/SafetyAlerts.tsx:121-122 | high-priority alerts are the relevant alerts that are both active and high, in order |
| SafetyAlerts.PriorityNesting | components/SafetyAlerts.tsx:121-122 | high-priority within active within relevant, each an ordered sublist |
| SafetyAlerts.SeverityPresentationsDistinct | components/SafetyAlerts.tsx:64-89 | colour, icon and text each tell the three severities apart, and none falls back to its default |
| SafetyAlerts.AgoOf | components/SafetyAlerts.tsx:91-102 | "just now" iff under a minute; otherwise whole minutes below 60, whole hours below 24, or whole days, each the floor of the elapsed time |
| SafetyAlerts.RenderAgo | components/SafetyAlerts.tsx:96-101 | every wording other than "Just now" starts with a digit |
| SafetyAlerts.RenderAgoInjective | components/SafetyAlerts.tsx:96-101 | different buckets or counts never read alike |
| SafetyAlerts.FormatTimeAgo | components/SafetyAlerts.tsx:91-102 | "Just now" iff less than a minute has elapsed |
| ServiceAlerts.FilteredAlerts | components/ServiceAlerts.tsx:15-19 | with no line list every alert; otherwise exactly the alerts sharing a line with it; always an ordered sublist |
| ServiceAlerts.EmptyLineListContrast | components/ServiceAlerts.tsx:15-19 | an empty line list keeps no service alert here, while the safety panel keeps them all |
| ServiceAlerts.StatusOf | components/ServiceAlerts.tsx:61-82 | "Good Service" iff no alert is shown; otherwise the badge shows how many are |
| ServiceAlerts.StatusWithoutLines | components/ServiceAlerts.tsx:61-82 | without a line list the badge counts every alert |
| ServiceAlerts.SeverityPresentation | components/ServiceAlerts.tsx:21-43 | icons and colours tell the severities apart; each icon uses its severity's colour; only low severity is coloured differently from the safety panel |
| ServiceAlerts.ElapsedOf | components/ServiceAlerts.tsx:45-59 | whole minutes, possibly negative, below one hour; whole hours from one up to 23; the date from one day on |
| ServiceAlerts.FormatTime | components/ServiceAlerts.tsx:45-59 | from one day on the date is shown |
| ServiceAlerts.FormatsAgree | components/ServiceAlerts.tsx:45-59 | from one minute up to one day the two panels word the elapsed time identically |
| LineSearch.SearchResults | app/lines.tsx:25-39 | null iff the query trims to nothing; otherwise the results of the nested loop, line by line and station by station |
| LineSearch.LineHitsMembership | app/lines.tsx:31-33 | a line's results are exactly its stations whose lower-cased name includes the lower-cased query |
| LineSearch.HitsMembership | app/lines.tsx:30-36 | a pair is a result iff the station belongs to the line and its name matches the query |
| LineSearch.HitsConcat | app/lines.tsx:30-36 | results come line by line: searching concatenated line lists concatenates the results |
| LineSearch.LineHitsAt | app/lines.tsx:30-36 | within one line, a matching station is reported once for each time it occurs among the line's stations, and an unmatched one never |
| LineSearch.SharedStationOncePerLine | app/lines.tsx:30-36 | a matching station that occurs once on each of any number of lines is reported exactly once per line, in line order |
| LineSearch.SharedStationOnTwoLines | app/lines.tsx:30-36 | the two-line instance: a station on both lines yields one hit for the first line, then one for the second |
| LineSearch.TimesSquareFound | app/lines.tsx:32 | the search ignores letter case: "42 st" finds "Times Square - 42 St" |

## Left out

- Network requests, the dynamic import of the prediction file and JSON
  parsing are not modelled. Each request is a parameter that either yields
  a payload or fails.
- The sharing of one in-flight load between concurrent callers is not
  modelled. Only its sequential effect is: a second load while one has
  started is a no-op.
- Time does not pass during an operation. One `now` serves both the cache
  check and the stored timestamp, and the arrival parsing uses the same
  `now`.
- `calculateDistance` (Haversine) is not modelled. Distance is an arbitrary
  function of the coordinate.
- Floating-point arithmetic is modelled as exact `real` arithmetic. This
  covers the traffic values, the delay and the mean score.
- `toLowerCase` lower-cases ASCII letters only.
- `charCodeAt` is the character's code point. Characters outside the basic
  plane are not split into surrogate pairs.
- `parseInt` of an arrival time is taken as already done. A malformed time
  string is not modelled.
- `startTime` parsing and `toLocaleDateString` are not modelled. The
  elapsed milliseconds and the formatted date are inputs.
- Logging, rendering, styles, hooks, polling and `testConnection` are not
  modelled.
- The safety panel's own loading and error state for the Flask request is
  not modelled, nor is the fetch being skipped when there is no station
  name. The Flask alert list is an input.
- TransiterRoute.AggregateSafety: its own contract states only the
  "Unknown" case. The four bands are stated by
  TransiterRoute.AggregateSafetyBands.
- ServiceAlerts.FormatTime: its own contract states only the date case.
  The minute and hour buckets are stated by ServiceAlerts.ElapsedOf.
- SafetyAlerts.FormatTimeAgo: its own contract states only the
  "Just now" case. The buckets are stated by SafetyAlerts.AgoOf.
- MlTraffic.BatchBusyness: the result is an unordered Dafny `map`, so the
  insertion order of the JavaScript `Map` (the order of the requested
  names) is not modelled.
- MlTraffic.MLTrafficService.GetBatchBusyness: returns that same unordered
  `map`, so iteration order is not modelled either.
