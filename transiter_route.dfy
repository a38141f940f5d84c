/**
 * The Transiter route service: builds the line list from the route index
 * and each route's detail record (service-map choice, station
 * de-duplication, placeholder scores, an aggregate safety label), behind a
 * ten-minute endpoint cache.
 */
module TransiterRoute {
  import opened Wrappers
  import opened MtaTypes
  import opened Seqs
  import opened TimedCache

  // ---------------------------------------------------------------------
  // The API's records
  // ---------------------------------------------------------------------

  datatype Route = Route(id: string, shortName: string, longName: string, color: string)

  datatype RouteStop = RouteStop(id: string, name: string, latitude: Option<real>, longitude: Option<real>)

  datatype RouteServiceMap = RouteServiceMap(configId: string, stops: Option<seq<RouteStop>>)

  /**
   * A fetched JSON body. The route index carries `routes`, a route detail
   * carries `serviceMaps`; whichever field a body lacks reads as absent.
   */
  datatype Payload = Payload(routes: Option<seq<Route>>, serviceMaps: Option<seq<RouteServiceMap>>)

  // ---------------------------------------------------------------------
  // 32-bit hashing and the placeholder scores
  // ---------------------------------------------------------------------

  const TwoTo31: int := 0x8000_0000
  const TwoTo32: int := 0x1_0000_0000

  predicate IsInt32(x: int) { -TwoTo31 <= x < TwoTo31 }

  /** ECMAScript's ToInt32: reduce modulo 2^32 into the signed range. */
  function ToInt32(x: int): (r: int)
    ensures IsInt32(r)
    ensures (r - x) % TwoTo32 == 0
  {
    (x + TwoTo31) % TwoTo32 - TwoTo31
  }

  /** ToInt32 only depends on its argument modulo 2^32. */
  lemma ToInt32Periodic(x: int, y: int)
    requires (x - y) % TwoTo32 == 0
    ensures ToInt32(x) == ToInt32(y)
  {
    var q := (x - y) / TwoTo32;
    assert x == y + q * TwoTo32;
    assert (x + TwoTo31) % TwoTo32 == (y + TwoTo31 + q * TwoTo32) % TwoTo32;
    ModAddMultiple(y + TwoTo31, q);
  }

  lemma ModAddMultiple(a: int, q: int)
    ensures (a + q * TwoTo32) % TwoTo32 == a % TwoTo32
  {
  }

  /** One iteration as written: `hash = ((hash << 5) - hash) + code; hash = hash & hash`. */
  function HashStep(hash: int, code: int): int
    requires IsInt32(hash)
  {
    ToInt32(ToInt32(hash * 32) - hash + code)
  }

  /** The textbook rolling hash step: `31 * h + c`, reduced to signed 32 bits. */
  function Roll(h: int, c: int): (r: int)
    ensures IsInt32(r)
  {
    ToInt32(31 * h + c)
  }

  /** The shift-and-subtract form computes the 32-bit rolling hash. */
  lemma HashStepIsRoll(hash: int, code: int)
    requires IsInt32(hash)
    ensures HashStep(hash, code) == Roll(hash, code)
  {
    var shifted := ToInt32(hash * 32);
    assert (shifted - hash * 32) % TwoTo32 == 0;
    assert ((shifted - hash + code) - (31 * hash + code)) % TwoTo32 == 0;
    ToInt32Periodic(shifted - hash + code, 31 * hash + code);
  }

  /** The hash of a whole name: the rolling hash over its character codes. */
  function StringHash(s: string): (h: int)
    ensures IsInt32(h)
  {
    if s == [] then 0 else Roll(StringHash(s[..|s| - 1]), s[|s| - 1] as int)
  }

  /** The hash loop shared by the three score generators. */
  method HashName(stationName: string) returns (hash: int)
    ensures hash == StringHash(stationName)
  {
    hash := 0;
    for i := 0 to |stationName|
      invariant hash == StringHash(stationName[..i])
    {
      var code := stationName[i] as int;
      HashStepIsRoll(hash, code);
      hash := HashStep(hash, code);
      assert stationName[..i + 1][..i] == stationName[..i];
    }
    assert stationName[..|stationName|] == stationName;
  }

  function Abs(x: int): (r: nat)
    ensures r == x || r == -x
  {
    if x < 0 then -x else x
  }

  const CrimeSeed: int := 12345
  const OverallSeed: int := 54321

  /** `Math.abs(hash + seed) % 4 + 6`; the seed is added after the 32-bit reduction. */
  function ScoreOf(hash: int, seed: int): (s: int)
    ensures 6 <= s <= 9
  {
    Abs(hash + seed) % 4 + 6
  }

  method GenerateBusynessScore(stationName: string) returns (score: int)
    ensures score == ScoreOf(StringHash(stationName), 0)
    ensures 6 <= score <= 9
  {
    var hash := HashName(stationName);
    score := Abs(hash) % 4 + 6;
  }

  method GenerateCrimeScore(stationName: string) returns (score: int)
    ensures score == ScoreOf(StringHash(stationName), CrimeSeed)
    ensures 6 <= score <= 9
  {
    var hash := HashName(stationName);
    hash := hash + CrimeSeed;
    score := Abs(hash) % 4 + 6;
  }

  method GenerateOverallScore(stationName: string) returns (score: int)
    ensures score == ScoreOf(StringHash(stationName), OverallSeed)
    ensures 6 <= score <= 9
  {
    var hash := HashName(stationName);
    hash := hash + OverallSeed;
    score := Abs(hash) % 4 + 6;
  }

  /**
   * The placeholder busyness score takes every value from 6 to 9, and no
   * other: the value 10 that the generators' comments announce never occurs.
   */
  lemma BusynessScoreRange()
    ensures forall name :: ScoreOf(StringHash(name), 0) != 10
    ensures ScoreOf(StringHash(""), 0) == 6
    ensures ScoreOf(StringHash("\U{1}"), 0) == 7
    ensures ScoreOf(StringHash("\U{2}"), 0) == 8
    ensures ScoreOf(StringHash("\U{3}"), 0) == 9
  {
    assert "\U{1}"[..0] == [];
    assert "\U{2}"[..0] == [];
    assert "\U{3}"[..0] == [];
  }

  // ---------------------------------------------------------------------
  // Mock metrics and the aggregate label
  // ---------------------------------------------------------------------

  const ScoreLabels: seq<string> := ["Good", "Moderate", "High", "Very High"]
  const IncidentCounts: seq<int> := [0, 1, 2, 3, 4, 5]

  /**
   * `generateMockMetrics`. `charCodeAt` past the end of the name is NaN,
   * and indexing the label list with NaN gives `undefined` (here `None`).
   */
  function MockMetrics(stationName: string): (m: Metrics)
    ensures m.lightingQuality in ScoreLabels
    ensures m.securityCameraCoverage.Some? <==> |stationName| >= 1
    ensures m.passengerTraffic.Some? <==> |stationName| >= 2
    ensures m.securityCameraCoverage.Some? ==> m.securityCameraCoverage.value in ScoreLabels
    ensures m.passengerTraffic.Some? ==> m.passengerTraffic.value in ScoreLabels
    ensures m.reportedIncidents in IncidentCounts
    ensures m.reportedIncidents == if |stationName| % 2 == 0 then 0 else 3
  {
    IncidentIndex(|stationName|);
    Metrics(
      ScoreLabels[|stationName| % 4],
      if |stationName| >= 1 then Some(ScoreLabels[stationName[0] as int % 4]) else None,
      IncidentCounts[(|stationName| * 3) % 6],
      if |stationName| >= 2 then Some(ScoreLabels[stationName[1] as int % 4]) else None)
  }

  /** `(length * 3) % 6` is 0 for an even length and 3 for an odd one. */
  lemma IncidentIndex(n: nat)
    ensures (n * 3) % 6 == if n % 2 == 0 then 0 else 3
  {
    var q := n / 2;
    assert n == 2 * q + n % 2;
    assert n * 3 == 6 * q + 3 * (n % 2);
  }

  function SumScores(stations: seq<Station>): real {
    if stations == [] then 0.0
    else SumScores(stations[..|stations| - 1]) + stations[|stations| - 1].overallScore
  }

  /** `generateAggregateSafety`: the mean overall score against 8.5 / 7.5 / 6.5. */
  function AggregateSafety(stations: seq<Station>): (rating: string)
    ensures stations == [] <==> rating == "Unknown"
  {
    if |stations| == 0 then "Unknown"
    else
      var avgScore := SumScores(stations) / |stations| as real;
      if avgScore >= 8.5 then "Very High"
      else if avgScore >= 7.5 then "High"
      else if avgScore >= 6.5 then "Moderate"
      else "Low"
  }

  /** The four labels of a non-empty line, by the band its mean score falls in. */
  lemma AggregateSafetyBands(stations: seq<Station>)
    requires stations != []
    ensures var avg := SumScores(stations) / |stations| as real;
            var rating := AggregateSafety(stations);
            && (avg >= 8.5 <==> rating == "Very High")
            && (7.5 <= avg < 8.5 <==> rating == "High")
            && (6.5 <= avg < 7.5 <==> rating == "Moderate")
            && (avg < 6.5 <==> rating == "Low")
  {
  }

  /** A sum of scores each at least `lo` is at least the count times `lo`. */
  lemma {:induction false} SumScoresAtLeast(stations: seq<Station>, lo: real)
    requires forall i :: 0 <= i < |stations| ==> lo <= stations[i].overallScore
    ensures |stations| as real * lo <= SumScores(stations)
  {
    if stations != [] {
      SumScoresAtLeast(stations[..|stations| - 1], lo);
    }
  }

  /** A sum of scores each at most `hi` is at most the count times `hi`. */
  lemma {:induction false} SumScoresAtMost(stations: seq<Station>, hi: real)
    requires forall i :: 0 <= i < |stations| ==> stations[i].overallScore <= hi
    ensures SumScores(stations) <= |stations| as real * hi
  {
    if stations != [] {
      SumScoresAtMost(stations[..|stations| - 1], hi);
    }
  }

  lemma MeanAtLeast(sum: real, count: nat, t: real)
    requires count > 0 && count as real * t <= sum
    ensures sum / count as real >= t
  {
  }

  lemma MeanAtMost(sum: real, count: nat, t: real)
    requires count > 0 && sum <= count as real * t
    ensures sum / count as real <= t
  {
  }

  /** When every station scores at least 8.5 the line is "Very High". */
  lemma AggregateSafetyAllHigh(stations: seq<Station>)
    requires stations != []
    requires forall i :: 0 <= i < |stations| ==> stations[i].overallScore >= 8.5
    ensures AggregateSafety(stations) == "Very High"
  {
    SumScoresAtLeast(stations, 8.5);
    MeanAtLeast(SumScores(stations), |stations|, 8.5);
  }

  /** When every station scores below 6.5 the line is "Low". */
  lemma AggregateSafetyAllLow(stations: seq<Station>)
    requires stations != []
    requires forall i :: 0 <= i < |stations| ==> stations[i].overallScore < 6.5
    ensures AggregateSafety(stations) == "Low"
  {
    var m := MaxScore(stations);
    SumScoresAtMost(stations, m);
    MeanAtMost(SumScores(stations), |stations|, m);
  }

  /** The highest overall score among the stations. */
  function MaxScore(stations: seq<Station>): (m: real)
    requires stations != []
    ensures forall i :: 0 <= i < |stations| ==> stations[i].overallScore <= m
    ensures exists i :: 0 <= i < |stations| && stations[i].overallScore == m
  {
    if |stations| == 1 then stations[0].overallScore
    else
      var rest := MaxScore(stations[1..]);
      if stations[0].overallScore >= rest then stations[0].overallScore else rest
  }

  // ---------------------------------------------------------------------
  // Stations and lines
  // ---------------------------------------------------------------------

  predicate IsPreferredConfig(sm: RouteServiceMap) {
    sm.configId == "alltimes" || sm.configId == "weekday" || sm.configId == "realtime"
  }

  /** The index of the first service map with a preferred configuration. */
  function FirstPreferred(maps: seq<RouteServiceMap>): (r: Option<nat>)
    ensures r.None? <==> forall i :: 0 <= i < |maps| ==> !IsPreferredConfig(maps[i])
    ensures r.Some? ==> r.value < |maps| && IsPreferredConfig(maps[r.value])
                        && forall j :: 0 <= j < r.value ==> !IsPreferredConfig(maps[j])
  {
    if maps == [] then None
    else if IsPreferredConfig(maps[0]) then Some(0)
    else
      match FirstPreferred(maps[1..])
      case None => None
      case Some(i) => Some(i + 1)
  }

  /** `serviceMaps.find(preferred) || serviceMaps[0]` (`undefined` for an empty list). */
  function ChooseServiceMap(maps: seq<RouteServiceMap>): (r: Option<RouteServiceMap>)
    ensures r.None? <==> maps == []
    ensures (exists i :: 0 <= i < |maps| && IsPreferredConfig(maps[i])) ==>
              r.Some? && IsPreferredConfig(r.value)
              && exists i :: 0 <= i < |maps| && maps[i] == r.value
                             && forall j :: 0 <= j < i ==> !IsPreferredConfig(maps[j])
    ensures maps != [] && (forall i :: 0 <= i < |maps| ==> !IsPreferredConfig(maps[i])) ==>
              r == Some(maps[0])
  {
    match FirstPreferred(maps)
    case Some(i) => Some(maps[i])
    case None => if |maps| > 0 then Some(maps[0]) else None
  }

  /** The station record built for a stop, with the placeholder scores. */
  function StationOf(stop: RouteStop): Station {
    Station(
      stop.name,
      stop.id,
      ScoreOf(StringHash(stop.name), OverallSeed) as real,
      MockMetrics(stop.name),
      Some(ScoreOf(StringHash(stop.name), 0)),
      Some(ScoreOf(StringHash(stop.name), CrimeSeed)),
      CoordinatesFrom(stop.latitude, stop.longitude))
  }

  function StopId(stop: RouteStop): string { stop.id }

  function StationsOf(stops: seq<RouteStop>): (r: seq<Station>)
    ensures |r| == |stops|
    ensures forall i :: 0 <= i < |stops| ==> r[i] == StationOf(stops[i])
  {
    seq(|stops|, i requires 0 <= i < |stops| => StationOf(stops[i]))
  }

  /**
   * The stop loop of `getRouteWithStations`: skip a stop whose id was seen,
   * otherwise build its station and append it.
   */
  method CollectStations(stops: seq<RouteStop>) returns (stations: seq<Station>)
    ensures stations == StationsOf(DedupBy(stops, StopId))
  {
    stations := [];
    var stationIds: set<string> := {};
    for i := 0 to |stops|
      invariant stations == StationsOf(DedupBy(stops[..i], StopId))
      invariant forall id :: id in stationIds <==> id in KeysOf(DedupBy(stops[..i], StopId), StopId)
    {
      var stop := stops[i];
      ghost var kept := DedupBy(stops[..i], StopId);
      assert stops[..i + 1][..i] == stops[..i];
      if stop.id in stationIds {
        continue;
      }
      stationIds := stationIds + {stop.id};
      var busynessScore := GenerateBusynessScore(stop.name);
      var crimeScore := GenerateCrimeScore(stop.name);
      var overallScore := GenerateOverallScore(stop.name);
      var station := Station(
        stop.name, stop.id, overallScore as real, MockMetrics(stop.name),
        Some(busynessScore), Some(crimeScore), CoordinatesFrom(stop.latitude, stop.longitude));
      stations := stations + [station];
      assert KeysOf(kept + [stop], StopId) == KeysOf(kept, StopId) + [stop.id];
    }
    assert stops[..|stops|] == stops;
  }

  /** No two stations of a line share an id. */
  lemma CollectedIdsDistinct(stops: seq<RouteStop>)
    ensures var st := StationsOf(DedupBy(stops, StopId));
            forall i, j :: 0 <= i < j < |st| ==> st[i].id != st[j].id
  {
    DedupByProperties(stops, StopId);
  }

  /** Each station of a line is built from the first stop carrying its id. */
  lemma CollectedFromFirstStops(stops: seq<RouteStop>)
    ensures var st := StationsOf(DedupBy(stops, StopId));
            forall i :: 0 <= i < |st| ==>
              exists k :: 0 <= k < |stops| && st[i] == StationOf(stops[k]) && FirstWithKey(stops, StopId, k)
  {
    var kept := DedupBy(stops, StopId);
    DedupByProperties(stops, StopId);
    forall i | 0 <= i < |kept|
      ensures exists k :: 0 <= k < |stops| && kept[i] == stops[k] && FirstWithKey(stops, StopId, k)
    {
      assert kept[i] in kept;
    }
  }

  /** The station built for a stop carries the stop's id. */
  lemma StationsOfIds(stops: seq<RouteStop>)
    ensures forall i :: 0 <= i < |stops| ==> StationsOf(stops)[i].id == stops[i].id
  {
  }

  /** Some station in `st` has id `id`. */
  ghost predicate HasStation(st: seq<Station>, id: string) {
    exists i :: 0 <= i < |st| && st[i].id == id
  }

  /** Every stop id of the service map has a station. */
  lemma CollectedCoversStops(stops: seq<RouteStop>)
    ensures forall k :: 0 <= k < |stops| ==> HasStation(StationsOf(DedupBy(stops, StopId)), stops[k].id)
  {
    var kept := DedupBy(stops, StopId);
    StationsOfIds(kept);
    forall k | 0 <= k < |stops| ensures HasStation(StationsOf(kept), stops[k].id) {
      DedupByKeepsKey(stops, StopId, k);
      var i :| 0 <= i < |kept| && KeysOf(kept, StopId)[i] == stops[k].id;
      assert StationsOf(kept)[i].id == stops[k].id;
    }
  }

  /** The stations a route detail yields. */
  function StationsOfDetail(detail: Payload): seq<Station> {
    if detail.serviceMaps.None? then []
    else
      match ChooseServiceMap(detail.serviceMaps.value)
      case None => []
      case Some(sm) => if sm.stops.None? then [] else StationsOf(DedupBy(sm.stops.value, StopId))
  }

  /** The line a route and its detail yield. */
  function LineOf(route: Route, detail: Payload): (line: Line)
    ensures line.lineName == route.longName + " (" + route.shortName + ")"
    ensures line.lineIcons == [route.shortName]
    ensures line.lineColor == "#" + route.color
    ensures line.stations == StationsOfDetail(detail)
    ensures line.aggregateSafety == AggregateSafety(line.stations)
  {
    var stations := StationsOfDetail(detail);
    Line(route.longName + " (" + route.shortName + ")", [route.shortName], "#" + route.color,
         AggregateSafety(stations), stations)
  }

  // ---------------------------------------------------------------------
  // The service object and its cache
  // ---------------------------------------------------------------------

  /** Ten minutes, in milliseconds. */
  const RouteCacheTimeout: int := 10 * 60 * 1000

  const RoutesEndpoint: string := "/routes"

  function RouteEndpoint(id: string): string { "/routes/" + id }

  /** The detail endpoints `getAllRoutesWithStations` fetches, one per route in order. */
  function DetailEndpoints(routes: seq<Route>): (keys: seq<string>)
    ensures |keys| == |routes|
    ensures forall i :: 0 <= i < |routes| ==> keys[i] == RouteEndpoint(routes[i].id)
  {
    if |routes| == 0 then [] else DetailEndpoints(routes[..|routes| - 1]) + [RouteEndpoint(routes[|routes| - 1].id)]
  }

  /** The cache after the details of the first `i + 1` routes, from the cache after the first `i`. */
  lemma RefreshDetailsStep(cache: map<string, Entry<Payload>>, routes: seq<Route>, i: nat, now: int,
                           fetch: string -> Option<Payload>)
    requires i < |routes|
    ensures RefreshAll(cache, DetailEndpoints(routes[..i + 1]), now, RouteCacheTimeout, fetch)
            == Refresh(RefreshAll(cache, DetailEndpoints(routes[..i]), now, RouteCacheTimeout, fetch),
                       RouteEndpoint(routes[i].id), now, RouteCacheTimeout, fetch)
  {
    assert routes[..i + 1][..i] == routes[..i];
    assert DetailEndpoints(routes[..i + 1]) == DetailEndpoints(routes[..i]) + [RouteEndpoint(routes[i].id)];
    RefreshAllSnoc(cache, DetailEndpoints(routes[..i]), RouteEndpoint(routes[i].id), now, RouteCacheTimeout, fetch);
  }

  /** The route's detail was served and yields `line`, which has a station. */
  ghost predicate Yields(route: Route, served: string -> Option<Payload>, line: Line) {
    && served(RouteEndpoint(route.id)).Some?
    && line == LineOf(route, served(RouteEndpoint(route.id)).value)
    && |line.stations| > 0
  }

  /** What one route adds to the line list: its line, if its detail was served and has a station. */
  function LineFor(route: Route, served: string -> Option<Payload>): (r: seq<Line>)
    ensures |r| <= 1
    ensures forall line :: line in r <==> Yields(route, served, line)
  {
    match served(RouteEndpoint(route.id))
    case None => []
    case Some(detail) => if |LineOf(route, detail).stations| > 0 then [LineOf(route, detail)] else []
  }

  /** The lines `getAllRoutesWithStations` keeps, in route order. */
  function LinesFor(routes: seq<Route>, served: string -> Option<Payload>): seq<Line> {
    if routes == [] then []
    else LinesFor(routes[..|routes| - 1], served) + LineFor(routes[|routes| - 1], served)
  }

  /** One route of the loop in `getAllRoutesWithStations`: its line, if it has stations, is appended. */
  lemma LinesForStep(routes: seq<Route>, i: nat, served: string -> Option<Payload>, line: Option<Line>)
    requires i < |routes|
    requires var detail := served(RouteEndpoint(routes[i].id));
             line == if detail.None? then None else Some(LineOf(routes[i], detail.value))
    ensures LinesFor(routes[..i + 1], served)
            == LinesFor(routes[..i], served) + (if line.Some? && |line.value.stations| > 0 then [line.value] else [])
  {
    assert routes[..i + 1][..i] == routes[..i];
  }

  /** Every kept line comes from a route whose detail was served and yields it. */
  lemma {:induction false} LinesForSound(routes: seq<Route>, served: string -> Option<Payload>, line: Line)
    requires line in LinesFor(routes, served)
    ensures exists i :: 0 <= i < |routes| && Yields(routes[i], served, line)
  {
    var n := |routes| - 1;
    var prefix := routes[..n];
    assert LinesFor(routes, served) == LinesFor(prefix, served) + LineFor(routes[n], served);
    if line in LinesFor(prefix, served) {
      LinesForSound(prefix, served, line);
      var i :| 0 <= i < n && Yields(prefix[i], served, line);
      assert prefix[i] == routes[i];
    } else {
      assert Yields(routes[n], served, line);
    }
  }

  /** Every route whose served detail yields a line with a station contributes that line. */
  lemma {:induction false} LinesForComplete(routes: seq<Route>, served: string -> Option<Payload>, line: Line, i: int)
    requires 0 <= i < |routes| && Yields(routes[i], served, line)
    ensures line in LinesFor(routes, served)
  {
    var n := |routes| - 1;
    var prefix := routes[..n];
    assert LinesFor(routes, served) == LinesFor(prefix, served) + LineFor(routes[n], served);
    if i < n {
      assert prefix[i] == routes[i];
      LinesForComplete(prefix, served, line, i);
    } else {
      assert i == n;
      assert Yields(routes[n], served, line);
      assert line in LineFor(routes[n], served);
    }
  }

  /**
   * A line is in the result exactly when some route's detail was served and
   * yields it with at least one station; a route whose detail failed is
   * skipped without affecting the others.
   */
  lemma LinesForMembership(routes: seq<Route>, served: string -> Option<Payload>, line: Line)
    ensures line in LinesFor(routes, served) <==>
              exists i :: 0 <= i < |routes| && Yields(routes[i], served, line)
  {
    if line in LinesFor(routes, served) {
      LinesForSound(routes, served, line);
    }
    if exists i :: 0 <= i < |routes| && Yields(routes[i], served, line) {
      var i :| 0 <= i < |routes| && Yields(routes[i], served, line);
      LinesForComplete(routes, served, line, i);
    }
  }

  class TransiterRouteService {
    var cache: map<string, Entry<Payload>>

    constructor ()
      ensures cache == map[]
    {
      cache := map[];
    }

    method FetchWithCache(endpoint: string, now: int, fetch: string -> Option<Payload>)
      returns (data: Option<Payload>)
      modifies this
      ensures data == Serve(old(cache), endpoint, now, RouteCacheTimeout, fetch)
      ensures cache == Refresh(old(cache), endpoint, now, RouteCacheTimeout, fetch)
    {
      if endpoint in cache && now - cache[endpoint].timestamp < RouteCacheTimeout {
        return Some(cache[endpoint].data);
      }
      var response := fetch(endpoint);
      if response.None? {
        return None;
      }
      cache := cache[endpoint := Entry(response.value, now)];
      data := response;
    }

    /** `getRouteWithStations`: `null` when the detail cannot be fetched. */
    method GetRouteWithStations(route: Route, now: int, fetch: string -> Option<Payload>)
      returns (line: Option<Line>)
      modifies this
      ensures cache == Refresh(old(cache), RouteEndpoint(route.id), now, RouteCacheTimeout, fetch)
      ensures var detail := Serve(old(cache), RouteEndpoint(route.id), now, RouteCacheTimeout, fetch);
              line == if detail.None? then None else Some(LineOf(route, detail.value))
    {
      var routeDetail := FetchWithCache(RouteEndpoint(route.id), now, fetch);
      if routeDetail.None? {
        return None;
      }
      var stations: seq<Station> := [];
      if routeDetail.value.serviceMaps.Some? {
        var serviceMap := ChooseServiceMap(routeDetail.value.serviceMaps.value);
        if serviceMap.Some? && serviceMap.value.stops.Some? {
          stations := CollectStations(serviceMap.value.stops.value);
        }
      }
      line := Some(Line(route.longName + " (" + route.shortName + ")", [route.shortName], "#" + route.color,
                        AggregateSafety(stations), stations));
    }

    /**
     * `getAllRoutesWithStations`: the route index, then each route's line,
     * keeping those with at least one station, in route order.
     */
    method GetAllRoutesWithStations(now: int, fetch: string -> Option<Payload>)
      returns (lines: seq<Line>)
      modifies this
      ensures var index := Serve(old(cache), RoutesEndpoint, now, RouteCacheTimeout, fetch);
              lines == if index.None? || index.value.routes.None? then []
                       else LinesFor(index.value.routes.value,
                                     e => Serve(old(cache), e, now, RouteCacheTimeout, fetch))
      ensures var index := Serve(old(cache), RoutesEndpoint, now, RouteCacheTimeout, fetch);
              var afterIndex := Refresh(old(cache), RoutesEndpoint, now, RouteCacheTimeout, fetch);
              cache == if index.None? || index.value.routes.None? then afterIndex
                       else RefreshAll(afterIndex, DetailEndpoints(index.value.routes.value), now, RouteCacheTimeout, fetch)
      ensures forall e :: Serve(cache, e, now, RouteCacheTimeout, fetch) == Serve(old(cache), e, now, RouteCacheTimeout, fetch)
    {
      ghost var initial := cache;
      ghost var served := e => Serve(initial, e, now, RouteCacheTimeout, fetch);
      var routesResponse := FetchWithCache(RoutesEndpoint, now, fetch);
      forall e ensures Serve(cache, e, now, RouteCacheTimeout, fetch) == served(e) {
        ServeStable(initial, RoutesEndpoint, e, now, RouteCacheTimeout, fetch);
      }
      if routesResponse.None? || routesResponse.value.routes.None? {
        return [];
      }
      ghost var afterIndex := cache;
      var routes := routesResponse.value.routes.value;
      lines := [];
      for i := 0 to |routes|
        invariant lines == LinesFor(routes[..i], served)
        invariant cache == RefreshAll(afterIndex, DetailEndpoints(routes[..i]), now, RouteCacheTimeout, fetch)
        invariant forall e :: Serve(cache, e, now, RouteCacheTimeout, fetch) == served(e)
      {
        var route := routes[i];
        ghost var before := cache;
        var routeDetail := GetRouteWithStations(route, now, fetch);
        forall e ensures Serve(cache, e, now, RouteCacheTimeout, fetch) == served(e) {
          ServeStable(before, RouteEndpoint(route.id), e, now, RouteCacheTimeout, fetch);
        }
        LinesForStep(routes, i, served, routeDetail);
        RefreshDetailsStep(afterIndex, routes, i, now, fetch);
        if routeDetail.Some? && |routeDetail.value.stations| > 0 {
          lines := lines + [routeDetail.value];
        }
      }
      assert routes[..|routes|] == routes;
    }

    method ClearCache()
      modifies this
      ensures cache == map[]
    {
      cache := map[];
    }
  }

  /** With the network down, loading every line leaves whatever the cache held untouched. */
  method OfflineKeepsCache(service: TransiterRouteService, now: int, fetch: string -> Option<Payload>)
    returns (lines: seq<Line>)
    requires forall e :: fetch(e).None?
    modifies service
    ensures service.cache == old(service.cache)
  {
    ghost var initial := service.cache;
    lines := service.GetAllRoutesWithStations(now, fetch);
    var index := Serve(initial, RoutesEndpoint, now, RouteCacheTimeout, fetch);
    if index.Some? && index.value.routes.Some? {
      RefreshAllFailing(initial, DetailEndpoints(index.value.routes.value), now, RouteCacheTimeout, fetch);
    }
  }
}
