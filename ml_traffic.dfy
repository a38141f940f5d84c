/**
 * The machine-learning traffic service: an in-memory table of predicted
 * traffic per (station, day of week, hour, month), a lookup keyed by the
 * current local time, and a classification of the predicted value into
 * five busyness bands.
 */
module MlTraffic {
  import opened Wrappers

  /** One row of the bundled prediction table. */
  datatype Prediction = Prediction(
    station: string,
    dotw: int,
    hour: int,
    month: int,
    predictedTraffic: real)

  // ---------------------------------------------------------------------
  // Busyness bands
  // ---------------------------------------------------------------------

  const ExtremelyLowThreshold: real := 7.0
  const LowThreshold: real := 21.0
  const AverageThreshold: real := 42.0
  const HighThreshold: real := 77.0

  datatype Category = ExtremelyLow | Low | Average | High | ExtremelyHigh

  datatype BusynessLevel = BusynessLevel(category: Category, color: string, description: string)

  /** The position of a band on the quiet-to-busy scale. */
  function Rank(c: Category): nat {
    match c
    case ExtremelyLow => 0
    case Low => 1
    case Average => 2
    case High => 3
    case ExtremelyHigh => 4
  }

  /**
   * The band of a predicted traffic value, with its display colour and
   * text. The five bands are the half-open intervals cut at 7, 21, 42, 77.
   */
  function BusynessCategory(trafficPrediction: real): (b: BusynessLevel)
    ensures b.category == ExtremelyLow <==> trafficPrediction < ExtremelyLowThreshold
    ensures b.category == Low <==> ExtremelyLowThreshold <= trafficPrediction < LowThreshold
    ensures b.category == Average <==> LowThreshold <= trafficPrediction < AverageThreshold
    ensures b.category == High <==> AverageThreshold <= trafficPrediction < HighThreshold
    ensures b.category == ExtremelyHigh <==> HighThreshold <= trafficPrediction
  {
    if trafficPrediction < ExtremelyLowThreshold then
      BusynessLevel(ExtremelyLow, "#FF3B30", "Very quiet")
    else if trafficPrediction < LowThreshold then
      BusynessLevel(Low, "#FF9500", "Light traffic")
    else if trafficPrediction < AverageThreshold then
      BusynessLevel(Average, "#34C759", "Moderate traffic")
    else if trafficPrediction < HighThreshold then
      BusynessLevel(High, "#FFCC00", "Busy")
    else
      BusynessLevel(ExtremelyHigh, "#FF9500", "Very busy")
  }

  /** More predicted traffic never gives a quieter band. */
  lemma BusynessMonotone(v: real, w: real)
    requires v <= w
    ensures Rank(BusynessCategory(v).category) <= Rank(BusynessCategory(w).category)
  {
  }

  /** The colour alone does not identify the band: "Low" and "Extremely High" share orange. */
  lemma ColourSharedByTwoBands()
    ensures BusynessCategory(10.0).color == BusynessCategory(100.0).color
    ensures BusynessCategory(10.0).category != BusynessCategory(100.0).category
  {
  }

  // ---------------------------------------------------------------------
  // The time key
  // ---------------------------------------------------------------------

  /** `Date.getDay()`: Sunday = 0 ... Saturday = 6. */
  type JsWeekday = d: int | 0 <= d <= 6
  /** `Date.getHours()`. */
  type JsHour = h: int | 0 <= h <= 23
  /** `Date.getMonth()`: January = 0 ... December = 11. */
  type JsMonthIndex = m: int | 0 <= m <= 11

  /** The clock reading the service takes from `new Date()`. */
  datatype LocalTime = LocalTime(day: JsWeekday, hours: JsHour, monthIndex: JsMonthIndex)

  /** The key columns of the prediction table. */
  datatype TimeKey = TimeKey(dotw: int, hour: int, month: int)

  /** The table's day of week (Monday = 0 ... Sunday = 6) for a JavaScript day. */
  function Dotw(day: JsWeekday): (d: int)
    ensures 0 <= d <= 6
    ensures day == 0 ==> d == 6
    ensures day != 0 ==> d == day - 1
  {
    (day + 6) % 7
  }

  /** The JavaScript day for a table day of week: the inverse of `Dotw`. */
  function JsDayOf(dotw: int): (day: JsWeekday)
    requires 0 <= dotw <= 6
  {
    (dotw + 1) % 7
  }

  /** The day conversion is a bijection on 0..6. */
  lemma DotwBijective(day: JsWeekday, dotw: int)
    requires 0 <= dotw <= 6
    ensures JsDayOf(Dotw(day)) == day
    ensures Dotw(JsDayOf(dotw)) == dotw
  {
  }

  function TimeKeyOf(now: LocalTime): (k: TimeKey)
    ensures 0 <= k.dotw <= 6 && 0 <= k.hour <= 23 && 1 <= k.month <= 12
    ensures k.dotw == Dotw(now.day) && k.hour == now.hours
    ensures k.month - 1 == now.monthIndex
  {
    TimeKey(Dotw(now.day), now.hours, now.monthIndex + 1)
  }

  // ---------------------------------------------------------------------
  // Lookup
  // ---------------------------------------------------------------------

  /** The `find` predicate: all four key columns equal. */
  predicate Matches(p: Prediction, station: string, key: TimeKey) {
    p.station == station && p.dotw == key.dotw && p.hour == key.hour && p.month == key.month
  }

  ghost predicate IsFirstMatch(table: seq<Prediction>, station: string, key: TimeKey, i: int) {
    0 <= i < |table| && Matches(table[i], station, key)
    && forall j :: 0 <= j < i ==> !Matches(table[j], station, key)
  }

  /** `table.find(...)`: the index of the first matching record, if any. */
  function FirstMatchIndex(table: seq<Prediction>, station: string, key: TimeKey): (r: Option<nat>)
    ensures r.None? <==> forall i :: 0 <= i < |table| ==> !Matches(table[i], station, key)
    ensures r.Some? ==> IsFirstMatch(table, station, key, r.value)
  {
    if table == [] then None
    else if Matches(table[0], station, key) then Some(0)
    else
      match FirstMatchIndex(table[1..], station, key)
      case None => None
      case Some(i) => Some(i + 1)
  }

  /** The predicted traffic of the first matching record, if any. */
  function FindPrediction(table: seq<Prediction>, station: string, key: TimeKey): Option<real> {
    match FirstMatchIndex(table, station, key)
    case None => None
    case Some(i) => Some(table[i].predictedTraffic)
  }

  /**
   * What `getCurrentTrafficPrediction` returns once the table is loaded:
   * `null` for an empty table, otherwise the first match's value.
   */
  function Lookup(table: seq<Prediction>, stationName: string, key: TimeKey): (r: Option<real>)
    ensures r.None? <==> forall i :: 0 <= i < |table| ==> !Matches(table[i], stationName, key)
    ensures r.Some? ==> exists i :: IsFirstMatch(table, stationName, key, i)
                                    && r.value == table[i].predictedTraffic
    ensures r == FindPrediction(table, stationName, key)
  {
    if |table| == 0 then None
    else FindPrediction(table, stationName, key)
  }

  /** The lookup result a screen shows for one station. */
  datatype Busyness = Busyness(
    trafficPrediction: Option<real>,
    busynessLevel: Option<BusynessLevel>,
    isMLData: bool)

  /** `getCurrentBusyness` for an already looked-up prediction. */
  function BusynessOf(prediction: Option<real>): (b: Busyness)
    ensures b.isMLData <==> prediction.Some?
    ensures b.trafficPrediction == prediction
    ensures prediction.Some? ==> b.busynessLevel == Some(BusynessCategory(prediction.value))
    ensures prediction.None? ==> b.busynessLevel.None?
  {
    match prediction
    case None => Busyness(None, None, false)
    case Some(v) => Busyness(Some(v), Some(BusynessCategory(v)), true)
  }

  /**
   * The loop of `getBatchBusyness`: one entry per distinct input name, each
   * equal to what the single-station lookup gives for the same time key.
   */
  method BatchBusyness(table: seq<Prediction>, stationNames: seq<string>, key: TimeKey)
    returns (results: map<string, Busyness>)
    ensures results.Keys == set n | n in stationNames
    ensures forall n :: n in results ==> results[n] == BusynessOf(Lookup(table, n, key))
  {
    results := map[];
    for k := 0 to |stationNames|
      invariant results.Keys == set n | n in stationNames[..k]
      invariant forall n :: n in results ==> results[n] == BusynessOf(Lookup(table, n, key))
    {
      var stationName := stationNames[k];
      var prediction := FirstMatchIndex(table, stationName, key);
      if prediction.Some? {
        var traffic := table[prediction.value].predictedTraffic;
        var busynessLevel := BusynessCategory(traffic);
        results := results[stationName := Busyness(Some(traffic), Some(busynessLevel), true)];
      } else {
        results := results[stationName := Busyness(None, None, false)];
      }
      assert stationNames[..k + 1] == stationNames[..k] + [stationName];
    }
    assert stationNames[..|stationNames|] == stationNames;
  }

  // ---------------------------------------------------------------------
  // Statistics
  // ---------------------------------------------------------------------

  /** `new Set(predictions.map(p => p.station))`. */
  function StationsOf(table: seq<Prediction>): (r: set<string>)
    ensures forall s :: s in r <==> exists i :: 0 <= i < |table| && table[i].station == s
    ensures |r| <= |table|
  {
    if table == [] then {}
    else
      var rest := StationsOf(table[1..]);
      assert forall i :: 1 <= i < |table| ==> table[i] == table[1..][i - 1];
      {table[0].station} + rest
  }

  datatype PredictionStats = PredictionStats(totalPredictions: nat, uniqueStations: nat, isLoaded: bool)

  /** `getPredictionStats` on the current state. */
  function StatsOf(table: seq<Prediction>, isLoaded: bool): (st: PredictionStats)
    ensures st.uniqueStations <= st.totalPredictions == |table|
    ensures st.uniqueStations == |StationsOf(table)|
    ensures st.uniqueStations == 0 <==> table == []
    ensures st.isLoaded == isLoaded
  {
    PredictionStats(|table|, |StationsOf(table)|, isLoaded)
  }

  // ---------------------------------------------------------------------
  // The service object
  // ---------------------------------------------------------------------

  /** The outcome of importing the bundled prediction file. */
  datatype LoadOutcome = Loaded(records: seq<Prediction>) | LoadFailed

  /** The table a completed load leaves behind: empty after a failure. */
  function LoadedTable(source: LoadOutcome): seq<Prediction> {
    match source
    case Loaded(records) => records
    case LoadFailed => []
  }

  class MLTrafficService {
    var predictions: seq<Prediction>
    var isLoaded: bool
    /** `loadPromise !== null`: a load has been started. */
    var loadStarted: bool

    /** Before any load completes the table is empty. */
    ghost predicate Valid()
      reads this
    {
      !isLoaded ==> predictions == []
    }

    constructor ()
      ensures Valid()
      ensures predictions == [] && !isLoaded && !loadStarted
    {
      predictions := [];
      isLoaded := false;
      loadStarted := false;
    }

    /**
     * `loadPredictions`: a no-op once loaded or while a load is under way;
     * otherwise the load runs, and whether it succeeds or fails the service
     * is marked loaded, so it is never retried.
     */
    method LoadPredictions(source: LoadOutcome)
      requires Valid()
      modifies this
      ensures Valid()
      ensures old(isLoaded) || old(loadStarted) ==>
                predictions == old(predictions) && isLoaded == old(isLoaded) && loadStarted == old(loadStarted)
      ensures !old(isLoaded) && !old(loadStarted) ==>
                predictions == LoadedTable(source) && isLoaded && loadStarted
    {
      if isLoaded {
        return;
      }
      if loadStarted {
        return;
      }
      loadStarted := true;
      match source
      case Loaded(records) =>
        predictions := records;
        isLoaded := true;
      case LoadFailed =>
        predictions := [];
        isLoaded := true;
    }

    /** The state a `LoadPredictions(source)` call leaves, as a function of the state before it. */
    ghost function TableAfterLoad(source: LoadOutcome): seq<Prediction>
      reads this
    {
      if isLoaded || loadStarted then predictions else LoadedTable(source)
    }

    method GetCurrentTrafficPrediction(stationName: string, now: LocalTime, source: LoadOutcome)
      returns (r: Option<real>)
      requires Valid()
      modifies this
      ensures Valid()
      ensures predictions == old(TableAfterLoad(source))
      ensures isLoaded == (old(isLoaded) || !old(loadStarted))
      ensures loadStarted == (old(loadStarted) || !old(isLoaded))
      ensures r == Lookup(predictions, stationName, TimeKeyOf(now))
    {
      LoadPredictions(source);
      if |predictions| == 0 {
        return None;
      }
      var key := TimeKeyOf(now);
      var prediction := FirstMatchIndex(predictions, stationName, key);
      if prediction.Some? {
        r := Some(predictions[prediction.value].predictedTraffic);
      } else {
        r := None;
      }
    }

    method GetCurrentBusyness(stationName: string, now: LocalTime, source: LoadOutcome)
      returns (b: Busyness)
      requires Valid()
      modifies this
      ensures Valid()
      ensures predictions == old(TableAfterLoad(source))
      ensures isLoaded == (old(isLoaded) || !old(loadStarted))
      ensures loadStarted == (old(loadStarted) || !old(isLoaded))
      ensures b == BusynessOf(Lookup(predictions, stationName, TimeKeyOf(now)))
    {
      var trafficPrediction := GetCurrentTrafficPrediction(stationName, now, source);
      if trafficPrediction.None? {
        return Busyness(None, None, false);
      }
      var busynessLevel := BusynessCategory(trafficPrediction.value);
      b := Busyness(trafficPrediction, Some(busynessLevel), true);
    }

    method GetBatchBusyness(stationNames: seq<string>, now: LocalTime, source: LoadOutcome)
      returns (results: map<string, Busyness>)
      requires Valid()
      modifies this
      ensures Valid()
      ensures predictions == old(TableAfterLoad(source))
      ensures isLoaded == (old(isLoaded) || !old(loadStarted))
      ensures loadStarted == (old(loadStarted) || !old(isLoaded))
      ensures results.Keys == set n | n in stationNames
      ensures forall n :: n in results ==>
                results[n] == BusynessOf(Lookup(predictions, n, TimeKeyOf(now)))
    {
      LoadPredictions(source);
      results := BatchBusyness(predictions, stationNames, TimeKeyOf(now));
    }

    method GetPredictionStats(source: LoadOutcome) returns (st: PredictionStats)
      requires Valid()
      modifies this
      ensures Valid()
      ensures predictions == old(TableAfterLoad(source))
      ensures isLoaded == (old(isLoaded) || !old(loadStarted))
      ensures loadStarted == (old(loadStarted) || !old(isLoaded))
      ensures st == StatsOf(predictions, isLoaded)
    {
      LoadPredictions(source);
      st := StatsOf(predictions, isLoaded);
    }

    /** `clearCache`: back to the state of a fresh service. */
    method ClearCache()
      modifies this
      ensures Valid()
      ensures predictions == [] && !isLoaded && !loadStarted
    {
      predictions := [];
      isLoaded := false;
      loadStarted := false;
    }
  }

  /**
   * A failed load is final: a later call with a load that would succeed
   * does not retry it, and every lookup answers `null`.
   */
  method FailedLoadIsFinal(stationName: string, now: LocalTime, later: LoadOutcome)
    returns (first: Option<real>, second: Option<real>, shown: Busyness, stats: PredictionStats)
    ensures first.None? && second.None?
    ensures !shown.isMLData && stats == PredictionStats(0, 0, true)
  {
    var service := new MLTrafficService();
    first := service.GetCurrentTrafficPrediction(stationName, now, LoadFailed);
    second := service.GetCurrentTrafficPrediction(stationName, now, later);
    var other := new MLTrafficService();
    shown := other.GetCurrentBusyness(stationName, now, LoadFailed);
    stats := other.GetPredictionStats(later);
  }

  /** After `clearCache` the next lookup loads the table again. */
  method ClearCacheReloads(stationName: string, now: LocalTime, records: seq<Prediction>)
    returns (r: Option<real>)
    ensures r == Lookup(records, stationName, TimeKeyOf(now))
  {
    var service := new MLTrafficService();
    var _ := service.GetCurrentTrafficPrediction(stationName, now, LoadFailed);
    service.ClearCache();
    r := service.GetCurrentTrafficPrediction(stationName, now, Loaded(records));
  }
}
