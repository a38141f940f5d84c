/** The records the application passes between screens and services. */
module MtaTypes {
  import opened Wrappers

  datatype Severity = Low | Medium | High

  datatype ServiceAlert = ServiceAlert(
    id: string,
    title: string,
    description: string,
    severity: Severity,
    affectedLines: seq<string>,
    startTime: string,
    endTime: Option<string>,
    isActive: bool)

  datatype Direction = N | S | E | W

  datatype TrainArrival = TrainArrival(
    trainId: string,
    line: string,
    direction: Direction,
    minutesAway: int,
    destination: string,
    isDelayed: bool)

  datatype Coordinates = Coordinates(latitude: real, longitude: real)

  /** JavaScript truthiness of an optional number: present and non-zero. */
  predicate Truthy(x: Option<real>) {
    x.Some? && x.value != 0.0
  }

  /**
   * `latitude && longitude ? { latitude, longitude } : undefined`: a stop at
   * latitude or longitude 0 gets no coordinates.
   */
  function CoordinatesFrom(latitude: Option<real>, longitude: Option<real>): (c: Option<Coordinates>)
    ensures c.Some? <==> Truthy(latitude) && Truthy(longitude)
    ensures c.Some? ==> c.value == Coordinates(latitude.value, longitude.value)
  {
    if Truthy(latitude) && Truthy(longitude)
    then Some(Coordinates(latitude.value, longitude.value))
    else None
  }

  /**
   * Per-station display metrics. The two fields read through `charCodeAt`
   * are optional because a too-short name makes them `undefined`.
   */
  datatype Metrics = Metrics(
    lightingQuality: string,
    securityCameraCoverage: Option<string>,
    reportedIncidents: int,
    passengerTraffic: Option<string>)

  /**
   * A station as listed under a line. The placeholder scores and the
   * coordinates are only filled in by the route service.
   */
  datatype Station = Station(
    stationName: string,
    id: string,
    overallScore: real,
    metrics: Metrics,
    busynessScore: Option<int>,
    crimeScore: Option<int>,
    coordinates: Option<Coordinates>)

  datatype Line = Line(
    lineName: string,
    lineIcons: seq<string>,
    lineColor: string,
    aggregateSafety: string,
    stations: seq<Station>)
}
