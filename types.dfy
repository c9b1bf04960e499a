/** Value types shared by the location pipeline: session options, alerts, targets and samples. */
module Types {

  datatype Option<+T> = None | Some(value: T)

  datatype Result<+T, +E> = Ok(value: T) | Err(error: E)

  /** The option's value, or `default` when it is absent (Kotlin's `?:`). */
  function OrElse<T>(o: Option<T>, default: T): T
  {
    if o.Some? then o.value else default
  }

  /** Location request priority chosen for the session. */
  datatype LocationAccuracy = High | Balanced

  /** The four kinds of alert the app can register. */
  datatype AlertType = Journey | Quick | RequestLocation | Default

  /** A geofence centre and radius; the radius is in metres. */
  datatype TargetLocation = TargetLocation(latitude: real, longitude: real, rangeMeters: real)

  datatype Alert = Alert(id: string, alertType: AlertType, targetLocation: Option<TargetLocation>)

  /** Every path that builds options clamps the queue capacity to at least one. */
  type Capacity = n: int | n >= 1 witness 1

  /**
   * Session configuration. Durations are milliseconds; the two optional fields are
   * the alert-termination URL template and the arrival target.
   */
  datatype TrackingOptions = TrackingOptions(
    endpoint: string,
    alertTerminationEndpoint: Option<string>,
    headers: map<string, string>,
    metadata: map<string, string>,
    minUpdateIntervalMillis: int,
    fastestIntervalMillis: int,
    minUpdateDistanceMeters: real,
    notificationTitle: string,
    notificationBody: string,
    retryDelayMillis: int,
    queueCapacity: Capacity,
    accuracy: LocationAccuracy,
    targetLocation: Option<TargetLocation>)

  /** One location sample as it is queued and sent; `timestamp` is epoch milliseconds. */
  datatype LocationPayload = LocationPayload(
    latitude: real,
    longitude: real,
    accuracy: real,
    altitude: real,
    speed: real,
    bearing: real,
    timestamp: int)
}
