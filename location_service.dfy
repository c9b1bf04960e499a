/**
 * The foreground location service: session start from the start command's extras,
 * per-position arrival evaluation, the bounded pending queue, the flush worker that
 * drains it through the transmitter, and the arrival confirm / reject commands.
 * Platform callbacks and coroutine resumptions are methods applied one at a time.
 */
module LocationFGService {
  import opened Types
  import opened Text
  import Constants
  import opened PayloadQueue
  import opened PayloadJson
  import opened ArrivalMonitor
  import opened AlertManager
  import opened WebSocketTransmitter

  /** The delay of the flush worker when it finds the queue empty. */
  const EMPTY_QUEUE_POLL_MILLIS: nat := 5000

  /**
   * The extras of a start command, each absent one as None. Header and metadata maps
   * arrive already read (an absent or unreadable map is empty).
   */
  datatype StartExtras = StartExtras(
    endpoint: Option<string>,
    alertTerminationEndpoint: Option<string>,
    headers: map<string, string>,
    metadata: map<string, string>,
    minInterval: Option<int>,
    fastestInterval: Option<int>,
    minDistance: Option<real>,
    notificationTitle: Option<string>,
    notificationBody: Option<string>,
    retryDelay: Option<int>,
    queueCapacity: Option<int>,
    accuracy: Option<string>)

  /** `LocationAccuracy.valueOf` on the extra, with HIGH for an absent or unknown name. */
  function AccuracyFromName(name: Option<string>): (a: LocationAccuracy)
    ensures a == Balanced <==> name == Some("BALANCED")
  {
    if name == Some("HIGH") then High
    else if name == Some("BALANCED") then Balanced
    else High
  }

  /**
   * The configuration `handleStartIntent` builds: none when the endpoint is absent or
   * blank; otherwise every absent extra takes its default, the capacity is clamped to at
   * least one, and no arrival target is read from the command.
   */
  function StartConfig(e: StartExtras): (r: Option<TrackingOptions>)
    ensures r.None? <==> e.endpoint.None? || IsBlank(e.endpoint.value)
    ensures r.Some? ==>
      && r.value.endpoint == e.endpoint.value
      && r.value.alertTerminationEndpoint == e.alertTerminationEndpoint
      && r.value.headers == e.headers && r.value.metadata == e.metadata
      && r.value.queueCapacity >= 1
      && (e.queueCapacity.None? ==> r.value.queueCapacity == 32)
      && (e.queueCapacity.Some? && e.queueCapacity.value >= 1 ==> r.value.queueCapacity == e.queueCapacity.value)
      && (e.queueCapacity.Some? && e.queueCapacity.value < 1 ==> r.value.queueCapacity == 1)
      && (e.retryDelay.None? ==> r.value.retryDelayMillis == 5000)
      && (e.retryDelay.Some? ==> r.value.retryDelayMillis == e.retryDelay.value)
      && (e.minInterval.None? ==> r.value.minUpdateIntervalMillis == 10000)
      && (e.minInterval.Some? ==> r.value.minUpdateIntervalMillis == e.minInterval.value)
      && (e.fastestInterval.None? ==> r.value.fastestIntervalMillis == 5000)
      && (e.fastestInterval.Some? ==> r.value.fastestIntervalMillis == e.fastestInterval.value)
      && (e.minDistance.None? ==> r.value.minUpdateDistanceMeters == 5.0)
      && (e.minDistance.Some? ==> r.value.minUpdateDistanceMeters == e.minDistance.value)
      && (e.notificationTitle.None? ==> r.value.notificationTitle == "Ubicación activa")
      && (e.notificationTitle.Some? ==> r.value.notificationTitle == e.notificationTitle.value)
      && (e.notificationBody.None? ==> r.value.notificationBody == "Compartiendo tu ubicación")
      && (e.notificationBody.Some? ==> r.value.notificationBody == e.notificationBody.value)
      && (r.value.accuracy == Balanced <==> e.accuracy == Some("BALANCED"))
      && r.value.targetLocation.None?
  {
    if e.endpoint.None? || IsBlank(e.endpoint.value) then None
    else
      Some(TrackingOptions(
        endpoint := e.endpoint.value,
        alertTerminationEndpoint := e.alertTerminationEndpoint,
        headers := e.headers,
        metadata := e.metadata,
        minUpdateIntervalMillis := OrElse(e.minInterval, Constants.DEFAULT_MIN_INTERVAL),
        fastestIntervalMillis := OrElse(e.fastestInterval, Constants.DEFAULT_FASTEST_INTERVAL),
        minUpdateDistanceMeters := OrElse(e.minDistance, Constants.DEFAULT_MIN_DISTANCE),
        notificationTitle := OrElse(e.notificationTitle, Constants.DEFAULT_NOTIFICATION_TITLE),
        notificationBody := OrElse(e.notificationBody, Constants.DEFAULT_NOTIFICATION_BODY),
        retryDelayMillis := OrElse(e.retryDelay, Constants.DEFAULT_RETRY_DELAY),
        queueCapacity := Constants.ClampCapacity(OrElse(e.queueCapacity, Constants.DEFAULT_QUEUE_CAPACITY)),
        accuracy := AccuracyFromName(e.accuracy),
        targetLocation := None))
  }

  /** A position delivered by the fused location provider. */
  datatype LocationFix = LocationFix(
    latitude: real, longitude: real, accuracy: real, altitude: real, speed: real, bearing: real)

  /** The payload queued for a position; `now` is the wall-clock time of the callback. */
  function PayloadOf(fix: LocationFix, now: int): (p: LocationPayload)
    ensures p.latitude == fix.latitude && p.longitude == fix.longitude
    ensures p.accuracy == fix.accuracy && p.altitude == fix.altitude
    ensures p.speed == fix.speed && p.bearing == fix.bearing && p.timestamp == now
  {
    LocationPayload(fix.latitude, fix.longitude, fix.accuracy, fix.altitude, fix.speed, fix.bearing, now)
  }

  /** The stored records as `getAll` returns them. */
  function Decoded(rs: seq<AlertRecord>): (alerts: seq<Alert>)
    ensures |alerts| == |rs|
    ensures forall k :: 0 <= k < |rs| ==> alerts[k] == Decode(rs[k])
  {
    seq(|rs|, k requires 0 <= k < |rs| => Decode(rs[k]))
  }

  /** The alert whose target is watched: the first JOURNEY alert carrying one. */
  function WatchedJourney(alerts: seq<Alert>): (r: Option<Alert>)
    ensures r.Some? ==> r.value.alertType == Journey && r.value.targetLocation.Some? && r.value in alerts
    ensures r.Some? ==> exists i :: 0 <= i < |alerts| && alerts[i] == r.value
                                 && forall k :: 0 <= k < i ==> !IsJourneyWithTarget(alerts[k])
    ensures r.None? <==> forall k :: 0 <= k < |alerts| ==> !IsJourneyWithTarget(alerts[k])
  {
    match FirstJourneyTarget(alerts)
    case None => None
    case Some(i) => Some(alerts[i])
  }

  /**
   * The by-name JOURNEY check that guards the arrival evaluation never hides a watched
   * journey: a record that decodes to JOURNEY was stored under that name.
   */
  lemma JourneyGuardAdmitsWatched(rs: seq<AlertRecord>)
    requires WatchedJourney(Decoded(rs)).Some?
    ensures exists k :: 0 <= k < |rs| && rs[k].typeName == TypeName(Journey)
  {
    var i := FirstJourneyTarget(Decoded(rs)).value;
    assert TypeFromName(rs[i].typeName) == Journey;
    assert rs[i].typeName == TypeName(Journey);
  }

  /** What one flush-worker iteration did. */
  datatype FlushOutcome =
    | NotRunning                                               // no worker (none launched, or it found no transmitter)
    | Paused                                                   // its transmitter is disconnected, or there is no session
    | IdlePoll(waitMillis: int)                                // the queue is empty
    | Delivered(payload: LocationPayload, remaining: nat, frame: Json)
    | Retry(payload: LocationPayload, waitMillis: int)         // the send failed; the head stays

  /** What one position callback did. */
  datatype LocationOutcome =
    | StoppedNoAlerts                                          // no stored alert: stop requested, nothing queued
    | Queued(arrivalFiredFor: Option<string>)                  // queued; the alert whose arrival notice fired, if any

  /** `LocationFGService`. */
  class LocationService {
    /** `pendingPayloads`, head at index 0. */
    var pending: seq<LocationPayload>
    var currentConfig: Option<TrackingOptions>
    /** The transmitter the running flush worker observes; null when no worker is active. */
    var flushWorker: Transmitter?
    var arrivalTriggered: bool
    /** The alert id carried by the arrival notification on display. */
    var arrivalNotice: Option<string>
    /** Set once the service has asked the system to stop it. */
    var stopRequested: bool
    /** The process-wide running flag. */
    var running: bool
    var transmitter: Transmitter?
    const alerts: AlertStore

    ghost predicate Valid()
      reads this, transmitter
    {
      transmitter != null ==> transmitter.Valid()
    }

    /** `onCreate`: running, over the persisted alert store, with no session yet. */
    constructor (persisted: Blob)
      ensures Valid()
      ensures fresh(alerts) && alerts.stored == persisted
      ensures pending == [] && currentConfig.None? && flushWorker == null && transmitter == null
      ensures !arrivalTriggered && arrivalNotice.None? && !stopRequested && running
    {
      pending := [];
      currentConfig := None;
      flushWorker := null;
      arrivalTriggered := false;
      arrivalNotice := None;
      stopRequested := false;
      running := true;
      transmitter := null;
      alerts := new AlertStore(persisted);
    }

    /**
     * `isAlreadyRunning`: running, with a transmitter that is connected. A service with
     * no transmitter, or one still waiting for its socket to open, does not count.
     */
    predicate IsAlreadyRunning()
      reads this, transmitter
      ensures IsAlreadyRunning() ==> running && transmitter != null && transmitter.connected
      ensures transmitter == null || !transmitter.connected ==> !IsAlreadyRunning()
    {
      running && transmitter != null && transmitter.connected
    }

    /**
     * The part of a start shared by both variants below: the configuration becomes the
     * session's, the previous transmitter is shut down and a fresh one is initialised
     * with it. The queue and the arrival flag carry over.
     */
    method StartSession(cfg: TrackingOptions)
      requires Valid()
      modifies this, transmitter
      ensures Valid()
      ensures currentConfig == Some(cfg)
      ensures transmitter != null && fresh(transmitter)
      ensures transmitter.config == Some(cfg) && !transmitter.isDisposing && !transmitter.connected
      ensures transmitter.socket.Some? && transmitter.reconnectJob.None? && transmitter.retryCount == 0
      ensures old(transmitter) != null ==>
        && old(transmitter).Valid()
        && old(transmitter).isDisposing && old(transmitter).socket.None? && !old(transmitter).connected
        && old(transmitter).reconnectJob.None?
        && old(transmitter).config == old(transmitter.config)
        && old(transmitter).retryCount == old(transmitter.retryCount)
        && old(transmitter).nextSocketId == old(transmitter.nextSocketId)
        && old(transmitter).closedSockets ==
             old(transmitter.closedSockets) + (if old(transmitter.socket).Some? then [old(transmitter.socket).value] else [])
      ensures pending == old(pending) && flushWorker == old(flushWorker)
      ensures arrivalTriggered == old(arrivalTriggered) && arrivalNotice == old(arrivalNotice)
      ensures stopRequested == old(stopRequested) && running == old(running)
      ensures !IsAlreadyRunning()
    {
      currentConfig := Some(cfg);
      if transmitter != null {
        transmitter.Shutdown();
      }
      var t := new Transmitter();
      t.Initialize(cfg);
      transmitter := t;
    }

    /**
     * `handleStartIntent` as written: ignored while already running; a stop is requested
     * when the endpoint is missing; otherwise a new session starts and `flushQueue` is
     * called, which does nothing while a worker is active, so a worker launched in an
     * earlier session keeps observing the transmitter that was just shut down.
     */
    method HandleStartIntentAsWritten(e: StartExtras)
      requires Valid()
      modifies this, transmitter
      ensures Valid()
      ensures old(IsAlreadyRunning()) ==> unchanged(this) && transmitter == old(transmitter)
      ensures !old(IsAlreadyRunning()) && StartConfig(e).None? ==>
        stopRequested && currentConfig == old(currentConfig) && transmitter == old(transmitter)
        && flushWorker == old(flushWorker)
      ensures old(transmitter) != null && (old(IsAlreadyRunning()) || StartConfig(e).None?) ==>
        unchanged(old(transmitter))
      ensures !old(IsAlreadyRunning()) && StartConfig(e).Some? ==>
        && currentConfig == StartConfig(e) && stopRequested == old(stopRequested)
        && transmitter != null && fresh(transmitter)
        && transmitter.config == currentConfig && transmitter.socket.Some? && !transmitter.connected
        && transmitter.retryCount == 0 && transmitter.reconnectJob.None? && !transmitter.isDisposing
        && (old(transmitter) != null ==>
              && old(transmitter).isDisposing && !old(transmitter).connected
              && old(transmitter).socket.None? && old(transmitter).reconnectJob.None?)
        && (old(flushWorker) != null ==> flushWorker == old(flushWorker) && flushWorker != transmitter)
        && (old(flushWorker) == null ==> flushWorker == transmitter)
      ensures pending == old(pending)
      ensures arrivalTriggered == old(arrivalTriggered) && arrivalNotice == old(arrivalNotice)
      ensures running == old(running)
    {
      if IsAlreadyRunning() {
        return;
      }
      var cfg := StartConfig(e);
      if cfg.None? {
        stopRequested := true;
        return;
      }
      StartSession(cfg.value);
      FlushQueue();
    }

    /**
     * `handleStartIntent` with the worker of an earlier session cancelled before
     * `flushQueue`, so the worker always observes the session's own transmitter.
     */
    method HandleStartIntent(e: StartExtras)
      requires Valid()
      modifies this, transmitter
      ensures Valid()
      ensures old(IsAlreadyRunning()) ==> unchanged(this) && transmitter == old(transmitter)
      ensures !old(IsAlreadyRunning()) && StartConfig(e).None? ==>
        stopRequested && currentConfig == old(currentConfig) && transmitter == old(transmitter)
        && flushWorker == old(flushWorker)
      ensures old(transmitter) != null && (old(IsAlreadyRunning()) || StartConfig(e).None?) ==>
        unchanged(old(transmitter))
      ensures !old(IsAlreadyRunning()) && StartConfig(e).Some? ==>
        && currentConfig == StartConfig(e) && stopRequested == old(stopRequested)
        && transmitter != null && fresh(transmitter)
        && transmitter.config == currentConfig && transmitter.socket.Some? && !transmitter.connected
        && transmitter.retryCount == 0 && transmitter.reconnectJob.None? && !transmitter.isDisposing
        && (old(transmitter) != null ==>
              && old(transmitter).isDisposing && !old(transmitter).connected
              && old(transmitter).socket.None? && old(transmitter).reconnectJob.None?)
        && flushWorker == transmitter
      ensures pending == old(pending)
      ensures arrivalTriggered == old(arrivalTriggered) && arrivalNotice == old(arrivalNotice)
      ensures running == old(running)
    {
      if IsAlreadyRunning() {
        return;
      }
      var cfg := StartConfig(e);
      if cfg.None? {
        stopRequested := true;
        return;
      }
      StartSession(cfg.value);
      flushWorker := null;
      FlushQueue();
    }

    /**
     * `flushQueue`: nothing while a worker is active; otherwise a worker is launched
     * that observes the current transmitter (and ends at once when there is none).
     */
    method FlushQueue()
      modifies this
      ensures flushWorker == if old(flushWorker) != null then old(flushWorker) else transmitter
      ensures pending == old(pending) && currentConfig == old(currentConfig) && transmitter == old(transmitter)
      ensures arrivalTriggered == old(arrivalTriggered) && arrivalNotice == old(arrivalNotice)
      ensures stopRequested == old(stopRequested) && running == old(running)
    {
      if flushWorker != null {
        return;
      }
      flushWorker := transmitter;
    }

    /**
     * `enqueuePayload`: nothing without a session; otherwise the oldest payloads are
     * evicted until there is room, the payload is appended and a flush is requested.
     */
    method EnqueuePayload(p: LocationPayload)
      modifies this
      ensures currentConfig.None? ==> unchanged(this)
      ensures currentConfig.Some? ==>
        && pending == Enqueued(old(pending), p, currentConfig.value.queueCapacity)
        && |pending| <= currentConfig.value.queueCapacity
        && flushWorker == (if old(flushWorker) != null then old(flushWorker) else transmitter)
      ensures currentConfig == old(currentConfig) && transmitter == old(transmitter)
      ensures arrivalTriggered == old(arrivalTriggered) && arrivalNotice == old(arrivalNotice)
      ensures stopRequested == old(stopRequested) && running == old(running)
    {
      if currentConfig.None? {
        return;
      }
      var cap := currentConfig.value.queueCapacity;
      if |pending| >= cap {
        pending := pending[|pending| - cap + 1..];
      }
      pending := pending + [p];
      FlushQueue();
    }

    /**
     * `enqueuePayload` as written: nothing without a session; otherwise the head alone is
     * evicted when the queue is at or over capacity, the payload is appended and a flush
     * is requested. A queue inherited over a smaller capacity stays over it.
     */
    method EnqueuePayloadAsWritten(p: LocationPayload)
      modifies this
      ensures currentConfig.None? ==> unchanged(this)
      ensures currentConfig.Some? ==>
        && pending == EnqueuedAsWritten(old(pending), p, currentConfig.value.queueCapacity)
        && flushWorker == (if old(flushWorker) != null then old(flushWorker) else transmitter)
      ensures currentConfig == old(currentConfig) && transmitter == old(transmitter)
      ensures arrivalTriggered == old(arrivalTriggered) && arrivalNotice == old(arrivalNotice)
      ensures stopRequested == old(stopRequested) && running == old(running)
    {
      if currentConfig.None? {
        return;
      }
      if |pending| >= currentConfig.value.queueCapacity {
        pending := pending[1..];
      }
      pending := pending + [p];
      FlushQueue();
    }

    /**
     * One iteration of the flush worker, `accepted` being whether the socket takes the
     * frame: nothing is sent unless the worker's transmitter is connected and there is a
     * session; an empty queue waits five seconds; the head is sent and removed only when
     * the send succeeds, otherwise it stays and the worker waits the retry delay.
     */
    method FlushStep(accepted: bool) returns (outcome: FlushOutcome)
      modifies this
      ensures outcome.NotRunning? <==> flushWorker == null
      ensures outcome.Paused? <==> flushWorker != null && (!flushWorker.connected || currentConfig.None?)
      ensures outcome.IdlePoll? <==>
        flushWorker != null && flushWorker.connected && currentConfig.Some? && old(pending) == []
      ensures outcome.IdlePoll? ==> outcome.waitMillis == 5000
      ensures outcome.Delivered? || outcome.Retry? ==>
        && flushWorker != null && flushWorker.connected && currentConfig.Some?
        && old(pending) != [] && outcome.payload == old(pending)[0]
      ensures outcome.Delivered? <==>
        flushWorker != null && flushWorker.connected && currentConfig.Some? && old(pending) != []
        && flushWorker.socket.Some? && accepted
      ensures outcome.Delivered? ==>
        outcome.frame == ToJson(outcome.payload, currentConfig.value.metadata) && outcome.remaining == |pending|
      ensures outcome.Retry? ==> outcome.waitMillis == currentConfig.value.retryDelayMillis
      ensures pending == if outcome.Delivered? then old(pending)[1..] else old(pending)
      ensures flushWorker != null && flushWorker.connected && currentConfig.Some? ==>
        pending == FlushOnce(old(pending), outcome.Delivered?)
      ensures currentConfig == old(currentConfig) && transmitter == old(transmitter) && flushWorker == old(flushWorker)
      ensures arrivalTriggered == old(arrivalTriggered) && arrivalNotice == old(arrivalNotice)
      ensures stopRequested == old(stopRequested) && running == old(running)
    {
      if flushWorker == null {
        return NotRunning;
      }
      if !flushWorker.connected || currentConfig.None? {
        return Paused;
      }
      if pending == [] {
        return IdlePoll(EMPTY_QUEUE_POLL_MILLIS);
      }
      var head := pending[0];
      var ok, frame := flushWorker.Send(head, currentConfig.value, accepted);
      if ok {
        pending := pending[1..];
        return Delivered(head, |pending|, frame.value);
      }
      return Retry(head, currentConfig.value.retryDelayMillis);
    }

    /**
     * `handleArrival`: the notice for the alert is shown only when the flag was clear,
     * and the flag is set either way.
     */
    method HandleArrival(alertId: string) returns (fired: bool)
      modifies this
      ensures fired <==> !old(arrivalTriggered)
      ensures arrivalTriggered
      ensures arrivalNotice == if fired then Some(alertId) else old(arrivalNotice)
      ensures pending == old(pending) && currentConfig == old(currentConfig) && transmitter == old(transmitter)
      ensures flushWorker == old(flushWorker) && stopRequested == old(stopRequested) && running == old(running)
    {
      if arrivalTriggered {
        return false;
      }
      arrivalTriggered := true;
      arrivalNotice := Some(alertId);
      return true;
    }

    /**
     * The location callback for one position, `distanceMeters` being the platform's
     * distance from it to the watched target. With no stored alert a stop is requested
     * and nothing is queued. Otherwise, when a JOURNEY alert carries a target, the
     * position is evaluated against it (inside: notice once; outside: the flag clears);
     * then the payload is queued.
     */
    method OnLocation(fix: LocationFix, distanceMeters: real, now: int) returns (outcome: LocationOutcome)
      modifies this
      ensures alerts.Records() == [] ==>
        && outcome == StoppedNoAlerts && stopRequested && pending == old(pending)
        && arrivalTriggered == old(arrivalTriggered) && arrivalNotice == old(arrivalNotice)
        && flushWorker == old(flushWorker)
      ensures alerts.Records() != [] ==>
        && outcome.Queued? && stopRequested == old(stopRequested)
        && pending == (if currentConfig.Some?
                       then Enqueued(old(pending), PayloadOf(fix, now), currentConfig.value.queueCapacity)
                       else old(pending))
        && flushWorker == (if currentConfig.Some? && old(flushWorker) == null then transmitter else old(flushWorker))
      ensures alerts.Records() != [] && WatchedJourney(Decoded(alerts.Records())).None? ==>
        outcome == Queued(None) && arrivalTriggered == old(arrivalTriggered) && arrivalNotice == old(arrivalNotice)
      ensures alerts.Records() != [] && WatchedJourney(Decoded(alerts.Records())).Some? ==>
        var j := WatchedJourney(Decoded(alerts.Records())).value;
        var step := ArrivalStep(old(arrivalTriggered), HasReachedTarget(distanceMeters, j.targetLocation.value));
        && arrivalTriggered == step.0
        && outcome == Queued(if step.1 then Some(j.id) else None)
        && arrivalNotice == (if step.1 then Some(j.id) else old(arrivalNotice))
      ensures currentConfig == old(currentConfig) && transmitter == old(transmitter) && running == old(running)
    {
      var list := alerts.GetAll();
      if |list| == 0 {
        stopRequested := true;
        return StoppedNoAlerts;
      }
      assert list == Decoded(alerts.Records());
      var fired: Option<string> := None;
      var hasJourney := alerts.ExistAlertType(Journey);
      if !hasJourney && WatchedJourney(list).Some? {
        JourneyGuardAdmitsWatched(alerts.Records());
      }
      if hasJourney {
        var watched := WatchedJourney(list);
        if watched.Some? {
          var journey := watched.value;
          if HasReachedTarget(distanceMeters, journey.targetLocation.value) {
            var f := HandleArrival(journey.id);
            if f {
              fired := Some(journey.id);
            }
          } else {
            arrivalTriggered := false;
          }
        }
      }
      EnqueuePayload(PayloadOf(fix, now));
      outcome := Queued(fired);
    }

    /** `handleRejectArrival`: the arrival notice is dismissed and nothing else changes. */
    method HandleRejectArrival()
      modifies this
      ensures arrivalNotice.None?
      ensures pending == old(pending) && currentConfig == old(currentConfig) && transmitter == old(transmitter)
      ensures arrivalTriggered == old(arrivalTriggered) && flushWorker == old(flushWorker)
      ensures stopRequested == old(stopRequested) && running == old(running)
    {
      arrivalNotice := None;
    }

    /**
     * `handleConfirmArrival`: the arrival notice is dismissed; when the session has a
     * termination URL and the id is present, the request goes to the URL with the id in
     * place of the placeholder and the alert is removed from the store whatever the
     * request's outcome. Returns the URL requested, if any.
     */
    method HandleConfirmArrival(alertId: Option<string>) returns (request: Option<string>)
      modifies this, alerts
      ensures request == ConfirmArrivalUrl(currentConfig, alertId)
      ensures arrivalNotice.None?
      ensures request.None? ==> alerts.stored == old(alerts.stored)
      ensures request.Some? && FindId(old(alerts.Records()), alertId.value).Some? ==>
        alerts.stored == Parsed(RemoveFirst(old(alerts.Records()), alertId.value))
      ensures request.Some? && FindId(old(alerts.Records()), alertId.value).None? ==>
        alerts.stored == old(alerts.stored)
      ensures pending == old(pending) && currentConfig == old(currentConfig) && transmitter == old(transmitter)
      ensures arrivalTriggered == old(arrivalTriggered) && flushWorker == old(flushWorker)
      ensures stopRequested == old(stopRequested) && running == old(running)
    {
      arrivalNotice := None;
      request := ConfirmArrivalUrl(currentConfig, alertId);
      if request.Some? {
        var _ := alerts.Remove(alertId.value);
      }
    }
  }

  /** The start command of a session with the given endpoint and every other extra absent. */
  function MinimalStart(endpoint: string): StartExtras
  {
    StartExtras(Some(endpoint), None, map[], map[], None, None, None, None, None, None, None, None)
  }

  /**
   * A session started before its transmitter connects, then started again; the new
   * transmitter connects and a payload is waiting. With the start as written the worker
   * still observes the first transmitter, so the flush pauses with the new one connected.
   */
  method RestartStallsFlushAsWritten(p: LocationPayload) returns (outcome: FlushOutcome)
    ensures outcome == Paused
  {
    var e := MinimalStart("wss://h");
    assert !IsWhitespace(e.endpoint.value[0]);
    var s := new LocationService(Parsed([]));
    s.HandleStartIntentAsWritten(e);
    s.HandleStartIntentAsWritten(e);
    s.transmitter.OnOpen();
    s.EnqueuePayload(p);
    outcome := s.FlushStep(true);
  }

  /** The same sequence with the corrected start: the payload goes out on the new transmitter. */
  method RestartResumesFlush(p: LocationPayload) returns (outcome: FlushOutcome)
    ensures outcome.Delivered? && outcome.payload == p && outcome.remaining == 0
  {
    var e := MinimalStart("wss://h");
    assert !IsWhitespace(e.endpoint.value[0]);
    var s := new LocationService(Parsed([]));
    s.HandleStartIntent(e);
    s.HandleStartIntent(e);
    s.transmitter.OnOpen();
    s.EnqueuePayload(p);
    outcome := s.FlushStep(true);
  }
}
