# Location foreground service pipeline, in Dafny

This project models the Android side of a Capacitor location plugin. While a
tracking session runs, a foreground service receives positions and queues one
payload per position in a bounded drop-oldest queue. A flush worker sends the
queue head over a WebSocket transmitter and removes it only when the send succeeds.
The transmitter reconnects with a staged backoff. The service also watches the
first JOURNEY alert that carries a target. Entering that target's radius raises an
arrival notice once. Confirming the notice calls a termination URL with the
alert's id and removes the alert from the persisted alert store. The plugin turns
the JavaScript call's options into session options, or rejects the call.

Modules, one per component:

- `Types`: session options, alerts, targets, payloads, `Option`/`Result`.
- `Text`: the Kotlin string helpers used (`isBlank`, `lowercase`, `replace`).
- `Constants`: action identifiers, defaults, command dispatch, the capacity clamp.
- `PayloadJson`: the wire object of a payload, as a structured JSON value.
- `PayloadQueue`: the queue and flush discipline as functions on sequences.
- `ArrivalMonitor`: target selection, the inside test, the trigger-once flag, the confirm URL.
- `AlertManager`: the alert store, a class over the persisted list.
- `WebSocketTransmitter`: the transmitter, a class whose events update its fields.
- `LocationFGService`: the service, a class holding the queue, the session, the flush worker and the arrival flag.
- `PluginOptions`: option parsing of the plugin call.

Coroutines, the connection mutex and the state flow are replaced by events applied
one at a time. Each callback, each reconnect firing and each flush-worker iteration
is one method call. Delays are returned as values, not waited for. The distance from
a position to the target is an input, as are the socket's answer to a send, the
wall-clock time and the persisted alert blob.

The model follows the code as written, including these details:

- The arrival flag is not reset when a session starts.
- The plugin's default notification body is its own ("Compartiendo tu posición"), not the service's ("Compartiendo tu ubicación").
- The plugin's numeric defaults refer to `LocationFGService.DEFAULT_*`, which the service does not declare. The values of `LocationServiceConstants` are used.
- The retry delays are 10000 and 15000 ms, as the constants say; their comments say otherwise.
- `TrackingOptions` gains the termination URL and target fields that the service and the plugin use. The start command never supplies a target, and the plugin never supplies a termination URL.

## Model

| member | source | states |
|---|---|---|
| Constants.DispatchSelectsOwnCommand | android/src/main/java/com/talentonet/securityall/locationforegroundservice/LocationFGService.kt:83-89 | each of the four action identifiers selects its own command, so the identifiers are distinct and dispatch is unambiguous |
| Constants.ClampCapacity | android/src/main/java/com/talentonet/securityall/locationforegroundservice/LocationFGService.kt:131 | the clamped capacity is at least 1, equals the request when that is at least 1, and is 1 otherwise; the plugin applies the same clamp at LocationForegroundServicePlugin.kt:73 |
| Constants.DefaultsAreConsistent | android/src/main/java/com/talentonet/securityall/locationforegroundservice/LocationServiceConstants.kt:32-37 | the default capacity survives the clamp, the default range is positive, and the fastest interval does not exceed the minimum interval |
| Text.LowerCase | android/src/main/java/com/talentonet/securityall/locationforegroundservice/LocationForegroundServicePlugin.kt:74 | lower-casing keeps the length and maps each character on its own (ASCII capitals to small letters) |
| Text.ReplaceAllWithoutPattern | android/src/main/java/com/talentonet/securityall/locationforegroundservice/LocationFGService.kt:392 | a URL without the placeholder's first character is left unchanged |
| Text.ReplaceAllSingleSlot | android/src/main/java/com/talentonet/securityall/locationforegroundservice/LocationFGService.kt:392 | a template with a single placeholder becomes the template with the replacement in its place |
| PayloadJson.ToJson | android/src/main/java/com/talentonet/securityall/locationforegroundservice/WebSocketLocationTransmitter.kt:136-155 | the object always has `location` (exactly lat, lng, accuracy, altitude, speed, bearing) and `timestamp`, and has `metadata` exactly when the metadata map is non-empty |
| PayloadJson.RoundTrip | android/src/main/java/com/talentonet/securityall/locationforegroundservice/WebSocketLocationTransmitter.kt:136-155 | reading back a serialised payload yields the same sample and metadata |
| PayloadQueue.Enqueued | android/src/main/java/com/talentonet/securityall/locationforegroundservice/LocationFGService.kt:251-256 | after an enqueue the queue holds 1 to capacity payloads, ends with the new one, and is the newest capacity elements of the old queue plus the new one |
| PayloadQueue.EnqueuedAsWritten | android/src/main/java/com/talentonet/securityall/locationforegroundservice/LocationFGService.kt:252-255 | the enqueue as written ends with the new payload after dropping only the head when at or over capacity, so it grows by one below capacity, keeps its length at or over it, and stays within capacity only when it started within it |
| PayloadQueue.EnqueuedAgreesWithSource | android/src/main/java/com/talentonet/securityall/locationforegroundservice/LocationFGService.kt:251-256 | for a queue within capacity, the evict-until-room enqueue equals the one-eviction enqueue as written |
| PayloadQueue.AsWrittenStaysOverCapacity | android/src/main/java/com/talentonet/securityall/locationforegroundservice/LocationFGService.kt:251-256 | the enqueue as written keeps a queue that is over capacity at its length, so it stays over capacity |
| PayloadQueue.AsWrittenOverflowWitness | android/src/main/java/com/talentonet/securityall/locationforegroundservice/LocationFGService.kt:251-256 | three queued payloads and capacity 1: the enqueue as written leaves three |
| PayloadQueue.EnqueueAllKeepsNewest | android/src/main/java/com/talentonet/securityall/locationforegroundservice/LocationFGService.kt:249-256 | after any run of enqueues, the queue holds exactly the newest capacity payloads of the old queue and the run, in insertion order |
| PayloadQueue.DrainDeliversPrefix | android/src/main/java/com/talentonet/securityall/locationforegroundservice/LocationFGService.kt:275-293 | a run of flush iterations delivers a prefix of the queue in order, one payload per successful send, and leaves the rest in place |
| PayloadQueue.FailuresKeepQueue | android/src/main/java/com/talentonet/securityall/locationforegroundservice/LocationFGService.kt:290-293 | failed sends never shorten the queue nor skip its head |
| ArrivalMonitor.ReachedIsInclusiveAndMonotone | android/src/main/java/com/talentonet/securityall/locationforegroundservice/LocationFGService.kt:234 | the inside test includes the boundary and is monotone in the distance |
| ArrivalMonitor.FirstJourneyTarget | android/src/main/java/com/talentonet/securityall/locationforegroundservice/LocationFGService.kt:192 | the index of the first JOURNEY alert with a target, none exactly when there is no such alert |
| ArrivalMonitor.FiresExactlyOnEntry | android/src/main/java/com/talentonet/securityall/locationforegroundservice/LocationFGService.kt:195-202 | over a run of positions, the notice fires at a position exactly when it is inside and the previous one (or the initial flag) was not |
| ArrivalMonitor.ConfirmArrivalUrl | android/src/main/java/com/talentonet/securityall/locationforegroundservice/LocationFGService.kt:375-392 | a request is made exactly when there is a session, its termination URL is set and not blank, and the alert id is set and not blank |
| ArrivalMonitor.ConfirmArrivalSubstitutesId | android/src/main/java/com/talentonet/securityall/locationforegroundservice/LocationFGService.kt:392 | a template with one placeholder and no other '#' gives the URL with the id in that place |
| AlertManager.TypeFromName | android/src/main/java/com/talentonet/securityall/locationforegroundservice/AlertManager.kt:144-163 | a known name gives its type; any other name gives DEFAULT |
| AlertManager.DecodeEncode | android/src/main/java/com/talentonet/securityall/locationforegroundservice/AlertManager.kt:130-163 | an alert written and read back keeps its id, type and target |
| AlertManager.RecordsOf | android/src/main/java/com/talentonet/securityall/locationforegroundservice/AlertManager.kt:117-124 | a blob that does not parse reads as the empty list |
| AlertManager.FindId | android/src/main/java/com/talentonet/securityall/locationforegroundservice/AlertManager.kt:80-89 | the index of the first record with the id; none exactly when no record has it |
| AlertManager.RemoveFirstKeepsOrder | android/src/main/java/com/talentonet/securityall/locationforegroundservice/AlertManager.kt:47-64 | removal drops only the first matching record, keeps the others in order, and keeps ids unique |
| AlertManager.AppendKeepsUnique | android/src/main/java/com/talentonet/securityall/locationforegroundservice/AlertManager.kt:32-40 | appending a record with a new id keeps ids unique |
| AlertManager.RemoveUndoesAdd | android/src/main/java/com/talentonet/securityall/locationforegroundservice/AlertManager.kt:32-64 | adding an alert with a new id and removing that id gives back the list |
| AlertManager.AlertStore.constructor | android/src/main/java/com/talentonet/securityall/locationforegroundservice/AlertManager.kt:14 | the store reads the persisted blob |
| AlertManager.AlertStore.Count | android/src/main/java/com/talentonet/securityall/locationforegroundservice/AlertManager.kt:22-25 | the count is the number of stored records, 0 for a malformed blob |
| AlertManager.AlertStore.Exists | android/src/main/java/com/talentonet/securityall/locationforegroundservice/AlertManager.kt:80-89 | the first alert with the id, decoded, or none exactly when no record has it |
| AlertManager.AlertStore.GetAll | android/src/main/java/com/talentonet/securityall/locationforegroundservice/AlertManager.kt:94-102 | every stored alert, decoded, in stored order |
| AlertManager.AlertStore.ExistAlertType | android/src/main/java/com/talentonet/securityall/locationforegroundservice/AlertManager.kt:104-114 | true exactly when some record's stored type name equals the type's name |
| AlertManager.AlertStore.Add | android/src/main/java/com/talentonet/securityall/locationforegroundservice/AlertManager.kt:32-40 | refused with nothing written when the id exists; appended otherwise; ids stay unique |
| AlertManager.AlertStore.Remove | android/src/main/java/com/talentonet/securityall/locationforegroundservice/AlertManager.kt:47-64 | true and the first matching record removed when the id is stored; false with nothing written otherwise |
| AlertManager.AlertStore.ClearAll | android/src/main/java/com/talentonet/securityall/locationforegroundservice/AlertManager.kt:71-75 | the store is empty and the call reports success |
| WebSocketTransmitter.RetryDelay | android/src/main/java/com/talentonet/securityall/locationforegroundservice/WebSocketLocationTransmitter.kt:103-109 | 0 below 5 retries, 10000 from 5 to 14, 15000 from 15 on |
| WebSocketTransmitter.RetryDelayMonotone | android/src/main/java/com/talentonet/securityall/locationforegroundservice/WebSocketLocationTransmitter.kt:103-109 | the backoff never shrinks as the retry count grows |
| WebSocketTransmitter.TotalWaitOfShortPhases | android/src/main/java/com/talentonet/securityall/locationforegroundservice/WebSocketLocationTransmitter.kt:161-164 | n failures in a row wait 0 ms for the first five, then 10000 ms each for ten, then 15000 ms each |
| WebSocketTransmitter.Transmitter.constructor | android/src/main/java/com/talentonet/securityall/locationforegroundservice/WebSocketLocationTransmitter.kt:22-37 | no socket, no configuration, count 0, disconnected, no reconnect pending, not disposing |
| WebSocketTransmitter.Transmitter.Connect | android/src/main/java/com/talentonet/securityall/locationforegroundservice/WebSocketLocationTransmitter.kt:49-66 | nothing while disposing; otherwise the old socket is closed and dropped, and a new one opens only with a configuration |
| WebSocketTransmitter.Transmitter.Initialize | android/src/main/java/com/talentonet/securityall/locationforegroundservice/WebSocketLocationTransmitter.kt:40-47 | the configuration is stored, disposing is cleared, and a new socket replaces the old one |
| WebSocketTransmitter.Transmitter.OnOpen | android/src/main/java/com/talentonet/securityall/locationforegroundservice/WebSocketLocationTransmitter.kt:67-71 | connected, with the retry count at 0 |
| WebSocketTransmitter.Transmitter.ScheduleReconnect | android/src/main/java/com/talentonet/securityall/locationforegroundservice/WebSocketLocationTransmitter.kt:89-101 | nothing while connected or disposing; otherwise one reconnect is pending, replacing any previous one, with the delay of the current count |
| WebSocketTransmitter.Transmitter.OnFailure | android/src/main/java/com/talentonet/securityall/locationforegroundservice/WebSocketLocationTransmitter.kt:73-77 | disconnected, with a reconnect scheduled unless disposing |
| WebSocketTransmitter.Transmitter.OnClosed | android/src/main/java/com/talentonet/securityall/locationforegroundservice/WebSocketLocationTransmitter.kt:79-85 | disconnected, with a reconnect scheduled only when not disposing |
| WebSocketTransmitter.Transmitter.FireReconnect | android/src/main/java/com/talentonet/securityall/locationforegroundservice/WebSocketLocationTransmitter.kt:94-99 | the pending reconnect waits its delay, raises the count by exactly one and connects again |
| WebSocketTransmitter.Transmitter.Send | android/src/main/java/com/talentonet/securityall/locationforegroundservice/WebSocketLocationTransmitter.kt:111-120 | refused without writing while disconnected or without a socket; otherwise the serialised payload is written and the result is the socket's answer |
| WebSocketTransmitter.Transmitter.Shutdown | android/src/main/java/com/talentonet/securityall/locationforegroundservice/WebSocketLocationTransmitter.kt:122-134 | disposing, no reconnect pending, no socket, disconnected; a second call changes nothing |
| LocationFGService.AccuracyFromName | android/src/main/java/com/talentonet/securityall/locationforegroundservice/LocationFGService.kt:132 | BALANCED exactly when the extra is the name BALANCED; otherwise HIGH |
| LocationFGService.StartConfig | android/src/main/java/com/talentonet/securityall/locationforegroundservice/LocationFGService.kt:115-147 | no configuration when the endpoint is missing or blank; otherwise each present extra is taken as given and each absent one takes its default, the capacity is the requested one clamped to at least 1 (32 when absent), accuracy is BALANCED exactly for the name BALANCED, and no target is set |
| LocationFGService.PayloadOf | android/src/main/java/com/talentonet/securityall/locationforegroundservice/LocationFGService.kt:206-214 | the payload carries the position's fields and the callback time |
| LocationFGService.WatchedJourney | android/src/main/java/com/talentonet/securityall/locationforegroundservice/LocationFGService.kt:191-194 | the watched alert is the first JOURNEY alert with a target in list order; none exactly when there is no such alert |
| LocationFGService.JourneyGuardAdmitsWatched | android/src/main/java/com/talentonet/securityall/locationforegroundservice/LocationFGService.kt:191-193 | when a watched journey exists, the by-name JOURNEY check that guards its evaluation holds |
| LocationFGService.LocationService.constructor | android/src/main/java/com/talentonet/securityall/locationforegroundservice/LocationFGService.kt:60-73 | running over the persisted store, with an empty queue, no session, no transmitter and no worker |
| LocationFGService.LocationService.IsAlreadyRunning | android/src/main/java/com/talentonet/securityall/locationforegroundservice/LocationFGService.kt:163-165 | already running only when the running flag is set and a transmitter exists and is connected; never without a transmitter or with a disconnected one |
| LocationFGService.LocationService.StartSession | android/src/main/java/com/talentonet/securityall/locationforegroundservice/LocationFGService.kt:149-160 | the configuration becomes the session's, the previous transmitter is shut down, a fresh one is initialised with it, and the queue and arrival flag carry over; the old one ends disposing, disconnected, without socket or pending reconnect, with its configuration and retry count kept; the fresh one has retry count 0 and no pending reconnect; the service is then not already running, since the fresh transmitter has not connected |
| LocationFGService.LocationService.HandleStartIntentAsWritten | android/src/main/java/com/talentonet/securityall/locationforegroundservice/LocationFGService.kt:108-161 | ignored while connected, and a stop is requested without an endpoint, in both cases with session, worker and the old transmitter's state unchanged; a successful start requests no stop; otherwise a new session starts on a fresh transmitter with retry count 0 and no pending reconnect, the old one is left disposing without socket or pending reconnect, and a worker from an earlier session keeps observing the old transmitter |
| LocationFGService.LocationService.HandleStartIntent | android/src/main/java/com/talentonet/securityall/locationforegroundservice/LocationFGService.kt:108-161 | as above, with the worker bound to the new transmitter |
| LocationFGService.LocationService.FlushQueue | android/src/main/java/com/talentonet/securityall/locationforegroundservice/LocationFGService.kt:260-265 | no-op while a worker is active; otherwise a worker starts on the current transmitter |
| LocationFGService.LocationService.EnqueuePayload | android/src/main/java/com/talentonet/securityall/locationforegroundservice/LocationFGService.kt:249-258 | no change without a session; otherwise the queue becomes the intended enqueue, stays within capacity, and a flush is requested |
| LocationFGService.LocationService.EnqueuePayloadAsWritten | android/src/main/java/com/talentonet/securityall/locationforegroundservice/LocationFGService.kt:249-258 | no change without a session; otherwise the queue becomes the enqueue as written (one eviction) and a flush is requested |
| LocationFGService.LocationService.FlushStep | android/src/main/java/com/talentonet/securityall/locationforegroundservice/LocationFGService.kt:264-294 | nothing is sent unless the worker's transmitter is connected and a session exists; an empty queue waits 5000 ms; the head is removed only on a successful send, and on failure it stays and the retry delay is waited |
| LocationFGService.LocationService.HandleArrival | android/src/main/java/com/talentonet/securityall/locationforegroundservice/LocationFGService.kt:237-242 | the notice fires exactly when the flag was clear, and the flag is set afterwards |
| LocationFGService.LocationService.OnLocation | android/src/main/java/com/talentonet/securityall/locationforegroundservice/LocationFGService.kt:180-217 | no alerts: a stop is requested and nothing is queued; otherwise the watched journey's flag follows the arrival step (fires once on entry, clears outside), the flag is untouched without one, and the payload is queued |
| LocationFGService.LocationService.HandleRejectArrival | android/src/main/java/com/talentonet/securityall/locationforegroundservice/LocationFGService.kt:369-371 | the arrival notice is dismissed and nothing else changes |
| LocationFGService.LocationService.HandleConfirmArrival | android/src/main/java/com/talentonet/securityall/locationforegroundservice/LocationFGService.kt:373-402 | the notice is dismissed; the request is the guarded URL, and when there is one the alert is removed whatever the request's outcome; otherwise the store is untouched |
| LocationFGService.RestartStallsFlushAsWritten | android/src/main/java/com/talentonet/securityall/locationforegroundservice/LocationFGService.kt:151-158 | a restart as written, with the new transmitter connected and a payload queued, flushes nothing |
| LocationFGService.RestartResumesFlush | android/src/main/java/com/talentonet/securityall/locationforegroundservice/LocationFGService.kt:151-158 | the same sequence with the corrected start delivers the payload |
| PluginOptions.GetInt | android/src/main/java/com/talentonet/securityall/locationforegroundservice/LocationForegroundServicePlugin.kt:73 | present only for a whole number within the 32-bit range, and then equal to it |
| PluginOptions.ToMap | android/src/main/java/com/talentonet/securityall/locationforegroundservice/LocationForegroundServicePlugin.kt:113-125 | every key with a non-null value is kept, with the value's text; null-valued keys are dropped |
| PluginOptions.TruncToLong | android/src/main/java/com/talentonet/securityall/locationforegroundservice/LocationForegroundServicePlugin.kt:67-72 | truncation toward zero within one unit, saturating at LONG_MAX above it and at LONG_MIN below it |
| PluginOptions.RangeOrDefault | android/src/main/java/com/talentonet/securityall/locationforegroundservice/LocationForegroundServicePlugin.kt:104 | the radius is always positive: the provided one when positive, the default otherwise |
| PluginOptions.ReadTargetLocation | android/src/main/java/com/talentonet/securityall/locationforegroundservice/LocationForegroundServicePlugin.kt:95-111 | no target object gives none; missing latitude or longitude is refused; a present range that is not a number is refused; coordinates are the given numbers; the range is the default when missing or not positive |
| PluginOptions.AccuracyIgnoresCase | android/src/main/java/com/talentonet/securityall/locationforegroundservice/LocationForegroundServicePlugin.kt:74-77 | strings equal up to letter case select the same accuracy |
| PluginOptions.AccuracySpellings | android/src/main/java/com/talentonet/securityall/locationforegroundservice/LocationForegroundServicePlugin.kt:74-77 | a string selects BALANCED exactly when it is "balanced" letter by letter up to case; every other string and absence select HIGH |
| PluginOptions.ToTrackingOptions | android/src/main/java/com/talentonet/securityall/locationforegroundservice/LocationForegroundServicePlugin.kt:61-93 | refused when the endpoint is missing or blank, then when the target is refused; otherwise present intervals and retry delay are the truncated numbers, present distance, title and body are taken as given, missing options take their defaults, the capacity is the requested one clamped to at least 1 (32 when absent), accuracy is BALANCED exactly when the string lower-cases to "balanced", and any target has a positive radius |
| PluginOptions.StartTracking | android/src/main/java/com/talentonet/securityall/locationforegroundservice/LocationForegroundServicePlugin.kt:29-40 | rejected exactly when the options are refused; otherwise the call resolves running with the options |
| PluginOptions.EndpointOnlyTakesDefaults | android/src/main/java/com/talentonet/securityall/locationforegroundservice/LocationForegroundServicePlugin.kt:61-93 | a call with only an endpoint gets every default |
| PluginOptions.BlankEndpointRejected | android/src/main/java/com/talentonet/securityall/locationforegroundservice/LocationForegroundServicePlugin.kt:62-63 | every blank endpoint string is rejected whatever else the call carries |

## Left out

- Android lifecycle, notification channels and builders, pending intents and the fused location subscription. The model keeps only their effects: a stop request flag, the arrival notice, a running flag.
- `Location.distanceBetween`: a platform float routine; the distance to the target is an input of `OnLocation`.
- `HttpLocationTransmitter` and the POST of `confirmJourneyCompletion`: network calls. Confirmation returns the URL it would request, and the alert is removed whatever the outcome, as in the code.
- LocationFGService.LocationService.FlushStep: one flush iteration is atomic here, while the code reads the head under the queue lock, sends it unlocked and removes the head under the lock again. An enqueue at capacity in that gap evicts the payload being sent, and the successful send then removes the next payload, which was never sent (queue [a, b, c] under capacity 3: a is sent, d evicts a, and the success drops b). That loss is not modelled.
- Coroutines, the connection mutex, `StateFlow.collect` and `delay`. Events run one at a time, so interleavings (for example a callback between `connect`'s close and its new socket) are not modelled. `Initialize` connects at once instead of in a launched coroutine.
- Stale listeners: callbacks of a socket that was already replaced act on the transmitter as any other callback, since the listener does not check which socket it belongs to.
- `onDestroy`: shutdown of the transmitter and clearing of the queue are not modelled.
- The shutdown of the HTTP client's dispatcher by `shutdown` is not modelled. A re-initialised transmitter would be unable to open sockets in reality, but every start creates a fresh transmitter.
- WebSocketTransmitter.Transmitter.FireReconnect: the retry count is unbounded; the 32-bit overflow after 2^31 retries is not modelled.
- SharedPreferences and org.json text: the persisted value is a `Blob` of records, or `Malformed`.
- Float and double precision: coordinates, speed, bearing and distances are reals, so NaN and infinities do not occur.
- `readSerializableMap` and `LocationForegroundService.kt` (marshalling options into start extras): the start command's extras are a `StartExtras` value.
- Text.LowerCase: maps ASCII capitals only. For the one comparison that uses it, equality with "balanced", full Unicode lower-casing gives the same answer, since no other character lower-cases to those ASCII letters.
- PluginOptions.GetInt: a number counts as an integer when it is whole and fits 32 bits. This approximates how the JSON bridge boxes numbers.
- PluginOptions.ReadTargetLocation: a coordinate given as a numeric string, which the JSON library would coerce, is refused as not a number. The exception text of that refusal is not modelled.
- LocationFGService.LocationService.OnLocation: queues through the corrected `EnqueuePayload`, so after a restart that shrinks the capacity its queue is the newest payloads up to the new capacity, where the code as written keeps one payload per eviction over it (`EnqueuePayloadAsWritten` models that path).
- The plugin's `stopTracking`, `isTracking` and permission declarations, the web and iOS stubs: not part of this model.

## Findings

| source | as written | input that shows it | evidently intended | confidence | as-written member | corrected member |
|---|---|---|---|---|---|---|
| android/src/main/java/com/talentonet/securityall/locationforegroundservice/LocationFGService.kt:252-255 | when the queue is at or over capacity, only one payload is evicted before the append | three payloads are queued under a capacity of 32. Then a start arrives while the transmitter is disconnected, so the start is not ignored, and it sets capacity 1. The next position leaves three payloads queued | the queue never holds more than the session's capacity | not executed; medium (the restart path is rare) | PayloadQueue.EnqueuedAsWritten (PayloadQueue.AsWrittenOverflowWitness, PayloadQueue.AsWrittenStaysOverCapacity) | PayloadQueue.Enqueued (PayloadQueue.EnqueueAllKeepsNewest), used by LocationFGService.LocationService.EnqueuePayload |
| android/src/main/java/com/talentonet/securityall/locationforegroundservice/LocationFGService.kt:151-158, 261-268 | the flush worker keeps the transmitter it found at launch and collects that transmitter's connection flag indefinitely, so it stays active; a later start shuts that transmitter down and calls `flushQueue`, which returns because a worker is active | start a session, then start again before the first transmitter connects; the new transmitter connects and a payload is queued, and the worker stays paused on the shut-down transmitter | after a start, queued payloads are flushed through the new transmitter | not executed; high | LocationFGService.LocationService.HandleStartIntentAsWritten (LocationFGService.RestartStallsFlushAsWritten) | LocationFGService.LocationService.HandleStartIntent (LocationFGService.RestartResumesFlush) |
