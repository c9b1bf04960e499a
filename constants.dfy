/** Command identifiers and option defaults shared by the plugin and the service. */
module Constants {

  const ACTION_START: string := "com.talentonet.securityall.locationforegroundservice.START"
  const ACTION_STOP: string := "com.talentonet.securityall.locationforegroundservice.STOP"
  const ACTION_CONFIRM_ARRIVAL: string := "com.talentonet.securityall.locationforegroundservice.CONFIRM_ARRIVAL"
  const ACTION_REJECT_ARRIVAL: string := "com.talentonet.securityall.locationforegroundservice.REJECT_ARRIVAL"

  const DEFAULT_MIN_INTERVAL: int := 10000
  const DEFAULT_FASTEST_INTERVAL: int := 5000
  const DEFAULT_MIN_DISTANCE: real := 5.0
  const DEFAULT_RETRY_DELAY: int := 5000
  const DEFAULT_QUEUE_CAPACITY: int := 32
  const DEFAULT_TARGET_RANGE: real := 10.0
  const DEFAULT_NOTIFICATION_TITLE: string := "Ubicación activa"
  const DEFAULT_NOTIFICATION_BODY: string := "Compartiendo tu ubicación"

  /** The service commands an intent action selects. */
  datatype Command = Start | Stop | ConfirmArrival | RejectArrival | Ignored

  /** The `when (intent.action)` dispatch of the service. */
  function Dispatch(action: string): Command
  {
    if action == ACTION_START then Start
    else if action == ACTION_STOP then Stop
    else if action == ACTION_CONFIRM_ARRIVAL then ConfirmArrival
    else if action == ACTION_REJECT_ARRIVAL then RejectArrival
    else Ignored
  }

  /** Each action identifier selects its own command, so dispatch is unambiguous. */
  lemma DispatchSelectsOwnCommand()
    ensures Dispatch(ACTION_START) == Start
    ensures Dispatch(ACTION_STOP) == Stop
    ensures Dispatch(ACTION_CONFIRM_ARRIVAL) == ConfirmArrival
    ensures Dispatch(ACTION_REJECT_ARRIVAL) == RejectArrival
  {
    // The identifiers share a 53-character package prefix and differ right after it.
    assert ACTION_START[53] == 'S' && ACTION_CONFIRM_ARRIVAL[53] == 'C' && ACTION_REJECT_ARRIVAL[53] == 'R';
    assert ACTION_START[55] == 'A' && ACTION_STOP[55] == 'O';
  }

  /** `max(capacity, 1)`, as both the plugin and the service apply it. */
  function ClampCapacity(requested: int): (c: int)
    ensures c >= 1
    ensures requested >= 1 ==> c == requested
    ensures requested < 1 ==> c == 1
  {
    if requested >= 1 then requested else 1
  }

  /** The defaults already satisfy the clamps and orderings the validators rely on. */
  lemma DefaultsAreConsistent()
    ensures ClampCapacity(DEFAULT_QUEUE_CAPACITY) == DEFAULT_QUEUE_CAPACITY
    ensures DEFAULT_TARGET_RANGE > 0.0
    ensures DEFAULT_FASTEST_INTERVAL <= DEFAULT_MIN_INTERVAL
  {
  }
}
