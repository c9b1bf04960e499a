/**
 * The WebSocket transmitter: connection flag, staged reconnect policy and socket
 * replacement. Callbacks, reconnect timers and shutdown are modelled as events
 * applied one at a time, the order the connection mutex and the listener impose.
 */
module WebSocketTransmitter {
  import opened Types
  import opened PayloadJson

  const RETRY_IMMEDIATE_MAX_N: int := 5
  const RETRY_SHORT_PHASE_MAX: int := 10
  const RETRY_DELAY_SHORT_X: nat := 10000
  const RETRY_DELAY_LONG_Y: nat := 15000

  /**
   * `calculateRetryDelay`: the first five attempts reconnect at once, the next ten wait
   * ten seconds, every later one waits fifteen seconds.
   */
  function RetryDelay(retryCount: int): (delayMillis: nat)
    ensures delayMillis == 0 <==> retryCount < 5
    ensures delayMillis == 10000 <==> 5 <= retryCount < 15
    ensures delayMillis == 15000 <==> retryCount >= 15
  {
    if retryCount < RETRY_IMMEDIATE_MAX_N then 0
    else if retryCount < RETRY_IMMEDIATE_MAX_N + RETRY_SHORT_PHASE_MAX then RETRY_DELAY_SHORT_X
    else RETRY_DELAY_LONG_Y
  }

  /** The backoff never shrinks as the retry count grows. */
  lemma RetryDelayMonotone(a: int, b: int)
    requires a <= b
    ensures RetryDelay(a) <= RetryDelay(b)
  {
  }

  /** The total wait before the `n`-th reconnect after `n` failures in a row from a fresh count. */
  function TotalWait(n: nat): nat
  {
    if n == 0 then 0 else TotalWait(n - 1) + RetryDelay(n - 1)
  }

  /** Fifteen failures in a row cost five immediate attempts and ten ten-second waits. */
  lemma {:induction false} TotalWaitOfShortPhases(n: nat)
    ensures n <= 5 ==> TotalWait(n) == 0
    ensures 5 <= n <= 15 ==> TotalWait(n) == 10000 * (n - 5)
    ensures n >= 15 ==> TotalWait(n) == 100000 + 15000 * (n - 15)
  {
    if n > 0 {
      TotalWaitOfShortPhases(n - 1);
    }
  }

  /** `WebSocketLocationTransmitter`. Sockets are identified by the order they were created in. */
  class Transmitter {
    var socket: Option<nat>
    var config: Option<TrackingOptions>
    var retryCount: nat
    var connected: bool
    /** The delay of the one pending reconnect job, when there is one. */
    var reconnectJob: Option<nat>
    var isDisposing: bool
    var nextSocketId: nat
    /** Every socket closed so far, in closing order. */
    var closedSockets: seq<nat>

    /**
     * The current socket is one already created, and a transmitter being disposed holds
     * no socket and no pending reconnect.
     */
    ghost predicate Valid()
      reads this
    {
      && (socket.Some? ==> socket.value < nextSocketId)
      && (isDisposing ==> socket.None? && reconnectJob.None?)
    }

    constructor ()
      ensures Valid()
      ensures socket.None? && config.None? && retryCount == 0 && !connected
      ensures reconnectJob.None? && !isDisposing && nextSocketId == 0 && closedSockets == []
    {
      socket := None;
      config := None;
      retryCount := 0;
      connected := false;
      reconnectJob := None;
      isDisposing := false;
      nextSocketId := 0;
      closedSockets := [];
    }

    /**
     * `connect`: nothing while disposing; otherwise the previous socket is closed and
     * dropped, and a new one is opened when there is a configuration.
     */
    method Connect()
      requires Valid()
      modifies this
      ensures Valid()
      ensures old(isDisposing) ==> unchanged(this)
      ensures !old(isDisposing) ==>
        && closedSockets == old(closedSockets) + (if old(socket).Some? then [old(socket).value] else [])
        && (config.None? ==> socket.None? && nextSocketId == old(nextSocketId))
        && (config.Some? ==> socket == Some(old(nextSocketId)) && nextSocketId == old(nextSocketId) + 1)
      ensures config == old(config) && retryCount == old(retryCount) && connected == old(connected)
      ensures reconnectJob == old(reconnectJob) && isDisposing == old(isDisposing)
    {
      if isDisposing {
        return;
      }
      if socket.Some? {
        closedSockets := closedSockets + [socket.value];
      }
      socket := None;
      if config.None? {
        return;
      }
      socket := Some(nextSocketId);
      nextSocketId := nextSocketId + 1;
    }

    /** `initialize`: store the configuration, clear the disposing flag, connect. */
    method Initialize(c: TrackingOptions)
      requires Valid()
      modifies this
      ensures Valid()
      ensures config == Some(c) && !isDisposing
      ensures closedSockets == old(closedSockets) + (if old(socket).Some? then [old(socket).value] else [])
      ensures socket == Some(old(nextSocketId)) && nextSocketId == old(nextSocketId) + 1
      ensures retryCount == old(retryCount) && connected == old(connected) && reconnectJob == old(reconnectJob)
    {
      config := Some(c);
      isDisposing := false;
      Connect();
    }

    /** `onOpen`: connected, and the retry count starts over. */
    method OnOpen()
      requires Valid()
      modifies this
      ensures Valid()
      ensures connected && retryCount == 0
      ensures socket == old(socket) && config == old(config) && reconnectJob == old(reconnectJob)
      ensures isDisposing == old(isDisposing) && nextSocketId == old(nextSocketId) && closedSockets == old(closedSockets)
    {
      connected := true;
      retryCount := 0;
    }

    /**
     * `scheduleReconnect`: nothing while connected or disposing; otherwise any pending
     * reconnect is cancelled and replaced by one whose delay follows the current count.
     */
    method ScheduleReconnect()
      requires Valid()
      modifies this
      ensures Valid()
      ensures (old(connected) || old(isDisposing)) ==> unchanged(this)
      ensures !(old(connected) || old(isDisposing)) ==> reconnectJob == Some(RetryDelay(retryCount))
      ensures socket == old(socket) && config == old(config) && retryCount == old(retryCount)
      ensures connected == old(connected) && isDisposing == old(isDisposing)
      ensures nextSocketId == old(nextSocketId) && closedSockets == old(closedSockets)
    {
      if connected || isDisposing {
        return;
      }
      reconnectJob := Some(RetryDelay(retryCount));
    }

    /** `onFailure`: disconnected, and a reconnect is scheduled. */
    method OnFailure()
      requires Valid()
      modifies this
      ensures Valid()
      ensures !connected
      ensures reconnectJob == if old(isDisposing) then old(reconnectJob) else Some(RetryDelay(retryCount))
      ensures socket == old(socket) && config == old(config) && retryCount == old(retryCount)
      ensures isDisposing == old(isDisposing) && nextSocketId == old(nextSocketId) && closedSockets == old(closedSockets)
    {
      connected := false;
      ScheduleReconnect();
    }

    /** `onClosed`: disconnected, and a reconnect is scheduled unless disposing. */
    method OnClosed()
      requires Valid()
      modifies this
      ensures Valid()
      ensures !connected
      ensures reconnectJob == if old(isDisposing) then old(reconnectJob) else Some(RetryDelay(retryCount))
      ensures socket == old(socket) && config == old(config) && retryCount == old(retryCount)
      ensures isDisposing == old(isDisposing) && nextSocketId == old(nextSocketId) && closedSockets == old(closedSockets)
    {
      connected := false;
      if !isDisposing {
        ScheduleReconnect();
      }
    }

    /**
     * The pending reconnect job runs: after its delay the retry count goes up by one and
     * the transmitter connects again. Returns the delay waited, or none when no job is pending.
     */
    method FireReconnect() returns (waited: Option<nat>)
      requires Valid()
      modifies this
      ensures Valid()
      ensures waited == old(reconnectJob)
      ensures old(reconnectJob).None? ==> unchanged(this)
      ensures old(reconnectJob).Some? ==>
        && reconnectJob.None? && retryCount == old(retryCount) + 1
        && closedSockets == old(closedSockets) + (if old(socket).Some? then [old(socket).value] else [])
        && socket == (if config.Some? then Some(old(nextSocketId)) else None)
        && nextSocketId == old(nextSocketId) + (if config.Some? then 1 else 0)
      ensures config == old(config) && connected == old(connected) && isDisposing == old(isDisposing)
    {
      waited := reconnectJob;
      if reconnectJob.None? {
        return;
      }
      reconnectJob := None;
      retryCount := retryCount + 1;
      Connect();
    }

    /**
     * `send`: refused without touching the socket while disconnected, refused when there
     * is no socket; otherwise the serialised payload is written and the result is whether
     * the socket accepted it (`accepted`).
     */
    method Send(payload: LocationPayload, c: TrackingOptions, accepted: bool) returns (ok: bool, frame: Option<Json>)
      ensures frame.Some? <==> connected && socket.Some?
      ensures frame.Some? ==> frame.value == ToJson(payload, c.metadata)
      ensures ok <==> frame.Some? && accepted
    {
      if !connected {
        return false, None;
      }
      if socket.None? {
        return false, None;
      }
      frame := Some(ToJson(payload, c.metadata));
      ok := accepted;
    }

    /**
     * `shutdown`: disposing, no pending reconnect, the socket closed and dropped,
     * disconnected. A second call changes nothing.
     */
    method Shutdown()
      requires Valid()
      modifies this
      ensures Valid()
      ensures isDisposing && reconnectJob.None? && socket.None? && !connected
      ensures closedSockets == old(closedSockets) + (if old(socket).Some? then [old(socket).value] else [])
      ensures config == old(config) && retryCount == old(retryCount) && nextSocketId == old(nextSocketId)
      ensures old(isDisposing && socket.None? && !connected) ==> unchanged(this)
    {
      isDisposing := true;
      reconnectJob := None;
      if socket.Some? {
        closedSockets := closedSockets + [socket.value];
      }
      socket := None;
      connected := false;
    }
  }
}
