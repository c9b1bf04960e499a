/**
 * The geofence arrival monitor: which alert's target is watched, when a position
 * counts as arrived, the trigger-once flag, and the confirm-arrival request.
 */
module ArrivalMonitor {
  import opened Types
  import opened Text

  /** The placeholder of the termination URL template that the alert id replaces. */
  const PARAM_TOKEN: string := "#param#"

  /**
   * `hasReachedTarget`: the distance to the target (computed by the platform) is within
   * the radius, the boundary included.
   */
  predicate HasReachedTarget(distanceMeters: real, target: TargetLocation)
  {
    distanceMeters <= target.rangeMeters
  }

  /** Closer positions stay inside, and a positive radius always contains its centre. */
  lemma ReachedIsInclusiveAndMonotone(d1: real, d2: real, target: TargetLocation)
    requires 0.0 <= d1 <= d2
    ensures HasReachedTarget(d2, target) ==> HasReachedTarget(d1, target)
    ensures HasReachedTarget(target.rangeMeters, target)
    ensures target.rangeMeters > 0.0 ==> HasReachedTarget(0.0, target)
  {
  }

  predicate IsJourneyWithTarget(a: Alert)
  {
    a.alertType == Journey && a.targetLocation.Some?
  }

  /** The first JOURNEY alert that carries a target, in stored order. */
  function FirstJourneyTarget(alerts: seq<Alert>): (r: Option<nat>)
    ensures r.Some? ==> r.value < |alerts| && IsJourneyWithTarget(alerts[r.value])
    ensures r.Some? ==> forall k :: 0 <= k < r.value ==> !IsJourneyWithTarget(alerts[k])
    ensures r.None? <==> forall k :: 0 <= k < |alerts| ==> !IsJourneyWithTarget(alerts[k])
  {
    if alerts == [] then None
    else if IsJourneyWithTarget(alerts[0]) then Some(0)
    else match FirstJourneyTarget(alerts[1..])
      case None => None
      case Some(i) => Some(i + 1)
  }

  /**
   * One position evaluated against the watched target: the new value of the flag and
   * whether the arrival notification fires. Inside sets the flag (firing only if it was
   * clear); outside clears it.
   */
  function ArrivalStep(triggered: bool, inside: bool): (bool, bool)
  {
    if inside then (true, !triggered) else (false, false)
  }

  /** The notifications fired over a run of positions, one entry per position. */
  function ArrivalRun(triggered: bool, insides: seq<bool>): (fires: seq<bool>)
    ensures |fires| == |insides|
    decreases |insides|
  {
    if insides == [] then []
    else
      var step := ArrivalStep(triggered, insides[0]);
      [step.1] + ArrivalRun(step.0, insides[1..])
  }

  /**
   * Edge-triggered arrival: a position fires exactly when it is inside and the previous
   * position (or, for the first, the initial flag) was not; so repeated inside positions
   * fire once, and firing again needs an exit and a re-entry.
   */
  lemma {:induction false} FiresExactlyOnEntry(triggered: bool, insides: seq<bool>, i: nat)
    requires i < |insides|
    ensures ArrivalRun(triggered, insides)[i] <==>
      insides[i] && (if i == 0 then !triggered else !insides[i - 1])
    decreases i
  {
    if i > 0 {
      var step := ArrivalStep(triggered, insides[0]);
      FiresExactlyOnEntry(step.0, insides[1..], i - 1);
      if i == 1 {
        assert step.0 == insides[0];
      }
    }
  }

  /**
   * The guards of `handleConfirmArrival`: a request is made only with a session
   * configuration whose termination URL is set and not blank, and an alert id that is
   * set and not blank; the URL is the template with every placeholder replaced by the id.
   */
  function ConfirmArrivalUrl(config: Option<TrackingOptions>, alertId: Option<string>): (r: Option<string>)
    ensures r.Some? <==>
      && config.Some? && config.value.alertTerminationEndpoint.Some?
      && !IsBlank(config.value.alertTerminationEndpoint.value)
      && alertId.Some? && !IsBlank(alertId.value)
  {
    if config.None? then None
    else
      var url := config.value.alertTerminationEndpoint;
      if url.None? || IsBlank(url.value) then None
      else if alertId.None? || IsBlank(alertId.value) then None
      else Some(ReplaceAll(url.value, PARAM_TOKEN, alertId.value))
  }

  /**
   * A template with a single placeholder and no other '#' yields the template with the
   * alert id in the placeholder's place.
   */
  lemma ConfirmArrivalSubstitutesId(config: TrackingOptions, prefix: string, suffix: string, id: string)
    requires config.alertTerminationEndpoint == Some(prefix + PARAM_TOKEN + suffix)
    requires '#' !in prefix && '#' !in suffix
    requires !IsBlank(id)
    ensures ConfirmArrivalUrl(Some(config), Some(id)) == Some(prefix + id + suffix)
  {
    var url := prefix + PARAM_TOKEN + suffix;
    assert url[|prefix|] == '#';
    assert !IsWhitespace(url[|prefix|]);
    ReplaceAllSingleSlot(prefix, PARAM_TOKEN, suffix, id);
  }
}
