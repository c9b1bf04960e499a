/**
 * The plugin's option parsing: the JavaScript call's data object is normalised into
 * session options, or the call is rejected. Values read through the call's typed
 * accessors come back absent when the key is missing, null or of another type.
 */
module PluginOptions {
  import opened Types
  import opened Text
  import Constants

  /**
   * A value of the call's data object. Values that are not strings keep the text the
   * JSON library renders them as, which is what `optString` returns for them.
   */
  datatype JsValue =
    | JsNull
    | JsBool(b: bool)
    | JsNumber(n: real, text: string)
    | JsString(s: string)
    | JsObject(fields: map<string, JsValue>, text: string)
    | JsArray(text: string)

  /** Why the options were refused. */
  datatype OptionsError =
    | MissingEndpoint              // "Debes proporcionar un endpoint válido"
    | MissingTargetCoordinates     // "Debes proporcionar latitude y longitude en targetLocation"
    | NotANumber(key: string)      // a target coordinate or range the JSON library cannot read as a number

  /** The plugin's own notification defaults. */
  const PLUGIN_DEFAULT_NOTIFICATION_TITLE: string := "Ubicación activa"
  const PLUGIN_DEFAULT_NOTIFICATION_BODY: string := "Compartiendo tu posición"

  const LONG_MIN: int := -0x8000_0000_0000_0000
  const LONG_MAX: int := 0x7FFF_FFFF_FFFF_FFFF
  const INT_MIN: int := -0x8000_0000
  const INT_MAX: int := 0x7FFF_FFFF

  /** `getString`. */
  function GetString(data: map<string, JsValue>, key: string): (r: Option<string>)
    ensures r.Some? <==> key in data && data[key].JsString?
    ensures r.Some? ==> r.value == data[key].s
  {
    if key in data && data[key].JsString? then Some(data[key].s) else None
  }

  /** `getDouble`. */
  function GetDouble(data: map<string, JsValue>, key: string): (r: Option<real>)
    ensures r.Some? <==> key in data && data[key].JsNumber?
    ensures r.Some? ==> r.value == data[key].n
  {
    if key in data && data[key].JsNumber? then Some(data[key].n) else None
  }

  /** `getInt`: present only for a whole number that fits a 32-bit integer. */
  function GetInt(data: map<string, JsValue>, key: string): (r: Option<int>)
    ensures r.Some? ==> key in data && data[key].JsNumber? && data[key].n == r.value as real
    ensures r.Some? ==> INT_MIN <= r.value <= INT_MAX
    ensures (key in data && data[key].JsNumber? && data[key].n == data[key].n.Floor as real
             && INT_MIN <= data[key].n.Floor <= INT_MAX) ==> r.Some?
  {
    if key in data && data[key].JsNumber? && data[key].n == data[key].n.Floor as real
      && INT_MIN <= data[key].n.Floor <= INT_MAX
    then Some(data[key].n.Floor)
    else None
  }

  /** `getObject`. */
  function GetObject(data: map<string, JsValue>, key: string): (r: Option<map<string, JsValue>>)
    ensures r.Some? <==> key in data && data[key].JsObject?
    ensures r.Some? ==> r.value == data[key].fields
  {
    if key in data && data[key].JsObject? then Some(data[key].fields) else None
  }

  /** `optString` on a non-null value: a string as it is, anything else as its JSON text. */
  function OptString(v: JsValue): string
  {
    match v
    case JsNull => ""
    case JsBool(b) => if b then "true" else "false"
    case JsNumber(_, text) => text
    case JsString(s) => s
    case JsObject(_, text) => text
    case JsArray(text) => text
  }

  /** The map `toMap` builds: every key whose value is not null, with its value as text. */
  function NonNullEntries(obj: map<string, JsValue>): map<string, string>
  {
    map k | k in obj && !obj[k].JsNull? :: OptString(obj[k])
  }

  /** `toMap`: the keys are visited one by one; a null value is skipped. */
  method ToMap(obj: map<string, JsValue>) returns (m: map<string, string>)
    ensures forall k :: k in m <==> k in obj && !obj[k].JsNull?
    ensures forall k :: k in m ==> m[k] == OptString(obj[k])
    ensures m == NonNullEntries(obj)
  {
    m := map[];
    var keys := obj.Keys;
    while keys != {}
      invariant keys <= obj.Keys
      invariant forall k :: k in m <==> k in obj && k !in keys && !obj[k].JsNull?
      invariant forall k :: k in m ==> m[k] == OptString(obj[k])
      decreases |keys|
    {
      var k :| k in keys;
      if !obj[k].JsNull? {
        m := m[k := OptString(obj[k])];
      }
      keys := keys - {k};
    }
  }

  /** Kotlin's `Double.toLong`: toward zero, saturating at the bounds of a 64-bit integer. */
  function TruncToLong(x: real): (r: int)
    ensures LONG_MIN <= r <= LONG_MAX
    ensures 0.0 <= x ==> 0 <= r && r as real <= x
    ensures x <= 0.0 ==> r <= 0 && x <= r as real
    ensures LONG_MIN as real <= x <= LONG_MAX as real ==> x - 1.0 < r as real < x + 1.0
    ensures LONG_MAX as real <= x ==> r == LONG_MAX
    ensures x <= LONG_MIN as real ==> r == LONG_MIN
  {
    if x >= LONG_MAX as real then LONG_MAX
    else if x <= LONG_MIN as real then LONG_MIN
    else if x >= 0.0 then x.Floor
    else -((-x).Floor)
  }

  /** `JSONObject.getDouble` on a present key of the target object. */
  function TargetNumber(target: map<string, JsValue>, key: string): (r: Result<real, OptionsError>)
    requires key in target
    ensures r.Ok? <==> target[key].JsNumber?
    ensures r.Ok? ==> r.value == target[key].n
    ensures r.Err? ==> r.error == NotANumber(key)
  {
    if target[key].JsNumber? then Ok(target[key].n) else Err(NotANumber(key))
  }

  /** The radius kept for a provided range: itself when positive, the default otherwise. */
  function RangeOrDefault(provided: real): (range: real)
    ensures range > 0.0
    ensures provided > 0.0 ==> range == provided
    ensures provided <= 0.0 ==> range == Constants.DEFAULT_TARGET_RANGE
  {
    if provided > 0.0 then provided else Constants.DEFAULT_TARGET_RANGE
  }

  /**
   * `readTargetLocation`: none without a target object; refused when latitude or
   * longitude is missing; the range falls back to the default when missing or not
   * positive. Latitude, longitude and range are read in that order.
   */
  function ReadTargetLocation(data: map<string, JsValue>): (r: Result<Option<TargetLocation>, OptionsError>)
    ensures GetObject(data, "targetLocation").None? ==> r == Ok(None)
    ensures GetObject(data, "targetLocation").Some? ==> r != Ok(None)
    ensures (GetObject(data, "targetLocation").Some? &&
             ("latitude" !in GetObject(data, "targetLocation").value
              || "longitude" !in GetObject(data, "targetLocation").value)) ==> r == Err(MissingTargetCoordinates)
    ensures (GetObject(data, "targetLocation").Some? && "range" in GetObject(data, "targetLocation").value
             && !GetObject(data, "targetLocation").value["range"].JsNumber?) ==> r.Err?
    ensures r.Ok? && r.value.Some? ==> r.value.value.rangeMeters > 0.0
    ensures r.Ok? && r.value.Some? ==>
      var t := GetObject(data, "targetLocation").value;
      && t["latitude"].JsNumber? && t["latitude"].n == r.value.value.latitude
      && t["longitude"].JsNumber? && t["longitude"].n == r.value.value.longitude
      && ("range" !in t ==> r.value.value.rangeMeters == Constants.DEFAULT_TARGET_RANGE)
      && ("range" in t && t["range"].JsNumber? && t["range"].n > 0.0 ==> r.value.value.rangeMeters == t["range"].n)
      && ("range" in t && t["range"].JsNumber? && t["range"].n <= 0.0 ==>
            r.value.value.rangeMeters == Constants.DEFAULT_TARGET_RANGE)
  {
    match GetObject(data, "targetLocation")
    case None => Ok(None)
    case Some(target) =>
      if "latitude" !in target || "longitude" !in target then Err(MissingTargetCoordinates)
      else
        match TargetNumber(target, "latitude")
        case Err(e) => Err(e)
        case Ok(latitude) =>
          match TargetNumber(target, "longitude")
          case Err(e) => Err(e)
          case Ok(longitude) =>
            var provided :=
              if "range" in target then TargetNumber(target, "range")
              else Ok(Constants.DEFAULT_TARGET_RANGE);
            match provided
            case Err(e) => Err(e)
            case Ok(p) => Ok(Some(TargetLocation(latitude, longitude, RangeOrDefault(p))))
  }

  /** The accuracy option: BALANCED when the string lower-cases to "balanced", HIGH otherwise. */
  function AccuracyOf(option: Option<string>): LocationAccuracy
  {
    if option.Some? && LowerCase(option.value) == "balanced" then Balanced else High
  }

  /** The accuracy option ignores the case of its letters. */
  lemma AccuracyIgnoresCase(s: string, t: string)
    requires |s| == |t|
    requires forall i :: 0 <= i < |s| ==> LowerChar(s[i]) == LowerChar(t[i])
    ensures AccuracyOf(Some(s)) == AccuracyOf(Some(t))
  {
    assert LowerCase(s) == LowerCase(t);
  }

  /**
   * An option selects BALANCED exactly when it is "balanced" in some capitalisation,
   * letter by letter; every other string, and the absent option, selects HIGH.
   */
  lemma AccuracySpellings(s: string)
    ensures AccuracyOf(Some(s)) == Balanced <==>
      |s| == |"balanced"| && forall i :: 0 <= i < |s| ==> LowerChar(s[i]) == "balanced"[i]
    ensures AccuracyOf(None) == High
  {
    if |s| == |"balanced"| && forall i :: 0 <= i < |s| ==> LowerChar(s[i]) == "balanced"[i] {
      assert forall i :: 0 <= i < |s| ==> LowerCase(s)[i] == "balanced"[i];
      assert LowerCase(s) == "balanced";
    }
  }

  /** A map option: the object's non-null entries, or nothing when the object is absent. */
  function MapOption(data: map<string, JsValue>, key: string): map<string, string>
  {
    match GetObject(data, key)
    case None => map[]
    case Some(obj) => NonNullEntries(obj)
  }

  /**
   * `toTrackingOptions`: refused when the endpoint is missing or blank, then when the
   * target is refused; otherwise every missing option takes its default, numbers are
   * truncated to whole milliseconds, the capacity is at least one, and the accuracy
   * string is matched ignoring case. No termination URL is set on this path.
   */
  function ToTrackingOptions(data: map<string, JsValue>): (r: Result<TrackingOptions, OptionsError>)
    ensures GetString(data, "endpoint").None? || IsBlank(GetString(data, "endpoint").value) ==>
      r == Err(MissingEndpoint)
    ensures GetString(data, "endpoint").Some? && !IsBlank(GetString(data, "endpoint").value) ==>
      (r.Err? <==> ReadTargetLocation(data).Err?) && (r.Err? ==> r.error == ReadTargetLocation(data).error)
    ensures r.Ok? ==>
      && r.value.endpoint == GetString(data, "endpoint").value && !IsBlank(r.value.endpoint)
      && r.value.targetLocation == ReadTargetLocation(data).value
      && r.value.alertTerminationEndpoint.None?
      && r.value.headers == MapOption(data, "headers") && r.value.metadata == MapOption(data, "metadata")
      && r.value.queueCapacity >= 1
      && (GetInt(data, "queueCapacity").None? ==> r.value.queueCapacity == 32)
      && (GetInt(data, "queueCapacity").Some? && GetInt(data, "queueCapacity").value >= 1 ==>
            r.value.queueCapacity == GetInt(data, "queueCapacity").value)
      && (GetInt(data, "queueCapacity").Some? && GetInt(data, "queueCapacity").value < 1 ==>
            r.value.queueCapacity == 1)
      && (GetDouble(data, "minUpdateIntervalMillis").None? ==> r.value.minUpdateIntervalMillis == 10000)
      && (GetDouble(data, "minUpdateIntervalMillis").Some? ==>
            r.value.minUpdateIntervalMillis == TruncToLong(GetDouble(data, "minUpdateIntervalMillis").value))
      && (GetDouble(data, "fastestIntervalMillis").None? ==> r.value.fastestIntervalMillis == 5000)
      && (GetDouble(data, "fastestIntervalMillis").Some? ==>
            r.value.fastestIntervalMillis == TruncToLong(GetDouble(data, "fastestIntervalMillis").value))
      && (GetDouble(data, "minUpdateDistanceMeters").None? ==> r.value.minUpdateDistanceMeters == 5.0)
      && (GetDouble(data, "minUpdateDistanceMeters").Some? ==>
            r.value.minUpdateDistanceMeters == GetDouble(data, "minUpdateDistanceMeters").value)
      && (GetDouble(data, "retryDelayMillis").None? ==> r.value.retryDelayMillis == 5000)
      && (GetDouble(data, "retryDelayMillis").Some? ==>
            r.value.retryDelayMillis == TruncToLong(GetDouble(data, "retryDelayMillis").value))
      && (GetString(data, "notificationTitle").None? ==> r.value.notificationTitle == "Ubicación activa")
      && (GetString(data, "notificationTitle").Some? ==>
            r.value.notificationTitle == GetString(data, "notificationTitle").value)
      && (GetString(data, "notificationBody").None? ==> r.value.notificationBody == "Compartiendo tu posición")
      && (GetString(data, "notificationBody").Some? ==>
            r.value.notificationBody == GetString(data, "notificationBody").value)
      && (r.value.accuracy == Balanced <==>
            GetString(data, "accuracy").Some? && LowerCase(GetString(data, "accuracy").value) == "balanced")
      && (r.value.targetLocation.Some? ==> r.value.targetLocation.value.rangeMeters > 0.0)
  {
    var endpoint := GetString(data, "endpoint");
    if endpoint.None? || IsBlank(endpoint.value) then Err(MissingEndpoint)
    else
      match ReadTargetLocation(data)
      case Err(e) => Err(e)
      case Ok(target) =>
        var interval := GetDouble(data, "minUpdateIntervalMillis");
        var fastest := GetDouble(data, "fastestIntervalMillis");
        var retry := GetDouble(data, "retryDelayMillis");
        Ok(TrackingOptions(
          endpoint := endpoint.value,
          alertTerminationEndpoint := None,
          headers := MapOption(data, "headers"),
          metadata := MapOption(data, "metadata"),
          minUpdateIntervalMillis :=
            if interval.Some? then TruncToLong(interval.value) else Constants.DEFAULT_MIN_INTERVAL,
          fastestIntervalMillis :=
            if fastest.Some? then TruncToLong(fastest.value) else Constants.DEFAULT_FASTEST_INTERVAL,
          minUpdateDistanceMeters := OrElse(GetDouble(data, "minUpdateDistanceMeters"), Constants.DEFAULT_MIN_DISTANCE),
          notificationTitle := OrElse(GetString(data, "notificationTitle"), PLUGIN_DEFAULT_NOTIFICATION_TITLE),
          notificationBody := OrElse(GetString(data, "notificationBody"), PLUGIN_DEFAULT_NOTIFICATION_BODY),
          retryDelayMillis := if retry.Some? then TruncToLong(retry.value) else Constants.DEFAULT_RETRY_DELAY,
          queueCapacity := Constants.ClampCapacity(OrElse(GetInt(data, "queueCapacity"), Constants.DEFAULT_QUEUE_CAPACITY)),
          accuracy := AccuracyOf(GetString(data, "accuracy")),
          targetLocation := target))
  }

  /** What the `startTracking` call resolves or rejects with. */
  datatype CallOutcome = Rejected(error: OptionsError) | Resolved(running: bool, options: TrackingOptions)

  /**
   * `startTracking`: a call whose options are refused is rejected and starts nothing;
   * otherwise the service is started with the options and the call resolves running.
   */
  function StartTracking(data: map<string, JsValue>): (outcome: CallOutcome)
    ensures outcome.Rejected? <==> ToTrackingOptions(data).Err?
    ensures outcome.Rejected? ==> outcome.error == ToTrackingOptions(data).error
    ensures outcome.Resolved? ==> outcome.running && outcome.options == ToTrackingOptions(data).value
  {
    match ToTrackingOptions(data)
    case Err(e) => Rejected(e)
    case Ok(options) => Resolved(true, options)
  }

  /** A call with a usable endpoint and nothing else starts a session with every default. */
  lemma EndpointOnlyTakesDefaults(endpoint: string)
    requires !IsBlank(endpoint)
    ensures var outcome := StartTracking(map["endpoint" := JsString(endpoint)]);
      && outcome.Resolved?
      && outcome.options == TrackingOptions(
           endpoint, None, map[], map[], 10000, 5000, 5.0,
           "Ubicación activa", "Compartiendo tu posición", 5000, 32, High, None)
  {
    var data := map["endpoint" := JsString(endpoint)];
    assert GetObject(data, "targetLocation").None?;
  }

  /** A blank endpoint is refused whatever else the call carries. */
  lemma BlankEndpointRejected(data: map<string, JsValue>)
    requires "endpoint" in data && data["endpoint"].JsString? && IsBlank(data["endpoint"].s)
    ensures StartTracking(data) == Rejected(MissingEndpoint)
  {
  }
}
