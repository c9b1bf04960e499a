/**
 * The wire shape of one location sample, as both transmitters serialise it: a JSON
 * object, kept here as a structured value instead of text.
 */
module PayloadJson {
  import opened Types

  /** The JSON values the payload uses; an object maps member names to values. */
  datatype Json = JNumber(n: real) | JInteger(i: int) | JString(s: string) | JObject(members: map<string, Json>)

  /** The nested `location` object: exactly six numeric members. */
  function LocationObject(p: LocationPayload): (j: Json)
    ensures j.JObject? && j.members.Keys == {"lat", "lng", "accuracy", "altitude", "speed", "bearing"}
  {
    JObject(map[
      "lat" := JNumber(p.latitude),
      "lng" := JNumber(p.longitude),
      "accuracy" := JNumber(p.accuracy),
      "altitude" := JNumber(p.altitude),
      "speed" := JNumber(p.speed),
      "bearing" := JNumber(p.bearing)])
  }

  /** The `metadata` object: one string member per metadata entry. */
  function MetadataObject(metadata: map<string, string>): (j: Json)
    ensures j.JObject? && j.members.Keys == metadata.Keys
  {
    JObject(map k | k in metadata :: JString(metadata[k]))
  }

  /**
   * `toJson(metadata)`: `location` and `timestamp` always, and `metadata` exactly when
   * the metadata map is not empty.
   */
  function ToJson(p: LocationPayload, metadata: map<string, string>): (j: Json)
    ensures j.JObject?
    ensures j.members.Keys == {"location", "timestamp"} + (if |metadata| > 0 then {"metadata"} else {})
    ensures j.members["location"].JObject?
    ensures j.members["location"].members.Keys == {"lat", "lng", "accuracy", "altitude", "speed", "bearing"}
    ensures j.members["timestamp"] == JInteger(p.timestamp)
  {
    var base := map["location" := LocationObject(p), "timestamp" := JInteger(p.timestamp)];
    if |metadata| > 0 then JObject(base["metadata" := MetadataObject(metadata)]) else JObject(base)
  }

  function NumberMember(members: map<string, Json>, name: string): Option<real>
  {
    if name in members && members[name].JNumber? then Some(members[name].n) else None
  }

  /** Reads a wire payload back; an absent `metadata` member is the empty map. */
  function FromJson(j: Json): Option<(LocationPayload, map<string, string>)>
  {
    if !j.JObject? || "location" !in j.members || "timestamp" !in j.members then None
    else
      var loc := j.members["location"];
      var ts := j.members["timestamp"];
      if !loc.JObject? || !ts.JInteger? then None
      else
        var lat := NumberMember(loc.members, "lat");
        var lng := NumberMember(loc.members, "lng");
        var acc := NumberMember(loc.members, "accuracy");
        var alt := NumberMember(loc.members, "altitude");
        var spd := NumberMember(loc.members, "speed");
        var brg := NumberMember(loc.members, "bearing");
        if lat.None? || lng.None? || acc.None? || alt.None? || spd.None? || brg.None? then None
        else
          var p := LocationPayload(lat.value, lng.value, acc.value, alt.value, spd.value, brg.value, ts.i);
          if "metadata" !in j.members then Some((p, map[]))
          else
            var m := j.members["metadata"];
            if m.JObject? && forall k :: k in m.members ==> m.members[k].JString? then
              Some((p, map k | k in m.members :: m.members[k].s))
            else None
  }

  /** Serialising a sample and reading it back gives the same fields and metadata. */
  lemma RoundTrip(p: LocationPayload, metadata: map<string, string>)
    ensures FromJson(ToJson(p, metadata)) == Some((p, metadata))
  {
    var j := ToJson(p, metadata);
    if |metadata| > 0 {
      var m := j.members["metadata"];
      assert m == MetadataObject(metadata);
      var back := map k | k in m.members :: m.members[k].s;
      assert back == metadata;
    } else {
      assert metadata == map[];
    }
  }
}
