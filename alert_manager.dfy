/**
 * The persisted alert store shared by the plugin and the service: an ordered list of
 * alert records under one storage key, unique by id.
 */
module AlertManager {
  import opened Types

  /** The stored object of one alert; its type is kept as the name that was written. */
  datatype AlertRecord = AlertRecord(id: string, typeName: string, targetLocation: Option<TargetLocation>)

  /** The persisted value under the alerts key: an array that parses, or text that does not. */
  datatype Blob = Parsed(records: seq<AlertRecord>) | Malformed

  /** The enum constant name written for each alert type. */
  function TypeName(t: AlertType): string
  {
    match t
    case Journey => "JOURNEY"
    case Quick => "QUICK"
    case RequestLocation => "REQUEST_LOCATION"
    case Default => "DEFAULT"
  }

  /** `AlertType.valueOf`, with an unknown name falling back to DEFAULT. */
  function TypeFromName(name: string): (t: AlertType)
    ensures name == TypeName(t) || (t == Default && forall u :: TypeName(u) != name)
  {
    if name == "JOURNEY" then Journey
    else if name == "QUICK" then Quick
    else if name == "REQUEST_LOCATION" then RequestLocation
    else Default
  }

  /** `Alert.toJson`. */
  function Encode(a: Alert): AlertRecord
  {
    AlertRecord(a.id, TypeName(a.alertType), a.targetLocation)
  }

  /** `JSONObject.toAlert`. */
  function Decode(r: AlertRecord): Alert
  {
    Alert(r.id, TypeFromName(r.typeName), r.targetLocation)
  }

  /** Storing an alert and reading it back preserves its id, type and target. */
  lemma DecodeEncode(a: Alert)
    ensures Decode(Encode(a)) == a
  {
    match a.alertType
    case Journey =>
    case Quick => assert "QUICK"[0] != "JOURNEY"[0];
    case RequestLocation =>
      assert "REQUEST_LOCATION"[0] != "JOURNEY"[0] && "REQUEST_LOCATION"[0] != "QUICK"[0];
    case Default =>
      assert "DEFAULT"[0] != "JOURNEY"[0] && "DEFAULT"[0] != "QUICK"[0]
        && "DEFAULT"[0] != "REQUEST_LOCATION"[0];
  }

  /** `getAlertsJson`: a blob that does not parse reads as the empty list. */
  function RecordsOf(b: Blob): (rs: seq<AlertRecord>)
    ensures b.Malformed? ==> rs == []
  {
    match b
    case Parsed(records) => records
    case Malformed => []
  }

  predicate UniqueIds(rs: seq<AlertRecord>)
  {
    forall i, j :: 0 <= i < j < |rs| ==> rs[i].id != rs[j].id
  }

  /** The index of the first record with the given id. */
  function FindId(rs: seq<AlertRecord>, id: string): (r: Option<nat>)
    ensures r.Some? ==> r.value < |rs| && rs[r.value].id == id
    ensures r.Some? ==> forall k :: 0 <= k < r.value ==> rs[k].id != id
    ensures r.None? <==> forall k :: 0 <= k < |rs| ==> rs[k].id != id
  {
    if rs == [] then None
    else if rs[0].id == id then Some(0)
    else match FindId(rs[1..], id)
      case None => None
      case Some(i) => Some(i + 1)
  }

  /** The list without its first record carrying the id (unchanged when there is none). */
  function RemoveFirst(rs: seq<AlertRecord>, id: string): seq<AlertRecord>
  {
    match FindId(rs, id)
    case None => rs
    case Some(i) => rs[..i] + rs[i + 1..]
  }

  /**
   * Removing keeps the other records in their order and, on a list with unique ids,
   * leaves no record with that id and the ids unique.
   */
  lemma RemoveFirstKeepsOrder(rs: seq<AlertRecord>, id: string)
    ensures FindId(rs, id).None? ==> RemoveFirst(rs, id) == rs
    ensures FindId(rs, id).Some? ==> |RemoveFirst(rs, id)| == |rs| - 1
    ensures forall k :: 0 <= k < |RemoveFirst(rs, id)| ==>
      RemoveFirst(rs, id)[k] == rs[if FindId(rs, id).Some? && k >= FindId(rs, id).value then k + 1 else k]
    ensures UniqueIds(rs) ==> UniqueIds(RemoveFirst(rs, id)) && FindId(RemoveFirst(rs, id), id).None?
  {
    match FindId(rs, id)
    case None =>
    case Some(i) =>
      var r := RemoveFirst(rs, id);
      assert r == rs[..i] + rs[i + 1..];
      forall k | 0 <= k < |r|
        ensures r[k] == rs[if k >= i then k + 1 else k]
      {
        if k < i {
          assert r[k] == rs[..i][k];
        } else {
          assert r[k] == rs[i + 1..][k - i];
        }
      }
      if UniqueIds(rs) {
        forall a, b | 0 <= a < b < |r|
          ensures r[a].id != r[b].id
        {
          var a', b' := if a >= i then a + 1 else a, if b >= i then b + 1 else b;
          assert r[a] == rs[a'] && r[b] == rs[b'] && a' < b';
        }
        forall k | 0 <= k < |r|
          ensures r[k].id != id
        {
          var k' := if k >= i then k + 1 else k;
          assert r[k] == rs[k'] && k' != i;
          if k' < i {
            assert rs[k'].id != rs[i].id;
          } else {
            assert rs[i].id != rs[k'].id;
          }
        }
      }
  }

  /** Appending a record whose id is new keeps the ids unique. */
  lemma AppendKeepsUnique(rs: seq<AlertRecord>, r: AlertRecord)
    requires UniqueIds(rs) && FindId(rs, r.id).None?
    ensures UniqueIds(rs + [r])
  {
  }

  /** Adding an alert with a new id and then removing that id restores the list. */
  lemma RemoveUndoesAdd(rs: seq<AlertRecord>, a: Alert)
    requires FindId(rs, a.id).None?
    ensures RemoveFirst(rs + [Encode(a)], a.id) == rs
  {
    var rs' := rs + [Encode(a)];
    var f := FindId(rs', a.id);
    assert rs'[|rs|].id == a.id;
    assert f.Some?;
    assert forall k :: 0 <= k < |rs| ==> rs'[k] == rs[k];
    assert f.value == |rs|;
    assert rs'[..|rs|] == rs;
    assert rs'[|rs| + 1..] == [];
  }

  /** `AlertManager`: the store over the persisted blob. */
  class AlertStore {
    var stored: Blob

    constructor (persisted: Blob)
      ensures stored == persisted
    {
      stored := persisted;
    }

    /** The records as every operation reads them. */
    function Records(): seq<AlertRecord>
      reads this
    {
      RecordsOf(stored)
    }

    /** `count`: the number of stored records. */
    method Count() returns (n: int)
      ensures n == |Records()|
      ensures stored.Malformed? ==> n == 0
    {
      n := |Records()|;
    }

    /** `exists`: the first stored alert with the id, decoded, or none. */
    method Exists(id: string) returns (found: Option<Alert>)
      ensures found.None? <==> forall k :: 0 <= k < |Records()| ==> Records()[k].id != id
      ensures found.Some? ==>
        (FindId(Records(), id).Some? && found.value == Decode(Records()[FindId(Records(), id).value]))
    {
      var alerts := Records();
      var i := 0;
      while i < |alerts|
        invariant 0 <= i <= |alerts|
        invariant forall k :: 0 <= k < i ==> alerts[k].id != id
      {
        if alerts[i].id == id {
          return Some(Decode(alerts[i]));
        }
        i := i + 1;
      }
      return None;
    }

    /** `getAll`: every stored alert, decoded, in stored order. */
    method GetAll() returns (list: seq<Alert>)
      ensures |list| == |Records()|
      ensures forall k :: 0 <= k < |list| ==> list[k] == Decode(Records()[k])
    {
      list := [];
      var alerts := Records();
      var i := 0;
      while i < |alerts|
        invariant 0 <= i <= |alerts|
        invariant |list| == i
        invariant forall k :: 0 <= k < i ==> list[k] == Decode(alerts[k])
      {
        list := list + [Decode(alerts[i])];
        i := i + 1;
      }
    }

    /** `existAlertType`: some stored record carries exactly the type's name. */
    method ExistAlertType(t: AlertType) returns (b: bool)
      ensures b <==> exists k :: 0 <= k < |Records()| && Records()[k].typeName == TypeName(t)
    {
      var alerts := Records();
      var i := 0;
      while i < |alerts|
        invariant 0 <= i <= |alerts|
        invariant forall k :: 0 <= k < i ==> alerts[k].typeName != TypeName(t)
      {
        if alerts[i].typeName == TypeName(t) {
          return true;
        }
        i := i + 1;
      }
      return false;
    }

    /**
     * `add`: refused, with nothing written, when an alert with the id is stored;
     * otherwise appended at the end.
     */
    method Add(a: Alert) returns (added: bool)
      modifies this
      ensures added <==> FindId(old(Records()), a.id).None?
      ensures added ==> stored == Parsed(old(Records()) + [Encode(a)])
      ensures !added ==> stored == old(stored)
      ensures UniqueIds(old(Records())) ==> UniqueIds(Records())
    {
      var existing := Exists(a.id);
      if existing.Some? {
        return false;
      }
      var alerts := Records();
      AppendUniqueWhenNew(alerts, Encode(a));
      stored := Parsed(alerts + [Encode(a)]);
      return true;
    }

    /**
     * `remove`: writes the list without the first record carrying the id and reports
     * true; reports false, with nothing written, when no record carries it.
     */
    method Remove(id: string) returns (removed: bool)
      modifies this
      ensures removed <==> FindId(old(Records()), id).Some?
      ensures removed ==> stored == Parsed(RemoveFirst(old(Records()), id))
      ensures !removed ==> stored == old(stored)
    {
      var alerts := Records();
      var i := 0;
      while i < |alerts|
        invariant 0 <= i <= |alerts|
        invariant forall k :: 0 <= k < i ==> alerts[k].id != id
      {
        if alerts[i].id == id {
          var newAlerts := [];
          var j := 0;
          while j < |alerts|
            invariant 0 <= j <= |alerts|
            invariant j <= i ==> newAlerts == alerts[..j]
            invariant j > i ==> newAlerts == alerts[..i] + alerts[i + 1..j]
          {
            if j != i {
              newAlerts := newAlerts + [alerts[j]];
            }
            j := j + 1;
          }
          assert FindId(alerts, id) == Some(i);
          stored := Parsed(newAlerts);
          return true;
        }
        i := i + 1;
      }
      return false;
    }

    /** `clearAll`: an empty list is written and the call reports success. */
    method ClearAll() returns (ok: bool)
      modifies this
      ensures ok && stored == Parsed([]) && Records() == []
    {
      stored := Parsed([]);
      return true;
    }
  }

  lemma AppendUniqueWhenNew(rs: seq<AlertRecord>, r: AlertRecord)
    ensures UniqueIds(rs) && FindId(rs, r.id).None? ==> UniqueIds(rs + [r])
  {
    if UniqueIds(rs) && FindId(rs, r.id).None? {
      AppendKeepsUnique(rs, r);
    }
  }
}
