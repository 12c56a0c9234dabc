/**
 * The per-zone statuses of a weather update, kept in a map indexed uniquely by
 * zone. The map iterates in insertion order (entries are never removed), so it
 * is modelled as a sequence of entries with distinct zones.
 */
module LocationStatuses {
  import opened Wrappers
  import opened JsonValues
  import opened Model
  import opened UpdateStatus

  datatype LocationStatus = LocationStatus(zone: LocationZoneCode, status: LocationUpdateStatus)

  /** A zone that has just been added to an update: no step done yet. */
  function NewLocationStatus(zone: LocationZoneCode): (ls: LocationStatus)
    ensures ls.zone == zone
    ensures ls.status == InProgress({}) && ls.status.IsActive()
    ensures forall step :: !ls.status.Contains(step)
  {
    LocationStatus(zone, Default)
  }

  /** The zone index is unique: no two entries share a zone. */
  predicate UniqueZones(m: seq<LocationStatus>)
  {
    forall i, j :: 0 <= i < j < |m| ==> m[i].zone != m[j].zone
  }

  /** Every status in the map can be reached by advancing from the default. */
  predicate AllReachable(m: seq<LocationStatus>)
  {
    forall i :: 0 <= i < |m| ==> m[i].status.Reachable()
  }

  function ZonesOf(m: seq<LocationStatus>): set<LocationZoneCode>
  {
    set i | 0 <= i < |m| :: m[i].zone
  }

  /** Looks up the entry of a zone. */
  function GetByZone(m: seq<LocationStatus>, zone: LocationZoneCode): (r: Option<LocationStatus>)
    ensures r.Some? <==> zone in ZonesOf(m)
    ensures r.Some? ==> r.value.zone == zone && r.value in m
    ensures r.Some? && UniqueZones(m) ==> forall i :: 0 <= i < |m| && m[i].zone == zone ==> m[i] == r.value
    decreases |m|
  {
    if |m| == 0 then None
    else if m[0].zone == zone then Some(m[0])
    else
      var rest := GetByZone(m[1..], zone);
      assert ZonesOf(m) == {m[0].zone} + ZonesOf(m[1..]) by {
        forall z | z in ZonesOf(m) ensures z in {m[0].zone} + ZonesOf(m[1..]) {
          var i :| 0 <= i < |m| && m[i].zone == z;
          if i > 0 { assert m[1..][i - 1].zone == z; }
        }
        forall z | z in ZonesOf(m[1..]) ensures z in ZonesOf(m) {
          var i :| 0 <= i < |m[1..]| && m[1..][i].zone == z;
          assert m[i + 1].zone == z;
        }
      }
      rest
  }

  /** Adds an entry for a zone that has none yet; it becomes the last in iteration order. */
  function Insert(m: seq<LocationStatus>, ls: LocationStatus): (r: seq<LocationStatus>)
    requires ls.zone !in ZonesOf(m)
    ensures UniqueZones(m) ==> UniqueZones(r)
    ensures ZonesOf(r) == ZonesOf(m) + {ls.zone}
    ensures |r| == |m| + 1 && r[..|m|] == m && r[|m|] == ls
  {
    var r := m + [ls];
    assert ZonesOf(r) == ZonesOf(m) + {ls.zone} by {
      forall z | z in ZonesOf(r) ensures z in ZonesOf(m) + {ls.zone} {
        var i :| 0 <= i < |r| && r[i].zone == z;
        if i < |m| { assert m[i].zone == z; }
      }
      forall z | z in ZonesOf(m) ensures z in ZonesOf(r) {
        var i :| 0 <= i < |m| && m[i].zone == z;
        assert r[i].zone == z;
      }
      assert r[|m|].zone == ls.zone;
    }
    r
  }

  /** Replaces the status of a zone's entry in place, keeping the order. */
  function SetStatusByZone(m: seq<LocationStatus>, zone: LocationZoneCode, status: LocationUpdateStatus): (r: seq<LocationStatus>)
    ensures |r| == |m|
    ensures forall i :: 0 <= i < |m| ==> r[i].zone == m[i].zone
    ensures forall i :: 0 <= i < |m| ==> r[i].status == if m[i].zone == zone then status else m[i].status
    ensures ZonesOf(r) == ZonesOf(m)
    ensures UniqueZones(m) ==> UniqueZones(r)
  {
    var r := seq(|m|, i requires 0 <= i < |m| => if m[i].zone == zone then LocationStatus(zone, status) else m[i]);
    assert ZonesOf(r) == ZonesOf(m) by {
      forall z | z in ZonesOf(r) ensures z in ZonesOf(m) {
        var i :| 0 <= i < |r| && r[i].zone == z;
        assert m[i].zone == z;
      }
      forall z | z in ZonesOf(m) ensures z in ZonesOf(r) {
        var i :| 0 <= i < |m| && m[i].zone == z;
        assert r[i].zone == z;
      }
    }
    r
  }

  /** After replacing a zone's status, looking the zone up finds the new status and no other zone changes. */
  lemma SetStatusLookup(m: seq<LocationStatus>, zone: LocationZoneCode, status: LocationUpdateStatus, other: LocationZoneCode)
    requires UniqueZones(m) && zone in ZonesOf(m)
    ensures GetByZone(SetStatusByZone(m, zone, status), zone) == Some(LocationStatus(zone, status))
    ensures other != zone ==> GetByZone(SetStatusByZone(m, zone, status), other) == GetByZone(m, other)
  {
    var r := SetStatusByZone(m, zone, status);
    var i :| 0 <= i < |m| && m[i].zone == zone;
    assert r[i].zone == zone;
    if other in ZonesOf(m) {
      var k :| 0 <= k < |m| && m[k].zone == other;
      assert r[k].zone == other;
    }
  }

  /** An inserted entry is found by its zone, and every other lookup is unchanged. */
  lemma InsertLookup(m: seq<LocationStatus>, ls: LocationStatus, other: LocationZoneCode)
    requires UniqueZones(m) && ls.zone !in ZonesOf(m)
    ensures GetByZone(Insert(m, ls), ls.zone) == Some(ls)
    ensures other != ls.zone ==> GetByZone(Insert(m, ls), other) == GetByZone(m, other)
  {
    var r := Insert(m, ls);
    assert r[|m|].zone == ls.zone;
    if other in ZonesOf(m) {
      var k :| 0 <= k < |m| && m[k].zone == other;
      assert r[k].zone == other;
    }
  }

  // ---------------------------------------------------------------------------
  // Equality

  /**
   * Map equality: maps of different lengths differ; otherwise the entries are
   * compared pairwise in iteration order.
   */
  method Equals(lhs: seq<LocationStatus>, rhs: seq<LocationStatus>) returns (eq: bool)
    ensures |lhs| != |rhs| ==> !eq
    ensures eq <==> lhs == rhs
  {
    if |lhs| != |rhs| {
      return false;
    }
    var i := 0;
    while i < |lhs|
      invariant 0 <= i <= |lhs|
      invariant lhs[..i] == rhs[..i]
    {
      if lhs[i] != rhs[i] {
        return false;
      }
      assert lhs[..i + 1] == lhs[..i] + [lhs[i]];
      assert rhs[..i + 1] == rhs[..i] + [rhs[i]];
      i := i + 1;
    }
    assert lhs[..i] == lhs && rhs[..i] == rhs;
    eq := true;
  }

  // ---------------------------------------------------------------------------
  // Map form: {"<zone>": <status map form>, ...}

  /** The JSON object of a status map: one zone-to-status entry per element, in order. */
  function Encode(m: seq<LocationStatus>): (j: Json)
    ensures j.JObject? && |j.entries| == |m|
    ensures forall i :: 0 <= i < |m| ==> j.entries[i] == (m[i].zone.code, Serialize(m[i].status))
  {
    JObject(seq(|m|, i requires 0 <= i < |m| => (m[i].zone.code, Serialize(m[i].status))))
  }

  /** Writes the map, one entry per element in iteration order. */
  method SerializeMap(m: seq<LocationStatus>) returns (j: Json)
    ensures j == Encode(m)
  {
    var entries: seq<(string, Json)> := [];
    var i := 0;
    while i < |m|
      invariant 0 <= i <= |m|
      invariant |entries| == i
      invariant forall k :: 0 <= k < i ==> entries[k] == (m[k].zone.code, Serialize(m[k].status))
    {
      entries := entries + [(m[i].zone.code, Serialize(m[i].status))];
      i := i + 1;
    }
    j := JObject(entries);
  }

  /**
   * Reads the entries one by one into the map. A repeated zone violates the
   * unique index; the map library gives up there, and the model reports it as
   * `DuplicateKey`.
   */
  function DecodeEntries(m: seq<LocationStatus>, entries: seq<(string, Json)>): (r: Result<seq<LocationStatus>, DecodeError>)
    requires UniqueZones(m)
    ensures r.Ok? ==> UniqueZones(r.value) && |r.value| == |m| + |entries| && r.value[..|m|] == m
    decreases |entries|
  {
    if |entries| == 0 then Ok(m)
    else
      var zone := LocationZoneCode(entries[0].0);
      match UpdateStatus.Decode(entries[0].1)
      case Err(e) => Err(e)
      case Ok(status) =>
        if zone in ZonesOf(m) then Err(DuplicateKey(zone.code))
        else
          var next := Insert(m, LocationStatus(zone, status));
          match DecodeEntries(next, entries[1..])
          case Err(e) => Err(e)
          case Ok(done) => Ok(done)
  }

  /** Reads a status map from its JSON object. */
  function DecodeMap(j: Json): Result<seq<LocationStatus>, DecodeError>
  {
    if !j.JObject? then Err(InvalidType("map")) else DecodeEntries([], j.entries)
  }

  /** The map visitor: inserts one entry per zone-to-status pair read. */
  method DeserializeMap(j: Json) returns (r: Result<seq<LocationStatus>, DecodeError>)
    ensures r == DecodeMap(j)
  {
    if !j.JObject? {
      return Err(InvalidType("map"));
    }
    var m: seq<LocationStatus> := [];
    var i := 0;
    while i < |j.entries|
      invariant 0 <= i <= |j.entries|
      invariant UniqueZones(m)
      invariant DecodeEntries([], j.entries) == DecodeEntries(m, j.entries[i..])
    {
      assert j.entries[i..][1..] == j.entries[i + 1..];
      var zone := LocationZoneCode(j.entries[i].0);
      var status := UpdateStatus.Deserialize(j.entries[i].1);
      if status.Err? {
        return Err(status.error);
      }
      if zone in ZonesOf(m) {
        return Err(DuplicateKey(zone.code));
      }
      m := Insert(m, LocationStatus(zone, status.value));
      i := i + 1;
    }
    r := Ok(m);
  }

  /**
   * Reading back the map form of a map with unique zones and reachable
   * statuses gives the same entries in the same order.
   */
  lemma {:induction false} RoundTripFrom(prefix: seq<LocationStatus>, m: seq<LocationStatus>)
    requires UniqueZones(prefix + m) && AllReachable(m)
    ensures UniqueZones(prefix)
    ensures DecodeEntries(prefix, Encode(m).entries) == Ok(prefix + m)
    decreases |m|
  {
    assert UniqueZones(prefix) by {
      forall i, j | 0 <= i < j < |prefix| ensures prefix[i].zone != prefix[j].zone {
        assert (prefix + m)[i] == prefix[i] && (prefix + m)[j] == prefix[j];
      }
    }
    var entries := Encode(m).entries;
    if |m| == 0 {
      assert prefix + m == prefix;
    } else {
      RoundTrip(m[0].status);
      var zone := m[0].zone;
      assert LocationZoneCode(entries[0].0) == zone;
      assert zone !in ZonesOf(prefix) by {
        forall i | 0 <= i < |prefix| ensures prefix[i].zone != zone {
          assert (prefix + m)[i] == prefix[i] && (prefix + m)[|prefix|] == m[0];
        }
      }
      var next := Insert(prefix, m[0]);
      assert next + m[1..] == prefix + m;
      assert entries[1..] == Encode(m[1..]).entries;
      RoundTripFrom(next, m[1..]);
    }
  }

  lemma RoundTripMap(m: seq<LocationStatus>)
    requires UniqueZones(m) && AllReachable(m)
    ensures DecodeMap(Encode(m)) == Ok(m)
  {
    assert [] + m == m;
    RoundTripFrom([], m);
  }

  /** Whatever is read back has unique zones and only reachable statuses. */
  lemma {:induction false} DecodedEntriesReachable(m: seq<LocationStatus>, entries: seq<(string, Json)>)
    requires UniqueZones(m) && AllReachable(m)
    ensures DecodeEntries(m, entries).Ok? ==> AllReachable(DecodeEntries(m, entries).value)
    decreases |entries|
  {
    if |entries| > 0 {
      DecodedIsReachable(entries[0].1);
      var zone := LocationZoneCode(entries[0].0);
      var status := UpdateStatus.Decode(entries[0].1);
      if status.Ok? && zone !in ZonesOf(m) {
        DecodedEntriesReachable(Insert(m, LocationStatus(zone, status.value)), entries[1..]);
      }
    }
  }
}
