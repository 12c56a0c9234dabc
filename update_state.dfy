/**
 * The state of one weather update (a saga over many location zones): quiescent
 * until it starts, active while zones are being updated, finished once every
 * zone has completed and the alerts have been reviewed.
 *
 * The meaning of each transition is a pure function over `StatusValue` (the
 * per-zone statuses and the alerts flag); the classes `WeatherUpdateStatus`
 * and `UpdateWeather` update their fields in place and are proved to follow
 * those functions.
 */
module UpdateState {
  import opened Wrappers
  import opened Model
  import opened UpdateStatus
  import opened LocationStatuses
  import opened Weather

  /** The phase of an update by name, as stored by the read model. */
  datatype Discriminant = Quiescent | Active | Finished

  function DiscriminantName(d: Discriminant): string
  {
    match d
    case Quiescent => "Quiescent"
    case Active => "Active"
    case Finished => "Finished"
  }

  /** Reads a phase name; only the exact names are accepted. */
  function ParseDiscriminant(s: string): (r: Option<Discriminant>)
    ensures r.Some? ==> DiscriminantName(r.value) == s
    ensures forall d :: DiscriminantName(d) == s ==> r == Some(d)
  {
    if s == "Quiescent" then Some(Quiescent)
    else if s == "Active" then Some(Active)
    else if s == "Finished" then Some(Finished)
    else None
  }

  predicate DistinctZones(zones: seq<LocationZoneCode>)
  {
    forall i, j :: 0 <= i < j < |zones| ==> zones[i] != zones[j]
  }

  // ---------------------------------------------------------------------------
  // The status of an active update, as a value

  datatype StatusValue = StatusValue(locationStatuses: seq<LocationStatus>, alertsReviewed: bool)

  /** Zones are unique in the map and every status is reachable by advancing. */
  predicate ValidStatus(v: StatusValue)
  {
    UniqueZones(v.locationStatuses) && AllReachable(v.locationStatuses)
  }

  /** The statuses of a just-started update: every zone at its default status. */
  function InitialStatuses(zones: seq<LocationZoneCode>): (m: seq<LocationStatus>)
    ensures |m| == |zones|
    ensures forall i :: 0 <= i < |zones| ==> m[i] == NewLocationStatus(zones[i])
  {
    seq(|zones|, i requires 0 <= i < |zones| => NewLocationStatus(zones[i]))
  }

  /** The status of a zone, if the update tracks it. */
  function StatusOf(m: seq<LocationStatus>, zone: LocationZoneCode): (r: Option<LocationUpdateStatus>)
    ensures r.Some? <==> zone in ZonesOf(m)
    ensures r.Some? && UniqueZones(m) ==>
      forall i :: 0 <= i < |m| && m[i].zone == zone ==> m[i].status == r.value
  {
    match GetByZone(m, zone)
    case None => None
    case Some(ls) => Some(ls.status)
  }

  function ActiveZonesOf(m: seq<LocationStatus>): set<LocationZoneCode>
  {
    set i | 0 <= i < |m| && m[i].status.InProgress? :: m[i].zone
  }

  function SucceededZonesOf(m: seq<LocationStatus>): set<LocationZoneCode>
  {
    set i | 0 <= i < |m| && m[i].status == Succeeded :: m[i].zone
  }

  function FailedZonesOf(m: seq<LocationStatus>): set<LocationZoneCode>
  {
    set i | 0 <= i < |m| && m[i].status == Failed :: m[i].zone
  }

  /** The zone is tracked and active, and every other zone has completed. */
  predicate OnlyActiveZone(m: seq<LocationStatus>, zone: LocationZoneCode)
  {
    var entry := GetByZone(m, zone);
    (entry.Some? && entry.value.status.IsActive())
    && forall i :: 0 <= i < |m| && m[i].zone != zone ==> m[i].status.IsCompleted()
  }

  /** The new status of an update after an event, and the phase it asks for. */
  datatype Outcome = Outcome(status: StatusValue, next: Discriminant)

  /**
   * Makes sure a zone is tracked before a step is recorded for it: an unknown
   * zone is added at its default status; a zone that has already completed
   * asks for the update to finish.
   */
  function PrepZoneOutcome(v: StatusValue, zone: LocationZoneCode): (r: (StatusValue, Option<Discriminant>))
    requires UniqueZones(v.locationStatuses)
    ensures UniqueZones(r.0.locationStatuses)
    ensures r.1.None? ==> GetByZone(r.0.locationStatuses, zone).Some?
    ensures r.1 == None || r.1 == Some(Finished)
    ensures r.0.alertsReviewed == v.alertsReviewed
  {
    match StatusOf(v.locationStatuses, zone)
    case None =>
      var ls := NewLocationStatus(zone);
      InsertLookup(v.locationStatuses, ls, zone);
      (v.(locationStatuses := Insert(v.locationStatuses, ls)), None)
    case Some(status) =>
      if status.IsCompleted() then (v, Some(Finished)) else (v, None)
  }

  /**
   * Records a completed step for a zone. The update finishes when the alerts
   * have been reviewed, the zone was the only active one, and the step
   * completes it.
   */
  function StepOutcome(v: StatusValue, zone: LocationZoneCode, step: UpdateStep): (r: Outcome)
    requires UniqueZones(v.locationStatuses)
    ensures UniqueZones(r.status.locationStatuses)
    ensures r.next != Quiescent && r.status.alertsReviewed == v.alertsReviewed
  {
    var prepped := PrepZoneOutcome(v, zone);
    var p := prepped.0;
    if prepped.1.Some? then Outcome(p, prepped.1.value)
    else
      var only := OnlyActiveZone(p.locationStatuses, zone);
      var advanced := GetByZone(p.locationStatuses, zone).value.status.Advance(step);
      var next := p.(locationStatuses := SetStatusByZone(p.locationStatuses, zone, advanced));
      Outcome(next, if p.alertsReviewed && only && advanced.IsCompleted() then Finished else Active)
  }

  /**
   * Records that a zone failed. The update finishes when the alerts have been
   * reviewed and the zone was the only active one.
   */
  function FailureOutcome(v: StatusValue, zone: LocationZoneCode): (r: Outcome)
    requires UniqueZones(v.locationStatuses)
    ensures UniqueZones(r.status.locationStatuses)
    ensures r.next != Quiescent && r.status.alertsReviewed == v.alertsReviewed
  {
    var prepped := PrepZoneOutcome(v, zone);
    var p := prepped.0;
    if prepped.1.Some? then Outcome(p, prepped.1.value)
    else
      var only := OnlyActiveZone(p.locationStatuses, zone);
      var next := p.(locationStatuses := SetStatusByZone(p.locationStatuses, zone, Failed));
      Outcome(next, if p.alertsReviewed && only then Finished else Active)
  }

  /** How an active update reacts to an event. */
  function MutateOutcome(v: StatusValue, e: WeatherEvent): (r: Outcome)
    requires UniqueZones(v.locationStatuses)
    ensures UniqueZones(r.status.locationStatuses)
  {
    match e
    case ObservationUpdated(zone, _, _) => StepOutcome(v, zone, Observation)
    case ForecastUpdated(zone, _, _) => StepOutcome(v, zone, UpdateStep.Forecast)
    case AlertActivated(zone, _, _) => StepOutcome(v, zone, Alert)
    case AlertDeactivated(zone, _) => StepOutcome(v, zone, Alert)
    case AlertsReviewed(_) =>
      Outcome(v.(alertsReviewed := true), if ActiveZonesOf(v.locationStatuses) == {} then Finished else Active)
    case UpdateLocationFailed(_, zone, _) => FailureOutcome(v, zone)
    case UpdateStarted(_, _) => Outcome(v, Active)
  }

  // ---------------------------------------------------------------------------
  // Facts about zone sets

  lemma InitialStatusesValid(zones: seq<LocationZoneCode>)
    requires DistinctZones(zones)
    ensures ValidStatus(StatusValue(InitialStatuses(zones), false))
    ensures ZonesOf(InitialStatuses(zones)) == set z | z in zones
    ensures ActiveZonesOf(InitialStatuses(zones)) == set z | z in zones
  {
    var m := InitialStatuses(zones);
    forall z | z in zones ensures z in ZonesOf(m) && z in ActiveZonesOf(m) {
      var i :| 0 <= i < |zones| && zones[i] == z;
      assert m[i].zone == z;
    }
  }

  /** The active, succeeded and failed zones partition the tracked zones. */
  lemma ZonesPartition(m: seq<LocationStatus>)
    requires UniqueZones(m)
    ensures ActiveZonesOf(m) !! SucceededZonesOf(m)
    ensures ActiveZonesOf(m) !! FailedZonesOf(m)
    ensures SucceededZonesOf(m) !! FailedZonesOf(m)
    ensures ActiveZonesOf(m) + SucceededZonesOf(m) + FailedZonesOf(m) == ZonesOf(m)
  {
    forall z | z in ZonesOf(m) ensures z in ActiveZonesOf(m) + SucceededZonesOf(m) + FailedZonesOf(m) {
      var i :| 0 <= i < |m| && m[i].zone == z;
      match m[i].status
      case InProgress(_) => assert z in ActiveZonesOf(m);
      case Succeeded => assert z in SucceededZonesOf(m);
      case Failed => assert z in FailedZonesOf(m);
    }
    forall z | z in ActiveZonesOf(m) + SucceededZonesOf(m) + FailedZonesOf(m) ensures z in ZonesOf(m) {
    }
  }

  /** On a valid map, a zone is active exactly when its status says so. */
  lemma ActiveMembership(m: seq<LocationStatus>, zone: LocationZoneCode)
    requires UniqueZones(m) && AllReachable(m)
    ensures zone in ActiveZonesOf(m) <==> StatusOf(m, zone).Some? && StatusOf(m, zone).value.IsActive()
    ensures zone in ActiveZonesOf(m) <==> StatusOf(m, zone).Some? && StatusOf(m, zone).value.InProgress?
  {
    if zone in ActiveZonesOf(m) {
      var i :| 0 <= i < |m| && m[i].status.InProgress? && m[i].zone == zone;
      assert m[i].zone in ZonesOf(m);
    }
    if StatusOf(m, zone).Some? {
      var i :| 0 <= i < |m| && m[i].zone == zone;
      assert m[i].status.Reachable();
    }
  }

  lemma ActiveHoldsInProgressZones(m: seq<LocationStatus>)
    ensures forall i :: 0 <= i < |m| && m[i].status.InProgress? ==> m[i].zone in ActiveZonesOf(m)
  {
  }

  /** The zone is the only active one exactly when the active zones are just it. */
  lemma OnlyActiveIffSole(m: seq<LocationStatus>, zone: LocationZoneCode)
    requires UniqueZones(m) && AllReachable(m)
    ensures OnlyActiveZone(m, zone) <==> ActiveZonesOf(m) == {zone}
  {
    ActiveMembership(m, zone);
    if OnlyActiveZone(m, zone) {
      forall z | z in ActiveZonesOf(m) ensures z == zone {
        var i :| 0 <= i < |m| && m[i].status.InProgress? && m[i].zone == z;
        assert m[i].status.Reachable();
      }
    }
    if ActiveZonesOf(m) == {zone} {
      ActiveHoldsInProgressZones(m);
    }
  }

  lemma ActiveAfterSet(m: seq<LocationStatus>, zone: LocationZoneCode, s: LocationUpdateStatus)
    requires zone in ZonesOf(m)
    ensures ActiveZonesOf(SetStatusByZone(m, zone, s))
            == (ActiveZonesOf(m) - {zone}) + (if s.InProgress? then {zone} else {})
  {
    var r := SetStatusByZone(m, zone, s);
    forall z | z in ActiveZonesOf(r) ensures z in (ActiveZonesOf(m) - {zone}) + (if s.InProgress? then {zone} else {}) {
      var i :| 0 <= i < |r| && r[i].status.InProgress? && r[i].zone == z;
      if m[i].zone != zone {
        assert m[i].zone in ActiveZonesOf(m);
      }
    }
    forall z | z in (ActiveZonesOf(m) - {zone}) + (if s.InProgress? then {zone} else {}) ensures z in ActiveZonesOf(r) {
      if z == zone {
        var i :| 0 <= i < |m| && m[i].zone == zone;
        assert r[i].zone in ActiveZonesOf(r);
      } else {
        var i :| 0 <= i < |m| && m[i].status.InProgress? && m[i].zone == z;
        assert r[i].zone in ActiveZonesOf(r);
      }
    }
  }

  lemma ActiveAfterInsert(m: seq<LocationStatus>, ls: LocationStatus)
    requires ls.zone !in ZonesOf(m)
    ensures ActiveZonesOf(Insert(m, ls)) == ActiveZonesOf(m) + (if ls.status.InProgress? then {ls.zone} else {})
  {
    var r := Insert(m, ls);
    forall z | z in ActiveZonesOf(r) ensures z in ActiveZonesOf(m) + (if ls.status.InProgress? then {ls.zone} else {}) {
      var i :| 0 <= i < |r| && r[i].status.InProgress? && r[i].zone == z;
      if i < |m| {
        assert r[i] == m[i];
        assert m[i].zone in ActiveZonesOf(m);
      }
    }
    forall z | z in ActiveZonesOf(m) ensures z in ActiveZonesOf(r) {
      var i :| 0 <= i < |m| && m[i].status.InProgress? && m[i].zone == z;
      assert r[i] == m[i];
      assert r[i].zone in ActiveZonesOf(r);
    }
    if ls.status.InProgress? {
      assert r[|m|].zone in ActiveZonesOf(r);
    }
  }

  lemma InsertKeepsReachable(m: seq<LocationStatus>, ls: LocationStatus)
    requires ls.zone !in ZonesOf(m) && AllReachable(m) && ls.status.Reachable()
    ensures AllReachable(Insert(m, ls))
  {
    var r := Insert(m, ls);
    forall i | 0 <= i < |r| ensures r[i].status.Reachable() {
      if i < |m| {
        assert r[i] == r[..|m|][i];
      }
    }
  }

  /** What preparing a zone does to a valid status. */
  lemma PrepZoneFacts(v: StatusValue, zone: LocationZoneCode)
    requires ValidStatus(v)
    ensures var r := PrepZoneOutcome(v, zone);
      && ValidStatus(r.0)
      && r.0.alertsReviewed == v.alertsReviewed
      && ZonesOf(r.0.locationStatuses) == ZonesOf(v.locationStatuses) + {zone}
      && (r.1.Some? <==> StatusOf(v.locationStatuses, zone).Some? && StatusOf(v.locationStatuses, zone).value.IsCompleted())
      && (r.1.Some? ==> r == (v, Some(Finished)))
      && (r.1.None? ==> StatusOf(r.0.locationStatuses, zone).Some? && StatusOf(r.0.locationStatuses, zone).value.InProgress?)
      && (r.1.None? ==> ActiveZonesOf(r.0.locationStatuses) == ActiveZonesOf(v.locationStatuses) + {zone})
      && (forall other :: other != zone ==> StatusOf(r.0.locationStatuses, other) == StatusOf(v.locationStatuses, other))
  {
    PrepZoneStatus(v, zone);
    PrepZoneValid(v, zone);
    PrepZoneOthers(v, zone);
    var r := PrepZoneOutcome(v, zone);
    if r.1.None? {
      ActiveMembership(r.0.locationStatuses, zone);
    }
  }

  /** Preparing a zone adds it to the tracked zones and leaves every other zone, and the other active zones, as they were. */
  lemma PrepZoneOthers(v: StatusValue, zone: LocationZoneCode)
    requires ValidStatus(v)
    ensures var r := PrepZoneOutcome(v, zone);
      && ZonesOf(r.0.locationStatuses) == ZonesOf(v.locationStatuses) + {zone}
      && (r.1.None? ==> ActiveZonesOf(r.0.locationStatuses) == ActiveZonesOf(v.locationStatuses) + {zone})
      && (forall other :: other != zone ==> StatusOf(r.0.locationStatuses, other) == StatusOf(v.locationStatuses, other))
  {
    var m := v.locationStatuses;
    var r := PrepZoneOutcome(v, zone);
    match StatusOf(m, zone)
    case None =>
      var ls := NewLocationStatus(zone);
      ActiveAfterInsert(m, ls);
      InsertOthers(m, ls);
    case Some(status) =>
      ActiveMembership(m, zone);
      assert ZonesOf(m) + {zone} == ZonesOf(m);
      if !status.IsCompleted() {
        assert zone in ActiveZonesOf(m);
        assert ActiveZonesOf(m) + {zone} == ActiveZonesOf(m);
      }
  }

  /** After an untracked zone is inserted, lookups of every other zone are unchanged. */
  lemma InsertOthers(m: seq<LocationStatus>, ls: LocationStatus)
    requires UniqueZones(m) && ls.zone !in ZonesOf(m)
    ensures forall other :: other != ls.zone ==> StatusOf(Insert(m, ls), other) == StatusOf(m, other)
  {
    forall other | other != ls.zone ensures StatusOf(Insert(m, ls), other) == StatusOf(m, other) {
      InsertLookup(m, ls, other);
    }
  }

  /** After a zone's status is replaced, lookups of every other zone are unchanged. */
  lemma SetStatusOthers(m: seq<LocationStatus>, zone: LocationZoneCode, s: LocationUpdateStatus)
    requires UniqueZones(m) && zone in ZonesOf(m)
    ensures StatusOf(SetStatusByZone(m, zone, s), zone) == Some(s)
    ensures forall other :: other != zone ==> StatusOf(SetStatusByZone(m, zone, s), other) == StatusOf(m, other)
  {
    SetStatusLookup(m, zone, s, zone);
    forall other | other != zone ensures StatusOf(SetStatusByZone(m, zone, s), other) == StatusOf(m, other) {
      SetStatusLookup(m, zone, s, other);
    }
  }

  // ---------------------------------------------------------------------------
  // Properties of the transitions

  /**
   * Advancing an in-progress zone of a valid status: the result stays valid,
   * and the active zones lose the zone unless it is still in progress.
   */
  lemma AdvanceInPlace(p: StatusValue, zone: LocationZoneCode, step: UpdateStep)
    requires ValidStatus(p)
    requires zone in ActiveZonesOf(p.locationStatuses)
    ensures var advanced := GetByZone(p.locationStatuses, zone).value.status.Advance(step);
      var nm := SetStatusByZone(p.locationStatuses, zone, advanced);
      && advanced == StatusOf(p.locationStatuses, zone).value.Advance(step)
      && AllReachable(nm)
      && (advanced.IsCompleted() <==> !advanced.InProgress?)
      && ActiveZonesOf(nm) == (ActiveZonesOf(p.locationStatuses) - {zone}) + (if advanced.InProgress? then {zone} else {})
  {
    var pm := p.locationStatuses;
    ActiveMembership(pm, zone);
    var cur := StatusOf(pm, zone).value;
    assert cur.Reachable() by {
      var i :| 0 <= i < |pm| && pm[i].zone == zone;
      assert pm[i].status.Reachable();
    }
    var advanced := cur.Advance(step);
    AdvancePreservesReachable(cur, step);
    ActiveAfterSet(pm, zone, advanced);
  }

  /** Recording a step keeps a status valid and touches no other zone. */
  lemma StepKeepsValid(v: StatusValue, zone: LocationZoneCode, step: UpdateStep)
    requires ValidStatus(v)
    ensures var r := StepOutcome(v, zone, step);
      && ValidStatus(r.status)
      && r.status.alertsReviewed == v.alertsReviewed
      && ZonesOf(r.status.locationStatuses) == ZonesOf(v.locationStatuses) + {zone}
      && (forall other :: other != zone ==> StatusOf(r.status.locationStatuses, other) == StatusOf(v.locationStatuses, other))
  {
    PrepZoneValid(v, zone);
    PrepZoneOthers(v, zone);
    var prepped := PrepZoneOutcome(v, zone);
    if prepped.1.None? {
      var pm := prepped.0.locationStatuses;
      AdvanceInPlace(prepped.0, zone, step);
      SetStatusOthers(pm, zone, GetByZone(pm, zone).value.status.Advance(step));
    }
  }

  /** What preparing does to the prepared zone's own status. */
  lemma PrepZoneStatus(v: StatusValue, zone: LocationZoneCode)
    requires UniqueZones(v.locationStatuses)
    ensures var r := PrepZoneOutcome(v, zone);
      var before := StatusOf(v.locationStatuses, zone);
      && (r.1.Some? <==> before.Some? && before.value.IsCompleted())
      && (r.1.Some? ==> r == (v, Some(Finished)))
      && (r.1.None? ==> StatusOf(r.0.locationStatuses, zone) == Some(if before.Some? then before.value else Default))
  {
    if StatusOf(v.locationStatuses, zone).None? {
      InsertLookup(v.locationStatuses, NewLocationStatus(zone), zone);
    }
  }

  /** Preparing a zone keeps a status valid. */
  lemma PrepZoneValid(v: StatusValue, zone: LocationZoneCode)
    requires ValidStatus(v)
    ensures ValidStatus(PrepZoneOutcome(v, zone).0)
  {
    if StatusOf(v.locationStatuses, zone).None? {
      InsertKeepsReachable(v.locationStatuses, NewLocationStatus(zone));
    }
  }

  /** What recording a step does to the zone itself. */
  lemma StepOnZone(v: StatusValue, zone: LocationZoneCode, step: UpdateStep)
    requires ValidStatus(v)
    ensures var r := StepOutcome(v, zone, step);
      var before := StatusOf(v.locationStatuses, zone);
      && (before.Some? && before.value.IsCompleted() ==> r == Outcome(v, Finished))
      && (before.Some? && !before.value.IsCompleted() ==>
            StatusOf(r.status.locationStatuses, zone) == Some(before.value.Advance(step)))
      && (before.None? ==> StatusOf(r.status.locationStatuses, zone) == Some(Default.Advance(step)) && r.next == Active)
  {
    PrepZoneStatus(v, zone);
    var prepped := PrepZoneOutcome(v, zone);
    if prepped.1.None? {
      var pm := prepped.0.locationStatuses;
      var current := GetByZone(pm, zone).value.status;
      assert Some(current) == StatusOf(pm, zone);
      var advanced := current.Advance(step);
      SetStatusLookup(pm, zone, advanced, zone);
      assert StepOutcome(v, zone, step).status.locationStatuses == SetStatusByZone(pm, zone, advanced);
      if StatusOf(v.locationStatuses, zone).None? {
        DefaultAdvanceInProgress(step);
      }
    }
  }

  /** One step from the default status never completes a zone. */
  lemma DefaultAdvanceInProgress(step: UpdateStep)
    ensures Default.Advance(step) == InProgress({step})
    ensures !Default.Advance(step).IsCompleted()
  {
    assert {} + {step} == {step};
  }

  /**
   * Recording a step for a zone that has not completed finishes the update
   * exactly when the alerts have been reviewed and no zone is left in progress.
   */
  lemma StepFinishes(v: StatusValue, zone: LocationZoneCode, step: UpdateStep)
    requires ValidStatus(v)
    requires !(StatusOf(v.locationStatuses, zone).Some? && StatusOf(v.locationStatuses, zone).value.IsCompleted())
    ensures var r := StepOutcome(v, zone, step);
      r.next == Finished <==> r.status.alertsReviewed && ActiveZonesOf(r.status.locationStatuses) == {}
  {
    PrepZoneStatus(v, zone);
    PrepZoneValid(v, zone);
    var prepped := PrepZoneOutcome(v, zone);
    var pm := prepped.0.locationStatuses;
    ActiveMembership(pm, zone);
    var advanced := GetByZone(pm, zone).value.status.Advance(step);
    AdvanceInPlace(prepped.0, zone, step);
    ReplaceActiveZoneFinishIff(pm, zone, advanced);
  }

  /**
   * Replacing the status of an active zone leaves no zone in progress exactly
   * when it was the only active zone and the new status is completed.
   */
  lemma ReplaceActiveZoneFinishIff(m: seq<LocationStatus>, zone: LocationZoneCode, s: LocationUpdateStatus)
    requires UniqueZones(m) && AllReachable(m) && zone in ActiveZonesOf(m)
    requires s.IsCompleted() <==> !s.InProgress?
    ensures OnlyActiveZone(m, zone) && s.IsCompleted() <==> ActiveZonesOf(SetStatusByZone(m, zone, s)) == {}
  {
    ActiveAfterSet(m, zone, s);
    OnlyActiveIffSole(m, zone);
  }

  /** Everything recording a step does to a valid status. */
  lemma StepFacts(v: StatusValue, zone: LocationZoneCode, step: UpdateStep)
    requires ValidStatus(v)
    ensures var r := StepOutcome(v, zone, step);
      && ValidStatus(r.status)
      && r.status.alertsReviewed == v.alertsReviewed
      && ZonesOf(r.status.locationStatuses) == ZonesOf(v.locationStatuses) + {zone}
      && (forall other :: other != zone ==> StatusOf(r.status.locationStatuses, other) == StatusOf(v.locationStatuses, other))
      && (StatusOf(v.locationStatuses, zone).Some? && StatusOf(v.locationStatuses, zone).value.IsCompleted() ==> r == Outcome(v, Finished))
      && (StatusOf(v.locationStatuses, zone).Some? && !StatusOf(v.locationStatuses, zone).value.IsCompleted() ==>
            StatusOf(r.status.locationStatuses, zone) == Some(StatusOf(v.locationStatuses, zone).value.Advance(step)))
      && (StatusOf(v.locationStatuses, zone).None? ==> StatusOf(r.status.locationStatuses, zone) == Some(Default.Advance(step)))
      && (StatusOf(v.locationStatuses, zone).None? ==> r.next == Active)
      && (!(StatusOf(v.locationStatuses, zone).Some? && StatusOf(v.locationStatuses, zone).value.IsCompleted()) ==>
            (r.next == Finished <==> r.status.alertsReviewed && ActiveZonesOf(r.status.locationStatuses) == {}))
  {
    StepKeepsValid(v, zone, step);
    StepOnZone(v, zone, step);
    if !(StatusOf(v.locationStatuses, zone).Some? && StatusOf(v.locationStatuses, zone).value.IsCompleted()) {
      StepFinishes(v, zone, step);
    }
  }

  /** What recording a zone's failure does to a valid status. */
  lemma FailureFacts(v: StatusValue, zone: LocationZoneCode)
    requires ValidStatus(v)
    ensures var r := FailureOutcome(v, zone);
      && ValidStatus(r.status)
      && r.status.alertsReviewed == v.alertsReviewed
      && ZonesOf(r.status.locationStatuses) == ZonesOf(v.locationStatuses) + {zone}
      && (forall other :: other != zone ==> StatusOf(r.status.locationStatuses, other) == StatusOf(v.locationStatuses, other))
      && (StatusOf(v.locationStatuses, zone).Some? && StatusOf(v.locationStatuses, zone).value.IsCompleted() ==> r == Outcome(v, Finished))
      && (!(StatusOf(v.locationStatuses, zone).Some? && StatusOf(v.locationStatuses, zone).value.IsCompleted()) ==>
            StatusOf(r.status.locationStatuses, zone) == Some(Failed)
            && (r.next == Finished <==> r.status.alertsReviewed && ActiveZonesOf(r.status.locationStatuses) == {}))
  {
    FailureKeepsValid(v, zone);
    FailureOnZone(v, zone);
  }

  /** Recording a failure keeps a status valid and touches no other zone. */
  lemma FailureKeepsValid(v: StatusValue, zone: LocationZoneCode)
    requires ValidStatus(v)
    ensures var r := FailureOutcome(v, zone);
      && ValidStatus(r.status)
      && ZonesOf(r.status.locationStatuses) == ZonesOf(v.locationStatuses) + {zone}
      && (forall other :: other != zone ==> StatusOf(r.status.locationStatuses, other) == StatusOf(v.locationStatuses, other))
  {
    PrepZoneValid(v, zone);
    PrepZoneOthers(v, zone);
    var prepped := PrepZoneOutcome(v, zone);
    if prepped.1.None? {
      var pm := prepped.0.locationStatuses;
      SetStatusOthers(pm, zone, Failed);
      assert AllReachable(SetStatusByZone(pm, zone, Failed));
    }
  }

  /** What recording a failure does to the zone itself and to the phase. */
  lemma FailureOnZone(v: StatusValue, zone: LocationZoneCode)
    requires ValidStatus(v)
    ensures var r := FailureOutcome(v, zone);
      && (StatusOf(v.locationStatuses, zone).Some? && StatusOf(v.locationStatuses, zone).value.IsCompleted() ==> r == Outcome(v, Finished))
      && (!(StatusOf(v.locationStatuses, zone).Some? && StatusOf(v.locationStatuses, zone).value.IsCompleted()) ==>
            StatusOf(r.status.locationStatuses, zone) == Some(Failed)
            && (r.next == Finished <==> r.status.alertsReviewed && ActiveZonesOf(r.status.locationStatuses) == {}))
  {
    PrepZoneStatus(v, zone);
    PrepZoneValid(v, zone);
    var prepped := PrepZoneOutcome(v, zone);
    if prepped.1.None? {
      var pm := prepped.0.locationStatuses;
      SetStatusLookup(pm, zone, Failed, zone);
      ActiveMembership(pm, zone);
      ReplaceActiveZoneFinishIff(pm, zone, Failed);
    }
  }

  /** The step an event records for its zone, for the events that record one. */
  function StepOf(e: WeatherEvent): (r: Option<UpdateStep>)
    ensures r.Some? ==> e.HasZone()
    ensures r.None? && e.HasZone() <==> e.UpdateLocationFailed?
  {
    match e
    case ObservationUpdated(_, _, _) => Some(Observation)
    case ForecastUpdated(_, _, _) => Some(UpdateStep.Forecast)
    case AlertActivated(_, _, _) => Some(Alert)
    case AlertDeactivated(_, _) => Some(Alert)
    case _ => None
  }

  /** An event that records a step is handled by the step transition. */
  lemma MutateIsStep(v: StatusValue, e: WeatherEvent)
    requires UniqueZones(v.locationStatuses) && StepOf(e).Some?
    ensures MutateOutcome(v, e) == StepOutcome(v, e.zone, StepOf(e).value)
  {
  }

  /**
   * An active update stays valid, never asks to become quiescent, never
   * forgets that the alerts were reviewed, and tracks exactly its zones plus
   * the zone of the event.
   */
  lemma MutateKeepsValid(v: StatusValue, e: WeatherEvent)
    requires ValidStatus(v)
    ensures ValidStatus(MutateOutcome(v, e).status)
    ensures MutateOutcome(v, e).next != Quiescent
    ensures v.alertsReviewed ==> MutateOutcome(v, e).status.alertsReviewed
    ensures ZonesOf(MutateOutcome(v, e).status.locationStatuses)
            == ZonesOf(v.locationStatuses) + (if e.HasZone() then {e.zone} else {})
  {
    if StepOf(e).Some? {
      MutateIsStep(v, e);
      StepKeepsValid(v, e.zone, StepOf(e).value);
    } else if e.UpdateLocationFailed? {
      FailureFacts(v, e.zone);
    }
  }

  /** An event changes the status of no zone but its own. */
  lemma MutateOnlyTouchesEventZone(v: StatusValue, e: WeatherEvent, other: LocationZoneCode)
    requires ValidStatus(v)
    requires !e.HasZone() || other != e.zone
    ensures StatusOf(MutateOutcome(v, e).status.locationStatuses, other) == StatusOf(v.locationStatuses, other)
  {
    if StepOf(e).Some? {
      MutateIsStep(v, e);
      StepKeepsValid(v, e.zone, StepOf(e).value);
    } else if e.UpdateLocationFailed? {
      FailureFacts(v, e.zone);
    }
  }

  /**
   * A zone's status only moves forward: a completed zone keeps its status, and
   * a step a zone had completed stays completed.
   */
  lemma MutateOnlyProgresses(v: StatusValue, e: WeatherEvent, zone: LocationZoneCode, step: UpdateStep)
    requires ValidStatus(v) && StatusOf(v.locationStatuses, zone).Some?
    ensures StatusOf(MutateOutcome(v, e).status.locationStatuses, zone).Some?
    ensures StatusOf(v.locationStatuses, zone).value.IsCompleted() ==>
      StatusOf(MutateOutcome(v, e).status.locationStatuses, zone) == StatusOf(v.locationStatuses, zone)
    ensures StatusOf(v.locationStatuses, zone).value.Contains(step) ==>
      StatusOf(MutateOutcome(v, e).status.locationStatuses, zone).value.Contains(step)
  {
    if e.HasZone() && e.zone == zone {
      if StepOf(e).Some? {
        MutateIsStep(v, e);
        StepOnZone(v, zone, StepOf(e).value);
      } else {
        FailureFacts(v, zone);
      }
    } else {
      MutateOnlyTouchesEventZone(v, e, zone);
    }
  }

  /**
   * For the alert review, and for an event about a zone that has not yet
   * completed, the update finishes exactly when the alerts have been reviewed
   * and no zone is left in progress afterwards.
   */
  lemma FinishesWhenLastZoneCompletes(v: StatusValue, e: WeatherEvent)
    requires ValidStatus(v)
    requires e.AlertsReviewed? ||
      (e.HasZone() && !(StatusOf(v.locationStatuses, e.zone).Some? && StatusOf(v.locationStatuses, e.zone).value.IsCompleted()))
    ensures MutateOutcome(v, e).next == Finished <==>
      MutateOutcome(v, e).status.alertsReviewed && ActiveZonesOf(MutateOutcome(v, e).status.locationStatuses) == {}
  {
    if StepOf(e).Some? {
      MutateIsStep(v, e);
      StepFinishes(v, e.zone, StepOf(e).value);
    } else if e.UpdateLocationFailed? {
      FailureFacts(v, e.zone);
    }
  }

  /**
   * A step or failure for a zone that has already completed changes nothing
   * and asks the whole update to finish, whatever the other zones are doing.
   */
  lemma CompletedZoneEventFinishes(v: StatusValue, e: WeatherEvent)
    requires ValidStatus(v) && e.HasZone()
    requires StatusOf(v.locationStatuses, e.zone).Some? && StatusOf(v.locationStatuses, e.zone).value.IsCompleted()
    ensures MutateOutcome(v, e) == Outcome(v, Finished)
  {
    if StepOf(e).Some? {
      MutateIsStep(v, e);
      StepOnZone(v, e.zone, StepOf(e).value);
    } else {
      FailureFacts(v, e.zone);
    }
  }

  /** A step for a zone the update did not track adds the zone and keeps the update active. */
  lemma UntrackedZoneJoins(v: StatusValue, zone: LocationZoneCode, step: UpdateStep)
    requires ValidStatus(v) && StatusOf(v.locationStatuses, zone).None?
    ensures StepOutcome(v, zone, step).next == Active
    ensures StatusOf(StepOutcome(v, zone, step).status.locationStatuses, zone) == Some(InProgress({step}))
  {
    StepFacts(v, zone, step);
    assert Default.Advance(step) == InProgress({step}) by {
      assert {} + {step} == {step};
    }
  }

  // ---------------------------------------------------------------------------
  // The whole update, as a value

  datatype StateValue = QuiescentValue | ActiveValue(status: StatusValue) | FinishedValue

  function Kind(s: StateValue): Discriminant
  {
    match s
    case QuiescentValue => Quiescent
    case ActiveValue(_) => Active
    case FinishedValue => Finished
  }

  /**
   * How an update reacts to an event: a quiescent update starts on
   * `UpdateStarted`; an active one finishes when its status asks to; a finished
   * one ignores everything.
   */
  function MutateState(s: StateValue, e: WeatherEvent): (r: StateValue)
    requires s.ActiveValue? ==> UniqueZones(s.status.locationStatuses)
  {
    match s
    case QuiescentValue =>
      if e.UpdateStarted? then ActiveValue(StatusValue(InitialStatuses(e.zones), false)) else s
    case ActiveValue(v) =>
      var o := MutateOutcome(v, e);
      if o.next == Finished then FinishedValue else ActiveValue(o.status)
    case FinishedValue => s
  }

  /**
   * The invariant of an update: an active update has a valid status, and once
   * its alerts have been reviewed it stays active only while some zone is in
   * progress.
   */
  predicate StateInvariant(s: StateValue)
  {
    s.ActiveValue? ==>
      ValidStatus(s.status) && (s.status.alertsReviewed ==> ActiveZonesOf(s.status.locationStatuses) != {})
  }

  /** The update invariant holds after every event (starting with distinct zones). */
  lemma MutateStateKeepsInvariant(s: StateValue, e: WeatherEvent)
    requires StateInvariant(s)
    requires s.QuiescentValue? && e.UpdateStarted? ==> DistinctZones(e.zones)
    ensures StateInvariant(MutateState(s, e))
  {
    match s
    case QuiescentValue =>
      if e.UpdateStarted? {
        InitialStatusesValid(e.zones);
      }
    case ActiveValue(v) =>
      MutateKeepsValid(v, e);
      if e.AlertsReviewed? {
        FinishesWhenLastZoneCompletes(v, e);
      } else if e.HasZone() {
        if StatusOf(v.locationStatuses, e.zone).Some? && StatusOf(v.locationStatuses, e.zone).value.IsCompleted() {
          CompletedZoneEventFinishes(v, e);
        } else {
          FinishesWhenLastZoneCompletes(v, e);
        }
      }
    case FinishedValue =>
  }

  /**
   * Phases only move forward: quiescent to active on `UpdateStarted`, active
   * to finished, and finished is final.
   */
  lemma PhasesMoveForward(s: StateValue, e: WeatherEvent)
    requires StateInvariant(s)
    ensures s.FinishedValue? ==> MutateState(s, e) == FinishedValue
    ensures s.ActiveValue? ==> !MutateState(s, e).QuiescentValue?
    ensures s.QuiescentValue? ==> (MutateState(s, e).ActiveValue? <==> e.UpdateStarted?)
    ensures s.QuiescentValue? && !e.UpdateStarted? ==> MutateState(s, e) == s
  {
  }

  predicate StartsAreDistinct(events: seq<WeatherEvent>)
  {
    forall i :: 0 <= i < |events| && events[i].UpdateStarted? ==> DistinctZones(events[i].zones)
  }

  /** The state after a sequence of events. */
  function Replay(s: StateValue, events: seq<WeatherEvent>): (r: StateValue)
    requires StateInvariant(s) && StartsAreDistinct(events)
    ensures StateInvariant(r)
    ensures s.FinishedValue? ==> r == FinishedValue
    ensures !s.QuiescentValue? ==> !r.QuiescentValue?
    decreases |events|
  {
    if |events| == 0 then s
    else
      MutateStateKeepsInvariant(s, events[0]);
      assert StartsAreDistinct(events[1..]) by {
        assert forall i :: 0 <= i < |events[1..]| ==> events[1..][i] == events[i + 1];
      }
      Replay(MutateState(s, events[0]), events[1..])
  }

  // ---------------------------------------------------------------------------
  // The status object of an active update

  class WeatherUpdateStatus {
    var locationStatuses: seq<LocationStatus>
    var alertsReviewed: bool

    function Value(): StatusValue
      reads this
    {
      StatusValue(locationStatuses, alertsReviewed)
    }

    ghost predicate Valid()
      reads this
    {
      ValidStatus(Value())
    }

    /** Starts tracking the given zones, each at its default status; alerts not yet reviewed. */
    constructor(zones: seq<LocationZoneCode>)
      requires DistinctZones(zones)
      ensures Valid()
      ensures Value() == StatusValue(InitialStatuses(zones), false)
    {
      var statuses: seq<LocationStatus> := [];
      var i := 0;
      while i < |zones|
        invariant 0 <= i <= |zones|
        invariant |statuses| == i
        invariant forall k :: 0 <= k < i ==> statuses[k] == NewLocationStatus(zones[k])
        invariant UniqueZones(statuses)
      {
        assert zones[i] !in ZonesOf(statuses) by {
          forall k | 0 <= k < i ensures statuses[k].zone != zones[i] {
          }
        }
        statuses := Insert(statuses, NewLocationStatus(zones[i]));
        i := i + 1;
      }
      locationStatuses := statuses;
      alertsReviewed := false;
      InitialStatusesValid(zones);
    }

    /** Rebuilds a status object from its fields, as deserialisation does. */
    constructor FromValue(v: StatusValue)
      requires ValidStatus(v)
      ensures Valid() && Value() == v
    {
      locationStatuses := v.locationStatuses;
      alertsReviewed := v.alertsReviewed;
    }

    /** The zones still in progress. */
    method ActiveZones() returns (zones: set<LocationZoneCode>)
      ensures zones == ActiveZonesOf(locationStatuses)
    {
      zones := {};
      var i := 0;
      while i < |locationStatuses|
        invariant 0 <= i <= |locationStatuses|
        invariant zones == set k | 0 <= k < i && locationStatuses[k].status.InProgress? :: locationStatuses[k].zone
      {
        if locationStatuses[i].status.InProgress? {
          zones := zones + {locationStatuses[i].zone};
        }
        i := i + 1;
      }
    }

    /** The zones that have succeeded. */
    method SucceededZones() returns (zones: set<LocationZoneCode>)
      ensures zones == SucceededZonesOf(locationStatuses)
    {
      zones := {};
      var i := 0;
      while i < |locationStatuses|
        invariant 0 <= i <= |locationStatuses|
        invariant zones == set k | 0 <= k < i && locationStatuses[k].status == Succeeded :: locationStatuses[k].zone
      {
        if locationStatuses[i].status == Succeeded {
          zones := zones + {locationStatuses[i].zone};
        }
        i := i + 1;
      }
    }

    /** The zones that have failed. */
    method FailedZones() returns (zones: set<LocationZoneCode>)
      ensures zones == FailedZonesOf(locationStatuses)
    {
      zones := {};
      var i := 0;
      while i < |locationStatuses|
        invariant 0 <= i <= |locationStatuses|
        invariant zones == set k | 0 <= k < i && locationStatuses[k].status == Failed :: locationStatuses[k].zone
      {
        if locationStatuses[i].status == Failed {
          zones := zones + {locationStatuses[i].zone};
        }
        i := i + 1;
      }
    }

    /** Whether the zone is tracked and active while every other zone has completed. */
    method IsOnlyActiveZone(zone: LocationZoneCode) returns (only: bool)
      ensures only == OnlyActiveZone(locationStatuses, zone)
    {
      var entry := GetByZone(locationStatuses, zone);
      if entry.None? || !entry.value.status.IsActive() {
        return false;
      }
      var i := 0;
      while i < |locationStatuses|
        invariant 0 <= i <= |locationStatuses|
        invariant forall k :: 0 <= k < i && locationStatuses[k].zone != zone ==> locationStatuses[k].status.IsCompleted()
      {
        if locationStatuses[i].zone != zone && !locationStatuses[i].status.IsCompleted() {
          return false;
        }
        i := i + 1;
      }
      only := true;
    }

    method PrepZone(zone: LocationZoneCode) returns (early: Option<Discriminant>)
      requires Valid()
      modifies this
      ensures Valid()
      ensures (Value(), early) == PrepZoneOutcome(old(Value()), zone)
    {
      PrepZoneValid(Value(), zone);
      match StatusOf(locationStatuses, zone)
      case None =>
        locationStatuses := Insert(locationStatuses, NewLocationStatus(zone));
        early := None;
      case Some(status) =>
        early := if status.IsCompleted() then Some(Finished) else None;
    }

    method AdvanceZoneStep(zone: LocationZoneCode, step: UpdateStep) returns (next: Discriminant)
      requires Valid()
      modifies this
      ensures Valid()
      ensures Outcome(Value(), next) == StepOutcome(old(Value()), zone, step)
    {
      ghost var v0 := Value();
      assert ValidStatus(StepOutcome(v0, zone, step).status) by {
        StepKeepsValid(v0, zone, step);
      }
      var early := PrepZone(zone);
      if early.Some? {
        return early.value;
      }
      var only := IsOnlyActiveZone(zone);
      var advanced := GetByZone(locationStatuses, zone).value.status.Advance(step);
      locationStatuses := SetStatusByZone(locationStatuses, zone, advanced);
      next := if alertsReviewed && only && advanced.IsCompleted() then Finished else Active;
    }

    method UpdateZoneFailureFor(zone: LocationZoneCode, cause: string) returns (next: Discriminant)
      requires Valid()
      modifies this
      ensures Valid()
      ensures Outcome(Value(), next) == FailureOutcome(old(Value()), zone)
    {
      ghost var v0 := Value();
      assert ValidStatus(FailureOutcome(v0, zone).status) by {
        FailureKeepsValid(v0, zone);
      }
      var early := PrepZone(zone);
      if early.Some? {
        return early.value;
      }
      var only := IsOnlyActiveZone(zone);
      locationStatuses := SetStatusByZone(locationStatuses, zone, Failed);
      next := if alertsReviewed && only then Finished else Active;
    }

    /** Applies an event to the active update and reports the phase it asks for. */
    method Mutate(e: WeatherEvent) returns (next: Discriminant)
      requires Valid()
      modifies this
      ensures Valid()
      ensures Outcome(Value(), next) == MutateOutcome(old(Value()), e)
    {
      MutateKeepsValid(Value(), e);
      match e
      case ObservationUpdated(zone, _, _) =>
        next := AdvanceZoneStep(zone, Observation);
      case ForecastUpdated(zone, _, _) =>
        next := AdvanceZoneStep(zone, UpdateStep.Forecast);
      case AlertActivated(zone, _, _) =>
        next := AdvanceZoneStep(zone, Alert);
      case AlertDeactivated(zone, _) =>
        next := AdvanceZoneStep(zone, Alert);
      case AlertsReviewed(_) =>
        alertsReviewed := true;
        var active := ActiveZones();
        next := if active == {} then Finished else Active;
      case UpdateLocationFailed(_, zone, cause) =>
        next := UpdateZoneFailureFor(zone, cause);
      case UpdateStarted(_, _) =>
        next := Active;
    }
  }

  // ---------------------------------------------------------------------------
  // The update aggregate

  datatype UpdateWeatherState =
    | QuiescentState
    | ActiveState(status: WeatherUpdateStatus)
    | FinishedState

  class UpdateWeather {
    const updateId: UpdateWeatherId
    var state: UpdateWeatherState

    /** The status object an active update owns. */
    function Owned(): set<object>
      reads this
    {
      if state.ActiveState? then {state.status} else {}
    }

    function Value(): StateValue
      reads this, Owned()
    {
      match state
      case QuiescentState => QuiescentValue
      case ActiveState(status) => ActiveValue(status.Value())
      case FinishedState => FinishedValue
    }

    ghost predicate Valid()
      reads this, Owned()
    {
      StateInvariant(Value())
    }

    /** A new update, quiescent until it is started. */
    constructor(updateId: UpdateWeatherId)
      ensures this.updateId == updateId
      ensures Valid() && Value() == QuiescentValue
    {
      this.updateId := updateId;
      state := QuiescentState;
    }

    /** Applies an event: the state moves as `MutateState` says. */
    method Mutate(e: WeatherEvent)
      requires Valid()
      requires state.QuiescentState? && e.UpdateStarted? ==> DistinctZones(e.zones)
      modifies this, Owned()
      ensures Valid()
      ensures Value() == MutateState(old(Value()), e)
    {
      MutateStateKeepsInvariant(Value(), e);
      match state
      case QuiescentState =>
        if e.UpdateStarted? {
          var status := new WeatherUpdateStatus(e.zones);
          state := ActiveState(status);
        }
      case ActiveState(status) =>
        var next := status.Mutate(e);
        if next == Finished {
          state := FinishedState;
        }
      case FinishedState =>
    }
  }
}
