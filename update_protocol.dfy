/**
 * The decisions of the weather-update saga: starting an update, noting that
 * the alerts were reviewed, and noting that a zone failed; and the fan-out of
 * alert notes over the zones of an update. The calls into other decisions and
 * into the NOAA service are passed in as functions giving their outcome.
 */
module UpdateProtocol {
  import opened Wrappers
  import opened Model
  import opened Weather
  import opened LocationStatuses
  import UpdateState

  datatype UpdateWeatherError =
    | NoLocations
    | AlreadyStarted(updateId: UpdateWeatherId, zones: seq<LocationZoneCode>)
    | NotStarted(updateId: UpdateWeatherId, command: string)
    | Finished(updateId: UpdateWeatherId, command: string)
    /** A failure raised outside the model (the NOAA service, the event store, a nested decision). */
    | External(reason: string)

  /** The state every decision of an update folds its events into: a fresh update for the command's id. */
  method StateQuery(updateId: UpdateWeatherId) returns (state: UpdateState.UpdateWeather)
    ensures fresh(state)
    ensures state.updateId == updateId
    ensures state.Valid() && state.Value() == UpdateState.QuiescentValue
  {
    state := new UpdateState.UpdateWeather(updateId);
  }

  /** The error for a command that an update cannot take in its current phase. */
  function Refusal(updateId: UpdateWeatherId, command: string, s: UpdateState.StateValue): (r: Result<seq<WeatherEvent>, UpdateWeatherError>)
    requires !s.ActiveValue?
    ensures s.QuiescentValue? ==> r == Err(NotStarted(updateId, command))
    ensures s.FinishedValue? ==> r == Err(Finished(updateId, command))
  {
    if s.QuiescentValue? then Err(NotStarted(updateId, command)) else Err(Finished(updateId, command))
  }

  /** Noting the alert review: only an active update takes it. */
  function ProcessNoteAlertsReviewed(updateId: UpdateWeatherId, s: UpdateState.StateValue): (r: Result<seq<WeatherEvent>, UpdateWeatherError>)
    ensures r.Ok? <==> s.ActiveValue?
    ensures r.Ok? ==> r.value == [AlertsReviewed(updateId)]
    ensures s.QuiescentValue? ==> r == Err(NotStarted(updateId, "NoteAlertsReviewed"))
    ensures s.FinishedValue? ==> r == Err(Finished(updateId, "NoteAlertsReviewed"))
  {
    match s
    case ActiveValue(_) => Ok([AlertsReviewed(updateId)])
    case _ => Refusal(updateId, "NoteAlertsReviewed", s)
  }

  /** Noting a zone's failure: only an active update takes it. */
  function ProcessNoteLocationUpdateFailure(updateId: UpdateWeatherId, zone: LocationZoneCode, cause: string, s: UpdateState.StateValue)
    : (r: Result<seq<WeatherEvent>, UpdateWeatherError>)
    ensures r.Ok? <==> s.ActiveValue?
    ensures r.Ok? ==> r.value == [UpdateLocationFailed(updateId, zone, cause)]
    ensures s.QuiescentValue? ==> r == Err(NotStarted(updateId, "NoteLocationUpdateFailure"))
    ensures s.FinishedValue? ==> r == Err(Finished(updateId, "NoteLocationUpdateFailure"))
  {
    match s
    case ActiveValue(_) => Ok([UpdateLocationFailed(updateId, zone, cause)])
    case _ => Refusal(updateId, "NoteLocationUpdateFailure", s)
  }

  /** A command to start an update of some zones; it cannot be built without zones. */
  datatype StartUpdate = StartUpdate(updateId: UpdateWeatherId, zones: seq<LocationZoneCode>)

  function NewStartUpdate(updateId: UpdateWeatherId, zones: seq<LocationZoneCode>): (r: Result<StartUpdate, UpdateWeatherError>)
    ensures r.Err? <==> |zones| == 0
    ensures r.Err? ==> r.error == NoLocations
    ensures r.Ok? ==> r.value.updateId == updateId && r.value.zones == zones
  {
    if |zones| == 0 then Err(NoLocations) else Ok(StartUpdate(updateId, zones))
  }

  /**
   * Starting an update: a quiescent update starts with the command's zones;
   * an update that has already started (or finished) refuses.
   */
  function ProcessStartUpdate(cmd: StartUpdate, s: UpdateState.StateValue): (r: Result<seq<WeatherEvent>, UpdateWeatherError>)
    ensures r.Ok? <==> s.QuiescentValue?
    ensures r.Ok? ==> r.value == [UpdateStarted(cmd.updateId, cmd.zones)]
    ensures r.Err? ==> r.error == AlreadyStarted(cmd.updateId, cmd.zones)
  {
    match s
    case QuiescentValue => Ok([UpdateStarted(cmd.updateId, cmd.zones)])
    case _ => Err(AlreadyStarted(cmd.updateId, cmd.zones))
  }

  /** Every event a decision emits belongs to the command's own update. */
  lemma DecisionsStayInTheirUpdate(cmd: StartUpdate, updateId: UpdateWeatherId, zone: LocationZoneCode, cause: string, s: UpdateState.StateValue)
    ensures ProcessStartUpdate(cmd, s).Ok? ==>
      forall e :: e in ProcessStartUpdate(cmd, s).value ==> e.UpdateId() == cmd.updateId
    ensures ProcessNoteAlertsReviewed(updateId, s).Ok? ==>
      forall e :: e in ProcessNoteAlertsReviewed(updateId, s).value ==> e.UpdateId() == updateId
    ensures ProcessNoteLocationUpdateFailure(updateId, zone, cause, s).Ok? ==>
      forall e :: e in ProcessNoteLocationUpdateFailure(updateId, zone, cause, s).value ==> e.UpdateId() == updateId
  {
  }

  /** The event a successful start emits makes the update active, tracking every zone as in progress. */
  lemma StartUpdateStartsSaga(cmd: StartUpdate, s: UpdateState.StateValue)
    requires UpdateState.StateInvariant(s) && UpdateState.DistinctZones(cmd.zones)
    requires ProcessStartUpdate(cmd, s).Ok?
    ensures var after := UpdateState.MutateState(s, ProcessStartUpdate(cmd, s).value[0]);
      && after == UpdateState.ActiveValue(UpdateState.StatusValue(UpdateState.InitialStatuses(cmd.zones), false))
      && UpdateState.StateInvariant(after)
      && UpdateState.ActiveZonesOf(after.status.locationStatuses) == set z | z in cmd.zones
  {
    UpdateState.InitialStatusesValid(cmd.zones);
  }

  /**
   * The event a successful review emits marks the alerts reviewed; the update
   * finishes exactly when no zone is still in progress.
   */
  lemma ReviewAdvancesSaga(updateId: UpdateWeatherId, s: UpdateState.StateValue)
    requires UpdateState.StateInvariant(s)
    requires ProcessNoteAlertsReviewed(updateId, s).Ok?
    ensures var after := UpdateState.MutateState(s, ProcessNoteAlertsReviewed(updateId, s).value[0]);
      && UpdateState.StateInvariant(after)
      && (after.FinishedValue? <==> UpdateState.ActiveZonesOf(s.status.locationStatuses) == {})
      && (after.ActiveValue? ==> after.status == s.status.(alertsReviewed := true))
  {
    UpdateState.MutateStateKeepsInvariant(s, AlertsReviewed(updateId));
  }

  /**
   * The event a successful failure note emits either finishes the update or
   * leaves it active with the zone failed.
   */
  lemma FailureAdvancesSaga(updateId: UpdateWeatherId, zone: LocationZoneCode, cause: string, s: UpdateState.StateValue)
    requires UpdateState.StateInvariant(s)
    requires ProcessNoteLocationUpdateFailure(updateId, zone, cause, s).Ok?
    ensures var after := UpdateState.MutateState(s, ProcessNoteLocationUpdateFailure(updateId, zone, cause, s).value[0]);
      && UpdateState.StateInvariant(after)
      && (after.FinishedValue? || UpdateState.StatusOf(after.status.locationStatuses, zone) == Some(UpdateStatus.Failed))
  {
    var e := UpdateLocationFailed(updateId, zone, cause);
    assert ProcessNoteLocationUpdateFailure(updateId, zone, cause, s).value[0] == e;
    UpdateState.MutateStateKeepsInvariant(s, e);
    assert UpdateState.MutateOutcome(s.status, e) == UpdateState.FailureOutcome(s.status, zone);
    UpdateState.FailureOnZone(s.status, zone);
  }

  // ---------------------------------------------------------------------------
  // Alert fan-out over the zones of an update

  /** Whether one of the alerts lists the zone among its affected zones. */
  predicate AffectedBy(zone: LocationZoneCode, alerts: seq<WeatherAlert>)
  {
    exists k :: 0 <= k < |alerts| && zone in alerts[k].affectedZones
  }

  /** The zones of a list that lie in the scope, in order. */
  function InScope(zones: seq<LocationZoneCode>, scope: set<LocationZoneCode>): (r: seq<LocationZoneCode>)
    ensures forall z :: z in r <==> z in zones && z in scope
    ensures |r| <= |zones|
  {
    if |zones| == 0 then []
    else (if zones[0] in scope then [zones[0]] else []) + InScope(zones[1..], scope)
  }

  /**
   * The failure the first `n` alerts leave for a zone: the error of the last
   * of them that affects the zone and whose note for it failed, if any.
   */
  function LastFailure(
    zone: LocationZoneCode, alerts: seq<WeatherAlert>,
    noteAlert: (LocationZoneCode, Option<WeatherAlert>) -> Option<string>, n: nat): Option<string>
    requires n <= |alerts|
  {
    if n == 0 then None
    else if zone in alerts[n - 1].affectedZones && noteAlert(zone, Some(alerts[n - 1])).Some? then noteAlert(zone, Some(alerts[n - 1]))
    else LastFailure(zone, alerts, noteAlert, n - 1)
  }

  /**
   * Alert `k` is the last of the first `n` alerts whose note for the zone
   * failed: it affects the zone, its note failed, and every later alert among
   * the first `n` that affects the zone was noted without failure.
   */
  predicate LastFailedNote(
    zone: LocationZoneCode, alerts: seq<WeatherAlert>,
    noteAlert: (LocationZoneCode, Option<WeatherAlert>) -> Option<string>, n: nat, k: int)
    requires n <= |alerts|
  {
    && 0 <= k < n && zone in alerts[k].affectedZones && noteAlert(zone, Some(alerts[k])).Some?
    && forall j :: k < j < n && zone in alerts[j].affectedZones ==> noteAlert(zone, Some(alerts[j])).None?
  }

  /**
   * `LastFailure` against its reading by indices: a zone has a failure exactly
   * when a note of one of the alerts affecting it failed, and the failure is
   * the error of the last such note.
   */
  lemma {:induction false} LastFailureIsLastNote(
    zone: LocationZoneCode, alerts: seq<WeatherAlert>,
    noteAlert: (LocationZoneCode, Option<WeatherAlert>) -> Option<string>, n: nat)
    requires n <= |alerts|
    ensures LastFailure(zone, alerts, noteAlert, n).Some? <==>
      exists k :: 0 <= k < n && zone in alerts[k].affectedZones && noteAlert(zone, Some(alerts[k])).Some?
    ensures LastFailure(zone, alerts, noteAlert, n).Some? ==>
      exists k :: LastFailedNote(zone, alerts, noteAlert, n, k) && noteAlert(zone, Some(alerts[k])) == LastFailure(zone, alerts, noteAlert, n)
  {
    if n > 0 {
      LastFailureIsLastNote(zone, alerts, noteAlert, n - 1);
      var last := alerts[n - 1];
      if zone in last.affectedZones && noteAlert(zone, Some(last)).Some? {
        assert LastFailedNote(zone, alerts, noteAlert, n, n - 1);
      } else if LastFailure(zone, alerts, noteAlert, n - 1).Some? {
        var k :| LastFailedNote(zone, alerts, noteAlert, n - 1, k)
              && noteAlert(zone, Some(alerts[k])) == LastFailure(zone, alerts, noteAlert, n - 1);
        assert LastFailedNote(zone, alerts, noteAlert, n, k);
      } else {
        forall k | 0 <= k < n && zone in alerts[k].affectedZones
          ensures noteAlert(zone, Some(alerts[k])).None?
        {
          if k < n - 1 {
            assert !(0 <= k < n - 1 && zone in alerts[k].affectedZones && noteAlert(zone, Some(alerts[k])).Some?);
          }
        }
      }
    }
  }

  /**
   * The failures the fan-out gathers over the zones of an update: a zone no
   * alert affects has the failure of its no-alert note, and an affected zone
   * the failure of the last alert whose note for it failed.
   */
  predicate FailuresOfScope(
    zones: seq<LocationZoneCode>, alerts: seq<WeatherAlert>,
    noteAlert: (LocationZoneCode, Option<WeatherAlert>) -> Option<string>,
    failures: map<LocationZoneCode, string>)
  {
    && failures.Keys <= Members(zones)
    && (forall z :: z in zones && !AffectedBy(z, alerts) ==> Get(failures, z) == noteAlert(z, None))
    && (forall z :: z in zones && AffectedBy(z, alerts) ==> Get(failures, z) == LastFailure(z, alerts, noteAlert, |alerts|))
  }

  /**
   * The failures of the fan-out read by indices: an affected zone fails
   * exactly when a note of an alert affecting it failed, and it keeps the
   * error of the last such note, every later alert affecting it having been
   * noted without failure.
   */
  lemma FailuresOfScopeByIndex(
    zones: seq<LocationZoneCode>, alerts: seq<WeatherAlert>,
    noteAlert: (LocationZoneCode, Option<WeatherAlert>) -> Option<string>,
    failures: map<LocationZoneCode, string>, zone: LocationZoneCode)
    requires FailuresOfScope(zones, alerts, noteAlert, failures)
    requires zone in zones && AffectedBy(zone, alerts)
    ensures zone in failures <==>
      exists k :: 0 <= k < |alerts| && zone in alerts[k].affectedZones && noteAlert(zone, Some(alerts[k])).Some?
    ensures zone in failures ==>
      exists k :: LastFailedNote(zone, alerts, noteAlert, |alerts|, k) && noteAlert(zone, Some(alerts[k])) == Some(failures[zone])
  {
    LastFailureIsLastNote(zone, alerts, noteAlert, |alerts|);
  }

  /** The zones of a list, as a set. */
  function Members(zones: seq<LocationZoneCode>): (r: set<LocationZoneCode>)
    ensures forall z :: z in r <==> z in zones
  {
    set z | z in zones
  }

  /**
   * Notes one alert for each affected zone; `noteAlert` gives the failure of
   * a note, if it fails. Every zone counts as alerted, failed or not.
   */
  method AlertAffectedZones(
    affected: seq<LocationZoneCode>, alert: WeatherAlert,
    noteAlert: (LocationZoneCode, Option<WeatherAlert>) -> Option<string>)
    returns (alerted: seq<LocationZoneCode>, failures: map<LocationZoneCode, string>)
    ensures alerted == affected
    ensures forall z :: z in failures <==> z in affected && noteAlert(z, Some(alert)).Some?
    ensures forall z :: z in failures ==> failures[z] == noteAlert(z, Some(alert)).value
  {
    alerted := [];
    failures := map[];
    var i := 0;
    while i < |affected|
      invariant 0 <= i <= |affected|
      invariant alerted == affected[..i]
      invariant forall z :: z in failures <==> z in affected[..i] && noteAlert(z, Some(alert)).Some?
      invariant forall z :: z in failures ==> failures[z] == noteAlert(z, Some(alert)).value
    {
      var zone := affected[i];
      alerted := alerted + [zone];
      var outcome := noteAlert(zone, Some(alert));
      if outcome.Some? {
        failures := failures[zone := outcome.value];
      }
      assert affected[..i + 1] == affected[..i] + [zone];
      i := i + 1;
    }
    assert affected[..i] == affected;
  }

  /** Notes that no alert is active for each unaffected zone, in no particular order. */
  method UpdateUnaffectedZones(
    unaffected: set<LocationZoneCode>,
    noteAlert: (LocationZoneCode, Option<WeatherAlert>) -> Option<string>)
    returns (failures: map<LocationZoneCode, string>)
    ensures forall z :: z in failures <==> z in unaffected && noteAlert(z, None).Some?
    ensures forall z :: z in failures ==> failures[z] == noteAlert(z, None).value
  {
    failures := map[];
    var remaining := unaffected;
    while remaining != {}
      invariant remaining <= unaffected
      invariant forall z :: z in failures <==> z in unaffected - remaining && noteAlert(z, None).Some?
      invariant forall z :: z in failures ==> failures[z] == noteAlert(z, None).value
      decreases remaining
    {
      var zone :| zone in remaining;
      var outcome := noteAlert(zone, None);
      if outcome.Some? {
        failures := failures[zone := outcome.value];
      }
      remaining := remaining - {zone};
    }
  }

  /**
   * The alert fan-out of an update: each alert is noted for the zones of the
   * update it affects, and every other zone of the update is noted as having
   * no alert. Every zone of the update goes down exactly one of the two paths.
   */
  method AlertScope(
    zones: seq<LocationZoneCode>, alerts: seq<WeatherAlert>,
    noteAlert: (LocationZoneCode, Option<WeatherAlert>) -> Option<string>)
    returns (alerted: set<LocationZoneCode>, unaffected: set<LocationZoneCode>, failures: map<LocationZoneCode, string>)
    ensures alerted == set z | z in zones && AffectedBy(z, alerts)
    ensures unaffected == (set z | z in zones) - alerted
    ensures alerted !! unaffected && alerted + unaffected == set z | z in zones
    ensures FailuresOfScope(zones, alerts, noteAlert, failures)
  {
    var scope := Members(zones);
    var alertFailures;
    alerted, alertFailures := AlertAll(scope, alerts, noteAlert);
    unaffected := scope - alerted;
    var unaffectedFailures := UpdateUnaffectedZones(unaffected, noteAlert);
    failures := alertFailures + unaffectedFailures;
  }

  /**
   * The first half of the fan-out: every alert in turn notes the scope zones
   * it affects, gathering the zones alerted and the notes that failed.
   */
  method AlertAll(
    scope: set<LocationZoneCode>, alerts: seq<WeatherAlert>,
    noteAlert: (LocationZoneCode, Option<WeatherAlert>) -> Option<string>)
    returns (alerted: set<LocationZoneCode>, failures: map<LocationZoneCode, string>)
    ensures alerted == set z | z in scope && AffectedBy(z, alerts)
    ensures failures.Keys <= alerted
    ensures forall z :: z in alerted ==> Get(failures, z) == LastFailure(z, alerts, noteAlert, |alerts|)
  {
    alerted := {};
    failures := map[];
    var i := 0;
    while i < |alerts|
      invariant 0 <= i <= |alerts|
      invariant alerted == set z | z in scope && exists k :: 0 <= k < i && z in alerts[k].affectedZones
      invariant failures.Keys <= alerted
      invariant forall z :: z in alerted ==> Get(failures, z) == LastFailure(z, alerts, noteAlert, i)
    {
      var affected := InScope(alerts[i].affectedZones, scope);
      var alertedHere, failed := AlertAffectedZones(affected, alerts[i], noteAlert);
      AlertedSetStep(scope, alerts, i, alerted);
      AlertedFailuresStep(scope, alerts, noteAlert, i, alerted, failures, failed);
      alerted := alerted + Members(alertedHere);
      failures := failures + failed;
      i := i + 1;
    }
  }

  /** The zones alerted through alert `i` are those through the earlier alerts and alert `i`'s own zones in scope. */
  lemma AlertedSetStep(scope: set<LocationZoneCode>, alerts: seq<WeatherAlert>, i: nat, alerted: set<LocationZoneCode>)
    requires i < |alerts|
    requires alerted == (set z | z in scope && exists k :: 0 <= k < i && z in alerts[k].affectedZones)
    ensures alerted + Members(InScope(alerts[i].affectedZones, scope))
         == (set z | z in scope && exists k :: 0 <= k < i + 1 && z in alerts[k].affectedZones)
  {
  }

  /**
   * Noting alert `i` keeps, for every zone alerted so far, the failure of the
   * last alert whose note for it failed.
   */
  lemma AlertedFailuresStep(
    scope: set<LocationZoneCode>, alerts: seq<WeatherAlert>,
    noteAlert: (LocationZoneCode, Option<WeatherAlert>) -> Option<string>,
    i: nat, alerted: set<LocationZoneCode>, failures: map<LocationZoneCode, string>,
    failed: map<LocationZoneCode, string>)
    requires i < |alerts| && failures.Keys <= alerted
    requires alerted == (set z | z in scope && exists k :: 0 <= k < i && z in alerts[k].affectedZones)
    requires forall z :: z in alerted ==> Get(failures, z) == LastFailure(z, alerts, noteAlert, i)
    requires forall z :: z in failed <==> z in InScope(alerts[i].affectedZones, scope) && noteAlert(z, Some(alerts[i])).Some?
    requires forall z :: z in failed ==> failed[z] == noteAlert(z, Some(alerts[i])).value
    ensures var na := alerted + Members(InScope(alerts[i].affectedZones, scope));
      var nf := failures + failed;
      && nf.Keys <= na
      && (forall z :: z in na ==> Get(nf, z) == LastFailure(z, alerts, noteAlert, i + 1))
  {
    var na := alerted + Members(InScope(alerts[i].affectedZones, scope));
    var nf := failures + failed;
    forall z | z in na
      ensures Get(nf, z) == LastFailure(z, alerts, noteAlert, i + 1)
    {
      if z !in alerted {
        LastFailureIsLastNote(z, alerts, noteAlert, i);
      }
    }
  }

  /**
   * Notes each zone failure on the update, in no particular order. Succeeds
   * when every note succeeds; otherwise fails with the last error collected.
   */
  method NoteAlertUpdateFailures(
    failures: map<LocationZoneCode, string>,
    noteFailure: (LocationZoneCode, string) -> Result<(), UpdateWeatherError>)
    returns (r: Result<(), UpdateWeatherError>)
    ensures r.Ok? <==> forall z :: z in failures ==> noteFailure(z, failures[z]).Ok?
    ensures r.Err? ==> exists z :: z in failures && noteFailure(z, failures[z]) == Err(r.error)
  {
    var errors: seq<UpdateWeatherError> := [];
    var remaining := failures.Keys;
    while remaining != {}
      invariant remaining <= failures.Keys
      invariant |errors| == 0 <==> forall z :: z in failures.Keys - remaining ==> noteFailure(z, failures[z]).Ok?
      invariant forall k :: 0 <= k < |errors| ==> exists z :: z in failures && noteFailure(z, failures[z]) == Err(errors[k])
      decreases remaining
    {
      var zone :| zone in remaining;
      var outcome := noteFailure(zone, failures[zone]);
      if outcome.Err? {
        errors := errors + [outcome.error];
      }
      remaining := remaining - {zone};
    }
    if |errors| == 0 {
      r := Ok(());
    } else {
      r := Err(errors[|errors| - 1]);
    }
  }

  /**
   * The alert step of an update: fetch the active alerts, fan them out over
   * the zones, note the failures, then note that the alerts were reviewed.
   * Each step's failure ends the sequence.
   */
  method UpdateZoneAlerts(
    zones: seq<LocationZoneCode>,
    activeAlerts: Result<seq<WeatherAlert>, UpdateWeatherError>,
    noteAlert: (LocationZoneCode, Option<WeatherAlert>) -> Option<string>,
    noteFailure: (LocationZoneCode, string) -> Result<(), UpdateWeatherError>,
    noteReviewed: Result<(), UpdateWeatherError>)
    returns (r: Result<(), UpdateWeatherError>, failures: map<LocationZoneCode, string>)
    ensures activeAlerts.Err? ==> r == Err(activeAlerts.error) && failures == map[]
    ensures activeAlerts.Ok? ==> FailuresOfScope(zones, activeAlerts.value, noteAlert, failures)
    ensures activeAlerts.Ok? ==>
      (r.Ok? <==> (forall z :: z in failures ==> noteFailure(z, failures[z]).Ok?) && noteReviewed.Ok?)
    ensures activeAlerts.Ok? && r.Err? ==>
      (exists z :: z in failures && noteFailure(z, failures[z]) == Err(r.error)) || r == noteReviewed
    ensures r.Ok? ==> activeAlerts.Ok? && noteReviewed.Ok?
    ensures activeAlerts.Ok? && (exists z :: z in failures && noteFailure(z, failures[z]).Err?) ==>
      exists z :: z in failures && noteFailure(z, failures[z]) == Err(r.error)
    ensures activeAlerts.Ok? && (forall z :: z in failures ==> noteFailure(z, failures[z]).Ok?) ==> r == noteReviewed
  {
    if activeAlerts.Err? {
      return Err(activeAlerts.error), map[];
    }
    var alerted, unaffected;
    alerted, unaffected, failures := AlertScope(zones, activeAlerts.value, noteAlert);
    var noted := NoteAlertUpdateFailures(failures, noteFailure);
    if noted.Err? {
      return noted, failures;
    }
    r := noteReviewed;
  }
}
