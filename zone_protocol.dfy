/**
 * The decisions about one location zone: noting a new observation, a new
 * forecast, or the alert currently in force. Observation and forecast are
 * recorded unconditionally; an alert is recorded only when it changes whether
 * the zone has an active alert.
 */
module ZoneProtocol {
  import opened Wrappers
  import opened Model
  import opened Frame
  import opened Weather
  import opened ZoneState

  /** The failure type of the zone decisions; none of them ever produces one. */
  datatype LocationZoneError = LocationZoneError(message: string)

  datatype NoteObservation = NoteObservation(zone: LocationZoneCode, updateId: UpdateWeatherId, weather: WeatherFrame)

  datatype NoteForecast = NoteForecast(zone: LocationZoneCode, updateId: UpdateWeatherId, forecast: ZoneForecast)

  datatype NoteAlert = NoteAlert(zone: LocationZoneCode, updateId: UpdateWeatherId, alert: Option<WeatherAlert>)

  // ---------------------------------------------------------------------------
  // The states the decisions read, one per command's zone

  method ObservationStateQuery(cmd: NoteObservation) returns (state: LocationZoneWeather)
    ensures fresh(state) && state.zone == cmd.zone && state.weather == None
  {
    state := new LocationZoneWeather(cmd.zone);
  }

  method ForecastStateQuery(cmd: NoteForecast) returns (state: LocationZoneForecast)
    ensures fresh(state) && state.zone == cmd.zone && state.forecast == None
  {
    state := new LocationZoneForecast(cmd.zone);
  }

  method AlertStateQuery(cmd: NoteAlert) returns (state: LocationZoneAlert)
    ensures fresh(state) && state.zone == cmd.zone && state.alert == None
  {
    state := new LocationZoneAlert(cmd.zone);
  }

  // ---------------------------------------------------------------------------
  // The decisions

  /** Records the observation whatever the zone held before. */
  function ProcessNoteObservation(cmd: NoteObservation, state: Option<WeatherFrame>): Result<seq<WeatherEvent>, LocationZoneError>
  {
    Ok([ObservationUpdated(cmd.zone, cmd.updateId, cmd.weather)])
  }

  /** Records the forecast whatever the zone held before. */
  function ProcessNoteForecast(cmd: NoteForecast, state: Option<ZoneForecast>): Result<seq<WeatherEvent>, LocationZoneError>
  {
    Ok([ForecastUpdated(cmd.zone, cmd.updateId, cmd.forecast)])
  }

  /**
   * Activates a supplied alert when none is active, deactivates when one is
   * active and none is supplied, and otherwise emits nothing.
   */
  function ProcessNoteAlert(cmd: NoteAlert, state: Option<WeatherAlert>): (r: Result<seq<WeatherEvent>, LocationZoneError>)
    ensures r.Ok? && |r.value| <= 1
    ensures forall e <- r.value :: e.IsLocationZoneEvent() && e.zone == cmd.zone && e.updateId == cmd.updateId
  {
    match (state.Some?, cmd.alert)
    case (false, Some(alert)) => Ok([AlertActivated(cmd.zone, cmd.updateId, alert)])
    case (true, None) => Ok([AlertDeactivated(cmd.zone, cmd.updateId)])
    case _ => Ok([])
  }

  // ---------------------------------------------------------------------------
  // What the decisions guarantee

  /**
   * Noting an observation never fails, does not depend on the state, emits one
   * event for the command's zone and update, and leaves the zone holding that
   * observation.
   */
  lemma NoteObservationRecords(cmd: NoteObservation, state: Option<WeatherFrame>, other: Option<WeatherFrame>)
    ensures ProcessNoteObservation(cmd, state).Ok?
    ensures ProcessNoteObservation(cmd, state) == ProcessNoteObservation(cmd, other)
    ensures var events := ProcessNoteObservation(cmd, state).value;
      |events| == 1 && events[0].IsLocationZoneEvent() && events[0].zone == cmd.zone && events[0].updateId == cmd.updateId &&
      FoldWeather(state, [events[0]]) == Some(cmd.weather)
  {
  }

  lemma NoteForecastRecords(cmd: NoteForecast, state: Option<ZoneForecast>, other: Option<ZoneForecast>)
    ensures ProcessNoteForecast(cmd, state).Ok?
    ensures ProcessNoteForecast(cmd, state) == ProcessNoteForecast(cmd, other)
    ensures var events := ProcessNoteForecast(cmd, state).value;
      |events| == 1 && events[0].IsLocationZoneEvent() && events[0].zone == cmd.zone && events[0].updateId == cmd.updateId &&
      FoldForecast(state, [events[0]]) == Some(cmd.forecast)
  {
  }

  /**
   * The alert decision by cases: an activation only when none is active and
   * one is supplied, a deactivation only when one is active and none is
   * supplied, and nothing otherwise, even when a different alert is supplied
   * while one is active.
   */
  lemma NoteAlertCases(cmd: NoteAlert, state: Option<WeatherAlert>)
    ensures var events := ProcessNoteAlert(cmd, state).value;
      (cmd.alert.Some? ==> (events == [AlertActivated(cmd.zone, cmd.updateId, cmd.alert.value)] <==> state.None?)) &&
      ((exists e <- events :: e.AlertActivated?) <==> state.None? && cmd.alert.Some?) &&
      (events == [AlertDeactivated(cmd.zone, cmd.updateId)] <==> state.Some? && cmd.alert.None?) &&
      (events == [] <==> state.Some? == cmd.alert.Some?)
  {
  }

  /**
   * After the emitted events are folded into the zone's alert state, the zone
   * has an active alert exactly when one was supplied; an alert already in
   * force is kept rather than replaced.
   */
  lemma NoteAlertReachesRequestedState(cmd: NoteAlert, state: Option<WeatherAlert>)
    ensures var events := ProcessNoteAlert(cmd, state).value;
      var after := FoldAlert(state, events);
      (after.Some? <==> cmd.alert.Some?) &&
      after == (if state.Some? && cmd.alert.Some? then state else cmd.alert)
  {
    var events := ProcessNoteAlert(cmd, state).value;
    if |events| == 1 {
      assert events[1..] == [];
    }
  }
}
