/**
 * The zone-weather projection: one row per location zone in the `zone_weather`
 * table, holding the zone's current observation, forecast and alert. Each
 * event upserts the one column it carries plus the row's timestamp; a newly
 * inserted row has no value in the other payload columns.
 *
 * The table is a map from zone to row; payloads are kept as values rather
 * than their JSON text, and `now` is a parameter.
 */
module ZoneReadModel {
  import opened Wrappers
  import opened Model
  import opened Frame
  import opened Weather
  import opened ZoneState
  import opened ZoneProtocol

  const ZoneWeatherView := "zone_weather"
  const PrimaryKey := "zone"
  const CurrentCol := "current"
  const ForecastCol := "forecast"
  const AlertCol := "alert"

  /** A row of the zone-weather table; a NULL column is `None`. */
  datatype ZoneWeatherRow = ZoneWeatherRow(
    current: Option<WeatherFrame>,
    forecast: Option<ZoneForecast>,
    alert: Option<WeatherAlert>,
    lastUpdatedAt: int)

  type ZoneTable = map<LocationZoneCode, ZoneWeatherRow>

  // ---------------------------------------------------------------------------
  // The three upserts

  /** Writes the observation of a zone; on conflict only it and the timestamp change. */
  function UpsertWeather(rows: ZoneTable, zone: LocationZoneCode, weather: WeatherFrame, now: int): (r: ZoneTable)
    ensures r.Keys == rows.Keys + {zone}
    ensures forall other :: other in rows && other != zone ==> r[other] == rows[other]
    ensures r[zone].current == Some(weather) && r[zone].lastUpdatedAt == now
    ensures zone in rows ==> r[zone].forecast == rows[zone].forecast && r[zone].alert == rows[zone].alert
    ensures zone !in rows ==> r[zone].forecast == None && r[zone].alert == None
  {
    if zone in rows then rows[zone := rows[zone].(current := Some(weather), lastUpdatedAt := now)]
    else rows[zone := ZoneWeatherRow(Some(weather), None, None, now)]
  }

  /** Writes the forecast of a zone; on conflict only it and the timestamp change. */
  function UpsertForecast(rows: ZoneTable, zone: LocationZoneCode, forecast: ZoneForecast, now: int): (r: ZoneTable)
    ensures r.Keys == rows.Keys + {zone}
    ensures forall other :: other in rows && other != zone ==> r[other] == rows[other]
    ensures r[zone].forecast == Some(forecast) && r[zone].lastUpdatedAt == now
    ensures zone in rows ==> r[zone].current == rows[zone].current && r[zone].alert == rows[zone].alert
    ensures zone !in rows ==> r[zone].current == None && r[zone].alert == None
  {
    if zone in rows then rows[zone := rows[zone].(forecast := Some(forecast), lastUpdatedAt := now)]
    else rows[zone := ZoneWeatherRow(None, Some(forecast), None, now)]
  }

  /** Writes (or, with `None`, clears) the alert of a zone; on conflict only it and the timestamp change. */
  function UpsertAlert(rows: ZoneTable, zone: LocationZoneCode, alert: Option<WeatherAlert>, now: int): (r: ZoneTable)
    ensures r.Keys == rows.Keys + {zone}
    ensures forall other :: other in rows && other != zone ==> r[other] == rows[other]
    ensures r[zone].alert == alert && r[zone].lastUpdatedAt == now
    ensures zone in rows ==> r[zone].current == rows[zone].current && r[zone].forecast == rows[zone].forecast
    ensures zone !in rows ==> r[zone].current == None && r[zone].forecast == None
  {
    if zone in rows then rows[zone := rows[zone].(alert := alert, lastUpdatedAt := now)]
    else rows[zone := ZoneWeatherRow(None, None, alert, now)]
  }

  /** How the table changes for one zone event. */
  function HandleRows(rows: ZoneTable, e: LocationZoneEvent, now: int): ZoneTable
  {
    match e
    case ObservationUpdated(zone, _, weather) => UpsertWeather(rows, zone, weather, now)
    case ForecastUpdated(zone, _, forecast) => UpsertForecast(rows, zone, forecast, now)
    case AlertActivated(zone, _, alert) => UpsertAlert(rows, zone, Some(alert), now)
    case AlertDeactivated(zone, _) => UpsertAlert(rows, zone, None, now)
  }

  /** The table after handling the events in order. */
  function ProjectAll(rows: ZoneTable, events: seq<LocationZoneEvent>, now: int): ZoneTable
    decreases |events|
  {
    if |events| == 0 then rows else ProjectAll(HandleRows(rows, events[0], now), events[1..], now)
  }

  // ---------------------------------------------------------------------------
  // What the projection guarantees

  /** The payload columns of a zone's row, with an absent row reading as all NULL. */
  function Payload(rows: ZoneTable, zone: LocationZoneCode): (Option<WeatherFrame>, Option<ZoneForecast>, Option<WeatherAlert>)
  {
    if zone in rows then (rows[zone].current, rows[zone].forecast, rows[zone].alert) else (None, None, None)
  }

  /** Handling the same event twice leaves the same payload as handling it once. */
  lemma HandleIdempotent(rows: ZoneTable, e: LocationZoneEvent, now: int, later: int)
    ensures HandleRows(HandleRows(rows, e, now), e, later).Keys == HandleRows(rows, e, now).Keys
    ensures forall zone :: Payload(HandleRows(HandleRows(rows, e, now), e, later), zone) == Payload(HandleRows(rows, e, now), zone)
  {
  }

  /** The events of a sequence that concern one zone, in order. */
  function ForZone(events: seq<LocationZoneEvent>, zone: LocationZoneCode): (r: seq<LocationZoneEvent>)
    ensures forall e <- r :: e.zone == zone
    decreases |events|
  {
    if |events| == 0 then []
    else if events[0].zone == zone then [events[0]] + ForZone(events[1..], zone)
    else ForZone(events[1..], zone)
  }

  /** The zones the events concern. */
  function EventZones(events: seq<LocationZoneEvent>): set<LocationZoneCode>
  {
    set i | 0 <= i < |events| :: events[i].zone
  }

  /**
   * The row of every zone mirrors the zone's states: its observation, forecast
   * and alert columns are the folds of that zone's events over what the row
   * held before, and a row exists for every zone an event concerns.
   */
  lemma {:induction false} ProjectionMirrorsZoneStates(rows: ZoneTable, events: seq<LocationZoneEvent>, now: int, zone: LocationZoneCode)
    ensures ProjectAll(rows, events, now).Keys == rows.Keys + EventZones(events)
    ensures var p := Payload(rows, zone);
      Payload(ProjectAll(rows, events, now), zone)
      == (FoldWeather(p.0, ForZone(events, zone)), FoldForecast(p.1, ForZone(events, zone)), FoldAlert(p.2, ForZone(events, zone)))
    decreases |events|
  {
    if |events| > 0 {
      var e := events[0];
      var next := HandleRows(rows, e, now);
      ProjectionMirrorsZoneStates(next, events[1..], now, zone);
      EventZonesCons(events);
      HandlePayload(rows, e, now, zone);
      if e.zone == zone {
        var tail := ForZone(events[1..], zone);
        assert ForZone(events, zone) == [e] + tail;
        assert ([e] + tail)[1..] == tail;
      }
    }
  }

  /** One event moves its own zone's payload one fold step and leaves every other zone's payload alone. */
  lemma HandlePayload(rows: ZoneTable, e: LocationZoneEvent, now: int, zone: LocationZoneCode)
    ensures HandleRows(rows, e, now).Keys == rows.Keys + {e.zone}
    ensures var p := Payload(rows, zone);
      Payload(HandleRows(rows, e, now), zone)
      == if e.zone == zone then (WeatherAfter(p.0, e), ForecastAfter(p.1, e), AlertAfter(p.2, e)) else p
  {
  }

  /** The zones of a non-empty sequence are its first event's zone and the zones of the rest. */
  lemma EventZonesCons(events: seq<LocationZoneEvent>)
    requires |events| > 0
    ensures EventZones(events) == {events[0].zone} + EventZones(events[1..])
  {
    forall z | z in EventZones(events) ensures z in {events[0].zone} + EventZones(events[1..]) {
      var i :| 0 <= i < |events| && events[i].zone == z;
      if i > 0 {
        assert events[1..][i - 1] == events[i];
      }
    }
    forall z | z in EventZones(events[1..]) ensures z in EventZones(events) {
      var i :| 0 <= i < |events[1..]| && events[1..][i].zone == z;
      assert events[i + 1] == events[1..][i];
    }
  }

  /** Starting from an empty table, every zone's row holds exactly what that zone's states hold after its events. */
  lemma ProjectionFromEmpty(events: seq<LocationZoneEvent>, now: int, zone: LocationZoneCode)
    ensures zone in ProjectAll(map[], events, now) <==> zone in EventZones(events)
    ensures Payload(ProjectAll(map[], events, now), zone)
            == (FoldWeather(None, ForZone(events, zone)), FoldForecast(None, ForZone(events, zone)), FoldAlert(None, ForZone(events, zone)))
  {
    ProjectionMirrorsZoneStates(map[], events, now, zone);
  }

  // ---------------------------------------------------------------------------
  // The projection

  class ZoneWeatherProjection {
    var rows: ZoneTable

    /** A projection over an empty zone-weather table. */
    constructor()
      ensures rows == map[]
    {
      rows := map[];
    }

    method UpdateOrInsertWeather(zone: LocationZoneCode, weather: WeatherFrame, now: int)
      modifies this
      ensures rows == UpsertWeather(old(rows), zone, weather, now)
    {
      if zone in rows {
        rows := rows[zone := rows[zone].(current := Some(weather), lastUpdatedAt := now)];
      } else {
        rows := rows[zone := ZoneWeatherRow(Some(weather), None, None, now)];
      }
    }

    method UpdateOrInsertForecast(zone: LocationZoneCode, forecast: ZoneForecast, now: int)
      modifies this
      ensures rows == UpsertForecast(old(rows), zone, forecast, now)
    {
      if zone in rows {
        rows := rows[zone := rows[zone].(forecast := Some(forecast), lastUpdatedAt := now)];
      } else {
        rows := rows[zone := ZoneWeatherRow(None, Some(forecast), None, now)];
      }
    }

    method UpdateOrInsertAlert(zone: LocationZoneCode, alert: Option<WeatherAlert>, now: int)
      modifies this
      ensures rows == UpsertAlert(old(rows), zone, alert, now)
    {
      if zone in rows {
        rows := rows[zone := rows[zone].(alert := alert, lastUpdatedAt := now)];
      } else {
        rows := rows[zone := ZoneWeatherRow(None, None, alert, now)];
      }
    }

    /** Folds one zone event into the table. */
    method Handle(e: LocationZoneEvent, now: int) returns (r: Result<(), LocationZoneError>)
      modifies this
      ensures r.Ok? && rows == HandleRows(old(rows), e, now)
    {
      r := Ok(());
      match e
      case ObservationUpdated(zone, _, weather) =>
        UpdateOrInsertWeather(zone, weather, now);
      case ForecastUpdated(zone, _, forecast) =>
        UpdateOrInsertForecast(zone, forecast, now);
      case AlertActivated(zone, _, alert) =>
        UpdateOrInsertAlert(zone, Some(alert), now);
      case AlertDeactivated(zone, _) =>
        UpdateOrInsertAlert(zone, None, now);
    }
  }
}
