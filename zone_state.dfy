/**
 * The per-zone states the zone decisions read: the latest observation, the
 * latest forecast, and the currently active alert of one location zone. Each
 * is folded from the zone's events and keeps only the payload of the last
 * event that concerns it.
 */
module ZoneState {
  import opened Wrappers
  import opened Model
  import opened Frame
  import opened Weather

  // ---------------------------------------------------------------------------
  // The folds, as functions

  /** The observation a zone holds after one more event. */
  function WeatherAfter(weather: Option<WeatherFrame>, e: LocationZoneEvent): Option<WeatherFrame>
  {
    if e.ObservationUpdated? then Some(e.weather) else weather
  }

  function ForecastAfter(forecast: Option<ZoneForecast>, e: LocationZoneEvent): Option<ZoneForecast>
  {
    if e.ForecastUpdated? then Some(e.forecast) else forecast
  }

  function AlertAfter(alert: Option<WeatherAlert>, e: LocationZoneEvent): Option<WeatherAlert>
  {
    match e
    case AlertActivated(_, _, a) => Some(a)
    case AlertDeactivated(_, _) => None
    case _ => alert
  }

  function FoldWeather(weather: Option<WeatherFrame>, events: seq<LocationZoneEvent>): Option<WeatherFrame>
    decreases |events|
  {
    if |events| == 0 then weather else FoldWeather(WeatherAfter(weather, events[0]), events[1..])
  }

  function FoldForecast(forecast: Option<ZoneForecast>, events: seq<LocationZoneEvent>): Option<ZoneForecast>
    decreases |events|
  {
    if |events| == 0 then forecast else FoldForecast(ForecastAfter(forecast, events[0]), events[1..])
  }

  function FoldAlert(alert: Option<WeatherAlert>, events: seq<LocationZoneEvent>): Option<WeatherAlert>
    decreases |events|
  {
    if |events| == 0 then alert else FoldAlert(AlertAfter(alert, events[0]), events[1..])
  }

  // ---------------------------------------------------------------------------
  // Last write wins

  predicate IsObservation(e: LocationZoneEvent)
  {
    e.ObservationUpdated?
  }

  predicate IsForecast(e: LocationZoneEvent)
  {
    e.ForecastUpdated?
  }

  /** The payload of the last observation among the events, if there is one. */
  function LastObservation(events: seq<LocationZoneEvent>): (r: Option<WeatherFrame>)
    ensures r.Some? <==> exists i :: 0 <= i < |events| && IsObservation(events[i])
    ensures r.Some? ==> exists i :: 0 <= i < |events| && IsObservation(events[i]) && events[i].weather == r.value &&
                         forall k :: i < k < |events| ==> !IsObservation(events[k])
    decreases |events|
  {
    if |events| == 0 then None
    else
      var last := events[|events| - 1];
      if IsObservation(last) then Some(last.weather)
      else
        var r := LastObservation(events[..|events| - 1]);
        assert forall i :: 0 <= i < |events| - 1 ==> events[..|events| - 1][i] == events[i];
        r
  }

  /** The payload of the last forecast among the events, if there is one. */
  function LastForecast(events: seq<LocationZoneEvent>): (r: Option<ZoneForecast>)
    ensures r.Some? <==> exists i :: 0 <= i < |events| && IsForecast(events[i])
    ensures r.Some? ==> exists i :: 0 <= i < |events| && IsForecast(events[i]) && events[i].forecast == r.value &&
                         forall k :: i < k < |events| ==> !IsForecast(events[k])
    decreases |events|
  {
    if |events| == 0 then None
    else
      var last := events[|events| - 1];
      if IsForecast(last) then Some(last.forecast)
      else
        var r := LastForecast(events[..|events| - 1]);
        assert forall i :: 0 <= i < |events| - 1 ==> events[..|events| - 1][i] == events[i];
        r
  }

  predicate IsAlertEvent(e: LocationZoneEvent)
  {
    e.AlertActivated? || e.AlertDeactivated?
  }

  /**
   * The last alert event among the events, if there is one: `Some(Some(a))`
   * for an activation of `a`, `Some(None)` for a deactivation.
   */
  function LastAlertEvent(events: seq<LocationZoneEvent>): (r: Option<Option<WeatherAlert>>)
    ensures r.Some? <==> exists i :: 0 <= i < |events| && IsAlertEvent(events[i])
    ensures r.Some? ==> exists i :: 0 <= i < |events| && IsAlertEvent(events[i]) &&
                         (r.value.Some? <==> events[i].AlertActivated?) &&
                         (r.value.Some? ==> events[i].alert == r.value.value) &&
                         forall k :: i < k < |events| ==> !IsAlertEvent(events[k])
    decreases |events|
  {
    if |events| == 0 then None
    else
      var last := events[|events| - 1];
      if last.AlertActivated? then Some(Some(last.alert))
      else if last.AlertDeactivated? then Some(None)
      else
        var r := LastAlertEvent(events[..|events| - 1]);
        assert forall i :: 0 <= i < |events| - 1 ==> events[..|events| - 1][i] == events[i];
        r
  }

  /** Folding appends: the fold over `events + [e]` is one more step after the fold over `events`. */
  lemma {:induction false} FoldWeatherSnoc(weather: Option<WeatherFrame>, events: seq<LocationZoneEvent>, e: LocationZoneEvent)
    ensures FoldWeather(weather, events + [e]) == WeatherAfter(FoldWeather(weather, events), e)
    decreases |events|
  {
    if |events| == 0 {
      assert (events + [e])[1..] == [];
    } else {
      assert (events + [e])[1..] == events[1..] + [e];
      FoldWeatherSnoc(WeatherAfter(weather, events[0]), events[1..], e);
    }
  }

  lemma {:induction false} FoldForecastSnoc(forecast: Option<ZoneForecast>, events: seq<LocationZoneEvent>, e: LocationZoneEvent)
    ensures FoldForecast(forecast, events + [e]) == ForecastAfter(FoldForecast(forecast, events), e)
    decreases |events|
  {
    if |events| == 0 {
      assert (events + [e])[1..] == [];
    } else {
      assert (events + [e])[1..] == events[1..] + [e];
      FoldForecastSnoc(ForecastAfter(forecast, events[0]), events[1..], e);
    }
  }

  lemma {:induction false} FoldAlertSnoc(alert: Option<WeatherAlert>, events: seq<LocationZoneEvent>, e: LocationZoneEvent)
    ensures FoldAlert(alert, events + [e]) == AlertAfter(FoldAlert(alert, events), e)
    decreases |events|
  {
    if |events| == 0 {
      assert (events + [e])[1..] == [];
    } else {
      assert (events + [e])[1..] == events[1..] + [e];
      FoldAlertSnoc(AlertAfter(alert, events[0]), events[1..], e);
    }
  }

  /** After any events a zone holds the last observation, or what it held before if there was none. */
  lemma {:induction false} WeatherLastWriteWins(weather: Option<WeatherFrame>, events: seq<LocationZoneEvent>)
    ensures FoldWeather(weather, events) == if LastObservation(events).Some? then LastObservation(events) else weather
    decreases |events|
  {
    if |events| > 0 {
      var init := events[..|events| - 1];
      assert events == init + [events[|events| - 1]];
      FoldWeatherSnoc(weather, init, events[|events| - 1]);
      WeatherLastWriteWins(weather, init);
    }
  }

  lemma {:induction false} ForecastLastWriteWins(forecast: Option<ZoneForecast>, events: seq<LocationZoneEvent>)
    ensures FoldForecast(forecast, events) == if LastForecast(events).Some? then LastForecast(events) else forecast
    decreases |events|
  {
    if |events| > 0 {
      var init := events[..|events| - 1];
      assert events == init + [events[|events| - 1]];
      FoldForecastSnoc(forecast, init, events[|events| - 1]);
      ForecastLastWriteWins(forecast, init);
    }
  }

  /** After any events a zone holds the alert of the last alert event, or what it held before if there was none. */
  lemma {:induction false} AlertLastWriteWins(alert: Option<WeatherAlert>, events: seq<LocationZoneEvent>)
    ensures FoldAlert(alert, events) == if LastAlertEvent(events).Some? then LastAlertEvent(events).value else alert
    decreases |events|
  {
    if |events| > 0 {
      var init := events[..|events| - 1];
      assert events == init + [events[|events| - 1]];
      FoldAlertSnoc(alert, init, events[|events| - 1]);
      AlertLastWriteWins(alert, init);
    }
  }

  // ---------------------------------------------------------------------------
  // The state objects

  /** The latest observation of a zone. */
  class LocationZoneWeather {
    const zone: LocationZoneCode
    var weather: Option<WeatherFrame>

    /** A zone with no observation yet. */
    constructor(zone: LocationZoneCode)
      ensures this.zone == zone && weather == None
    {
      this.zone := zone;
      weather := None;
    }

    /** Only an observation changes the state, replacing the stored one. */
    method Mutate(e: LocationZoneEvent)
      modifies this
      ensures weather == WeatherAfter(old(weather), e)
    {
      if e.ObservationUpdated? {
        weather := Some(e.weather);
      }
    }
  }

  /** The latest forecast of a zone. */
  class LocationZoneForecast {
    const zone: LocationZoneCode
    var forecast: Option<ZoneForecast>

    constructor(zone: LocationZoneCode)
      ensures this.zone == zone && forecast == None
    {
      this.zone := zone;
      forecast := None;
    }

    /** Only a forecast changes the state, replacing the stored one. */
    method Mutate(e: LocationZoneEvent)
      modifies this
      ensures forecast == ForecastAfter(old(forecast), e)
    {
      if e.ForecastUpdated? {
        forecast := Some(e.forecast);
      }
    }
  }

  /** The active alert of a zone, if any. */
  class LocationZoneAlert {
    const zone: LocationZoneCode
    var alert: Option<WeatherAlert>

    constructor(zone: LocationZoneCode)
      ensures this.zone == zone && alert == None && !ActiveAlert()
    {
      this.zone := zone;
      alert := None;
    }

    predicate ActiveAlert()
      reads this
    {
      alert.Some?
    }

    /** An activation stores its alert, a deactivation clears it, other events are ignored. */
    method Mutate(e: LocationZoneEvent)
      modifies this
      ensures alert == AlertAfter(old(alert), e)
      ensures ActiveAlert() <==> e.AlertActivated? || (!e.AlertDeactivated? && old(ActiveAlert()))
    {
      match e
      case AlertActivated(_, _, a) =>
        alert := Some(a);
      case AlertDeactivated(_, _) =>
        alert := None;
      case _ =>
    }
  }
}
