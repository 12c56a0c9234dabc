/**
 * The events of the weather domain: per-zone observation, forecast and alert
 * updates, and the lifecycle events of a weather update across many zones.
 */
module Weather {
  import opened Model
  import opened Frame

  /** Identifier of one weather update (a generated unique text). */
  type UpdateWeatherId = string

  datatype WeatherEvent =
    | ObservationUpdated(zone: LocationZoneCode, updateId: UpdateWeatherId, weather: WeatherFrame)
    | ForecastUpdated(zone: LocationZoneCode, updateId: UpdateWeatherId, forecast: ZoneForecast)
    | AlertActivated(zone: LocationZoneCode, updateId: UpdateWeatherId, alert: WeatherAlert)
    | AlertDeactivated(zone: LocationZoneCode, updateId: UpdateWeatherId)
    | UpdateStarted(updateId: UpdateWeatherId, zones: seq<LocationZoneCode>)
    | AlertsReviewed(updateId: UpdateWeatherId)
    | UpdateLocationFailed(updateId: UpdateWeatherId, zone: LocationZoneCode, cause: string)
  {
    /** The update an event belongs to. */
    function UpdateId(): (id: UpdateWeatherId)
      ensures id == updateId
    {
      match this
      case AlertActivated(_, id, _) => id
      case AlertDeactivated(_, id) => id
      case AlertsReviewed(id) => id
      case ForecastUpdated(_, id, _) => id
      case UpdateLocationFailed(id, _, _) => id
      case ObservationUpdated(_, id, _) => id
      case UpdateStarted(id, _) => id
    }

    /** The zones an event concerns. */
    function Zones(): (zs: seq<LocationZoneCode>)
      ensures HasZone() ==> zs == [zone]
      ensures AlertsReviewed? ==> zs == []
      ensures UpdateStarted? ==> zs == zones
    {
      match this
      case AlertActivated(zone, _, _) => [zone]
      case AlertDeactivated(zone, _) => [zone]
      case AlertsReviewed(_) => []
      case ForecastUpdated(zone, _, _) => [zone]
      case UpdateLocationFailed(_, zone, _) => [zone]
      case ObservationUpdated(zone, _, _) => [zone]
      case UpdateStarted(_, zones) => zones
    }

    /** The variants that carry a single zone. */
    predicate HasZone()
    {
      !UpdateStarted? && !AlertsReviewed?
    }

    /** Membership in the group of events about one location zone. */
    predicate IsLocationZoneEvent()
    {
      ObservationUpdated? || ForecastUpdated? || AlertActivated? || AlertDeactivated?
    }

    /** Membership in the group of events about an update's lifecycle. */
    predicate IsUpdateWeatherEvent()
    {
      UpdateStarted? || AlertsReviewed? || UpdateLocationFailed?
    }

    /**
     * The domain identifiers the event store indexes an event by: every event
     * by its update, and the zone-carrying events also by their zone.
     */
    function DomainIdentifiers(): (ids: map<string, string>)
      ensures "update_id" in ids && ids["update_id"] == updateId
      ensures "zone" in ids <==> HasZone()
      ensures HasZone() ==> ids["zone"] == zone.code
      ensures ids.Keys <= {"update_id", "zone"}
    {
      if HasZone() then map["zone" := zone.code, "update_id" := updateId]
      else map["update_id" := updateId]
    }
  }

  /** Events about one location zone. */
  type LocationZoneEvent = e: WeatherEvent | e.IsLocationZoneEvent()
    witness AlertDeactivated(LocationZoneCode(""), "")

  /** The two event groups are disjoint, and every event belongs to one of them. */
  lemma GroupsPartitionEvents(e: WeatherEvent)
    ensures e.IsLocationZoneEvent() != e.IsUpdateWeatherEvent()
    ensures e.IsLocationZoneEvent() ==> e.HasZone() && |e.Zones()| == 1
  {
  }
}
