/**
 * The in-memory projection of the monitored zones: a set kept in step with
 * the registrar's events, and handed out as a snapshot.
 */
module RegistrarReadModel {
  import opened Wrappers
  import opened Model
  import opened RegistrarState
  import opened RegistrarProtocol

  const MonitoredLocationZonesId := "monitored_location_zones"

  class MonitoredLocationZones {
    var zones: set<LocationZoneCode>

    /** The projection starts with no monitored zone. */
    constructor()
      ensures zones == {}
    {
      zones := {};
    }

    /** A snapshot of the monitored zones; later events do not change it. */
    method Monitored() returns (view: set<LocationZoneCode>)
      ensures view == zones
    {
      view := zones;
    }

    /** Applies one registrar event to the set; handling never fails. */
    method Handle(e: RegistrarEvent) returns (r: Result<(), RegistrarError>)
      modifies this
      ensures r.Ok? && zones == Apply(old(zones), e)
    {
      r := Ok(());
      match e
      case ForecastZoneAdded(zone) =>
        zones := zones + {zone};
      case ForecastZoneRemoved(zone) =>
        zones := zones - {zone};
      case AllForecastZonesRemoved =>
        zones := {};
    }
  }

  /**
   * Feeding the same events to a fresh registrar and a fresh projection leaves
   * them with the same zones, the registrar's fold over the events; a snapshot
   * taken before the events still shows the zones of that moment.
   */
  method ProjectionMirrorsRegistrar(events: seq<RegistrarEvent>) returns (registrar: Registrar, projection: MonitoredLocationZones, before: set<LocationZoneCode>)
    ensures fresh(registrar) && fresh(projection)
    ensures projection.zones == registrar.locationCodes == Fold({}, events)
    ensures before == {}
  {
    registrar := new Registrar();
    projection := new MonitoredLocationZones();
    before := projection.Monitored();
    var i := 0;
    while i < |events|
      invariant 0 <= i <= |events|
      invariant projection.zones == registrar.locationCodes == Fold({}, events[..i])
      invariant before == {}
    {
      FoldSnoc({}, events[..i], events[i]);
      assert events[..i + 1] == events[..i] + [events[i]];
      registrar.Mutate(events[i]);
      var _ := projection.Handle(events[i]);
      i := i + 1;
    }
    assert events[..i] == events;
  }
}
