/**
 * The registrar decisions: start monitoring a zone, stop monitoring it, and
 * stop monitoring every zone. Each reads the whole registrar state and emits
 * at most one event.
 */
module RegistrarProtocol {
  import opened Wrappers
  import opened Model
  import opened RegistrarState

  datatype RegistrarError =
    | LocationZoneAlreadyMonitored(zone: LocationZoneCode)

  /** The state every registrar decision starts from before the stored events are folded in. */
  method StateQuery() returns (state: Registrar)
    ensures fresh(state) && state.locationCodes == {}
  {
    state := new Registrar();
  }

  /** Monitoring a zone that is already monitored is refused. */
  function ProcessMonitorForecastZone(zone: LocationZoneCode, codes: set<LocationZoneCode>): (r: Result<seq<RegistrarEvent>, RegistrarError>)
    ensures r.Err? <==> zone in codes
    ensures r.Err? ==> r.error == LocationZoneAlreadyMonitored(zone)
    ensures r.Ok? ==> r.value == [ForecastZoneAdded(zone)]
  {
    if zone in codes then Err(LocationZoneAlreadyMonitored(zone))
    else Ok([ForecastZoneAdded(zone)])
  }

  /** Ignoring a zone removes it if it is monitored; ignoring an unmonitored zone emits nothing. */
  function ProcessIgnoreForecastZone(zone: LocationZoneCode, codes: set<LocationZoneCode>): (r: Result<seq<RegistrarEvent>, RegistrarError>)
    ensures r.Ok?
    ensures zone in codes ==> r.value == [ForecastZoneRemoved(zone)]
    ensures zone !in codes ==> r.value == []
  {
    if zone in codes then Ok([ForecastZoneRemoved(zone)])
    else Ok([])
  }

  /** Clearing emits the clear event only when some zone is monitored. */
  function ProcessClearZoneMonitoring(codes: set<LocationZoneCode>): (r: Result<seq<RegistrarEvent>, RegistrarError>)
    ensures r.Ok?
    ensures codes != {} ==> r.value == [AllForecastZonesRemoved]
    ensures codes == {} ==> r.value == []
  {
    if codes != {} then Ok([AllForecastZonesRemoved])
    else Ok([])
  }

  /**
   * Once the emitted events are folded into the state, a monitored zone is
   * in the set, an ignored zone is out of it, and clearing leaves the set
   * empty; no other zone is affected by monitoring or ignoring.
   */
  lemma DecisionsReachTheirGoal(zone: LocationZoneCode, codes: set<LocationZoneCode>)
    ensures ProcessMonitorForecastZone(zone, codes).Ok? ==>
      Fold(codes, ProcessMonitorForecastZone(zone, codes).value) == codes + {zone}
    ensures Fold(codes, ProcessIgnoreForecastZone(zone, codes).value) == codes - {zone}
    ensures Fold(codes, ProcessClearZoneMonitoring(codes).value) == {}
  {
    FoldSnoc(codes, [], ForecastZoneAdded(zone));
    FoldSnoc(codes, [], ForecastZoneRemoved(zone));
    FoldSnoc(codes, [], AllForecastZonesRemoved);
  }

  /** Whatever the outcome, a monitored zone ends up monitored: refused only because it already was. */
  lemma MonitorEndsMonitored(zone: LocationZoneCode, codes: set<LocationZoneCode>)
    ensures var r := ProcessMonitorForecastZone(zone, codes);
      zone in (if r.Ok? then Fold(codes, r.value) else codes)
  {
    DecisionsReachTheirGoal(zone, codes);
  }

  /** Every decision emits at most one event. */
  lemma AtMostOneEvent(zone: LocationZoneCode, codes: set<LocationZoneCode>)
    ensures ProcessMonitorForecastZone(zone, codes).Ok? ==> |ProcessMonitorForecastZone(zone, codes).value| <= 1
    ensures |ProcessIgnoreForecastZone(zone, codes).value| <= 1
    ensures |ProcessClearZoneMonitoring(codes).value| <= 1
  {
  }
}
