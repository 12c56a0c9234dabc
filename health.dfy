/**
 * Health reporting of the server: each backing service is probed, grouped by
 * the health its probe gives, and the system is up only when every service
 * is up. A health maps to the HTTP status the health endpoints answer with.
 */
module Health {
  import opened Wrappers

  datatype HealthStatus = Up | NotReady | Error | Down

  /** The HTTP status of a health: 200 when up, 500 on an error, 503 when down or not ready. */
  function StatusCode(health: HealthStatus): (code: nat)
    ensures code == 200 <==> health == Up
    ensures code == 500 <==> health == Error
    ensures code == 503 <==> health == Down || health == NotReady
  {
    match health
    case Up => 200
    case Error => 500
    case Down => 503
    case NotReady => 503
  }

  /** A probe that succeeded means the service is up; any failure is an error. */
  function ServiceHealth(probe: Result<(), string>): (h: HealthStatus)
    ensures h == Up <==> probe.Ok?
    ensures h != Up ==> h == Error
  {
    if probe.Ok? then Up else Error
  }

  /** Each service named with the health of its probe. */
  function Checked(probes: seq<(string, Result<(), string>)>): (checked: seq<(string, HealthStatus)>)
    ensures |checked| == |probes|
    ensures forall i :: 0 <= i < |probes| ==> checked[i] == (probes[i].0, ServiceHealth(probes[i].1))
  {
    seq(|probes|, i requires 0 <= i < |probes| => (probes[i].0, ServiceHealth(probes[i].1)))
  }

  /** The report: services grouped under their health, each group in service order. */
  function GroupByHealth(checked: seq<(string, HealthStatus)>): map<HealthStatus, seq<string>>
    decreases |checked|
  {
    if |checked| == 0 then map[]
    else
      var m := GroupByHealth(checked[..|checked| - 1]);
      var last := checked[|checked| - 1];
      m[last.1 := (if last.1 in m then m[last.1] else []) + [last.0]]
  }

  /** The services whose health is `h`, in order. */
  function NamesWith(checked: seq<(string, HealthStatus)>, h: HealthStatus): seq<string>
    decreases |checked|
  {
    if |checked| == 0 then []
    else NamesWith(checked[..|checked| - 1], h) + (if checked[|checked| - 1].1 == h then [checked[|checked| - 1].0] else [])
  }

  /** The system is up when every group in the report is the up group, and down otherwise. */
  function SystemHealth(report: map<HealthStatus, seq<string>>): HealthStatus
  {
    if forall h :: h in report ==> h == Up then Up else Down
  }

  /**
   * The report has a group for exactly the healths that occur, and each group
   * lists exactly the services with that health, in order.
   */
  lemma {:induction false} ReportGroupsServices(checked: seq<(string, HealthStatus)>, h: HealthStatus)
    ensures h in GroupByHealth(checked) <==> exists i :: 0 <= i < |checked| && checked[i].1 == h
    ensures h in GroupByHealth(checked) ==> GroupByHealth(checked)[h] == NamesWith(checked, h)
    ensures h !in GroupByHealth(checked) ==> NamesWith(checked, h) == []
    decreases |checked|
  {
    if |checked| > 0 {
      var init := checked[..|checked| - 1];
      ReportGroupsServices(init, h);
      if exists i :: 0 <= i < |init| && init[i].1 == h {
        var i :| 0 <= i < |init| && init[i].1 == h;
        assert checked[i] == init[i];
      }
      if exists i :: 0 <= i < |checked| && checked[i].1 == h {
        var i :| 0 <= i < |checked| && checked[i].1 == h;
        if i < |init| {
          assert init[i] == checked[i];
        }
      }
    }
  }

  /** The system is up exactly when every service is up; it is never reported as error or not ready. */
  lemma SystemUpIffAllUp(checked: seq<(string, HealthStatus)>)
    ensures SystemHealth(GroupByHealth(checked)) == Up <==> forall i :: 0 <= i < |checked| ==> checked[i].1 == Up
    ensures SystemHealth(GroupByHealth(checked)) in {Up, Down}
  {
    forall h {
      ReportGroupsServices(checked, h);
    }
    if !(forall i :: 0 <= i < |checked| ==> checked[i].1 == Up) {
      var i :| 0 <= i < |checked| && checked[i].1 != Up;
      ReportGroupsServices(checked, checked[i].1);
    }
  }

  const ModelService := "model"
  const WeatherViewService := "weather_view"
  const MonitoredZonesViewService := "monitored_zones_view"

  /**
   * The health check over the three services: the event journal and the
   * zone-weather table are probed (the outcomes are parameters); the
   * monitored-zones view is not probed and always counts as up.
   */
  function CheckHealth(modelProbe: Result<(), string>, weatherViewProbe: Result<(), string>): (HealthStatus, map<HealthStatus, seq<string>>)
  {
    var report := GroupByHealth(Checked([(ModelService, modelProbe), (WeatherViewService, weatherViewProbe), (MonitoredZonesViewService, Ok(()))]));
    (SystemHealth(report), report)
  }

  /** The system is up exactly when both probes succeed, and the monitored-zones view is always listed as up. */
  lemma CheckHealthOutcome(modelProbe: Result<(), string>, weatherViewProbe: Result<(), string>)
    ensures CheckHealth(modelProbe, weatherViewProbe).0 == Up <==> modelProbe.Ok? && weatherViewProbe.Ok?
    ensures StatusCode(CheckHealth(modelProbe, weatherViewProbe).0) in {200, 503}
    ensures Up in CheckHealth(modelProbe, weatherViewProbe).1 &&
            MonitoredZonesViewService in CheckHealth(modelProbe, weatherViewProbe).1[Up]
  {
    var checked := Checked([(ModelService, modelProbe), (WeatherViewService, weatherViewProbe), (MonitoredZonesViewService, Ok(()))]);
    SystemUpIffAllUp(checked);
    ReportGroupsServices(checked, Up);
    assert checked[0] == (ModelService, ServiceHealth(modelProbe));
    assert checked[1] == (WeatherViewService, ServiceHealth(weatherViewProbe));
    assert checked[2] == (MonitoredZonesViewService, Up);
    assert checked[..2][..1] == checked[..1];
    assert NamesWith(checked, Up) == NamesWith(checked[..2], Up) + [MonitoredZonesViewService];
  }
}
