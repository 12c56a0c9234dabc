/**
 * The registrar: the single aggregate that records which location zones are
 * monitored for weather updates. Its state is the set of monitored zones,
 * folded from zone-added, zone-removed and all-zones-removed events.
 */
module RegistrarState {
  import opened Model

  datatype RegistrarEvent =
    | ForecastZoneAdded(zone: LocationZoneCode)
    | ForecastZoneRemoved(zone: LocationZoneCode)
    | AllForecastZonesRemoved

  /** The identifier of the one registrar there is. */
  const RegistrarSingletonId := "<singleton>"

  /** Every registrar identifier the generator hands out is the singleton one. */
  function NextIdRep(): (id: string)
    ensures id == RegistrarSingletonId && |id| == 11
  {
    RegistrarSingletonId
  }

  /** The monitored zones after one more event. */
  function Apply(codes: set<LocationZoneCode>, e: RegistrarEvent): set<LocationZoneCode>
  {
    match e
    case ForecastZoneAdded(zone) => codes + {zone}
    case ForecastZoneRemoved(zone) => codes - {zone}
    case AllForecastZonesRemoved => {}
  }

  /** The monitored zones after the events, in order. */
  function Fold(codes: set<LocationZoneCode>, events: seq<RegistrarEvent>): set<LocationZoneCode>
    decreases |events|
  {
    if |events| == 0 then codes else Fold(Apply(codes, events[0]), events[1..])
  }

  /**
   * Membership after an event: an added zone is in, a removed zone is out,
   * nothing survives clearing, and no other zone changes.
   */
  lemma ApplyMembership(codes: set<LocationZoneCode>, e: RegistrarEvent, z: LocationZoneCode)
    ensures e.ForecastZoneAdded? ==> (z in Apply(codes, e) <==> z == e.zone || z in codes)
    ensures e.ForecastZoneRemoved? ==> (z in Apply(codes, e) <==> z != e.zone && z in codes)
    ensures e.AllForecastZonesRemoved? ==> z !in Apply(codes, e)
  {
  }

  /** Adding or removing the same zone again changes nothing; removing an absent zone changes nothing. */
  lemma ApplyIdempotent(codes: set<LocationZoneCode>, e: RegistrarEvent)
    ensures Apply(Apply(codes, e), e) == Apply(codes, e)
    ensures e.ForecastZoneRemoved? && e.zone !in codes ==> Apply(codes, e) == codes
    ensures e.ForecastZoneAdded? && e.zone in codes ==> Apply(codes, e) == codes
  {
  }

  /** Folding appends: one more event after the fold. */
  lemma {:induction false} FoldSnoc(codes: set<LocationZoneCode>, events: seq<RegistrarEvent>, e: RegistrarEvent)
    ensures Fold(codes, events + [e]) == Apply(Fold(codes, events), e)
    decreases |events|
  {
    if |events| == 0 {
      assert (events + [e])[1..] == [];
    } else {
      assert (events + [e])[1..] == events[1..] + [e];
      FoldSnoc(Apply(codes, events[0]), events[1..], e);
    }
  }

  /** The registrar state: the set of monitored zones. */
  class Registrar {
    var locationCodes: set<LocationZoneCode>

    /** The default registrar monitors no zone. */
    constructor()
      ensures locationCodes == {}
    {
      locationCodes := {};
    }

    method Mutate(e: RegistrarEvent)
      modifies this
      ensures locationCodes == Apply(old(locationCodes), e)
    {
      match e
      case ForecastZoneAdded(zone) =>
        locationCodes := locationCodes + {zone};
      case ForecastZoneRemoved(zone) =>
        locationCodes := locationCodes - {zone};
      case AllForecastZonesRemoved =>
        locationCodes := {};
    }
  }
}
