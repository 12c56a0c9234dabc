/**
 * The update-history projection: one row per weather update in the
 * `update_weather_history` table, holding the update's phase, the JSON form of
 * its per-zone statuses, and the time the row was last written. Each event of
 * an update is folded into its row by replaying it through the status object.
 *
 * The table is a map from update id to row; `now`, the clock reading taken
 * when a row is written, is a parameter.
 */
module UpdateReadModel {
  import opened Wrappers
  import opened JsonValues
  import opened Model
  import opened Weather
  import opened LocationStatuses
  import opened UpdateState

  const UpdateWeatherHistory := "update_weather_history"
  const PrimaryKey := "update_id"
  const StateCol := "state"
  const UpdateStatusesCol := "update_statuses"
  const LastUpdatedAtCol := "last_updated_at"

  const LocationStatusesField := "location_statuses"
  const AlertsReviewedField := "alerts_reviewed"

  // ---------------------------------------------------------------------------
  // The JSON form of an update's status

  /** A status as a two-field object: the zone map and the alerts flag. */
  function EncodeStatus(v: StatusValue): (j: Json)
    ensures j.JObject? && Keys(j.entries) == [LocationStatusesField, AlertsReviewedField]
  {
    JObject([(LocationStatusesField, Encode(v.locationStatuses)), (AlertsReviewedField, JBool(v.alertsReviewed))])
  }

  /** A decoded zone map has unique zones, each at a reachable status. */
  lemma DecodedMapValid(j: Json)
    ensures DecodeMap(j).Ok? ==> UniqueZones(DecodeMap(j).value) && AllReachable(DecodeMap(j).value)
  {
    if j.JObject? {
      DecodedEntriesReachable([], j.entries);
    }
  }

  /** The fields the struct visitor has filled in so far. */
  datatype StatusSlots = StatusSlots(locationStatuses: Option<seq<LocationStatus>>, alertsReviewed: Option<bool>)

  predicate SlotsValid(slots: StatusSlots)
  {
    slots.locationStatuses.Some? ==>
      UniqueZones(slots.locationStatuses.value) && AllReachable(slots.locationStatuses.value)
  }

  /**
   * Handles one entry: a known field fills its slot once (a second occurrence
   * is an error); entries with other keys are skipped.
   */
  function ScanStatusEntry(slots: StatusSlots, key: string, value: Json): (r: Result<StatusSlots, DecodeError>)
    requires SlotsValid(slots)
    ensures r.Ok? ==> SlotsValid(r.value)
  {
    if key == LocationStatusesField then
      if slots.locationStatuses.Some? then Err(DuplicateField(LocationStatusesField))
      else match DecodeMap(value)
        case Err(e) => Err(e)
        case Ok(m) => DecodedMapValid(value); Ok(slots.(locationStatuses := Some(m)))
    else if key == AlertsReviewedField then
      if slots.alertsReviewed.Some? then Err(DuplicateField(AlertsReviewedField))
      else if value.JBool? then Ok(slots.(alertsReviewed := Some(value.b)))
      else Err(InvalidType("a boolean"))
    else Ok(slots)
  }

  function ScanStatusEntries(slots: StatusSlots, entries: seq<(string, Json)>): (r: Result<StatusSlots, DecodeError>)
    requires SlotsValid(slots)
    ensures r.Ok? ==> SlotsValid(r.value)
    decreases |entries|
  {
    if |entries| == 0 then Ok(slots)
    else match ScanStatusEntry(slots, entries[0].0, entries[0].1)
      case Err(e) => Err(e)
      case Ok(next) => ScanStatusEntries(next, entries[1..])
  }

  /** Reads a status from its object form; both fields must be present. */
  function DecodeStatus(j: Json): (r: Result<StatusValue, DecodeError>)
    ensures r.Ok? ==> ValidStatus(r.value)
    ensures !j.JObject? ==> r.Err?
  {
    if !j.JObject? then Err(InvalidType("struct WeatherUpdateStatus"))
    else match ScanStatusEntries(StatusSlots(None, None), j.entries)
      case Err(e) => Err(e)
      case Ok(slots) =>
        if slots.locationStatuses.None? then Err(MissingField(LocationStatusesField))
        else if slots.alertsReviewed.None? then Err(MissingField(AlertsReviewedField))
        else Ok(StatusValue(slots.locationStatuses.value, slots.alertsReviewed.value))
  }

  /** Every valid status survives a trip through its JSON form. */
  lemma StatusRoundTrip(v: StatusValue)
    requires ValidStatus(v)
    ensures DecodeStatus(EncodeStatus(v)) == Ok(v)
  {
    RoundTripMap(v.locationStatuses);
    var entries := EncodeStatus(v).entries;
    assert entries[1..][1..] == [];
    var afterFirst := StatusSlots(Some(v.locationStatuses), None);
    assert ScanStatusEntry(StatusSlots(None, None), entries[0].0, entries[0].1) == Ok(afterFirst);
    var full := StatusSlots(Some(v.locationStatuses), Some(v.alertsReviewed));
    assert ScanStatusEntry(afterFirst, entries[1].0, entries[1].1) == Ok(full);
    assert ScanStatusEntries(full, entries[1..][1..]) == Ok(full);
    assert ScanStatusEntries(afterFirst, entries[1..]) == Ok(full);
    assert ScanStatusEntries(StatusSlots(None, None), entries) == Ok(full);
  }

  // ---------------------------------------------------------------------------
  // Rows and views

  /**
   * A row of the history table. A column written as NULL is `None`; the phase
   * is stored by name and the statuses as JSON.
   */
  datatype HistoryRow = HistoryRow(state: Option<string>, updateStatuses: Option<Json>, lastUpdatedAt: int)

  /** A row as the projection reads it back. */
  datatype StatusView = StatusView(updateId: UpdateWeatherId, state: Discriminant, updateStatuses: StatusValue, lastUpdatedAt: int)

  /**
   * Reads a row into a view. A NULL column, an unknown phase name or statuses
   * that do not decode make the whole read fail.
   */
  function ViewOf(id: UpdateWeatherId, row: HistoryRow): (r: Result<StatusView, DecodeError>)
    ensures r.Ok? ==> ValidStatus(r.value.updateStatuses) && r.value.updateId == id && r.value.lastUpdatedAt == row.lastUpdatedAt
    ensures r.Ok? ==> row.state == Some(DiscriminantName(r.value.state))
    ensures r.Ok? ==> row.updateStatuses.Some? && DecodeStatus(row.updateStatuses.value) == Ok(r.value.updateStatuses)
  {
    match row.state
    case None => Err(MissingField(StateCol))
    case Some(name) =>
      match ParseDiscriminant(name)
      case None => Err(UnknownVariant(name))
      case Some(state) =>
        match row.updateStatuses
        case None => Err(MissingField(UpdateStatusesCol))
        case Some(j) =>
          match DecodeStatus(j)
          case Err(e) => Err(e)
          case Ok(status) => Ok(StatusView(id, state, status, row.lastUpdatedAt))
  }

  /** The view of an update's row, if it has one. */
  function FetchView(rows: map<UpdateWeatherId, HistoryRow>, id: UpdateWeatherId): (r: Result<Option<StatusView>, DecodeError>)
    ensures id !in rows ==> r == Ok(None)
    ensures id in rows ==> (r.Ok? <==> ViewOf(id, rows[id]).Ok?)
    ensures r.Ok? && r.value.Some? ==> id in rows && ViewOf(id, rows[id]) == Ok(r.value.value)
  {
    if id !in rows then Ok(None)
    else match ViewOf(id, rows[id])
      case Err(e) => Err(e)
      case Ok(view) => Ok(Some(view))
  }

  /**
   * Insert-or-update of one row. A new row takes every column as given (absent
   * ones are NULL). On a key conflict the timestamp is always refreshed, and
   * the phase and the statuses are overwritten only when given.
   */
  function Upsert(rows: map<UpdateWeatherId, HistoryRow>, id: UpdateWeatherId, state: Option<Discriminant>,
                  status: Option<StatusValue>, now: int): (r: map<UpdateWeatherId, HistoryRow>)
    ensures r.Keys == rows.Keys + {id}
    ensures forall other :: other in rows && other != id ==> r[other] == rows[other]
    ensures r[id].lastUpdatedAt == now
    ensures state.Some? ==> r[id].state == Some(DiscriminantName(state.value))
    ensures state.None? ==> r[id].state == (if id in rows then rows[id].state else None)
    ensures status.Some? ==> r[id].updateStatuses == Some(EncodeStatus(status.value))
    ensures status.None? ==> r[id].updateStatuses == (if id in rows then rows[id].updateStatuses else None)
  {
    var stateRep := if state.Some? then Some(DiscriminantName(state.value)) else None;
    var statusRep := if status.Some? then Some(EncodeStatus(status.value)) else None;
    if id in rows then
      var old_ := rows[id];
      rows[id := HistoryRow(if state.Some? then stateRep else old_.state,
                            if status.Some? then statusRep else old_.updateStatuses,
                            now)]
    else
      rows[id := HistoryRow(stateRep, statusRep, now)]
  }

  /** The zones of an event that is not a start: its own zone, if it has one. */
  lemma EventZonesDistinct(e: WeatherEvent)
    requires !e.UpdateStarted?
    ensures DistinctZones(e.Zones())
  {
  }

  /**
   * How the table changes when the projection handles an event. A start
   * (re)writes the row as active with fresh statuses; any other event is
   * applied to the stored statuses, writing the phase only when it changed;
   * an event for an update with no row starts from the event's own zones.
   * A stored row that cannot be read fails the whole event.
   */
  function HandleOutcome(rows: map<UpdateWeatherId, HistoryRow>, e: WeatherEvent, now: int): Result<map<UpdateWeatherId, HistoryRow>, DecodeError>
    requires e.UpdateStarted? ==> DistinctZones(e.zones)
  {
    var id := e.UpdateId();
    match FetchView(rows, id)
    case Err(err) => Err(err)
    case Ok(view) =>
      if e.UpdateStarted? then
        Ok(Upsert(rows, id, Some(Active), Some(StatusValue(InitialStatuses(e.zones), false)), now))
      else if view.Some? then
        var o := MutateOutcome(view.value.updateStatuses, e);
        Ok(Upsert(rows, view.value.updateId, if view.value.state != o.next then Some(o.next) else None, Some(o.status), now))
      else
        EventZonesDistinct(e);
        InitialStatusesValid(e.Zones());
        var o := MutateOutcome(StatusValue(InitialStatuses(e.Zones()), false), e);
        Ok(Upsert(rows, id, Some(o.next), Some(o.status), now))
  }

  // ---------------------------------------------------------------------------
  // What handling an event guarantees

  /** Handling an event touches only that event's row, and fails only on a stored row it cannot read. */
  lemma HandleTouchesOnlyItsRow(rows: map<UpdateWeatherId, HistoryRow>, e: WeatherEvent, now: int)
    requires e.UpdateStarted? ==> DistinctZones(e.zones)
    ensures HandleOutcome(rows, e, now).Err? <==> e.UpdateId() in rows && ViewOf(e.UpdateId(), rows[e.UpdateId()]).Err?
    ensures HandleOutcome(rows, e, now).Ok? ==>
      var r := HandleOutcome(rows, e, now).value;
      r.Keys == rows.Keys + {e.UpdateId()} &&
      (forall other :: other in rows && other != e.UpdateId() ==> r[other] == rows[other]) &&
      r[e.UpdateId()].lastUpdatedAt == now
  {
  }

  /** After a start, the row reads back as an active update with every zone at its default status. */
  lemma HandleStartWritesActive(rows: map<UpdateWeatherId, HistoryRow>, e: WeatherEvent, now: int)
    requires e.UpdateStarted? && DistinctZones(e.zones)
    requires e.updateId !in rows || ViewOf(e.updateId, rows[e.updateId]).Ok?
    ensures HandleOutcome(rows, e, now).Ok?
    ensures ViewOf(e.updateId, HandleOutcome(rows, e, now).value[e.updateId])
            == Ok(StatusView(e.updateId, Active, StatusValue(InitialStatuses(e.zones), false), now))
  {
    InitialStatusesValid(e.zones);
    StatusRoundTrip(StatusValue(InitialStatuses(e.zones), false));
  }

  /**
   * The row of an update mirrors its status object: handling any other event
   * leaves a row that reads back as the stored view's statuses mutated by the
   * event, in the phase that mutation asks for.
   */
  lemma HandleMirrorsMutation(rows: map<UpdateWeatherId, HistoryRow>, e: WeatherEvent, now: int, view: StatusView)
    requires !e.UpdateStarted?
    requires e.UpdateId() in rows && ViewOf(e.UpdateId(), rows[e.UpdateId()]) == Ok(view)
    ensures HandleOutcome(rows, e, now).Ok?
    ensures var o := MutateOutcome(view.updateStatuses, e);
      ViewOf(e.UpdateId(), HandleOutcome(rows, e, now).value[e.UpdateId()])
      == Ok(StatusView(e.UpdateId(), o.next, o.status, now))
  {
    var id := e.UpdateId();
    var o := MutateOutcome(view.updateStatuses, e);
    assert FetchView(rows, id) == Ok(Some(view));
    var r := Upsert(rows, id, if view.state != o.next then Some(o.next) else None, Some(o.status), now);
    assert HandleOutcome(rows, e, now) == Ok(r);
    assert r[id].state == Some(DiscriminantName(o.next));
    MutateKeepsValid(view.updateStatuses, e);
    ViewOfWritten(id, r[id], o.next, o.status);
  }

  /** A row holding a phase's name and a valid status's JSON reads back as exactly that phase and status. */
  lemma ViewOfWritten(id: UpdateWeatherId, row: HistoryRow, state: Discriminant, status: StatusValue)
    requires ValidStatus(status)
    requires row.state == Some(DiscriminantName(state)) && row.updateStatuses == Some(EncodeStatus(status))
    ensures ViewOf(id, row) == Ok(StatusView(id, state, status, row.lastUpdatedAt))
  {
    StatusRoundTrip(status);
  }

  /** An event for an update with no row creates the row from the event's own zones. */
  lemma HandleWithoutRowStartsFromEvent(rows: map<UpdateWeatherId, HistoryRow>, e: WeatherEvent, now: int)
    requires !e.UpdateStarted? && e.UpdateId() !in rows
    ensures HandleOutcome(rows, e, now).Ok?
    ensures DistinctZones(e.Zones())
    ensures var o := MutateOutcome(StatusValue(InitialStatuses(e.Zones()), false), e);
      ViewOf(e.UpdateId(), HandleOutcome(rows, e, now).value[e.UpdateId()])
      == Ok(StatusView(e.UpdateId(), o.next, o.status, now))
  {
    var id := e.UpdateId();
    EventZonesDistinct(e);
    InitialStatusesValid(e.Zones());
    var v := StatusValue(InitialStatuses(e.Zones()), false);
    var o := MutateOutcome(v, e);
    assert FetchView(rows, id) == Ok(None);
    var r := Upsert(rows, id, Some(o.next), Some(o.status), now);
    assert HandleOutcome(rows, e, now) == Ok(r);
    MutateKeepsValid(v, e);
    ViewOfWritten(id, r[id], o.next, o.status);
  }

  /**
   * The projection does not keep a finished update finished: a further event
   * that leaves a zone in progress writes the phase back to active.
   */
  lemma FinishedRowCanReopen(rows: map<UpdateWeatherId, HistoryRow>, e: WeatherEvent, now: int, view: StatusView)
    requires !e.UpdateStarted?
    requires e.UpdateId() in rows && ViewOf(e.UpdateId(), rows[e.UpdateId()]) == Ok(view)
    requires view.state == Finished && MutateOutcome(view.updateStatuses, e).next == Active
    ensures HandleOutcome(rows, e, now).Ok?
    ensures HandleOutcome(rows, e, now).value[e.UpdateId()].state == Some(DiscriminantName(Active))
  {
  }

  // ---------------------------------------------------------------------------
  // The projection

  class UpdateWeatherHistoryProjection {
    var rows: map<UpdateWeatherId, HistoryRow>

    /** A projection over an empty history table. */
    constructor()
      ensures rows == map[]
    {
      rows := map[];
    }

    /** Reads the row of an update, if it has one. */
    method FetchOptionalView(id: UpdateWeatherId) returns (r: Result<Option<StatusView>, DecodeError>)
      ensures r == FetchView(rows, id)
    {
      if id !in rows {
        return Ok(None);
      }
      var row := rows[id];
      if row.state.None? {
        return Err(MissingField(StateCol));
      }
      var state := ParseDiscriminant(row.state.value);
      if state.None? {
        return Err(UnknownVariant(row.state.value));
      }
      if row.updateStatuses.None? {
        return Err(MissingField(UpdateStatusesCol));
      }
      var status := DecodeStatus(row.updateStatuses.value);
      if status.Err? {
        return Err(status.error);
      }
      r := Ok(Some(StatusView(id, state.value, status.value, row.lastUpdatedAt)));
    }

    /** Writes a row: inserted whole, or on conflict only the given columns and the timestamp. */
    method UpdateOrInsert(id: UpdateWeatherId, state: Option<Discriminant>, status: Option<StatusValue>, now: int)
      modifies this
      ensures rows == Upsert(old(rows), id, state, status, now)
    {
      var stateRep := if state.Some? then Some(DiscriminantName(state.value)) else None;
      var statusRep := if status.Some? then Some(EncodeStatus(status.value)) else None;
      if id in rows {
        var row := rows[id];
        if state.Some? {
          row := row.(state := stateRep);
        }
        if status.Some? {
          row := row.(updateStatuses := statusRep);
        }
        rows := rows[id := row.(lastUpdatedAt := now)];
      } else {
        rows := rows[id := HistoryRow(stateRep, statusRep, now)];
      }
    }

    /** Records a started update: active, with fresh statuses for its zones. */
    method Started(id: UpdateWeatherId, zones: seq<LocationZoneCode>, now: int)
      requires DistinctZones(zones)
      modifies this
      ensures rows == Upsert(old(rows), id, Some(Active), Some(StatusValue(InitialStatuses(zones), false)), now)
    {
      var status := new WeatherUpdateStatus(zones);
      UpdateOrInsert(id, Some(Active), Some(status.Value()), now);
    }

    /** Folds one event into the table; a row that cannot be read leaves the table as it was. */
    method Handle(e: WeatherEvent, now: int) returns (r: Result<(), DecodeError>)
      requires e.UpdateStarted? ==> DistinctZones(e.zones)
      modifies this
      ensures HandleOutcome(old(rows), e, now).Ok? ==> r == Ok(()) && rows == HandleOutcome(old(rows), e, now).value
      ensures HandleOutcome(old(rows), e, now).Err? ==> r == Err(HandleOutcome(old(rows), e, now).error) && rows == old(rows)
    {
      var view := FetchOptionalView(e.UpdateId());
      if view.Err? {
        return Err(view.error);
      }
      if e.UpdateStarted? {
        Started(e.updateId, e.zones, now);
      } else if view.value.Some? {
        var v := view.value.value;
        var status := new WeatherUpdateStatus.FromValue(v.updateStatuses);
        var next := status.Mutate(e);
        UpdateOrInsert(v.updateId, if v.state != next then Some(next) else None, Some(status.Value()), now);
      } else {
        EventZonesDistinct(e);
        var status := new WeatherUpdateStatus(e.Zones());
        var next := status.Mutate(e);
        UpdateOrInsert(e.UpdateId(), Some(next), Some(status.Value()), now);
      }
      r := Ok(());
    }
  }
}
