# Weather POC (disintegrate) — a Dafny model of its core

This project models the event-sourced core of a weather service that tracks
NOAA location zones. It has three aggregates:

- **Update-weather saga.** An update starts for a list of zones. It then
  collects, per zone, the observation, forecast and alert steps or a failure.
  It finishes once the alerts have been reviewed and no zone is still in
  progress. The saga has:
  - a per-zone status lattice with its JSON map form;
  - a zone-keyed status map with a unique zone index;
  - the saga state machine;
  - its decisions and the alert fan-out over the zones of an update;
  - the update-history projection.
- **Location zone.** Each zone keeps three last-write-wins states: the latest
  observation, the latest forecast and the active alert. It has the
  note-observation, note-forecast and note-alert decisions. A table projection
  upserts one column per event.
- **Registrar.** The set of monitored zones. Its decisions refuse to monitor a
  zone twice. An in-memory projection mirrors the fold.

Alongside the aggregates the project models the supporting pure logic:

- quality-graded aggregation of observation readings into a weather frame;
- the quality-control order;
- zone-code parsing from URLs;
- `transpose_result`;
- the `CommandResult` combinators;
- the given/when/then decision harness;
- health aggregation and the HTTP status mapping;
- splitting of settings search paths;
- sanitising of table and column names.

How the model is built:

- One Dafny module per source file.
- Folds, decisions and conversions are functions.
- Objects that the source updates in place are classes whose methods are
  proved to follow those functions:
  - `WeatherUpdateStatus`, `UpdateWeather`;
  - the zone states, `Registrar`;
  - the three projections.
- Loops in the source are methods with invariants: the deserialisers, the
  alert fan-out, `transpose_result`, the step-set `+`, the feature fold and
  the harness replay.
- Clock readings (`now`), the URL parser, the NOAA service, nested decisions
  and database probes are parameters.

## Model

| member | source | states |
|---|---|---|
| UpdateStatus.FlagOrder | src/model/weather/update/status.rs:8-21 | a step set is iterated in ascending flag order (observation, forecast, alert) and lists exactly its members |
| UpdateStatus.FlagOrderMembers | src/model/weather/update/status.rs:8-21 | the flag order of a step set holds exactly the steps of the set |
| UpdateStatus.ParseStep | src/model/weather/update/status.rs:13-19 | a step name parses back to its step, only the exact snake-case names are accepted, anything else is an unknown variant |
| UpdateStatus.LocationUpdateStatus.Advance | src/model/weather/update/status.rs:75-87 | a finished status does not move; an in-progress one adds the step and succeeds exactly when observation and forecast are both done; no step is ever lost |
| UpdateStatus.FromSteps | src/model/weather/update/status.rs:89-108 | the status of a set of done steps is always reachable |
| UpdateStatus.AdvancePreservesReachable | src/model/weather/update/status.rs:75-108 | advancing never yields an in-progress status that already holds enough steps |
| UpdateStatus.AdvanceIdempotentAndCommutative | src/model/weather/update/status.rs:75-87 | advancing twice by a step is advancing once, and on reachable statuses the order of two steps does not matter |
| UpdateStatus.ReachableActiveIffInProgress | src/model/weather/update/status.rs:89-108 | on a reachable status, `IsActive` holds exactly for in-progress, and `IsActive` is the negation of `IsCompleted` |
| UpdateStatus.StatusTests | src/model/weather/update/status.rs:68-107 | specifies `Contains`, `IsCompleted` and `IsActive`: a completed status holds the observation and the forecast, an active one is in progress without both, a finished status holds every step |
| UpdateStatus.AdvanceFromSteps | src/model/weather/update/status.rs:75-108 | advancing the status of a step set is the status of the set plus the step |
| UpdateStatus.AdvanceAllFromSteps | src/model/weather/update/status.rs:133-149 | replaying any step list through advance only depends on the set of steps replayed |
| UpdateStatus.ReplayFromDefault | src/model/weather/update/status.rs:30-34 | from the default, a replay reaches the status of its step set, which has succeeded exactly when observation and forecast both occur |
| UpdateStatus.AdvanceAllOnFinished | src/model/weather/update/status.rs:75-77 | any replay on a succeeded or failed status leaves it unchanged |
| UpdateStatus.AdvanceAllSnoc | src/model/weather/update/status.rs:133-149 | replaying a list and one more step is the replay followed by one advance |
| UpdateStatus.PlusMeaning | src/model/weather/update/status.rs:110-131 | specifies `LocationUpdateStatus.Plus`: failure absorbs on either side, success beats progress, two in-progress statuses combine into the status of the union of their steps |
| UpdateStatus.PlusCommutative | src/model/weather/update/status.rs:110-131 | `+` of two statuses is commutative and its result is reachable |
| UpdateStatus.AddSteps | src/model/weather/update/status.rs:142-149 | adding a step set advances by each step in flag order; a finished status is unchanged; on a reachable in-progress status the result is the status of the combined steps |
| UpdateStatus.AdvanceEach | src/model/weather/update/status.rs:145-148 | advancing by each step of a list in turn ends at the replay of the whole list |
| UpdateStatus.AdvanceInFlagOrder | src/model/weather/update/status.rs:142-149 | adding a step set leaves a succeeded or failed status unchanged, and turns a reachable in-progress status into the status of its steps together with the added ones |
| UpdateStatus.StepsJson | src/model/weather/update/status.rs:199-203 | the completed list has one step name per step, in order |
| UpdateStatus.Serialize | src/model/weather/update/status.rs:183-207 | a finished status is the single `status` entry; an in-progress one adds `completed` with its steps in flag order |
| UpdateStatus.AsString | src/model/weather/update/status.rs:313-316 | a JSON string reads as its text and nothing else reads as a string |
| UpdateStatus.ParseSteps | src/model/weather/update/status.rs:320-321 | a parsed step list has one step per JSON name, each the step of that name |
| UpdateStatus.Deserialize | src/model/weather/update/status.rs:289-331 | the map visitor's loop computes exactly the decoding function |
| UpdateStatus.ParseStepsOfNames | src/model/weather/update/status.rs:199-203 | the written step names parse back to the same steps |
| UpdateStatus.RoundTrip | src/model/weather/update/status.rs:183-331 | specifies `Decode` against `Serialize`: reading back the map form gives the status of its steps, and for a reachable status the status itself |
| UpdateStatus.DecodedIsReachable | src/model/weather/update/status.rs:317-325 | a decoded in-progress status is replayed from the default and so is reachable |
| UpdateStatus.UnknownKeyFails | src/model/weather/update/status.rs:235-243 | an entry with a key other than `status` or `completed` makes reading fail |
| UpdateStatus.RepeatedStatusFails | src/model/weather/update/status.rs:297-302 | a second `status` entry makes reading fail |
| UpdateStatus.RepeatedCompletedFails | src/model/weather/update/status.rs:304-309 | a second `completed` entry makes reading fail |
| UpdateStatus.DuplicateKeyFails | src/model/weather/update/status.rs:295-311 | specifies `ScanEntry`: any key that occurs twice makes reading fail |
| UpdateStatus.ScanKeepsAbsentSlots | src/model/weather/update/status.rs:292-311 | walking entries without a key leaves that key's slot as it was |
| UpdateStatus.DecodeFailures | src/model/weather/update/status.rs:289-331 | specifies `Decode` on its error paths: reading fails on an unknown or repeated key, on a missing `status`, and on `in_progress` when no entry is `completed` |
| UpdateStatus.UnknownStatusFails | src/model/weather/update/status.rs:317-329 | specifies `FinishSlots`: a `status` string outside succeeded, failed and in_progress, anywhere in the object, makes reading fail, and when every other entry reads it is refused as `InvalidValue` of that string |
| UpdateStatus.InProgressNeedsCompleted | src/model/weather/update/status.rs:317-325 | specifies `FinishSlots`: an `in_progress` status with no `completed` entry makes reading fail, and when every other entry reads it is refused as a missing `completed` field |
| Model.TransposeResult | src/model/mod.rs:22-32 | Ok of all values in input order exactly when every item is Ok; otherwise the first Err |
| Model.NewZoneCode | src/model/mod.rs:54-63 | wrapping a text as a zone code and unwrapping or displaying it gives the text back |
| Model.ParseZoneType | src/model/mod.rs:158-177 | only the exact names Public, County and Forecast parse, each to its own type |
| Model.FromUrl | src/model/mod.rs:65-81 | fewer than two path segments (or none) is `UrlNotZoneIdentifier`; otherwise the code is the last segment and the type the parse of the one before |
| Model.ParseZoneCode | src/model/mod.rs:83-91 | text starting with `http` goes through URL parsing and `from_url`, URL errors propagating; any other text is the code verbatim |
| Model.LevelsDistinct | src/model/mod.rs:258-272 | specifies `Level`: the grade levels run from 1 to 9 and no two grades share one |
| Model.GradeChain | src/model/mod.rs:274-284 | the order is X < B < T < Q < Z < C < S < G < V |
| Model.CmpTotalOrder | src/model/mod.rs:274-284 | specifies `Cmp`: the order agrees with equality, is antisymmetric and transitive |
| Model.ParseGrade | src/model/mod.rs:219-256 | a grade name parses back to its grade, only the upper-case single letters are accepted |
| Frame.AllPropertiesListed | src/model/frame.rs:199-216 | every quantitative property is listed once |
| Frame.NewAggregation | src/model/frame.rs:241-250 | count 1, sum = max = min = the value (0 if absent), grade X if absent, and the aggregate is valid |
| Frame.AverageValue | src/model/frame.rs:252-254 | the average times the count is the sum, and on a valid aggregate it lies between min and max |
| Frame.AddDetail | src/model/frame.rs:256-282 | a reading without value or grade is ignored; the unit is kept |
| Frame.AddDetailOutcomes | src/model/frame.rs:262-279 | a higher-graded reading is ignored, a lower-graded one resets the aggregate to it, an equally graded one adds to count and sum and widens min and max |
| Frame.AddDetailKeepsLowerGrade | src/model/frame.rs:263-272 | the aggregate ends with the lower of the stored and incoming grades |
| Frame.AddDetailPreservesValid | src/model/frame.rs:241-282 | count ≥ 1, min ≤ max and min·count ≤ sum ≤ max·count survive every reading |
| Frame.DefaultAggregations | src/model/frame.rs:81-88 | an empty accumulator stamped with the given time |
| Frame.FoldFeature | src/model/frame.rs:140-180 | a feature without properties changes nothing; a property with a parsed reading is created or has the reading added; other properties are unchanged |
| Frame.FoldPropertyOf | src/model/frame.rs:157-176 | one loop step reads the property and, when it parses, creates its aggregate or adds the reading to it, as the fold of that property does |
| Frame.FoldedOverStep | src/model/frame.rs:157-177 | folding one more property extends the fold's progress by that property and leaves the rest as they were |
| Frame.FoldedOverAll | src/model/frame.rs:140-180 | once every property is folded, each one is created, added to or left as the feature's reading says |
| Frame.FoldPropertyPreservesValid | src/model/frame.rs:140-180 | folding keeps every aggregate valid |
| Frame.ToQuantitativeValue | src/model/frame.rs:320-330 | the reported value is the average with the aggregate's extremes, unit and grade, and lies between min and max |
| Frame.ToWeatherFrame | src/model/frame.rs:96-119 | the frame keeps the accumulator's timestamp |
| Frame.FrameFields | src/model/frame.rs:90-119 | a frame field is present exactly when its property was aggregated, and then reports that aggregate |
| Frame.PropertyFold | src/model/frame.rs:140-180 | the aggregate a run of features leaves for one property, folded in order, is always valid |
| Frame.PropertyFoldPresent | src/model/frame.rs:140-180 | a property has an aggregate exactly when some feature offered a readable detail for it |
| Frame.FrameFromFeatures | src/model/frame.rs:65-72 | each frame field reports the fold of its property over the features in order (`PropertyFold`); a field is present exactly when some feature carries a parsed reading of it; the timestamp is the creation time |
| Weather.WeatherEvent.UpdateId | src/model/weather.rs:77-88 | every variant yields its `update_id` |
| Weather.WeatherEvent.Zones | src/model/weather.rs:90-101 | a singleton for zone-carrying variants, empty for `AlertsReviewed`, the carried list for `UpdateStarted` |
| Weather.WeatherEvent.DomainIdentifiers | src/model/weather.rs:22-65 | every event is identified by its update id; exactly the zone-carrying variants are also identified by their zone |
| Weather.GroupsPartitionEvents | src/model/weather.rs:19-21 | the location-zone and update-weather groups are disjoint and cover every event; a zone event carries one zone |
| LocationStatuses.NewLocationStatus | src/model/weather/update/location_status.rs:19-22 | a new entry is the zone at the default in-progress status with no step |
| LocationStatuses.GetByZone | src/model/weather/update/location_status.rs:9-17 | a lookup finds an entry exactly for tracked zones, and with the unique index it is that zone's only entry |
| LocationStatuses.Insert | src/model/weather/update/location_status.rs:9-17 | inserting an untracked zone appends it and keeps the zone index unique |
| LocationStatuses.SetStatusByZone | src/model/weather/update/location_status.rs:9-17 | replacing a zone's status keeps order, zones and uniqueness, and changes only that zone's status |
| LocationStatuses.SetStatusLookup | src/model/weather/update/location_status.rs:9-17 | after replacing, the zone reads its new status and every other lookup is unchanged |
| LocationStatuses.InsertLookup | src/model/weather/update/location_status.rs:9-17 | an inserted entry is found by its zone and every other lookup is unchanged |
| LocationStatuses.Equals | src/model/weather/update/location_status.rs:25-44 | maps of different length are unequal, and the entry-wise loop answers exactly equality |
| LocationStatuses.Encode | src/model/weather/update/location_status.rs:48-58 | one zone-to-status entry per element, in iteration order |
| LocationStatuses.SerializeMap | src/model/weather/update/location_status.rs:48-58 | the serialising loop writes exactly the encoded object |
| LocationStatuses.DecodeEntries | src/model/weather/update/location_status.rs:70-84 | a successful read appends one entry per JSON entry and keeps zones unique |
| LocationStatuses.DeserializeMap | src/model/weather/update/location_status.rs:70-84 | the visitor's loop computes exactly the decoding function |
| LocationStatuses.RoundTripFrom | src/model/weather/update/location_status.rs:48-84 | reading back the entries of a map after a prefix gives the prefix followed by the map |
| LocationStatuses.RoundTripMap | src/model/weather/update/location_status.rs:48-84 | deserialising the serialised map gives back the same zone-to-status pairs in order |
| LocationStatuses.DecodedEntriesReachable | src/model/weather/update/location_status.rs:70-84 | what is read back has unique zones and only reachable statuses |
| UpdateState.ParseDiscriminant | src/model/weather/update/state.rs:74-86 | a phase name parses back to its phase, only exact names are accepted |
| UpdateState.InitialStatuses | src/model/weather/update/state.rs:137-147 | one default entry per listed zone, in order |
| UpdateState.StatusOf | src/model/weather/update/state.rs:150-153 | a status is found exactly for tracked zones, and it is that zone's entry's status |
| UpdateState.PrepZoneOutcome | src/model/weather/update/state.rs:246-261 | preparing keeps zones unique, and when it does not finish early the zone is tracked |
| UpdateState.StepOutcome | src/model/weather/update/state.rs:263-289 | recording a step keeps zones unique |
| UpdateState.FailureOutcome | src/model/weather/update/state.rs:291-322 | recording a failure keeps zones unique |
| UpdateState.MutateOutcome | src/model/weather/update/state.rs:188-224 | an event keeps zones unique |
| UpdateState.StepOf | src/model/weather/update/state.rs:192-200 | the events that record a step all name a zone, and the only zone event that records none is a location failure |
| UpdateState.InitialStatusesValid | src/model/weather/update/state.rs:137-147 | a new status tracks exactly the listed zones, all active, with the alerts not reviewed |
| UpdateState.ZonesPartition | src/model/weather/update/state.rs:155-185 | active, succeeded and failed zones are disjoint and cover all tracked zones |
| UpdateState.ActiveMembership | src/model/weather/update/state.rs:155-164 | a zone is active exactly when its status is active, that is in progress |
| UpdateState.ActiveHoldsInProgressZones | src/model/weather/update/state.rs:155-164 | every in-progress entry's zone is among the active zones |
| UpdateState.OnlyActiveIffSole | src/model/weather/update/state.rs:226-244 | the zone is the only active zone exactly when the active zones are just it |
| UpdateState.ActiveAfterSet | src/model/weather/update/state.rs:155-164 | after replacing a zone's status the active zones change only at that zone |
| UpdateState.ActiveAfterInsert | src/model/weather/update/state.rs:246-252 | inserting a zone adds it to the active zones exactly when it is in progress |
| UpdateState.InsertKeepsReachable | src/model/weather/update/state.rs:246-252 | inserting a reachable entry keeps all statuses reachable |
| UpdateState.PrepZoneFacts | src/model/weather/update/state.rs:246-261 | an untracked zone is added at default; a completed zone finishes with nothing changed; an active zone changes nothing |
| UpdateState.PrepZoneStatus | src/model/weather/update/state.rs:246-261 | preparing finishes early exactly when the zone is already completed, and then changes nothing; otherwise the zone reads its earlier status, or the default when it was untracked |
| UpdateState.PrepZoneValid | src/model/weather/update/state.rs:246-252 | preparing keeps the status valid |
| UpdateState.PrepZoneOthers | src/model/weather/update/state.rs:246-261 | the zone joins the tracked zones, and the active ones when preparing does not finish early; every other zone reads as before |
| UpdateState.SetStatusOthers | src/model/weather/update/state.rs:263-322 | after a zone's status is replaced it reads the new status and other zones read as before |
| UpdateState.AdvanceInPlace | src/model/weather/update/state.rs:271-276 | advancing an active zone in place keeps the status valid and drops the zone from the active set unless still in progress |
| UpdateState.StepKeepsValid | src/model/weather/update/state.rs:263-289 | recording a step keeps the status valid and touches no other zone |
| UpdateState.StepOnZone | src/model/weather/update/state.rs:263-289 | recording a step advances the zone's status by that step |
| UpdateState.StepFinishes | src/model/weather/update/state.rs:263-289 | for a zone not yet completed, the update finishes exactly when alerts are reviewed and no zone is left in progress |
| UpdateState.ReplaceActiveZoneFinishIff | src/model/weather/update/state.rs:271-287 | replacing an active zone's status leaves no zone in progress exactly when it was the only active zone and the new status is completed |
| UpdateState.StepFacts | src/model/weather/update/state.rs:226-289 | the update finishes exactly when alerts are reviewed, the zone was the only active one, and the step completes it; a step for an untracked zone leaves the update active |
| UpdateState.FailureFacts | src/model/weather/update/state.rs:291-322 | the zone becomes failed, no other zone changes, and the update finishes exactly when alerts are reviewed and the zone was the only active one |
| UpdateState.FailureKeepsValid | src/model/weather/update/state.rs:291-322 | recording a failure keeps the status valid, adds the zone to the tracked zones and changes no other zone |
| UpdateState.FailureOnZone | src/model/weather/update/state.rs:291-322 | a failure for a completed zone changes nothing and finishes; otherwise the zone becomes failed and the update finishes exactly when alerts are reviewed and no zone is left in progress |
| UpdateState.MutateKeepsValid | src/model/weather/update/state.rs:188-224 | an active update stays valid, never asks for quiescent, keeps the alerts flag and tracks its zones plus the event's zone |
| UpdateState.MutateOnlyTouchesEventZone | src/model/weather/update/state.rs:188-224 | an event changes no zone but its own |
| UpdateState.MutateOnlyProgresses | src/model/weather/update/state.rs:188-224 | a completed zone keeps its status and a completed step stays completed |
| UpdateState.FinishesWhenLastZoneCompletes | src/model/weather/update/state.rs:202-209 | on the alert review, or on an event for a zone not yet completed, the update finishes exactly when alerts are reviewed and no zone is in progress afterwards |
| UpdateState.CompletedZoneEventFinishes | src/model/weather/update/state.rs:254-257 | a step or failure for a completed zone changes nothing and asks the update to finish, whatever other zones do |
| UpdateState.UntrackedZoneJoins | src/model/weather/update/state.rs:248-252 | a step for an untracked zone adds it with that step done and keeps the update active |
| UpdateState.MutateStateKeepsInvariant | src/model/weather/update/state.rs:54-72 | specifies `MutateState`: the update invariant (valid status; reviewed and nothing in progress means finished) survives every event |
| UpdateState.PhasesMoveForward | src/model/weather/update/state.rs:54-72 | specifies `MutateState`: quiescent becomes active only on `UpdateStarted`, active never returns to quiescent, finished ignores every event |
| UpdateState.Replay | src/model/weather/update/state.rs:28-34 | replaying events keeps the invariant, a finished update stays finished and a started one never becomes quiescent |
| UpdateState.WeatherUpdateStatus.constructor | src/model/weather/update/state.rs:137-147 | tracks every listed zone at its default status with the alerts not reviewed |
| UpdateState.WeatherUpdateStatus.FromValue | src/model/weather/update/state.rs:129-134 | a status object rebuilt from valid fields holds exactly them |
| UpdateState.WeatherUpdateStatus.ActiveZones | src/model/weather/update/state.rs:155-164 | the loop collects exactly the in-progress zones |
| UpdateState.WeatherUpdateStatus.SucceededZones | src/model/weather/update/state.rs:166-175 | the loop collects exactly the succeeded zones |
| UpdateState.WeatherUpdateStatus.FailedZones | src/model/weather/update/state.rs:177-186 | the loop collects exactly the failed zones |
| UpdateState.WeatherUpdateStatus.IsOnlyActiveZone | src/model/weather/update/state.rs:226-244 | the answer is whether the zone is tracked and active while every other zone has completed |
| UpdateState.WeatherUpdateStatus.PrepZone | src/model/weather/update/state.rs:246-261 | the fields and the early result follow the prepare-zone function |
| UpdateState.WeatherUpdateStatus.AdvanceZoneStep | src/model/weather/update/state.rs:263-289 | the fields and the returned phase follow the step function |
| UpdateState.WeatherUpdateStatus.UpdateZoneFailureFor | src/model/weather/update/state.rs:291-322 | the fields and the returned phase follow the failure function |
| UpdateState.WeatherUpdateStatus.Mutate | src/model/weather/update/state.rs:188-224 | the fields and the returned phase follow the event function |
| UpdateState.UpdateWeather.constructor | src/model/weather/update/state.rs:22-26 | a new update is quiescent with the given id |
| UpdateState.UpdateWeather.Mutate | src/model/weather/update/state.rs:28-34 | the state is replaced only when a transition is returned, as the state function says |
| UpdateProtocol.StateQuery | src/model/weather/update/protocol.rs:30-32 | every decision folds into a fresh quiescent update for the command's own id |
| UpdateProtocol.Refusal | src/model/weather/update/protocol.rs:41-48 | a quiescent update refuses with `NotStarted`, a finished one with `Finished` |
| UpdateProtocol.ProcessNoteAlertsReviewed | src/model/weather/update/protocol.rs:34-50 | only an active update accepts, with exactly `[AlertsReviewed]`; otherwise `NotStarted` or `Finished` |
| UpdateProtocol.ProcessNoteLocationUpdateFailure | src/model/weather/update/protocol.rs:70-88 | only an active update accepts, with one `UpdateLocationFailed` carrying id, zone and cause; otherwise `NotStarted` or `Finished` |
| UpdateProtocol.NewStartUpdate | src/model/weather/update/protocol.rs:124-133 | an empty zone list is `NoLocations`; otherwise the command carries the id and zones |
| UpdateProtocol.ProcessStartUpdate | src/model/weather/update/protocol.rs:146-160 | only a quiescent update starts, with one `UpdateStarted`; otherwise `AlreadyStarted` |
| UpdateProtocol.DecisionsStayInTheirUpdate | src/model/weather/update/protocol.rs:30-160 | every emitted event carries the command's update id |
| UpdateProtocol.StartUpdateStartsSaga | src/model/weather/update/protocol.rs:146-160 | folding the start event makes the update active with every zone in progress |
| UpdateProtocol.ReviewAdvancesSaga | src/model/weather/update/protocol.rs:34-50 | folding the review marks alerts reviewed, finishing exactly when no zone is in progress |
| UpdateProtocol.FailureAdvancesSaga | src/model/weather/update/protocol.rs:70-88 | folding the failure either finishes the update or leaves it active with the zone failed |
| UpdateProtocol.InScope | src/model/weather/update/protocol.rs:241-246 | the affected zones kept are exactly those in the update scope |
| UpdateProtocol.LastFailureIsLastNote | src/model/weather/update/protocol.rs:241-253 | a zone has a failure after the alerts exactly when the note of some alert affecting it failed, and it is the error of the last such alert, every later alert affecting the zone having noted it without failure |
| UpdateProtocol.FailuresOfScopeByIndex | src/model/weather/update/protocol.rs:233-261 | in the fan-out's failures, an affected zone fails exactly when a note of an alert affecting it failed, with the error of the last such note |
| UpdateProtocol.AlertedFailuresStep | src/model/weather/update/protocol.rs:250-252 | extending the failures by one alert's failures keeps, for every zone alerted so far, the failure of the last alert whose note failed |
| UpdateProtocol.AlertAffectedZones | src/model/weather/update/protocol.rs:273-296 | every affected zone is alerted, and the failures are exactly the zones whose note failed, with their errors |
| UpdateProtocol.UpdateUnaffectedZones | src/model/weather/update/protocol.rs:298-314 | the failures are exactly the unaffected zones whose no-alert note failed |
| UpdateProtocol.AlertScope | src/model/weather/update/protocol.rs:233-261 | alerted zones are the scope zones some alert affects, unaffected zones are the rest, each scope zone goes down exactly one path; an unaffected zone has the failure of its no-alert note, an affected zone the failure of the last alert whose note for it failed |
| UpdateProtocol.AlertAll | src/model/weather/update/protocol.rs:241-253 | the alerted zones are the scope zones some alert affects; the failures are keyed by alerted zones, and each zone keeps the failure of the last alert whose note for it failed, as extending the map alert by alert does |
| UpdateProtocol.NoteAlertUpdateFailures | src/model/weather/update/protocol.rs:316-344 | Ok exactly when every failure note succeeded; otherwise the error of one that failed |
| UpdateProtocol.UpdateZoneAlerts | src/model/weather/update/protocol.rs:228-269 | a failed alert fetch is returned as is with no failures; otherwise the failures are those of the fan-out, and the result is Ok exactly when every failure note and the review note succeed; when some failure note fails the error is a failure note's and the review note is not consulted; only when every failure note succeeds is the result the review note's |
| UpdateReadModel.EncodeStatus | src/model/weather/update/state.rs:129-134 | a status is an object with the fields `location_statuses` and `alerts_reviewed` |
| UpdateReadModel.DecodedMapValid | src/model/weather/update/location_status.rs:70-84 | a decoded zone map has unique zones and reachable statuses |
| UpdateReadModel.ScanStatusEntry | src/model/weather/update/state.rs:129-134 | reading one field keeps the filled fields valid |
| UpdateReadModel.ScanStatusEntries | src/model/weather/update/state.rs:129-134 | reading the fields keeps the filled fields valid |
| UpdateReadModel.DecodeStatus | src/model/weather/update/read_model.rs:43-45 | a decoded status is valid, and a non-object is an error |
| UpdateReadModel.StatusRoundTrip | src/model/weather/update/read_model.rs:38-55 | every valid status survives a trip through its JSON column |
| UpdateReadModel.ViewOf | src/model/weather/update/read_model.rs:38-55 | a view reads the row's id, phase, decoded statuses and timestamp; a missing or malformed column is a decode error, never a partial view |
| UpdateReadModel.FetchView | src/model/weather/update/read_model.rs:357-365 | no row is `None`; a row gives its view or its decode error |
| UpdateReadModel.Upsert | src/model/weather/update/read_model.rs:407-454 | one row per update id; the timestamp is always refreshed; state and statuses are overwritten only when given |
| UpdateReadModel.EventZonesDistinct | src/model/weather.rs:90-101 | the zones of a non-start event have no duplicate |
| UpdateReadModel.HandleTouchesOnlyItsRow | src/model/weather/update/read_model.rs:250-294 | specifies `HandleOutcome`: handling fails exactly on an unreadable stored row and otherwise touches only the event's row |
| UpdateReadModel.HandleStartWritesActive | src/model/weather/update/read_model.rs:260-269 | a start always writes an active row with every zone at its default status |
| UpdateReadModel.HandleMirrorsMutation | src/model/weather/update/read_model.rs:270-280 | on an existing row the stored status is mutated, and the state column is written only when the phase changed |
| UpdateReadModel.HandleWithoutRowStartsFromEvent | src/model/weather/update/read_model.rs:282-292 | with no row, a status is built from the event's zones, mutated and written with its phase |
| UpdateReadModel.FinishedRowCanReopen | src/model/weather/update/read_model.rs:270-280 | a finished row whose mutated status asks for active is rewritten as active |
| UpdateReadModel.UpdateWeatherHistoryProjection.constructor | src/model/weather/update/read_model.rs:16 | the projection starts with an empty table |
| UpdateReadModel.UpdateWeatherHistoryProjection.FetchOptionalView | src/model/weather/update/read_model.rs:357-365 | the read answers the fetch-view function |
| UpdateReadModel.UpdateWeatherHistoryProjection.UpdateOrInsert | src/model/weather/update/read_model.rs:407-454 | the table becomes the upsert of the given columns |
| UpdateReadModel.UpdateWeatherHistoryProjection.Started | src/model/weather/update/read_model.rs:345-355 | the row is upserted as active with a fresh status for the zones |
| UpdateReadModel.UpdateWeatherHistoryProjection.Handle | src/model/weather/update/read_model.rs:250-294 | the table follows the dispatch function; an unreadable row is an error and changes nothing |
| ZoneState.LastObservation | src/model/weather/zone/state.rs:21-27 | the payload of the last observation event, present exactly when there is one |
| ZoneState.LastForecast | src/model/weather/zone/state.rs:43-49 | the payload of the last forecast event, present exactly when there is one |
| ZoneState.LastAlertEvent | src/model/weather/zone/state.rs:70-82 | the effect of the last activation or deactivation, present exactly when there is one |
| ZoneState.FoldWeatherSnoc | src/model/weather/zone/state.rs:21-27 | folding one more event is one more step |
| ZoneState.FoldForecastSnoc | src/model/weather/zone/state.rs:43-49 | folding one more event is one more step |
| ZoneState.FoldAlertSnoc | src/model/weather/zone/state.rs:70-82 | folding one more event is one more step |
| ZoneState.WeatherLastWriteWins | src/model/weather/zone/state.rs:21-27 | specifies `WeatherAfter` over a run of events: the zone holds the last observation, or what it held if there was none |
| ZoneState.ForecastLastWriteWins | src/model/weather/zone/state.rs:43-49 | specifies `ForecastAfter` over a run of events: the zone holds the last forecast, or what it held if there was none |
| ZoneState.AlertLastWriteWins | src/model/weather/zone/state.rs:70-82 | specifies `AlertAfter` over a run of events: the zone holds the effect of the last alert event, or what it held if there was none |
| ZoneState.LocationZoneWeather.constructor | src/model/weather/zone/state.rs:15-19 | a new state holds no observation |
| ZoneState.LocationZoneWeather.Mutate | src/model/weather/zone/state.rs:21-27 | only an observation replaces the stored one |
| ZoneState.LocationZoneForecast.constructor | src/model/weather/zone/state.rs:37-41 | a new state holds no forecast |
| ZoneState.LocationZoneForecast.Mutate | src/model/weather/zone/state.rs:43-49 | only a forecast replaces the stored one |
| ZoneState.LocationZoneAlert.constructor | src/model/weather/zone/state.rs:59-67 | a new state holds no alert and has no active alert |
| ZoneState.LocationZoneAlert.Mutate | src/model/weather/zone/state.rs:65-82 | activation stores the alert, deactivation clears it, other events are ignored; `ActiveAlert` holds afterwards exactly after an activation, or as before for other events |
| ZoneProtocol.ObservationStateQuery | src/model/weather/zone/protocol.rs:29-31 | the decision reads a fresh state of the command's zone |
| ZoneProtocol.ForecastStateQuery | src/model/weather/zone/protocol.rs:61-63 | the decision reads a fresh state of the command's zone |
| ZoneProtocol.AlertStateQuery | src/model/weather/zone/protocol.rs:95-97 | the decision reads a fresh state of the command's zone |
| ZoneProtocol.ProcessNoteAlert | src/model/weather/zone/protocol.rs:100-116 | never fails, emits at most one event, and every event is a zone event of the command's zone and update |
| ZoneProtocol.NoteObservationRecords | src/model/weather/zone/protocol.rs:34-40 | specifies `ProcessNoteObservation`: ignores the state, never fails, emits one `ObservationUpdated` that leaves the zone holding the observation |
| ZoneProtocol.NoteForecastRecords | src/model/weather/zone/protocol.rs:66-72 | specifies `ProcessNoteForecast`: ignores the state, never fails, emits one `ForecastUpdated` that leaves the zone holding the forecast |
| ZoneProtocol.NoteAlertCases | src/model/weather/zone/protocol.rs:101-115 | activation only with no active alert and one supplied, deactivation only with one active and none supplied, nothing otherwise, not even to replace an alert |
| ZoneProtocol.NoteAlertReachesRequestedState | src/model/weather/zone/protocol.rs:100-115 | after folding the events the zone has an active alert exactly when one was supplied; an alert in force is kept |
| ZoneReadModel.UpsertWeather | src/model/weather/zone/read_model.rs:227-247 | only `current` and the timestamp change; a new row has NULL forecast and alert |
| ZoneReadModel.UpsertForecast | src/model/weather/zone/read_model.rs:249-269 | only `forecast` and the timestamp change; a new row has NULL current and alert |
| ZoneReadModel.UpsertAlert | src/model/weather/zone/read_model.rs:271-294 | only `alert` and the timestamp change; a new row has NULL current and forecast |
| ZoneReadModel.HandleIdempotent | src/model/weather/zone/read_model.rs:153-182 | handling an event twice leaves the same rows and payload as once |
| ZoneReadModel.ForZone | src/model/weather/zone/read_model.rs:21-27 | the events kept all concern the given zone |
| ZoneReadModel.ProjectionMirrorsZoneStates | src/model/weather/zone/read_model.rs:153-182 | specifies `HandleRows` over a run of events: one row per zone an event concerns, and each row's columns are the zone states' folds over that zone's events |
| ZoneReadModel.ProjectionFromEmpty | src/model/weather/zone/read_model.rs:153-182 | from an empty table every row holds exactly the zone states after its events |
| ZoneReadModel.ZoneWeatherProjection.constructor | src/model/weather/zone/read_model.rs:21-27 | the projection starts with an empty table |
| ZoneReadModel.ZoneWeatherProjection.UpdateOrInsertWeather | src/model/weather/zone/read_model.rs:227-247 | the table becomes the observation upsert |
| ZoneReadModel.ZoneWeatherProjection.UpdateOrInsertForecast | src/model/weather/zone/read_model.rs:249-269 | the table becomes the forecast upsert |
| ZoneReadModel.ZoneWeatherProjection.UpdateOrInsertAlert | src/model/weather/zone/read_model.rs:271-294 | the table becomes the alert upsert |
| ZoneReadModel.ZoneWeatherProjection.Handle | src/model/weather/zone/read_model.rs:153-182 | handling never fails and dispatches each event to its column's upsert |
| RegistrarState.NextIdRep | src/model/registrar/state.rs:45-55 | the registrar id is always `<singleton>` |
| RegistrarState.ApplyMembership | src/model/registrar/state.rs:29-43 | specifies `Apply`: an added zone is in, a removed zone is out, nothing survives clearing, no other zone changes |
| RegistrarState.ApplyIdempotent | src/model/registrar/state.rs:32-37 | re-applying an event changes nothing, and removing an absent zone changes nothing |
| RegistrarState.FoldSnoc | src/model/registrar/state.rs:29-43 | folding one more event is one more step |
| RegistrarState.Registrar.constructor | src/model/registrar/state.rs:22-27 | the default registrar monitors no zone |
| RegistrarState.Registrar.Mutate | src/model/registrar/state.rs:29-43 | the set follows the event function |
| RegistrarProtocol.StateQuery | src/model/registrar/protocol.rs:29-31 | every decision reads the whole default registrar |
| RegistrarProtocol.ProcessMonitorForecastZone | src/model/registrar/protocol.rs:34-44 | refused with `LocationZoneAlreadyMonitored` exactly when monitored; otherwise exactly one `ForecastZoneAdded` |
| RegistrarProtocol.ProcessIgnoreForecastZone | src/model/registrar/protocol.rs:66-76 | never fails; removal for a monitored zone, nothing otherwise |
| RegistrarProtocol.ProcessClearZoneMonitoring | src/model/registrar/protocol.rs:91-97 | never fails; the clear event only when some zone is monitored |
| RegistrarProtocol.DecisionsReachTheirGoal | src/model/registrar/protocol.rs:34-97 | after folding, monitor leaves the zone in, ignore leaves it out, clear leaves the set empty |
| RegistrarProtocol.MonitorEndsMonitored | src/model/registrar/protocol.rs:34-44 | whatever the outcome the zone ends up monitored |
| RegistrarProtocol.AtMostOneEvent | src/model/registrar/protocol.rs:34-97 | each decision emits at most one event |
| RegistrarReadModel.MonitoredLocationZones.constructor | src/model/registrar/read_model.rs:31-38 | the projection starts with no monitored zone |
| RegistrarReadModel.MonitoredLocationZones.Monitored | src/model/registrar/read_model.rs:41-43 | a snapshot of the monitored zones |
| RegistrarReadModel.MonitoredLocationZones.Handle | src/model/registrar/read_model.rs:58-77 | handling always succeeds and applies insert, remove or clear |
| RegistrarReadModel.ProjectionMirrorsRegistrar | src/model/registrar/read_model.rs:63-74 | after any events the projection's set equals the registrar's fold over the same events |
| CommandResults.FromError | src/model/command_result.rs:373-377 | an error converts into the failed variant carrying it |
| CommandResults.ExactlyOneVariant | src/model/command_result.rs:15-149 | specifies `AsOk`, `AsRejected` and `AsErr`: exactly one of `is_ok`, `is_rejected`, `is_err` holds, and each accessor is `Some` exactly on its variant |
| CommandResults.AccessorsRebuild | src/model/command_result.rs:126-149 | the result can be rebuilt from its accessors |
| CommandResults.PredicatesOnTheirVariant | src/model/command_result.rs:37-110 | specifies `IsOkAnd` and `IsErrAnd`: false off their variant, and they agree with the plain test and with `map_or` |
| CommandResults.MapLaws | src/model/command_result.rs:154-160 | specifies `Map`: it transforms only the payload, passes rejections and errors through, and respects identity and composition |
| CommandResults.MapErrLaws | src/model/command_result.rs:240-246 | specifies `MapErr`: it transforms only the error, passes the rest through, and respects identity and composition |
| CommandResults.MapCommutesWithMapErr | src/model/command_result.rs:154-246 | mapping the payload and the error do not interfere |
| CommandResults.EliminatorsAgree | src/model/command_result.rs:182-370 | specifies `MapOr`, `MapOrElse`, `UnwrapOr` and `Unwrap`: `map_or` and `map_or_else` are map then unwrap; `unwrap_or` gives the payload or the default |
| CommandResults.FallbackSeesCause | src/model/command_result.rs:364-370 | specifies `UnwrapOrElse`: the fallback receives a rejection's message or the error |
| Postgres.TrimStart | src/postgres.rs:9-10 | drops exactly the leading whitespace |
| Postgres.TrimEnd | src/postgres.rs:9-10 | drops exactly the trailing whitespace |
| Postgres.Trim | src/postgres.rs:9-10 | the result has no surrounding whitespace |
| Postgres.Lowercase | src/postgres.rs:9-10 | every character lower-cased in place |
| Postgres.NewTableName | src/postgres.rs:9-31 | refused exactly when the trimmed, lower-cased text is empty; otherwise that text, in sanitised form |
| Postgres.NewTableColumn | src/postgres.rs:33-55 | refused exactly when the trimmed, lower-cased text is empty; otherwise that text, in sanitised form |
| Postgres.SanitizedFacts | src/postgres.rs:9-10 | a non-empty sanitised text is a sanitised name |
| Postgres.SanitizeKeepsSanitized | src/postgres.rs:9-10 | a sanitised name comes through unchanged |
| Postgres.SanitizeIdempotent | src/postgres.rs:9-55 | specifies `Sanitize`: sanitising twice is once, and an accepted name is accepted again as itself |
| Postgres.ColumnIndex | src/postgres.rs:62-69 | the first column with the name, or `ColumnNotFound` exactly when none has it |
| Postgres.LastUpdatedAtCol | src/postgres.rs:6-7 | the timestamp column is the accepted name `last_updated_at` |
| CliOptions.CliOptions.ImplicitSearchPaths | src/settings/cli_options.rs:59-62 | there is always at least one search directory |
| CliOptions.Split | src/settings/cli_options.rs:61 | one piece more than separators, and no piece contains the separator |
| CliOptions.JoinSplit | src/settings/cli_options.rs:59-62 | joining the pieces of a split gives back the text |
| CliOptions.SplitJoin | src/settings/cli_options.rs:59-62 | splitting a join of separator-free pieces gives back the pieces |
| CliOptions.SearchPathsWithoutColon | src/settings/cli_options.rs:46-62 | without a path the default is the only directory; a path without a colon is the only directory |
| CliOptions.LoadingOptionsFaithful | src/settings/cli_options.rs:51-82 | specifies `ConfigPath`, `SecretsPath`, `EnvironmentOverride` and `LoadOverrides`: the paths and environment are the options given, the search path splits at colons, and overrides return the builder unchanged |
| Testing.GivenHistory | src/testing.rs:23-25 | the given step holds the history as supplied |
| Testing.Persisted | src/testing.rs:57-63 | the i-th history event is persisted with id i + 1 |
| Testing.When | src/testing.rs:51-68 | specifies `WhenResult`: the loop replays the whole history in order, then the decision is processed once on that state |
| Testing.ThenPasses | src/testing.rs:89-93 | passes exactly when the decision succeeded with the expected events in order |
| Testing.ThenErr | src/testing.rs:105-107 | on a failed decision, yields its error |
| Testing.ReplayIsRegistrarFold | src/testing.rs:57-66 | specifies `Replay`: the harness replay of a registrar history is the registrar's own fold |
| Testing.MonitorScenario | src/model/registrar/protocol.rs:34-44 | through the harness, monitoring fails with already-monitored exactly when the history monitors the zone, and otherwise passes with the add event |
| Testing.IgnoreScenario | src/model/registrar/protocol.rs:66-76 | through the harness, ignoring always passes, with the removal exactly when the history monitors the zone |
| Health.StatusCode | src/server/health_routes.rs:55-63 | up is 200, error 500, down and not-ready 503 |
| Health.ServiceHealth | src/server/health_routes.rs:152-162 | a service is up exactly when its probe succeeded, and an error otherwise |
| Health.Checked | src/server/health_routes.rs:152-162 | each service is paired with its probe's health, in order |
| Health.ReportGroupsServices | src/server/health_routes.rs:164-172 | specifies `GroupByHealth`: the report has a group for exactly the healths that occur, each listing exactly the services with that health |
| Health.SystemUpIffAllUp | src/server/health_routes.rs:174-176 | specifies `SystemHealth`: the system is up exactly when every service is up, otherwise down, never error or not ready |
| Health.CheckHealthOutcome | src/server/health_routes.rs:108-179 | specifies `CheckHealth`: up exactly when both probes succeed; the monitored-zones view is always listed as up |
| ApiResult.FromOption | src/server/api_result.rs:22-26 | wrapping keeps the option unchanged |
| ApiResult.OptionalIntoResponse | src/server/api_result.rs:14-20 | a present result is 200 with it, an absent one a bare 404 |
| ApiResult.OptionalResponseRecoversOption | src/server/api_result.rs:14-26 | the answer to a wrapped option gives back the option |
| ApiResult.EraseApiError | src/server/api_result.rs:28-33 | an erased API error keeps its message and kind |
| ApiResult.ReportOf | src/server/api_result.rs:47-55 | the report carries the message, no error code, and always the backtrace |
| ApiResult.HttpErrorFrom | src/server/api_result.rs:65-86 | a path rejection is a bad request; every other API error and every non-API error is internal |
| ApiResult.HttpErrorIntoResponse | src/server/api_result.rs:88-98 | not-found is 404 with its message, bad request 400 and internal 500 with the report |
| ApiResult.ApiErrorStatus | src/server/api_result.rs:28-98 | specifies `ApiErrorIntoResponse`: an API error answers 400 exactly for a path rejection and 500 otherwise, with its report |

## Left out

- The event-sourcing engine is not part of this model. This covers the journal, optimistic-concurrency append, snapshots, listener offsets and the decision maker. The decisions are modelled as functions of the folded state, and the harness shows the replay.
- Concurrency, spawned tasks and async waiting are not modelled. The alert fan-out runs its loops sequentially.
- HTTP routing, the rate limiter, timeouts and the NOAA client are not modelled. Their outcomes are parameters: `noteAlert`, `noteFailure`, the active alerts, the health probes and the URL parser.
- Clock readings (`now`, the aggregation timestamp) are parameters.
- SQL text is not modelled. Each table is a map keyed by its primary key.
- Projection payloads are stored as values rather than JSON text. The update-status column is the exception: it is modelled with its JSON form.
- The zone projection's `from_row` and `weather_by_zone` reads are not modelled. Its view type declares the forecast as a `ForecastDetail` while a `ZoneForecast` is stored.
- Decimal readings are `real`, so the average is exact. `try_usize_to_decimal` cannot fail on the counts that occur. Wind `Direction` (f32) is not modelled.
- The JSON decoding of NOAA payloads into `PropertyDetail`, `ZoneForecast` and `WeatherAlert` is not modelled. The fold takes the detail parser as a parameter.
- WeatherAlert keeps only the fields the model reads.
- The array form of `LocationUpdateStatus` (`visit_seq`) is not modelled. The JSON deserialiser only calls `visit_map`.
- The struct array form of `WeatherUpdateStatus` is likewise not modelled.
- LocationStatuses.DecodeEntries: a zone that occurs twice in the JSON object makes the library's multi-index insert (src/model/weather/update/location_status.rs:76-79) panic. The model reads it as a decode error, `DuplicateKey`, instead.
- Inserting a duplicate zone into the multi-index map is an error in the library. The model states it as a requirement: `requires DistinctZones` on starting an update, and the insert precondition.
- CommandResults.CommandResult.Unwrap: the source panics on a rejected or failed result (src/model/command_result.rs:293-305). The model makes `IsOk()` a precondition instead, so the panic itself is not modelled.
- Testing.ThenErr: the source fails an assertion when the decision succeeded (src/testing.rs:105-107). The model makes a failed decision a precondition instead, so the assertion failure itself is not modelled.
- Frame.AddDetail: modelled on values rather than updating the aggregate in place. The code keeps the lower grade (a higher-graded reading is ignored), while its comment says the opposite. The model follows the code.
- UpdateState.WeatherUpdateStatus.Mutate: the saga decides `Finished` when a step arrives for an already-completed zone, even while other zones are active (`CompletedZoneEventFinishes`). This is modelled as written.
- UpdateProtocol.NoteAlertUpdateFailures: the failures are visited in no particular order. The contract says only that the error comes from some failed note, not the last one in the source's HashMap iteration order.
- UpdateProtocol.UpdateZoneAlerts: when several failure notes fail, the error returned is stated only as that of one of them, as for NoteAlertUpdateFailures; that a failure note's error always takes precedence over the review note is stated.
- Zone decisions never fail, so the zone error type is a stand-in. The same holds for the registrar error beyond `LocationZoneAlreadyMonitored`. The zone errors.rs is not part of this model.
- API error enums are reduced to their kinds and messages. `ApiBootstrapError`, and the display text of each variant, are not modelled.
- `inspect` on `CommandResult` is left out; it only runs a side effect. `unwrap_or_default` is left out; Dafny has no `Default`, and it is `unwrap_or` with the type's default value.
- Trimming and lower-casing cover ASCII whitespace and letters only. Unicode whitespace and case mapping are not modelled.
- Logging and tracing are left out.
