/**
 * Progress of one location zone within a weather update: the update steps the
 * zone has completed, or its final outcome. A zone succeeds as soon as both the
 * observation and the forecast steps are done; the alert step is never required.
 */
module UpdateStatus {
  import opened Wrappers
  import opened JsonValues

  datatype UpdateStep = Observation | Forecast | Alert

  /** The flag bit of each step in a step set. */
  function Bit(step: UpdateStep): nat
  {
    match step
    case Observation => 1
    case Forecast => 2
    case Alert => 4
  }

  /** The steps of a step set in the order a flag set iterates them (ascending bit). */
  function FlagOrder(steps: set<UpdateStep>): (q: seq<UpdateStep>)
    ensures Observation in q <==> Observation in steps
    ensures Forecast in q <==> Forecast in steps
    ensures Alert in q <==> Alert in steps
    ensures forall i, j :: 0 <= i < j < |q| ==> Bit(q[i]) < Bit(q[j])
  {
    (if Observation in steps then [Observation] else [])
    + (if Forecast in steps then [Forecast] else [])
    + (if Alert in steps then [Alert] else [])
  }

  /** The flag order of a step set lists exactly its members. */
  lemma FlagOrderMembers(steps: set<UpdateStep>)
    ensures forall x :: x in FlagOrder(steps) <==> x in steps
    ensures (set x | x in FlagOrder(steps)) == steps
  {
    forall x ensures x in FlagOrder(steps) <==> x in steps {
      match x
      case Observation =>
      case Forecast =>
      case Alert =>
    }
  }

  /** The serialised name of a step. */
  function StepName(step: UpdateStep): string
  {
    match step
    case Observation => "observation"
    case Forecast => "forecast"
    case Alert => "alert"
  }

  /** Reads a step from its serialised name; names are case-sensitive. */
  function ParseStep(name: string): (r: Result<UpdateStep, DecodeError>)
    ensures r.Ok? ==> StepName(r.value) == name
    ensures forall step :: StepName(step) == name ==> r == Ok(step)
    ensures r.Err? ==> r.error == UnknownVariant(name)
  {
    if name == "observation" then Ok(Observation)
    else if name == "forecast" then Ok(Forecast)
    else if name == "alert" then Ok(Alert)
    else Err(UnknownVariant(name))
  }

  /** The zone is done once both the observation and the forecast are in. */
  predicate SufficientSteps(completed: set<UpdateStep>)
  {
    Observation in completed && Forecast in completed
  }

  datatype LocationUpdateStatus = InProgress(completed: set<UpdateStep>) | Succeeded | Failed
  {
    predicate Contains(step: UpdateStep)
    {
      match this
      case InProgress(completed) => step in completed
      case _ => true
    }

    predicate IsCompleted()
    {
      match this
      case InProgress(completed) => SufficientSteps(completed)
      case _ => true
    }

    predicate IsActive()
    {
      !IsCompleted()
    }

    /** Records one more completed step; a finished status no longer moves. */
    function Advance(step: UpdateStep): (r: LocationUpdateStatus)
      ensures !InProgress? ==> r == this
      ensures InProgress? ==> !r.Failed?
      ensures InProgress? ==> (r.Succeeded? <==> SufficientSteps(completed + {step}))
      ensures r.InProgress? ==> r.completed == completed + {step}
      ensures r.Contains(step)
      ensures forall s :: Contains(s) ==> r.Contains(s)
    {
      match this
      case InProgress(completed) =>
        var newCompleted := completed + {step};
        if SufficientSteps(newCompleted) then Succeeded else InProgress(newCompleted)
      case _ => this
    }

    /**
     * A status that advancing from the default can reach: an in-progress
     * status never already holds enough steps to have succeeded.
     */
    predicate Reachable()
    {
      InProgress? ==> !SufficientSteps(completed)
    }

    /** Combines two statuses (the `+` of two statuses). */
    function Plus(rhs: LocationUpdateStatus): LocationUpdateStatus
    {
      match (this, rhs)
      case (Failed, _) => Failed
      case (_, Failed) => Failed
      case (Succeeded, _) => Succeeded
      case (_, Succeeded) => Succeeded
      case (InProgress(lhsSteps), InProgress(rhsSteps)) =>
        AdvanceAll(Default, FlagOrder(lhsSteps + rhsSteps))
    }
  }

  /** A zone that has not started any step. */
  const Default: LocationUpdateStatus := InProgress({})

  /** Advances a status by each step in turn. */
  function AdvanceAll(s: LocationUpdateStatus, steps: seq<UpdateStep>): LocationUpdateStatus
    decreases |steps|
  {
    if |steps| == 0 then s else AdvanceAll(s.Advance(steps[0]), steps[1..])
  }

  /** The status a zone is in once exactly the given steps are done. */
  function FromSteps(completed: set<UpdateStep>): (r: LocationUpdateStatus)
    ensures r.Reachable()
  {
    if SufficientSteps(completed) then Succeeded else InProgress(completed)
  }

  // ---------------------------------------------------------------------------
  // Properties of advance and of the reachable statuses

  /** Advancing never leaves the reachable statuses. */
  lemma AdvancePreservesReachable(s: LocationUpdateStatus, step: UpdateStep)
    requires s.Reachable()
    ensures s.Advance(step).Reachable()
  {
  }

  /** Advancing is idempotent and the order of two steps does not matter. */
  lemma AdvanceIdempotentAndCommutative(s: LocationUpdateStatus, a: UpdateStep, b: UpdateStep)
    ensures s.Advance(a).Advance(a) == s.Advance(a)
    ensures s.Reachable() ==> s.Advance(a).Advance(b) == s.Advance(b).Advance(a)
  {
    if s.InProgress? && s.Reachable() {
      assert s.completed + {a} + {b} == s.completed + {b} + {a};
    }
  }

  /** On a reachable status, active means exactly in progress. */
  lemma ReachableActiveIffInProgress(s: LocationUpdateStatus)
    requires s.Reachable()
    ensures s.IsActive() <==> s.InProgress?
    ensures s.IsActive() == !s.IsCompleted()
  {
  }

  /**
   * What the three tests of a status say: a completed status holds both the
   * observation and the forecast, an active one is still in progress, and a
   * finished status counts as holding every step.
   */
  lemma StatusTests(s: LocationUpdateStatus, step: UpdateStep)
    ensures s.IsCompleted() ==> s.Contains(Observation) && s.Contains(Forecast)
    ensures s.IsActive() ==> s.InProgress? && !(s.Contains(Observation) && s.Contains(Forecast))
    ensures !s.InProgress? ==> s.Contains(step) && s.IsCompleted()
    ensures s.InProgress? ==> (s.Contains(step) <==> step in s.completed)
  {
  }

  /** Advancing a status reached from some steps is reaching it from one step more. */
  lemma AdvanceFromSteps(completed: set<UpdateStep>, step: UpdateStep)
    ensures FromSteps(completed).Advance(step) == FromSteps(completed + {step})
  {
  }

  /**
   * Replaying steps through advance from the status of a step set gives the
   * status of the union: the result only depends on which steps occurred.
   */
  lemma {:induction false} AdvanceAllFromSteps(completed: set<UpdateStep>, steps: seq<UpdateStep>)
    ensures AdvanceAll(FromSteps(completed), steps) == FromSteps(completed + set x | x in steps)
    decreases |steps|
  {
    if |steps| == 0 {
      assert (set x | x in steps) == {};
      assert completed + {} == completed;
    } else {
      AdvanceFromSteps(completed, steps[0]);
      AdvanceAllFromSteps(completed + {steps[0]}, steps[1..]);
      assert (set x | x in steps) == {steps[0]} + (set x | x in steps[1..]);
      assert completed + {steps[0]} + (set x | x in steps[1..]) == completed + (set x | x in steps);
    }
  }

  /** From the default, any replay reaches the status of its set of steps. */
  lemma ReplayFromDefault(steps: seq<UpdateStep>)
    ensures AdvanceAll(Default, steps) == FromSteps(set x | x in steps)
    ensures AdvanceAll(Default, steps).Reachable()
    ensures AdvanceAll(Default, steps).Succeeded? <==> Observation in steps && Forecast in steps
  {
    assert Default == FromSteps({});
    AdvanceAllFromSteps({}, steps);
    assert {} + (set x | x in steps) == (set x | x in steps);
  }

  /** Advancing a status that has finished changes nothing, whatever the steps. */
  lemma {:induction false} AdvanceAllOnFinished(s: LocationUpdateStatus, steps: seq<UpdateStep>)
    requires !s.InProgress?
    ensures AdvanceAll(s, steps) == s
    decreases |steps|
  {
    if |steps| > 0 {
      AdvanceAllOnFinished(s, steps[1..]);
    }
  }

  /** Advancing by a list of steps and then by one more is advancing by the longer list. */
  lemma {:induction false} AdvanceAllSnoc(s: LocationUpdateStatus, steps: seq<UpdateStep>, step: UpdateStep)
    ensures AdvanceAll(s, steps + [step]) == AdvanceAll(s, steps).Advance(step)
    decreases |steps|
  {
    if |steps| == 0 {
      assert steps + [step] == [step];
    } else {
      assert (steps + [step])[1..] == steps[1..] + [step];
      AdvanceAllSnoc(s.Advance(steps[0]), steps[1..], step);
    }
  }

  // ---------------------------------------------------------------------------
  // Combining statuses

  /**
   * `+` of two statuses: a failure absorbs on either side, a success beats
   * progress, and two in-progress statuses combine into the status of the
   * union of their steps.
   */
  lemma PlusMeaning(a: LocationUpdateStatus, b: LocationUpdateStatus)
    ensures a.Failed? || b.Failed? ==> a.Plus(b) == Failed
    ensures !a.Failed? && !b.Failed? && (a.Succeeded? || b.Succeeded?) ==> a.Plus(b) == Succeeded
    ensures a.InProgress? && b.InProgress? ==> a.Plus(b) == FromSteps(a.completed + b.completed)
  {
    if a.InProgress? && b.InProgress? {
      var q := FlagOrder(a.completed + b.completed);
      FlagOrderMembers(a.completed + b.completed);
      ReplayFromDefault(q);
      assert (set x | x in q) == a.completed + b.completed;
    }
  }

  /** `+` of two statuses is commutative and never leaves the reachable statuses. */
  lemma PlusCommutative(a: LocationUpdateStatus, b: LocationUpdateStatus)
    ensures a.Plus(b) == b.Plus(a)
    ensures a.Plus(b).Reachable()
  {
    PlusMeaning(a, b);
    PlusMeaning(b, a);
    if a.InProgress? && b.InProgress? {
      assert a.completed + b.completed == b.completed + a.completed;
    }
  }

  /**
   * `+` of a status and a step set: advances by each step of the set in flag
   * order. On a reachable status this is the status of the combined steps.
   */
  method AddSteps(s: LocationUpdateStatus, steps: set<UpdateStep>) returns (r: LocationUpdateStatus)
    ensures r == AdvanceAll(s, FlagOrder(steps))
    ensures !s.InProgress? ==> r == s
    ensures s.InProgress? && s.Reachable() ==> r == FromSteps(s.completed + steps)
  {
    r := AdvanceEach(s, FlagOrder(steps));
    AdvanceInFlagOrder(s, steps);
  }

  /** Advances a status by each step of a list in turn. */
  method AdvanceEach(s: LocationUpdateStatus, order: seq<UpdateStep>) returns (r: LocationUpdateStatus)
    ensures r == AdvanceAll(s, order)
  {
    r := s;
    var i := 0;
    while i < |order|
      invariant 0 <= i <= |order|
      invariant r == AdvanceAll(s, order[..i])
    {
      AdvanceAllSnoc(s, order[..i], order[i]);
      assert order[..i + 1] == order[..i] + [order[i]];
      r := r.Advance(order[i]);
      i := i + 1;
    }
    assert order[..i] == order;
  }

  /** Advancing by a step set in flag order leaves a finished status alone and otherwise adds the steps. */
  lemma AdvanceInFlagOrder(s: LocationUpdateStatus, steps: set<UpdateStep>)
    ensures !s.InProgress? ==> AdvanceAll(s, FlagOrder(steps)) == s
    ensures s.InProgress? && s.Reachable() ==> AdvanceAll(s, FlagOrder(steps)) == FromSteps(s.completed + steps)
  {
    var order := FlagOrder(steps);
    if !s.InProgress? {
      AdvanceAllOnFinished(s, order);
    } else if s.Reachable() {
      assert s == FromSteps(s.completed);
      AdvanceAllFromSteps(s.completed, order);
      FlagOrderMembers(steps);
    }
  }

  // ---------------------------------------------------------------------------
  // Map form: {"status": ..., "completed": [...]}

  const StatusField := "status"
  const CompletedField := "completed"
  const SucceededRep := "succeeded"
  const FailedRep := "failed"
  const InProgressRep := "in_progress"

  /** The JSON array of a step list. */
  function StepsJson(steps: seq<UpdateStep>): (j: Json)
    ensures j.JArr? && |j.items| == |steps|
    ensures forall i :: 0 <= i < |steps| ==> j.items[i] == JStr(StepName(steps[i]))
  {
    JArr(seq(|steps|, i requires 0 <= i < |steps| => JStr(StepName(steps[i]))))
  }

  /**
   * The map form of a status: a finished status is the one entry `status`,
   * an in-progress one adds `completed` with its steps in flag order.
   */
  function Serialize(s: LocationUpdateStatus): (j: Json)
    ensures j.JObject? && |j.entries| == (if s.InProgress? then 2 else 1)
    ensures j.entries[0].0 == StatusField
    ensures s.InProgress? ==> j.entries[1] == (CompletedField, StepsJson(FlagOrder(s.completed)))
  {
    match s
    case Succeeded => JObject([(StatusField, JStr(SucceededRep))])
    case Failed => JObject([(StatusField, JStr(FailedRep))])
    case InProgress(completed) =>
      JObject([(StatusField, JStr(InProgressRep)), (CompletedField, StepsJson(FlagOrder(completed)))])
  }

  /** Reads a JSON string. */
  function AsString(j: Json): (r: Result<string, DecodeError>)
    ensures r.Ok? <==> j.JStr?
    ensures r.Ok? ==> r.value == j.s
  {
    if j.JStr? then Ok(j.s) else Err(InvalidType("string"))
  }

  /** Reads a list of step names, failing on the first unknown one. */
  function ParseSteps(items: seq<Json>): (r: Result<seq<UpdateStep>, DecodeError>)
    ensures r.Ok? ==> |r.value| == |items|
    ensures r.Ok? ==> forall i :: 0 <= i < |items| ==> items[i] == JStr(StepName(r.value[i]))
  {
    if |items| == 0 then Ok([])
    else match AsString(items[0])
      case Err(e) => Err(e)
      case Ok(name) =>
        match ParseStep(name)
        case Err(e) => Err(e)
        case Ok(step) =>
          match ParseSteps(items[1..])
          case Err(e) => Err(e)
          case Ok(rest) => Ok([step] + rest)
  }

  /** Reads the value of the `completed` entry. */
  function ParseStepList(j: Json): Result<seq<UpdateStep>, DecodeError>
  {
    if j.JArr? then ParseSteps(j.items) else Err(InvalidType("sequence"))
  }

  /** The slots the map visitor fills in while it walks the entries. */
  datatype Slots = Slots(status: Option<string>, completed: Option<seq<UpdateStep>>)

  /** Handles one entry of the map: a known key fills its slot once. */
  function ScanEntry(slots: Slots, key: string, value: Json): Result<Slots, DecodeError>
  {
    if key == StatusField then
      if slots.status.Some? then Err(DuplicateField(StatusField))
      else match AsString(value)
        case Err(e) => Err(e)
        case Ok(rep) => Ok(slots.(status := Some(rep)))
    else if key == CompletedField then
      if slots.completed.Some? then Err(DuplicateField(CompletedField))
      else match ParseStepList(value)
        case Err(e) => Err(e)
        case Ok(steps) => Ok(slots.(completed := Some(steps)))
    else Err(UnknownField(key))
  }

  /** Walks the entries in order, stopping at the first failure. */
  function ScanEntries(slots: Slots, entries: seq<(string, Json)>): Result<Slots, DecodeError>
    decreases |entries|
  {
    if |entries| == 0 then Ok(slots)
    else match ScanEntry(slots, entries[0].0, entries[0].1)
      case Err(e) => Err(e)
      case Ok(next) => ScanEntries(next, entries[1..])
  }

  /** Turns the filled slots into a status; progress is replayed from the default. */
  function FinishSlots(slots: Slots): Result<LocationUpdateStatus, DecodeError>
  {
    match slots.status
    case None => Err(MissingField(StatusField))
    case Some(rep) =>
      if rep == SucceededRep then Ok(Succeeded)
      else if rep == FailedRep then Ok(Failed)
      else if rep == InProgressRep then
        match slots.completed
        case None => Err(MissingField(CompletedField))
        case Some(steps) => Ok(AdvanceAll(Default, steps))
      else Err(InvalidValue(rep))
  }

  /** Reads a status from its map form. */
  function Decode(j: Json): Result<LocationUpdateStatus, DecodeError>
  {
    if !j.JObject? then Err(InvalidType("map"))
    else match ScanEntries(Slots(None, None), j.entries)
      case Err(e) => Err(e)
      case Ok(slots) => FinishSlots(slots)
  }

  /**
   * The map visitor: walks the entries filling the two slots, then replays the
   * completed steps through advance on a work-in-progress status.
   */
  method Deserialize(j: Json) returns (r: Result<LocationUpdateStatus, DecodeError>)
    ensures r == Decode(j)
  {
    if !j.JObject? {
      return Err(InvalidType("map"));
    }
    var slots := Slots(None, None);
    var i := 0;
    while i < |j.entries|
      invariant 0 <= i <= |j.entries|
      invariant ScanEntries(Slots(None, None), j.entries) == ScanEntries(slots, j.entries[i..])
    {
      assert j.entries[i..][1..] == j.entries[i + 1..];
      var next := ScanEntry(slots, j.entries[i].0, j.entries[i].1);
      if next.Err? {
        return Err(next.error);
      }
      slots := next.value;
      i := i + 1;
    }
    assert ScanEntries(Slots(None, None), j.entries) == Ok(slots);
    if slots.status.None? {
      return Err(MissingField(StatusField));
    }
    var rep := slots.status.value;
    if rep == SucceededRep {
      r := Ok(Succeeded);
    } else if rep == FailedRep {
      r := Ok(Failed);
    } else if rep == InProgressRep {
      if slots.completed.None? {
        return Err(MissingField(CompletedField));
      }
      var steps := slots.completed.value;
      var wip := Default;
      var k := 0;
      while k < |steps|
        invariant 0 <= k <= |steps|
        invariant wip == AdvanceAll(Default, steps[..k])
      {
        AdvanceAllSnoc(Default, steps[..k], steps[k]);
        assert steps[..k + 1] == steps[..k] + [steps[k]];
        wip := wip.Advance(steps[k]);
        k := k + 1;
      }
      assert steps[..k] == steps;
      r := Ok(wip);
    } else {
      r := Err(InvalidValue(rep));
    }
  }

  // ---------------------------------------------------------------------------
  // Properties of the map form

  lemma ParseStepsOfNames(steps: seq<UpdateStep>)
    ensures ParseSteps(StepsJson(steps).items) == Ok(steps)
    decreases |steps|
  {
    if |steps| > 0 {
      var items := StepsJson(steps).items;
      assert items[1..] == StepsJson(steps[1..]).items;
      ParseStepsOfNames(steps[1..]);
      ParseStepsCons(items, steps[0], steps[1..]);
      assert [steps[0]] + steps[1..] == steps;
    }
  }

  /** A list whose head is a step's name reads as that step followed by the rest. */
  lemma ParseStepsCons(items: seq<Json>, step: UpdateStep, rest: seq<UpdateStep>)
    requires |items| > 0 && items[0] == JStr(StepName(step))
    requires ParseSteps(items[1..]) == Ok(rest)
    ensures ParseSteps(items) == Ok([step] + rest)
  {
    assert AsString(items[0]) == Ok(StepName(step));
    assert ParseStep(StepName(step)) == Ok(step);
  }

  /**
   * Reading back the map form of any status gives the status of its steps;
   * for every reachable status this is the status itself.
   */
  lemma RoundTrip(s: LocationUpdateStatus)
    ensures s.InProgress? ==> Decode(Serialize(s)) == Ok(FromSteps(s.completed))
    ensures s.Reachable() ==> Decode(Serialize(s)) == Ok(s)
  {
    if s.InProgress? {
      var order := FlagOrder(s.completed);
      ParseStepsOfNames(order);
      var entries := Serialize(s).entries;
      var first := Slots(Some(InProgressRep), None);
      assert ScanEntry(Slots(None, None), entries[0].0, entries[0].1) == Ok(first);
      assert ScanEntry(first, entries[1].0, entries[1].1) == Ok(Slots(Some(InProgressRep), Some(order)));
      assert entries[1..][1..] == [];
      assert ScanEntries(first, entries[1..]) == Ok(Slots(Some(InProgressRep), Some(order)));
      ReplayFromDefault(order);
      FlagOrderMembers(s.completed);
    } else {
      var entries := Serialize(s).entries;
      assert entries[1..] == [];
      assert ScanEntries(Slots(None, None), entries) == Ok(Slots(Some(entries[0].1.s), None));
    }
  }

  /** Whatever is read back is a reachable status. */
  lemma DecodedIsReachable(j: Json)
    ensures Decode(j).Ok? ==> Decode(j).value.Reachable()
  {
    if j.JObject? {
      var scanned := ScanEntries(Slots(None, None), j.entries);
      if scanned.Ok? && scanned.value.completed.Some? {
        ReplayFromDefault(scanned.value.completed.value);
      }
    }
  }

  /** A key other than `status` or `completed` makes reading fail. */
  lemma {:induction false} UnknownKeyFails(slots: Slots, entries: seq<(string, Json)>, i: int)
    requires 0 <= i < |entries|
    requires entries[i].0 != StatusField && entries[i].0 != CompletedField
    ensures ScanEntries(slots, entries).Err?
    decreases |entries|
  {
    if i > 0 {
      var next := ScanEntry(slots, entries[0].0, entries[0].1);
      if next.Ok? {
        UnknownKeyFails(next.value, entries[1..], i - 1);
      }
    }
  }

  /** A `status` key met after the status slot is filled makes reading fail. */
  lemma {:induction false} RepeatedStatusFails(slots: Slots, entries: seq<(string, Json)>, i: int)
    requires 0 <= i < |entries| && entries[i].0 == StatusField
    requires slots.status.Some?
    ensures ScanEntries(slots, entries).Err?
    decreases |entries|
  {
    if i > 0 {
      var next := ScanEntry(slots, entries[0].0, entries[0].1);
      if next.Ok? {
        RepeatedStatusFails(next.value, entries[1..], i - 1);
      }
    }
  }

  /** A `completed` key met after the completed slot is filled makes reading fail. */
  lemma {:induction false} RepeatedCompletedFails(slots: Slots, entries: seq<(string, Json)>, i: int)
    requires 0 <= i < |entries| && entries[i].0 == CompletedField
    requires slots.completed.Some?
    ensures ScanEntries(slots, entries).Err?
    decreases |entries|
  {
    if i > 0 {
      var next := ScanEntry(slots, entries[0].0, entries[0].1);
      if next.Ok? {
        RepeatedCompletedFails(next.value, entries[1..], i - 1);
      }
    }
  }

  /** A key that occurs twice makes reading fail. */
  lemma {:induction false} DuplicateKeyFails(slots: Slots, entries: seq<(string, Json)>, i: int, k: int)
    requires 0 <= i < k < |entries| && entries[i].0 == entries[k].0
    ensures ScanEntries(slots, entries).Err?
    decreases |entries|
  {
    var next := ScanEntry(slots, entries[0].0, entries[0].1);
    if next.Err? {
    } else if i > 0 {
      DuplicateKeyFails(next.value, entries[1..], i - 1, k - 1);
    } else if entries[0].0 == StatusField {
      RepeatedStatusFails(next.value, entries[1..], k - 1);
    } else {
      RepeatedCompletedFails(next.value, entries[1..], k - 1);
    }
  }

  /** Walking entries without a given key leaves that slot as it was. */
  lemma {:induction false} ScanKeepsAbsentSlots(slots: Slots, entries: seq<(string, Json)>)
    requires ScanEntries(slots, entries).Ok?
    ensures (forall e :: e in entries ==> e.0 != StatusField) ==>
      ScanEntries(slots, entries).value.status == slots.status
    ensures (forall e :: e in entries ==> e.0 != CompletedField) ==>
      ScanEntries(slots, entries).value.completed == slots.completed
    decreases |entries|
  {
    if |entries| > 0 {
      var next := ScanEntry(slots, entries[0].0, entries[0].1);
      assert forall e :: e in entries[1..] ==> e in entries;
      ScanKeepsAbsentSlots(next.value, entries[1..]);
    }
  }

  /**
   * Reading fails on an unknown key, on a repeated key, when `status` is
   * missing, and when the status is not one of the three known names; an
   * `in_progress` status without `completed` cannot be read back either.
   */
  lemma DecodeFailures(entries: seq<(string, Json)>)
    ensures (exists i :: 0 <= i < |entries| && entries[i].0 != StatusField && entries[i].0 != CompletedField)
      ==> Decode(JObject(entries)).Err?
    ensures (exists i, k :: 0 <= i < k < |entries| && entries[i].0 == entries[k].0)
      ==> Decode(JObject(entries)).Err?
    ensures (forall e :: e in entries ==> e.0 != StatusField) ==> Decode(JObject(entries)).Err?
    ensures (forall e :: e in entries ==> e.0 != CompletedField) && Decode(JObject(entries)).Ok?
      ==> !Decode(JObject(entries)).value.InProgress?
    ensures (forall e :: e in entries ==> e.0 != CompletedField) && (StatusField, JStr(InProgressRep)) in entries
      ==> Decode(JObject(entries)).Err?
  {
    var start := Slots(None, None);
    if i :| 0 <= i < |entries| && entries[i].0 != StatusField && entries[i].0 != CompletedField {
      UnknownKeyFails(start, entries, i);
    }
    if i, k :| 0 <= i < k < |entries| && entries[i].0 == entries[k].0 {
      DuplicateKeyFails(start, entries, i, k);
    }
    if ScanEntries(start, entries).Ok? {
      ScanKeepsAbsentSlots(start, entries);
    }
    if (forall e :: e in entries ==> e.0 != CompletedField) && (StatusField, JStr(InProgressRep)) in entries {
      var i :| 0 <= i < |entries| && entries[i] == (StatusField, JStr(InProgressRep));
      InProgressNeedsCompleted(entries, i);
    }
  }

  /** Once the status slot is filled, a scan that succeeds leaves it as it was. */
  lemma {:induction false} ScanKeepsFilledStatus(slots: Slots, entries: seq<(string, Json)>)
    requires slots.status.Some? && ScanEntries(slots, entries).Ok?
    ensures ScanEntries(slots, entries).value.status == slots.status
    decreases |entries|
  {
    if |entries| > 0 {
      var next := ScanEntry(slots, entries[0].0, entries[0].1);
      ScanKeepsFilledStatus(next.value, entries[1..]);
    }
  }

  /** A scan that succeeds over a `status` entry holding a string ends with that string in the status slot. */
  lemma {:induction false} StatusEntryFillsSlot(slots: Slots, entries: seq<(string, Json)>, i: int, rep: string)
    requires 0 <= i < |entries| && entries[i] == (StatusField, JStr(rep))
    requires ScanEntries(slots, entries).Ok?
    ensures ScanEntries(slots, entries).value.status == Some(rep)
    decreases |entries|
  {
    var next := ScanEntry(slots, entries[0].0, entries[0].1);
    if i > 0 {
      StatusEntryFillsSlot(next.value, entries[1..], i - 1, rep);
    } else {
      assert AsString(JStr(rep)) == Ok(rep);
      ScanKeepsFilledStatus(next.value, entries[1..]);
    }
  }

  /**
   * A status string outside the three known names is refused wherever its
   * entry stands: reading fails, and when nothing else fails first the error
   * names that string.
   */
  lemma UnknownStatusFails(entries: seq<(string, Json)>, i: int, rep: string)
    requires 0 <= i < |entries| && entries[i] == (StatusField, JStr(rep))
    requires rep != SucceededRep && rep != FailedRep && rep != InProgressRep
    ensures Decode(JObject(entries)).Err?
    ensures ScanEntries(Slots(None, None), entries).Ok? ==> Decode(JObject(entries)) == Err(InvalidValue(rep))
    ensures entries == [(StatusField, JStr(rep))] ==> Decode(JObject(entries)) == Err(InvalidValue(rep))
  {
    var start := Slots(None, None);
    if ScanEntries(start, entries).Ok? {
      StatusEntryFillsSlot(start, entries, i, rep);
    }
    if entries == [(StatusField, JStr(rep))] {
      assert entries[1..] == [];
      assert ScanEntries(start, entries) == Ok(Slots(Some(rep), None));
    }
  }

  /**
   * An `in_progress` status without a `completed` entry is refused: reading
   * fails, and when nothing else fails first the error is the missing
   * `completed` field.
   */
  lemma InProgressNeedsCompleted(entries: seq<(string, Json)>, i: int)
    requires 0 <= i < |entries| && entries[i] == (StatusField, JStr(InProgressRep))
    requires forall e :: e in entries ==> e.0 != CompletedField
    ensures Decode(JObject(entries)).Err?
    ensures ScanEntries(Slots(None, None), entries).Ok? ==> Decode(JObject(entries)) == Err(MissingField(CompletedField))
  {
    var start := Slots(None, None);
    if ScanEntries(start, entries).Ok? {
      StatusEntryFillsSlot(start, entries, i, InProgressRep);
      ScanKeepsAbsentSlots(start, entries);
    }
  }
}
