/**
 * The given/when/then harness for decisions: a history of events is replayed,
 * with persisted ids 1, 2, ..., into the state the decision queries; the
 * decision is processed once on that state; and the outcome is checked
 * against the expected events or taken as the expected error. The registrar
 * decisions are run through it as an instance.
 */
module Testing {
  import opened Wrappers
  import opened Model
  import opened RegistrarState
  import opened RegistrarProtocol

  /** An event as the store hands it back: with the id it was persisted under. */
  datatype PersistedEvent<E> = PersistedEvent(id: int, event: E)

  /**
   * A decision as the harness sees it: the initial state its query yields,
   * how a persisted event changes that state, and what it decides on a state.
   */
  datatype Decision<!S, !E, X> = Decision(initial: S, mutate: (S, PersistedEvent<E>) -> S, process: S -> Result<seq<E>, X>)

  datatype Given<E> = Given(history: seq<E>)

  datatype WhenStep<E, X> = WhenStep(history: seq<E>, result: Result<seq<E>, X>)

  /** Sets up the history of events. */
  function GivenHistory<E>(history: seq<E>): (g: Given<E>)
    ensures g.history == history
  {
    Given(history)
  }

  /** The history as persisted: the `i`-th event carries id `i + 1`. */
  function Persisted<E>(history: seq<E>): (r: seq<PersistedEvent<E>>)
    ensures |r| == |history|
    ensures forall i :: 0 <= i < |history| ==> r[i] == PersistedEvent(i + 1, history[i])
  {
    seq(|history|, i requires 0 <= i < |history| => PersistedEvent(i + 1, history[i]))
  }

  /** The state after the persisted events, in order. */
  function Replay<S, E>(state: S, mutate: (S, PersistedEvent<E>) -> S, events: seq<PersistedEvent<E>>): S
    decreases |events|
  {
    if |events| == 0 then state else mutate(Replay(state, mutate, events[..|events| - 1]), events[|events| - 1])
  }

  /** The outcome of the when step: the decision processed on the state replayed from the whole history. */
  function WhenResult<S, E, X>(given: Given<E>, decision: Decision<S, E, X>): Result<seq<E>, X>
  {
    decision.process(Replay(decision.initial, decision.mutate, Persisted(given.history)))
  }

  /** Replays the history into the decision's state, then processes the decision once. */
  method When<S, E, X>(given: Given<E>, decision: Decision<S, E, X>) returns (step: WhenStep<E, X>)
    ensures step.history == given.history
    ensures step.result == WhenResult(given, decision)
  {
    var state := decision.initial;
    var i := 0;
    while i < |given.history|
      invariant 0 <= i <= |given.history|
      invariant state == Replay(decision.initial, decision.mutate, Persisted(given.history)[..i])
    {
      assert Persisted(given.history)[..i + 1][..i] == Persisted(given.history)[..i];
      state := decision.mutate(state, PersistedEvent(i + 1, given.history[i]));
      i := i + 1;
    }
    assert Persisted(given.history)[..i] == Persisted(given.history);
    step := WhenStep(given.history, decision.process(state));
  }

  /** The then step passes exactly when the decision succeeded with the expected events, in order. */
  predicate ThenPasses<E(==), X(==)>(step: WhenStep<E, X>, expected: seq<E>)
    ensures ThenPasses(step, expected) <==> step.result == Ok(expected)
  {
    step.result.Ok? && step.result.value == expected
  }

  /** The then-err step requires a failed decision and yields its error. */
  function ThenErr<E, X>(step: WhenStep<E, X>): (error: X)
    requires step.result.Err?
    ensures step.result == Err(error)
  {
    step.result.error
  }

  // ---------------------------------------------------------------------------
  // The registrar decisions through the harness

  function RegistrarMutate(codes: set<LocationZoneCode>, e: PersistedEvent<RegistrarEvent>): set<LocationZoneCode>
  {
    Apply(codes, e.event)
  }

  function MonitorDecision(zone: LocationZoneCode): Decision<set<LocationZoneCode>, RegistrarEvent, RegistrarError>
  {
    Decision({}, RegistrarMutate, codes => ProcessMonitorForecastZone(zone, codes))
  }

  function IgnoreDecision(zone: LocationZoneCode): Decision<set<LocationZoneCode>, RegistrarEvent, RegistrarError>
  {
    Decision({}, RegistrarMutate, codes => ProcessIgnoreForecastZone(zone, codes))
  }

  /** Replaying a registrar history through the harness gives the registrar's own fold: the ids play no part. */
  lemma {:induction false} ReplayIsRegistrarFold(history: seq<RegistrarEvent>)
    ensures Replay({}, RegistrarMutate, Persisted(history)) == Fold({}, history)
    decreases |history|
  {
    if |history| > 0 {
      var n := |history| - 1;
      assert Persisted(history)[..n] == Persisted(history[..n]);
      ReplayIsRegistrarFold(history[..n]);
      assert history == history[..n] + [history[n]];
      FoldSnoc({}, history[..n], history[n]);
    }
  }

  /**
   * Monitoring a zone through the harness fails with the already-monitored
   * error exactly when the history leaves the zone monitored, and otherwise
   * passes with the single added event.
   */
  lemma MonitorScenario(history: seq<RegistrarEvent>, zone: LocationZoneCode)
    ensures var step := WhenStep(history, WhenResult(GivenHistory(history), MonitorDecision(zone)));
      (step.result.Err? <==> zone in Fold({}, history)) &&
      (step.result.Err? ==> ThenErr(step) == LocationZoneAlreadyMonitored(zone)) &&
      (step.result.Ok? ==> ThenPasses(step, [ForecastZoneAdded(zone)]))
  {
    ReplayIsRegistrarFold(history);
  }

  /** Ignoring a zone through the harness always passes: with the removal if the history monitors the zone, with nothing otherwise. */
  lemma IgnoreScenario(history: seq<RegistrarEvent>, zone: LocationZoneCode)
    ensures var step := WhenStep(history, WhenResult(GivenHistory(history), IgnoreDecision(zone)));
      ThenPasses(step, if zone in Fold({}, history) then [ForecastZoneRemoved(zone)] else [])
  {
    ReplayIsRegistrarFold(history);
  }
}
