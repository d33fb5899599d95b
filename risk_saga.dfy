/**
 * The risk saga the dispatcher drives. RiskPeriodicCheckSaga and its step enumeration are not
 * part of this model: the saga's state is abstract, and each of its handlers is an
 * uninterpreted function from the old state and the input to the step it asks for and the new
 * state. Only the project id, which the saga never changes, and the missing demands it records
 * are read by the dispatcher.
 */
module RiskSagas {
  import opened Wrappers
  import opened Shared
  import opened Cashflows
  import opened ProjectAllocationsModel
  import opened Events

  /** RiskPeriodicCheckSagaStep: the five values the dispatcher's switch names. */
  datatype Step =
    | NotifyAboutDemandsSatisfied
    | FindAvailable
    | DoNothing
    | SuggestReplacement
    | NotifyAboutPossibleRisk

  type SagaState(==, 0, !new)

  /** The state of `new RiskPeriodicCheckSaga(projectId)`. */
  const InitialState: ProjectAllocationsId -> SagaState
  /** The state of `new RiskPeriodicCheckSaga(projectId, earnings)`. */
  const InitialStateWithEarnings: (ProjectAllocationsId, Earnings) -> SagaState
  /** RiskPeriodicCheckSaga.MissingDemands. */
  const SagaMissingDemands: SagaState -> Demands

  /** Handle(ProjectAllocationScheduled), Handle(EarningsRecalculated), Handle(ResourceTakenOver). */
  const HandleEventIn: (SagaState, Event) -> (Option<Step>, SagaState)
  /** HandleMissingDemands(Demands). */
  const HandleMissingDemandsIn: (SagaState, Demands) -> (Option<Step>, SagaState)
  /** HandleWeeklyCheck(DateTime): the only handler whose step is never null. */
  const HandleWeeklyCheckIn: (SagaState, Instant) -> (Step, SagaState)

  /** The events a Handle overload of the saga accepts. */
  predicate SagaEvent(e: Event) {
    e.ProjectAllocationScheduled? || e.EarningsRecalculated? || e.ResourceTakenOver?
  }

  class RiskPeriodicCheckSaga {
    const projectId: ProjectAllocationsId
    var state: SagaState

    constructor (projectId: ProjectAllocationsId)
      ensures this.projectId == projectId && state == InitialState(projectId)
    {
      this.projectId := projectId;
      state := InitialState(projectId);
    }

    constructor WithEarnings(projectId: ProjectAllocationsId, earnings: Earnings)
      ensures this.projectId == projectId && state == InitialStateWithEarnings(projectId, earnings)
    {
      this.projectId := projectId;
      state := InitialStateWithEarnings(projectId, earnings);
    }

    function MissingDemands(): Demands
      reads this
    {
      SagaMissingDemands(state)
    }

    method Handle(e: Event) returns (step: Option<Step>)
      requires SagaEvent(e)
      modifies this
      ensures (step, state) == HandleEventIn(old(state), e)
    {
      var next := HandleEventIn(state, e);
      step, state := next.0, next.1;
    }

    method HandleMissingDemands(missing: Demands) returns (step: Option<Step>)
      modifies this
      ensures (step, state) == HandleMissingDemandsIn(old(state), missing)
    {
      var next := HandleMissingDemandsIn(state, missing);
      step, state := next.0, next.1;
    }

    method HandleWeeklyCheck(when: Instant) returns (step: Step)
      modifies this
      ensures (step, state) == HandleWeeklyCheckIn(old(state), when)
    {
      var next := HandleWeeklyCheckIn(state, when);
      step, state := next.0, next.1;
    }
  }
}
