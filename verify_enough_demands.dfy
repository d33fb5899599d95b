/**
 * VerifyEnoughDemandsDuringPlanning.cs: when a project's demands are planned, simulate every
 * planned project at the same value against one capability per capability the resources have,
 * and warn when the optimal setup cannot take every project. PlanningFacade.LoadAll and
 * ResourceFacade.FindAllCapabilities are not part of this model: their results are parameters.
 */
module EnoughDemandsVerification {
  import opened Collections
  import opened Shared
  import opened Capabilities
  import opened Planning
  import opened RiskNotifications
  import Optimization
  import Simulation

  const SameArbitraryValueForEveryProject: int := 100

  /**
   * One simulated capability per listed capability, duplicates included, each able to perform
   * just that capability in the empty slot; the i-th takes the i-th identifier Guid.NewGuid draws.
   */
  function SimulatedCapabilitiesOf(allCapabilities: seq<Capability>, newId: nat -> Guid)
    : (r: Simulation.SimulatedCapabilities)
    ensures |r.capabilities| == |allCapabilities|
    ensures forall i :: 0 <= i < |allCapabilities| ==>
      r.capabilities[i] == Optimization.AvailableResourceCapability(newId(i), CanJustPerform(allCapabilities[i]), EmptySlot)
  {
    Simulation.SimulatedCapabilities(seq(|allCapabilities|, i requires 0 <= i < |allCapabilities| =>
      Optimization.AvailableResourceCapability(newId(i), CanJustPerform(allCapabilities[i]), EmptySlot)))
  }

  /** A planned demand as a simulated one: the same capability, in the empty slot. */
  function SimulatedDemand(d: Planning.Demand): Simulation.Demand {
    Optimization.Demand(d.capability, EmptySlot)
  }

  /**
   * CreateSamePriceSimulatedProject: the card's project under the simulation's id, worth 100,
   * missing each of its demands in the empty slot, one for one and in order.
   */
  function CreateSamePriceSimulatedProject(card: ProjectCard): (r: Simulation.SimulatedProject)
    ensures r.projectId == Simulation.ProjectId(card.projectId.id)
    ensures r.value == SameArbitraryValueForEveryProject as real
    ensures |r.missingDemands| == |card.demands.all|
    ensures forall i :: 0 <= i < |card.demands.all| ==>
      r.missingDemands[i] == Optimization.Demand(card.demands.all[i].capability, EmptySlot)
  {
    Simulation.SimulatedProject(Simulation.ProjectId(card.projectId.id), SameArbitraryValueForEveryProject as real,
                                Map(SimulatedDemand, card.demands.all))
  }

  function SimulatedProjectsOf(cards: seq<ProjectCard>): (r: seq<Simulation.SimulatedProject>)
    ensures |r| == |cards| && forall i :: 0 <= i < |cards| ==> r[i] == CreateSamePriceSimulatedProject(cards[i])
  {
    Map(CreateSamePriceSimulatedProject, cards)
  }

  /** The optimal setup of the planned projects against the listed capabilities does not take them all. */
  predicate NotAbleToHandleAllProjectsGivenCapabilities(projectSummaries: seq<ProjectCard>,
                                                         allCapabilities: seq<Capability>, newId: nat -> Guid)
  {
    var result := Simulation.WhatIsTheOptimalSetup(SimulatedProjectsOf(projectSummaries),
                                                   SimulatedCapabilitiesOf(allCapabilities, newId));
    |result.chosenItems| != |projectSummaries|
  }

  /** Every simulated project is worth the same, so the optimizer's items all carry value 100. */
  lemma SimulatedItemsAllWorth100(projectSummaries: seq<ProjectCard>)
    ensures forall item :: item in Simulation.ToItems(SimulatedProjectsOf(projectSummaries)) ==>
      item.value == 100.0
  {
    var items := Simulation.ToItems(SimulatedProjectsOf(projectSummaries));
    forall item | item in items ensures item.value == 100.0 {
      var i :| 0 <= i < |items| && items[i] == item;
      assert items[i].value == SimulatedProjectsOf(projectSummaries)[i].value;
    }
  }

  class VerifyEnoughDemandsDuringPlanning {
    const notifications: RiskPushNotification

    constructor (notifications: RiskPushNotification)
      ensures this.notifications == notifications
    {
      this.notifications := notifications;
    }

    /** Warns, with the event's project and demands, exactly when not every project can be handled. */
    method Handle(capabilitiesDemanded: CapabilitiesDemanded, projectSummaries: seq<ProjectCard>,
                  allCapabilities: seq<Capability>, newId: nat -> Guid)
      modifies notifications
      ensures notifications.sent == old(notifications.sent) +
        if NotAbleToHandleAllProjectsGivenCapabilities(projectSummaries, allCapabilities, newId)
        then [PossibleRiskDuringPlanning(capabilitiesDemanded.projectId, capabilitiesDemanded.demands)]
        else []
    {
      if NotAbleToHandleAllProjectsGivenCapabilities(projectSummaries, allCapabilities, newId) {
        notifications.NotifyAboutPossibleRiskDuringPlanning(capabilitiesDemanded.projectId,
                                                            capabilitiesDemanded.demands);
      }
    }
  }
}
