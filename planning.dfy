/**
 * The parts of the planning module that the risk verifiers read. The planning module itself
 * (projects, PlanningFacade, its events and ProjectCard) is not part of this model: each type
 * below keeps only the fields the risk handlers use.
 */
module Planning {
  import opened Wrappers
  import opened Collections
  import opened Shared
  import opened Capabilities

  datatype ProjectId = ProjectId(id: Guid)

  /** A planned demand: only a capability, no slot. */
  datatype Demand = Demand(capability: Capability)
  datatype Demands = Demands(all: seq<Demand>)

  /** ProjectCard, as far as its project id and all its demands. */
  datatype ProjectCard = ProjectCard(projectId: ProjectId, demands: Demands)

  datatype CapabilitiesDemanded = CapabilitiesDemanded(projectId: ProjectId, demands: Demands, occurredAt: Instant)

  /** NeededResourcesChosen: the chosen resources are a set the handler enumerates. */
  datatype NeededResourcesChosen =
    NeededResourcesChosen(projectId: ProjectId, neededResources: HashSet<ResourceId>, timeSlot: TimeSlot,
                          occurredAt: Instant)

  /** CriticalStagePlanned: the critical resource may be null. */
  datatype CriticalStagePlanned =
    CriticalStagePlanned(projectId: ProjectId, stageTimeSlot: TimeSlot, criticalResource: Option<ResourceId>,
                         occurredAt: Instant)
}
