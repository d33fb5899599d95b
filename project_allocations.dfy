/**
 * The allocation aggregate ProjectAllocations and its Allocations and Demands, which are not part
 * of this model: every operation on them is an uninterpreted function. The aggregate keeps its
 * ProjectId (it is the table key), so the model pairs that id with an abstract rest of the state.
 */
module ProjectAllocationsModel {
  import opened Wrappers
  import opened Capabilities
  import opened Shared

  /** The capabilities allocated to one project (Allocations); Allocations.None(). */
  type Allocations(==, 0, !new)
  const NoAllocations: Allocations

  /** AllocatedCapability(AllocatedCapabilityId, Capability, TimeSlot). */
  datatype AllocatedCapability = AllocatedCapability(allocatedCapabilityId: AllocatableCapabilityId,
                                                     capability: CapabilitySelector, timeSlot: TimeSlot)

  /** Allocations.Remove(id, slot), Allocations.Add(allocated), Allocations.Find(id). */
  const AllocationsRemove: (Allocations, AllocatableCapabilityId, TimeSlot) -> Allocations
  const AllocationsAdd: (Allocations, AllocatedCapability) -> Allocations
  const AllocationsFind: (Allocations, AllocatableCapabilityId) -> Option<AllocatedCapability>

  /** Demand(Capability, Slot) and Demands(All). */
  datatype Demand = Demand(capability: Capability, slot: TimeSlot)
  datatype Demands = Demands(all: seq<Demand>)

  /** Demands.MissingDemands(allocations). */
  const MissingDemandsAgainst: (Demands, Allocations) -> Demands

  /** Everything of a ProjectAllocations but its id. */
  type AllocationState(==, 0, !new)

  datatype ProjectAllocations = ProjectAllocations(projectId: ProjectAllocationsId, state: AllocationState)

  /** new ProjectAllocations(id, allocations, demands, timeSlot) and ProjectAllocations.Empty(id). */
  const NewAllocationState: (Allocations, Demands, TimeSlot) -> AllocationState
  const EmptyAllocationState: AllocationState

  /** The aggregate's allocations, its demands, and its time slot (the from_date/to_date columns, null when not defined). */
  const AllocationsOf: AllocationState -> Allocations
  const DemandsOf: AllocationState -> Demands
  const TimeSlotOf: AllocationState -> Option<TimeSlot>
  /** ProjectAllocations.MissingDemands(). */
  const MissingDemandsOf: AllocationState -> Demands

  /** The events the aggregate's operations return (null when nothing changed). */
  type CapabilitiesAllocated(==, 0, !new)
  const AllocatedCapabilityIdOf: CapabilitiesAllocated -> Guid
  type CapabilityReleased(==, 0, !new)
  type ProjectAllocationsDemandsScheduled(==, 0, !new)
  type ProjectAllocationsDatesSet(==, 0, !new)

  /** Allocate(capabilityId, selector, slot, when), Release(capabilityId, slot, when), DefineSlot(slot, when), AddDemands(demands, when). */
  const AllocateIn: (ProjectAllocations, AllocatableCapabilityId, CapabilitySelector, TimeSlot, Instant)
                    -> (Option<CapabilitiesAllocated>, AllocationState)
  const ReleaseIn: (ProjectAllocations, AllocatableCapabilityId, TimeSlot, Instant)
                   -> (Option<CapabilityReleased>, AllocationState)
  const DefineSlotIn: (ProjectAllocations, TimeSlot, Instant) -> (Option<ProjectAllocationsDatesSet>, AllocationState)
  const AddDemandsIn: (ProjectAllocations, Demands, Instant)
                      -> (Option<ProjectAllocationsDemandsScheduled>, AllocationState)

  predicate HasTimeSlot(p: ProjectAllocations) {
    TimeSlotOf(p.state).Some?
  }

  function MissingDemands(p: ProjectAllocations): Demands {
    MissingDemandsOf(p.state)
  }
}
