/**
 * Types the core shares with code that is not part of this model. Each is abstract: only the
 * operations the core calls are declared, as uninterpreted functions, so the model relies on
 * nothing about them beyond their signatures.
 */
module Shared {
  import opened Wrappers
  import opened Capabilities

  type Guid(==, 0, !new)

  /** A point in time (DateTime), on an integer scale. */
  type Instant = int

  /** TimeSlot(From, To): the record's fields are read directly by the repository queries. */
  datatype TimeSlot = TimeSlot(from: Instant, to: Instant)

  /** TimeSlot.Empty(). */
  const EmptySlot: TimeSlot
  /** `a.Within(b)`. */
  const Within: (TimeSlot, TimeSlot) -> bool
  /** Segments.NormalizeToSegmentBoundaries(slot, SegmentInMinutes.DefaultSegment()). */
  const NormalizeToSegmentBoundaries: TimeSlot -> TimeSlot

  /** Owner of a blockade; Owner.Of(guid) and the nullable Owner.OwnerId. */
  type Owner(==, 0, !new)
  const OwnerOf: Guid -> Owner
  const OwnerIdOf: Owner -> Option<Guid>

  /** Identifier of a calendar resource in the availability module; ResourceId.None(). */
  type ResourceId(==, 0, !new)
  const NoResourceId: ResourceId

  type ResourceAvailabilityId(==, 0, !new)

  type AllocatableCapabilityId(==, 0, !new)
  /** AllocatableCapabilityId.ToAvailabilityResourceId(). */
  const ToAvailabilityResourceId: AllocatableCapabilityId -> ResourceId

  type AllocatableResourceId(==, 0, !new)
  type EmployeeId(==, 0, !new)
  type DeviceId(==, 0, !new)
  /** EmployeeId.ToAllocatableResourceId() and DeviceId.ToAllocatableResourceId(). */
  const EmployeeResourceId: EmployeeId -> AllocatableResourceId
  const DeviceResourceId: DeviceId -> AllocatableResourceId

  /** ProjectAllocationsId(Guid Id). */
  datatype ProjectAllocationsId = ProjectAllocationsId(id: Guid)

  /** The capabilities a resource can offer at once: CapabilitySelector and its factories. */
  type CapabilitySelector(==, 0, !new)
  const CanPerformOneOf: set<Capability> -> CapabilitySelector
  const CanPerformAllAtTheTime: set<Capability> -> CapabilitySelector
  const CanJustPerform: Capability -> CapabilitySelector
  /** The capabilities listed in the selector (the `possible_capabilities` column). */
  const SelectorCapabilities: CapabilitySelector -> set<Capability>
  /** CapabilitySelector.CanPerform(ISet<Capability>). */
  const CanPerform: (CapabilitySelector, set<Capability>) -> bool
}
