/** The events the core publishes, and the publisher as an append-only log. */
module Events {
  import opened Shared
  import opened Collections
  import opened Cashflows
  import opened ProjectAllocationsModel

  datatype Event =
    | ResourceTakenOver(resourceId: ResourceId, previousOwners: set<Owner>, slot: TimeSlot, occurredAt: Instant)
    | ProjectAllocationScheduled(projectId: ProjectAllocationsId, fromTo: TimeSlot, occurredAt: Instant)
    | EarningsRecalculated(projectId: ProjectAllocationsId, earnings: Earnings, occurredAt: Instant)
    | NotSatisfiedDemands(missingDemands: Dict<ProjectAllocationsId, Demands>, occurredAt: Instant)
    | DatesSet(datesSet: ProjectAllocationsDatesSet)

  /** IEventsPublisher: every published event, in publication order. */
  class EventsPublisher {
    ghost var published: seq<Event>

    constructor ()
      ensures published == []
    {
      published := [];
    }

    method Publish(e: Event)
      modifies this
      ensures published == old(published) + [e]
    {
      published := published + [e];
    }
  }
}
