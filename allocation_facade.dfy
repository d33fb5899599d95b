/**
 * AllocationFacade.cs: allocating capabilities to projects across the allocation, availability
 * and capability-finding modules.
 *
 * Each public method is one transaction: a thrown exception (an unknown project, a repeated id,
 * no matching element) becomes an Err result and every write of the call is rolled back. The
 * clock is the `now` parameter; the project id ProjectAllocationsId.NewOne() draws is `newProjectId`.
 */
module AllocationFacades {
  import opened Wrappers
  import opened Collections
  import opened Capabilities
  import opened Shared
  import opened Availability
  import opened AvailabilityFacades
  import opened CapabilityFinders
  import opened ProjectAllocationsModel
  import opened ProjectAllocationsRepositories
  import opened Events

  /** The availability resource a capability summary is scheduled under. */
  function ResourceOf(s: AllocatableCapabilitySummary): ResourceId {
    ToAvailabilityResourceId(s.id)
  }

  /** First(summary => its resource is the chosen one); no such summary throws. */
  function FindChosenAllocatableCapability(proposed: AllocatableCapabilitiesSummary, chosen: ResourceId)
    : (r: Result<AllocatableCapabilitySummary>)
    ensures r.Err? <==> forall i :: 0 <= i < |proposed.all| ==> ResourceOf(proposed.all[i]) != chosen
    ensures r.Err? ==> r.error == NoMatchingElement
    ensures r.Ok? ==> exists k :: 0 <= k < |proposed.all| && proposed.all[k] == r.value &&
                                  ResourceOf(r.value) == chosen &&
                                  forall j :: 0 <= j < k ==> ResourceOf(proposed.all[j]) != chosen
  {
    match FirstMatch(proposed.all, (s: AllocatableCapabilitySummary) => ResourceOf(s) == chosen)
    case None => Err(NoMatchingElement)
    case Some(s) => Ok(s)
  }

  /** The stored rows after the aggregate of `p` performs Allocate and is updated. */
  function AfterAllocate(rows: seq<ProjectAllocations>, p: ProjectAllocations, capabilityId: AllocatableCapabilityId,
                         selector: CapabilitySelector, slot: TimeSlot, now: Instant): seq<ProjectAllocations>
  {
    Replaced(rows, ProjectAllocations(p.projectId, AllocateIn(p, capabilityId, selector, slot, now).1))
  }

  class AllocationFacade {
    const repository: ProjectAllocationsRepository
    const availability: AvailabilityFacade
    const finder: CapabilityFinder
    const events: EventsPublisher

    constructor (repository: ProjectAllocationsRepository, availability: AvailabilityFacade,
                 finder: CapabilityFinder, events: EventsPublisher)
      ensures this.repository == repository && this.availability == availability
      ensures this.finder == finder && this.events == events
    {
      this.repository := repository;
      this.availability := availability;
      this.finder := finder;
      this.events := events;
    }

    /**
     * Stores a new project with no allocations, the given demands and slot, and publishes one
     * ProjectAllocationScheduled for it. A project id already stored fails and publishes nothing.
     */
    method CreateAllocation(slot: TimeSlot, scheduledDemands: Demands, newProjectId: ProjectAllocationsId, now: Instant)
      returns (r: Result<ProjectAllocationsId>)
      modifies repository, events
      ensures var stored := ProjectAllocations(newProjectId, NewAllocationState(NoAllocations, scheduledDemands, slot));
        r.Ok? ==> r.value == newProjectId && repository.rows == old(repository.rows) + [stored] &&
                  events.published == old(events.published) + [ProjectAllocationScheduled(newProjectId, slot, now)]
      ensures r.Err? <==> exists q :: q in old(repository.rows) && q.projectId == newProjectId
      ensures r.Err? ==> r.error == DuplicateKey && repository.rows == old(repository.rows) &&
                         events.published == old(events.published)
    {
      var projectAllocations := ProjectAllocations(newProjectId, NewAllocationState(NoAllocations, scheduledDemands, slot));
      var added := repository.Add(projectAllocations);
      if added.Err? {
        return Err(added.error);
      }
      events.Publish(ProjectAllocationScheduled(newProjectId, slot, now));
      r := Ok(newProjectId);
    }

    /** The private Allocate: load the project, let it allocate, store it, return its event. */
    method Allocate(projectId: ProjectAllocationsId, capabilityId: AllocatableCapabilityId, selector: CapabilitySelector,
                    slot: TimeSlot, now: Instant)
      returns (r: Result<Option<CapabilitiesAllocated>>)
      modifies repository
      ensures var loaded := old(repository.GetById(projectId));
        (loaded.Err? ==> r == Err(loaded.error) && repository.rows == old(repository.rows)) &&
        (loaded.Ok? ==> r == Ok(AllocateIn(loaded.value, capabilityId, selector, slot, now).0) &&
                        repository.rows == AfterAllocate(old(repository.rows), loaded.value, capabilityId, selector, slot, now))
    {
      var loaded := repository.GetById(projectId);
      if loaded.Err? {
        return Err(loaded.error);
      }
      var allocations := loaded.value;
      var (event, state) := AllocateIn(allocations, capabilityId, selector, slot, now);
      repository.Update(ProjectAllocations(allocations.projectId, state));
      r := Ok(event);
    }

    /**
     * Allocates a known capability to the project once its availability is blocked for the
     * project; returns the allocated-capability id of the resulting event, or none.
     */
    method AllocateToProject(projectId: ProjectAllocationsId, capabilityId: AllocatableCapabilityId, slot: TimeSlot,
                             now: Instant)
      returns (r: Result<Option<Guid>>)
      modifies repository, availability`table
      ensures old(finder.FindById(capabilityId)).None? ==>
        r == Ok(None) && repository.rows == old(repository.rows) && availability.table == old(availability.table)
      ensures var block := BlockGroup(old(availability.table),
                                      old(availability.FindGrouped(ToAvailabilityResourceId(capabilityId), slot)),
                                      OwnerOf(projectId.id));
        old(finder.FindById(capabilityId)).Some? && !block.0 ==>
          r == Ok(None) && repository.rows == old(repository.rows) && availability.table == old(availability.table)
      ensures var block := BlockGroup(old(availability.table),
                                      old(availability.FindGrouped(ToAvailabilityResourceId(capabilityId), slot)),
                                      OwnerOf(projectId.id));
        var loaded := old(repository.GetById(projectId));
        old(finder.FindById(capabilityId)).Some? && block.0 && loaded.Ok? ==>
          var selector := old(finder.FindById(capabilityId)).value.capabilities;
          var event := AllocateIn(loaded.value, capabilityId, selector, slot, now).0;
          r == Ok(if event.Some? then Some(AllocatedCapabilityIdOf(event.value)) else None) &&
          availability.table == block.1 &&
          repository.rows == AfterAllocate(old(repository.rows), loaded.value, capabilityId, selector, slot, now)
      ensures var block := BlockGroup(old(availability.table),
                                      old(availability.FindGrouped(ToAvailabilityResourceId(capabilityId), slot)),
                                      OwnerOf(projectId.id));
        old(finder.FindById(capabilityId)).Some? && block.0 && old(repository.GetById(projectId)).Err? ==>
          r == Err(old(repository.GetById(projectId)).error)
      ensures r.Err? ==> repository.rows == old(repository.rows) && availability.table == old(availability.table)
      ensures r.Err? ==> r.error == old(repository.GetById(projectId)).error
    {
      var tableBefore := availability.table;
      var capability := finder.FindById(capabilityId);
      if capability.None? {
        return Ok(None);
      }
      var blocked := availability.Block(ToAvailabilityResourceId(capabilityId), slot, OwnerOf(projectId.id));
      if !blocked {
        return Ok(None);
      }
      var event := Allocate(projectId, capabilityId, capability.value.capabilities, slot, now);
      if event.Err? {
        availability.table := tableBefore;
        return Err(event.error);
      }
      if event.value.None? {
        return Ok(None);
      }
      r := Ok(Some(AllocatedCapabilityIdOf(event.value.value)));
    }

    /**
     * Releases the availability for the project, ignoring whether that succeeded, then lets the
     * project release the capability; true iff the project produced an event.
     */
    method ReleaseFromProject(projectId: ProjectAllocationsId, capabilityId: AllocatableCapabilityId, slot: TimeSlot,
                              now: Instant)
      returns (r: Result<bool>)
      modifies repository, availability`table
      ensures var release := ReleaseGroup(old(availability.table),
                                          old(availability.FindGrouped(ToAvailabilityResourceId(capabilityId), slot)),
                                          OwnerOf(projectId.id));
        var loaded := old(repository.GetById(projectId));
        loaded.Ok? ==>
          var (event, state) := ReleaseIn(loaded.value, capabilityId, slot, now);
          r == Ok(event.Some?) && availability.table == release.1 &&
          repository.rows == Replaced(old(repository.rows), ProjectAllocations(loaded.value.projectId, state))
      ensures var loaded := old(repository.GetById(projectId));
        loaded.Err? ==> r == Err(loaded.error) && repository.rows == old(repository.rows) &&
                        availability.table == old(availability.table)
    {
      var tableBefore := availability.table;
      var _ := availability.Release(ToAvailabilityResourceId(capabilityId), slot, OwnerOf(projectId.id));
      var loaded := repository.GetById(projectId);
      if loaded.Err? {
        availability.table := tableBefore;
        return Err(loaded.error);
      }
      var allocations := loaded.value;
      var (event, state) := ReleaseIn(allocations, capabilityId, slot, now);
      repository.Update(ProjectAllocations(allocations.projectId, state));
      r := Ok(event.Some?);
    }

    /**
     * Allocates some capability matching `capability` over the slot: blocks a randomly picked
     * candidate's availability for the project, then allocates the first proposed capability
     * scheduled under the blocked resource. False when nothing matches or nothing was blocked.
     */
    method AllocateCapabilityToProjectForPeriod(projectId: ProjectAllocationsId, capability: Capability,
                                                slot: TimeSlot, now: Instant)
      returns (r: Result<bool>, ghost picked: ResourceId)
      modifies repository, availability`table
      ensures var proposed := old(finder.FindCapabilities(capability, slot));
        |proposed.all| == 0 ==>
          r == Ok(false) && repository.rows == old(repository.rows) && availability.table == old(availability.table)
      ensures var proposed := old(finder.FindCapabilities(capability, slot));
        |proposed.all| != 0 ==> picked in set s | s in proposed.all :: ResourceOf(s)
      ensures var proposed := old(finder.FindCapabilities(capability, slot));
        var group := LoadAllWithinSlot(old(availability.table), picked, NormalizeToSegmentBoundaries(slot));
        var block := BlockGroup(old(availability.table), group, OwnerOf(projectId.id));
        |proposed.all| != 0 && r.Ok? ==>
          availability.table == (if block.0 then block.1 else old(availability.table)) &&
          (r.value ==> block.0 && GroupResourceId(group).Some?)
      ensures var proposed := old(finder.FindCapabilities(capability, slot));
        var group := LoadAllWithinSlot(old(availability.table), picked, NormalizeToSegmentBoundaries(slot));
        var block := BlockGroup(old(availability.table), group, OwnerOf(projectId.id));
        var loaded := old(repository.GetById(projectId));
        |proposed.all| != 0 && block.0 && GroupResourceId(group).Some? && r.Ok? ==>
          var chosen := FindChosenAllocatableCapability(proposed, GroupResourceId(group).value);
          chosen.Ok? && loaded.Ok? &&
          r.value == AllocateIn(loaded.value, chosen.value.id, chosen.value.capabilities, slot, now).0.Some? &&
          repository.rows == AfterAllocate(old(repository.rows), loaded.value, chosen.value.id,
                                           chosen.value.capabilities, slot, now)
      ensures var proposed := old(finder.FindCapabilities(capability, slot));
        var group := LoadAllWithinSlot(old(availability.table), picked, NormalizeToSegmentBoundaries(slot));
        var block := BlockGroup(old(availability.table), group, OwnerOf(projectId.id));
        (|proposed.all| == 0 || !block.0 || GroupResourceId(group).None?) ==> r.Ok? && !r.value
      ensures var proposed := old(finder.FindCapabilities(capability, slot));
        var group := LoadAllWithinSlot(old(availability.table), picked, NormalizeToSegmentBoundaries(slot));
        var block := BlockGroup(old(availability.table), group, OwnerOf(projectId.id));
        var loaded := old(repository.GetById(projectId));
        |proposed.all| != 0 && block.0 && GroupResourceId(group).Some? ==>
          var chosen := FindChosenAllocatableCapability(proposed, GroupResourceId(group).value);
          (chosen.Err? ==> r == Err(chosen.error)) &&
          (chosen.Ok? && loaded.Err? ==> r == Err(loaded.error)) &&
          (chosen.Ok? && loaded.Ok? ==> r.Ok?)
      ensures r.Err? ==> repository.rows == old(repository.rows) && availability.table == old(availability.table)
    {
      picked := NoResourceId;
      var tableBefore := availability.table;
      var proposedCapabilities := finder.FindCapabilities(capability, slot);
      if |proposedCapabilities.all| == 0 {
        return Ok(false), picked;
      }
      var availabilityResourceIds := set s | s in proposedCapabilities.all :: ResourceOf(s);
      assert ResourceOf(proposedCapabilities.all[0]) in availabilityResourceIds;
      var chosen;
      chosen, picked := availability.BlockRandomAvailable(availabilityResourceIds, slot, OwnerOf(projectId.id));
      if chosen.None? {
        return Ok(false), picked;
      }
      var toAllocate := FindChosenAllocatableCapability(proposedCapabilities, chosen.value);
      if toAllocate.Err? {
        availability.table := tableBefore;
        return Err(toAllocate.error), picked;
      }
      var event := Allocate(projectId, toAllocate.value.id, toAllocate.value.capabilities, slot, now);
      if event.Err? {
        availability.table := tableBefore;
        return Err(event.error), picked;
      }
      r := Ok(event.value.Some?);
    }

    /** Lets the project define its slot, publishes the resulting DatesSet if there is one, and stores the project. */
    method EditProjectDates(projectId: ProjectAllocationsId, fromTo: TimeSlot, now: Instant) returns (r: Result<()>)
      modifies repository, events
      ensures var loaded := old(repository.GetById(projectId));
        loaded.Ok? ==>
          var (event, state) := DefineSlotIn(loaded.value, fromTo, now);
          r.Ok? && repository.rows == Replaced(old(repository.rows), ProjectAllocations(loaded.value.projectId, state)) &&
          events.published == old(events.published) + (if event.Some? then [DatesSet(event.value)] else [])
      ensures var loaded := old(repository.GetById(projectId));
        loaded.Err? ==> r == Err(loaded.error) && repository.rows == old(repository.rows) &&
                        events.published == old(events.published)
    {
      var loaded := repository.GetById(projectId);
      if loaded.Err? {
        return Err(loaded.error);
      }
      var projectAllocations := loaded.value;
      var (projectDatesSet, state) := DefineSlotIn(projectAllocations, fromTo, now);
      if projectDatesSet.Some? {
        events.Publish(DatesSet(projectDatesSet.value));
      }
      repository.Update(ProjectAllocations(projectAllocations.projectId, state));
      r := Ok(());
    }

    /**
     * Adds the demands to the project, creating an empty one first when none is stored. The
     * demands are added to the tracked aggregate after Add/Update, so what is stored is the
     * aggregate with the demands; the DemandsScheduled event it returns is not published.
     */
    method ScheduleProjectAllocationDemands(projectId: ProjectAllocationsId, demands: Demands, now: Instant)
      returns (r: Result<()>)
      modifies repository
      ensures var found := old(repository.FindById(projectId));
        found == Ok(None) ==>
          var empty := ProjectAllocations(projectId, EmptyAllocationState);
          r.Ok? && repository.rows == old(repository.rows) + [ProjectAllocations(projectId, AddDemandsIn(empty, demands, now).1)]
      ensures var found := old(repository.FindById(projectId));
        found.Ok? && found.value.Some? ==>
          var stored := found.value.value;
          r.Ok? && repository.rows == Replaced(old(repository.rows),
                                               ProjectAllocations(stored.projectId, AddDemandsIn(stored, demands, now).1))
      ensures var found := old(repository.FindById(projectId));
        found.Err? ==> r == Err(found.error) && repository.rows == old(repository.rows)
    {
      var found := repository.FindById(projectId);
      if found.Err? {
        return Err(found.error);
      }
      var projectAllocations;
      if found.value.None? {
        projectAllocations := ProjectAllocations(projectId, EmptyAllocationState);
        var withDemands := ProjectAllocations(projectId, AddDemandsIn(projectAllocations, demands, now).1);
        var added := repository.Add(withDemands);
        if added.Err? {
          return Err(added.error);
        }
      } else {
        projectAllocations := found.value.value;
        var withDemands := ProjectAllocations(projectAllocations.projectId, AddDemandsIn(projectAllocations, demands, now).1);
        repository.Update(withDemands);
      }
      r := Ok(());
    }
  }
}
