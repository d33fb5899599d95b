/**
 * CapabilityFinder.cs: structural matches from the repository, optionally narrowed to the
 * matches whose calendar offers exactly the requested slot, returned as summaries.
 */
module CapabilityFinders {
  import opened Wrappers
  import opened Collections
  import opened Capabilities
  import opened Shared
  import opened AvailabilityFacades
  import opened AllocatableCapabilities

  datatype AllocatableCapabilitySummary = AllocatableCapabilitySummary(id: AllocatableCapabilityId,
                                                                       allocatableResourceId: AllocatableResourceId,
                                                                       capabilities: CapabilitySelector,
                                                                       timeSlot: TimeSlot)

  datatype AllocatableCapabilitiesSummary = AllocatableCapabilitiesSummary(all: seq<AllocatableCapabilitySummary>)

  /** The summary copies every field of the row. */
  function CreateSummary(ac: AllocatableCapability): (r: AllocatableCapabilitySummary)
    ensures r.id == ac.id && r.allocatableResourceId == ac.resourceId
    ensures r.capabilities == ac.capabilities && r.timeSlot == ac.timeSlot
  {
    AllocatableCapabilitySummary(ac.id, ac.resourceId, ac.capabilities, ac.timeSlot)
  }

  /** One summary per row, in row order. */
  function CreateSummaries(from: seq<AllocatableCapability>): (r: AllocatableCapabilitiesSummary)
    ensures |r.all| == |from|
    ensures forall i :: 0 <= i < |from| ==> r.all[i] == CreateSummary(from[i])
  {
    AllocatableCapabilitiesSummary(Map(CreateSummary, from))
  }

  /** The summaries of a list of offers are the summaries of its elements. */
  lemma SummariesOfElements(found: seq<AllocatableCapability>, wanted: set<AllocatableCapability>)
    requires Elements(found) == wanted
    ensures Elements(CreateSummaries(found).all) == set ac | ac in wanted :: CreateSummary(ac)
  {
    MapElements(CreateSummary, found);
  }

  /** The summaries of the kept offers are those of the matching rows whose calendar lists the slot. */
  lemma SummariesOfAvailable(rows: seq<AllocatableCapability>, found: seq<AllocatableCapability>,
                             kept: seq<AllocatableCapability>, calendars: Calendars, name: string, kind: string,
                             slot: TimeSlot)
    requires Elements(found) == set ac | ac in rows && OffersWithin(ac, name, kind, slot.from, slot.to)
    requires Elements(kept) == set ac | ac in found && AvailableExactlyIn(calendars, ac, slot)
    ensures Elements(CreateSummaries(kept).all) ==
      set ac | ac in rows && OffersWithin(ac, name, kind, slot.from, slot.to) && AvailableExactlyIn(calendars, ac, slot)
             :: CreateSummary(ac)
  {
    var wanted := set ac | ac in found && AvailableExactlyIn(calendars, ac, slot);
    SummariesOfElements(kept, wanted);
    assert forall ac :: ac in found <==> ac in Elements(found);
    assert wanted == set ac | ac in rows && OffersWithin(ac, name, kind, slot.from, slot.to) && AvailableExactlyIn(calendars, ac, slot);
  }

  /** The calendar of the offer's resource lists exactly this slot among its available slots. */
  predicate AvailableExactlyIn(calendars: Calendars, ac: AllocatableCapability, slot: TimeSlot) {
    AvailabilityIdOf(ac) in calendars && slot in AvailableSlots(calendars[AvailabilityIdOf(ac)])
  }

  class CapabilityFinder {
    const availability: AvailabilityFacade
    const repository: AllocatableCapabilityRepository

    constructor (availability: AvailabilityFacade, repository: AllocatableCapabilityRepository)
      ensures this.availability == availability && this.repository == repository
    {
      this.availability := availability;
      this.repository := repository;
    }

    /** The calendars of all the offers' resources, each loaded over the slot. */
    function CalendarsOf(found: seq<AllocatableCapability>, slot: TimeSlot): Calendars
      reads availability
    {
      availability.LoadCalendars(set ac | ac in found :: AvailabilityIdOf(ac), slot)
    }

    /**
     * Keeps the offers whose calendar lists the slot, in order. Indexing the calendars by an offer
     * missing from them throws, modelled as KeyNotFound.
     */
    function FilterAvailabilityInTimeSlot(found: seq<AllocatableCapability>, slot: TimeSlot)
      : (r: Result<seq<AllocatableCapability>>)
      reads availability
      ensures r.Ok? <==> forall i :: 0 <= i < |found| ==> AvailabilityIdOf(found[i]) in CalendarsOf(found, slot)
      ensures r.Ok? ==> IsSubsequence(r.value, found)
      ensures r.Ok? ==> Elements(r.value) == set ac | ac in found && AvailableExactlyIn(CalendarsOf(found, slot), ac, slot)
      ensures r.Ok? ==> forall ac :: ac in found ==>
        multiset(r.value)[ac] == if AvailableExactlyIn(CalendarsOf(found, slot), ac, slot) then multiset(found)[ac] else 0
      ensures r.Err? ==> r.error == KeyNotFound
    {
      var calendars := CalendarsOf(found, slot);
      if forall i :: 0 <= i < |found| ==> AvailabilityIdOf(found[i]) in calendars then
        var available := (ac: AllocatableCapability) => AvailableExactlyIn(calendars, ac, slot);
        FilterMultiset(found, available);
        Ok(Filter(found, available))
      else Err(KeyNotFound)
    }

    /** Every offer of the capability whose window covers the slot, in repository order. */
    function FindCapabilities(capability: Capability, slot: TimeSlot): (r: AllocatableCapabilitiesSummary)
      reads repository
      ensures var found := repository.FindByCapabilityWithin(capability.name, capability.kind, slot.from, slot.to);
        |r.all| == |found| && forall i :: 0 <= i < |found| ==> r.all[i] == CreateSummary(found[i])
      ensures Elements(r.all) ==
        set ac | ac in repository.rows && OffersWithin(ac, capability.name, capability.kind, slot.from, slot.to) :: CreateSummary(ac)
    {
      var found := repository.FindByCapabilityWithin(capability.name, capability.kind, slot.from, slot.to);
      var wanted := set ac | ac in repository.rows && OffersWithin(ac, capability.name, capability.kind, slot.from, slot.to);
      SummariesOfElements(found, wanted);
      CreateSummaries(found)
    }

    /**
     * The structural matches whose calendar also lists the exact slot; a match whose resource
     * has no calendar makes the lookup throw.
     */
    function FindAvailableCapabilities(capability: Capability, slot: TimeSlot): (r: Result<AllocatableCapabilitiesSummary>)
      reads repository, availability
      ensures var found := repository.FindByCapabilityWithin(capability.name, capability.kind, slot.from, slot.to);
        r.Ok? <==> forall i :: 0 <= i < |found| ==> AvailabilityIdOf(found[i]) in CalendarsOf(found, slot)
      ensures r.Err? ==> r.error == KeyNotFound
      ensures var found := repository.FindByCapabilityWithin(capability.name, capability.kind, slot.from, slot.to);
        r.Ok? ==> (Elements(r.value.all) ==
                   set ac | ac in repository.rows && OffersWithin(ac, capability.name, capability.kind, slot.from, slot.to) &&
                            AvailableExactlyIn(CalendarsOf(found, slot), ac, slot) :: CreateSummary(ac))
      ensures var found := repository.FindByCapabilityWithin(capability.name, capability.kind, slot.from, slot.to);
        var kept := FilterAvailabilityInTimeSlot(found, slot);
        r.Ok? ==> kept.Ok? && |r.value.all| == |kept.value| &&
                  forall i :: 0 <= i < |kept.value| ==> r.value.all[i] == CreateSummary(kept.value[i])
    {
      var found := repository.FindByCapabilityWithin(capability.name, capability.kind, slot.from, slot.to);
      match FilterAvailabilityInTimeSlot(found, slot)
      case Ok(kept) =>
        SummariesOfAvailable(repository.rows, found, kept, CalendarsOf(found, slot), capability.name, capability.kind, slot);
        Ok(CreateSummaries(kept))
      case Err(e) => Err(e)
    }

    /** FindById(IList): one summary per stored row whose id is listed. */
    function FindByIds(ids: seq<AllocatableCapabilityId>): (r: AllocatableCapabilitiesSummary)
      reads repository
      ensures var found := repository.FindAllById(ids);
        |r.all| == |found| && forall i :: 0 <= i < |found| ==> r.all[i] == CreateSummary(found[i])
      ensures Elements(r.all) == set ac | ac in repository.rows && ac.id in ids :: CreateSummary(ac)
    {
      var found := repository.FindAllById(ids);
      MapElements(CreateSummary, found);
      var wanted := set ac | ac in repository.rows && ac.id in ids;
      assert Elements(found) == wanted;
      assert (set ac | ac in found :: CreateSummary(ac)) == set ac | ac in wanted :: CreateSummary(ac);
      assert (set ac | ac in wanted :: CreateSummary(ac)) ==
             set ac | ac in repository.rows && ac.id in ids :: CreateSummary(ac);
      assert Elements(CreateSummaries(found).all) == set ac | ac in found :: CreateSummary(ac);
      CreateSummaries(found)
    }

    /** FindById: nothing iff no stored row has the id, otherwise the summary of that row. */
    function FindById(id: AllocatableCapabilityId): (r: Option<AllocatableCapabilitySummary>)
      reads repository
      ensures r.None? <==> !repository.ExistsById(id)
      ensures r.Some? ==> exists ac :: ac in repository.rows && ac.id == id && r.value == CreateSummary(ac)
    {
      match repository.FindById(id)
      case None => None
      case Some(ac) => Some(CreateSummary(ac))
    }

    /** The available capabilities are, in order, some of the structurally matching ones. */
    lemma AvailableAmongMatching(capability: Capability, slot: TimeSlot)
      ensures FindAvailableCapabilities(capability, slot).Ok? ==>
        IsSubsequence(FindAvailableCapabilities(capability, slot).value.all, FindCapabilities(capability, slot).all)
    {
      var found := repository.FindByCapabilityWithin(capability.name, capability.kind, slot.from, slot.to);
      var filtered := FilterAvailabilityInTimeSlot(found, slot);
      if filtered.Ok? {
        MapSubsequence(CreateSummary, filtered.value, found);
      }
    }
  }
}
