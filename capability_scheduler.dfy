/**
 * CapabilityScheduler.cs: registers the offers of a resource and opens their calendars.
 *
 * Each public method runs in one transaction: when saving the offers or creating calendar slots
 * fails on a duplicate key, every row written by the call is rolled back. The identifiers Guid.NewGuid would draw are
 * supplied by the caller as an infinite stream `newId`; the call uses its first elements.
 */
module CapabilitySchedulers {
  import opened Wrappers
  import opened Collections
  import opened Capabilities
  import opened Shared
  import opened AvailabilityFacades
  import opened AllocatableCapabilities

  /** The first `n` identifiers of the stream. */
  function FreshIds(newId: nat -> AllocatableCapabilityId, n: nat): (r: seq<AllocatableCapabilityId>)
    ensures |r| == n && forall i :: 0 <= i < n ==> r[i] == newId(i)
  {
    seq(n, i requires 0 <= i < n => newId(i))
  }

  /** The offers CreateAllocatableResources builds: one per selector, in selector order. */
  function NewCapabilities(resourceId: AllocatableResourceId, selectors: seq<CapabilitySelector>, slot: TimeSlot,
                           newId: nat -> AllocatableCapabilityId): (r: seq<AllocatableCapability>)
    ensures |r| == |selectors|
    ensures forall i :: 0 <= i < |r| ==> r[i] == AllocatableCapability(newId(i), resourceId, selectors[i], slot)
  {
    seq(|selectors|, i requires 0 <= i < |selectors| => AllocatableCapability(newId(i), resourceId, selectors[i], slot))
  }

  /** The offers ScheduleMultipleResourcesForPeriod builds: one CanJustPerform per resource, in set order. */
  function SingleCapabilityOffers(resources: HashSet<AllocatableResourceId>, capability: Capability, slot: TimeSlot,
                                  newId: nat -> AllocatableCapabilityId): (r: seq<AllocatableCapability>)
    ensures |r| == |resources|
    ensures forall i :: 0 <= i < |r| ==>
      r[i] == AllocatableCapability(newId(i), resources[i], CanJustPerform(capability), slot)
  {
    seq(|resources|, i requires 0 <= i < |resources| =>
      AllocatableCapability(newId(i), resources[i], CanJustPerform(capability), slot))
  }

  function IdOf(ac: AllocatableCapability): AllocatableCapabilityId {
    ac.id
  }

  /** CreateResourceSlots for each resource in turn; the first duplicate key aborts the whole run. */
  function CreateAllSlots(table: AvailabilityTable, resources: seq<ResourceId>, slot: TimeSlot)
    : Result<AvailabilityTable>
    decreases |resources|
  {
    if resources == [] then Ok(table)
    else
      match SaveNew(table, GroupOf(resources[0], slot))
      case Err(e) => Err(e)
      case Ok(next) => CreateAllSlots(next, resources[1..], slot)
  }

  /**
   * When every slot creation succeeds, each resource's group is stored and the rows stored
   * before are untouched.
   */
  lemma {:induction false} AllSlotsCreated(table: AvailabilityTable, resources: seq<ResourceId>, slot: TimeSlot)
    ensures var r := CreateAllSlots(table, resources, slot);
      r.Ok? ==>
        (forall id :: id in table ==> id in r.value && r.value[id] == table[id]) &&
        (forall i, id :: 0 <= i < |resources| && id in GroupRows(GroupOf(resources[i], slot)) ==>
           id in r.value && r.value[id] == GroupRows(GroupOf(resources[i], slot))[id])
    decreases |resources|
  {
    if resources != [] {
      var first := SaveNew(table, GroupOf(resources[0], slot));
      if first.Ok? {
        AllSlotsCreated(first.value, resources[1..], slot);
        var r := CreateAllSlots(table, resources, slot);
        if r.Ok? {
          forall i, id | 0 <= i < |resources| && id in GroupRows(GroupOf(resources[i], slot))
            ensures id in r.value && r.value[id] == GroupRows(GroupOf(resources[i], slot))[id]
          {
            if i > 0 { assert resources[i] == resources[1..][i - 1]; }
          }
        }
      }
    }
  }

  class CapabilityScheduler {
    const availability: AvailabilityFacade
    const repository: AllocatableCapabilityRepository

    constructor (availability: AvailabilityFacade, repository: AllocatableCapabilityRepository)
      ensures this.availability == availability && this.repository == repository
    {
      this.availability := availability;
      this.repository := repository;
    }

    /**
     * Saves one offer per selector and returns their ids, in selector order; an id that breaks
     * the table's primary key fails with DuplicateKey and saves nothing.
     */
    method CreateAllocatableResources(resourceId: AllocatableResourceId, selectors: seq<CapabilitySelector>,
                                      slot: TimeSlot, newId: nat -> AllocatableCapabilityId)
      returns (r: Result<seq<AllocatableCapabilityId>>)
      modifies repository
      ensures var offers := NewCapabilities(resourceId, selectors, slot, newId);
        SaveClashes(old(repository.rows), offers) ==> r == Err(DuplicateKey) && repository.rows == old(repository.rows)
      ensures var offers := NewCapabilities(resourceId, selectors, slot, newId);
        !SaveClashes(old(repository.rows), offers) ==>
          r.Ok? && repository.rows == old(repository.rows) + offers &&
          r.value == Map(IdOf, offers) && r.value == FreshIds(newId, |selectors|)
      ensures old(repository.Valid()) ==> repository.Valid()
    {
      var offers := NewCapabilities(resourceId, selectors, slot, newId);
      var saved := repository.SaveAll(offers);
      if saved.Err? {
        return Err(saved.error);
      }
      r := Ok(Map(IdOf, offers));
    }

    /** Creates the calendar slots of every offer over the slot, in order, stopping at the first failure. */
    method CreateSlotsFor(offers: seq<AllocatableCapabilityId>, slot: TimeSlot) returns (r: Result<()>)
      modifies availability`table
      ensures var all := CreateAllSlots(old(availability.table), Map(ToAvailabilityResourceId, offers), slot);
        (r.Ok? <==> all.Ok?) && (r.Ok? ==> availability.table == all.value) &&
        (r.Err? ==> r.error == all.error)
    {
      var resources := Map(ToAvailabilityResourceId, offers);
      ghost var start := availability.table;
      var i := 0;
      while i < |offers|
        invariant 0 <= i <= |offers|
        invariant CreateAllSlots(start, resources, slot) == CreateAllSlots(availability.table, resources[i..], slot)
      {
        assert resources[i..][1..] == resources[i + 1..];
        var created := availability.CreateResourceSlots(ToAvailabilityResourceId(offers[i]), slot);
        if created.Err? {
          return Err(created.error);
        }
        i := i + 1;
      }
      r := Ok(());
    }

    /**
     * One offer per selector for the resource over the slot, each with its calendar slots; the ids
     * in selector order. A refused save or a failed slot creation rolls back every write of the call.
     */
    method ScheduleResourceCapabilitiesForPeriod(resourceId: AllocatableResourceId,
                                                 capabilities: seq<CapabilitySelector>, slot: TimeSlot,
                                                 newId: nat -> AllocatableCapabilityId)
      returns (r: Result<seq<AllocatableCapabilityId>>)
      modifies repository, availability`table
      ensures var offers := NewCapabilities(resourceId, capabilities, slot, newId);
        var clash := SaveClashes(old(repository.rows), offers);
        var ids := FreshIds(newId, |capabilities|);
        var all := CreateAllSlots(old(availability.table), Map(ToAvailabilityResourceId, ids), slot);
        (r.Ok? <==> !clash && all.Ok?) &&
        (r.Ok? ==> r.value == ids && |r.value| == |capabilities| && availability.table == all.value &&
                   repository.rows == old(repository.rows) + offers) &&
        (r.Err? ==> r.error == (if clash then DuplicateKey else all.error) &&
                    repository.rows == old(repository.rows) && availability.table == old(availability.table))
      ensures old(repository.Valid()) ==> repository.Valid()
    {
      var rowsBefore := repository.rows;
      var tableBefore := availability.table;
      var saved := CreateAllocatableResources(resourceId, capabilities, slot, newId);
      if saved.Err? {
        return Err(saved.error);
      }
      var created := saved.value;
      var slots := CreateSlotsFor(created, slot);
      if slots.Err? {
        repository.rows := rowsBefore;
        availability.table := tableBefore;
        return Err(slots.error);
      }
      r := Ok(created);
    }

    /**
     * One CanJustPerform(capability) offer per resource over the slot, each with its calendar
     * slots; the ids in the set's enumeration order. A refused save or a failed slot creation rolls
     * back the call.
     */
    method ScheduleMultipleResourcesForPeriod(resources: HashSet<AllocatableResourceId>, capability: Capability,
                                              slot: TimeSlot, newId: nat -> AllocatableCapabilityId)
      returns (r: Result<seq<AllocatableCapabilityId>>)
      modifies repository, availability`table
      ensures var offers := SingleCapabilityOffers(resources, capability, slot, newId);
        var clash := SaveClashes(old(repository.rows), offers);
        var ids := FreshIds(newId, |resources|);
        var all := CreateAllSlots(old(availability.table), Map(ToAvailabilityResourceId, ids), slot);
        (r.Ok? <==> !clash && all.Ok?) &&
        (r.Ok? ==> r.value == ids && availability.table == all.value && repository.rows == old(repository.rows) + offers) &&
        (r.Err? ==> r.error == (if clash then DuplicateKey else all.error) &&
                    repository.rows == old(repository.rows) && availability.table == old(availability.table))
      ensures old(repository.Valid()) ==> repository.Valid()
    {
      var rowsBefore := repository.rows;
      var tableBefore := availability.table;
      var offers := SingleCapabilityOffers(resources, capability, slot, newId);
      var saved := repository.SaveAll(offers);
      if saved.Err? {
        return Err(saved.error);
      }
      var created := Map(IdOf, offers);
      assert created == FreshIds(newId, |resources|);
      var slots := CreateSlotsFor(created, slot);
      if slots.Err? {
        repository.rows := rowsBefore;
        availability.table := tableBefore;
        return Err(slots.error);
      }
      r := Ok(created);
    }

    /** The id of the single offer of the resource with the capability over exactly the period. */
    function FindResourceCapabilities(resourceId: AllocatableResourceId, capability: Capability, period: TimeSlot)
      : (r: Result<Option<AllocatableCapabilityId>>)
      reads repository
      ensures var rows := repository.rows;
        r == Ok(None) <==>
          forall i :: 0 <= i < |rows| ==>
            !OffersExactly(rows[i], resourceId, capability.name, capability.kind, period.from, period.to)
      ensures r.Ok? && r.value.Some? ==>
        exists ac :: ac in repository.rows && ac.id == r.value.value &&
                     OffersExactly(ac, resourceId, capability.name, capability.kind, period.from, period.to)
      ensures r.Ok? && r.value.Some? ==>
        forall i :: 0 <= i < |repository.rows| &&
                    OffersExactly(repository.rows[i], resourceId, capability.name, capability.kind, period.from, period.to) ==>
          repository.rows[i].id == r.value.value
      ensures r.Err? ==> r.error == MoreThanOneElement
      ensures r.Err? ==>
        exists i, j :: 0 <= i < j < |repository.rows| &&
          OffersExactly(repository.rows[i], resourceId, capability.name, capability.kind, period.from, period.to) &&
          OffersExactly(repository.rows[j], resourceId, capability.name, capability.kind, period.from, period.to)
    {
      match repository.FindByResourceIdAndCapabilityAndTimeSlot(resourceId, capability.name, capability.kind,
                                                                period.from, period.to)
      case Err(e) => Err(e)
      case Ok(None) => Ok(None)
      case Ok(Some(ac)) => Ok(Some(ac.id))
    }

    /**
     * The id of the first offer, in table order, of the resource over exactly the slot that can
     * perform the capabilities; none if there is no such offer.
     */
    function FindResourceCapabilitiesFor(resourceId: AllocatableResourceId, capabilities: set<Capability>,
                                         slot: TimeSlot)
      : (r: Option<AllocatableCapabilityId>)
      reads repository
      ensures var rows := repository.rows;
        r.None? <==>
          forall i :: 0 <= i < |rows| ==>
            !(OfResourceExactly(rows[i], resourceId, slot.from, slot.to) && rows[i].CanPerform(capabilities))
      ensures var rows := repository.rows;
        r.Some? ==>
          exists i :: 0 <= i < |rows| && rows[i].id == r.value &&
            OfResourceExactly(rows[i], resourceId, slot.from, slot.to) && rows[i].CanPerform(capabilities) &&
            forall j :: 0 <= j < i ==>
              !(OfResourceExactly(rows[j], resourceId, slot.from, slot.to) && rows[j].CanPerform(capabilities))
    {
      var exact := (ac: AllocatableCapability) => OfResourceExactly(ac, resourceId, slot.from, slot.to);
      var performs := (ac: AllocatableCapability) => ac.CanPerform(capabilities);
      FirstMatchOfFilter(repository.rows, exact, performs);
      match FirstMatch(repository.FindByResourceIdAndTimeSlot(resourceId, slot.from, slot.to), performs)
      case None => None
      case Some(ac) => Some(ac.id)
    }
  }
}
