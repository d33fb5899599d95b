/**
 * AvailabilityFacade.cs: load a resource's segments as one group, change them together, then save
 * them only if no row changed since it was loaded.
 *
 * The persisted table is a map from availability id to row. ResourceGroupedAvailability, the
 * repository's loading queries and the read model are not part of this model (uninterpreted
 * functions); the version-checked save is modelled as a compare-and-swap on every row of the group.
 */
module AvailabilityFacades {
  import opened Wrappers
  import opened Collections
  import opened Shared
  import opened Availability
  import opened Events

  /** The columns of one stored ResourceAvailability. */
  datatype AvailabilityRow = AvailabilityRow(resourceId: ResourceId, resourceParentId: ResourceId,
                                             segment: TimeSlot, blockade: Blockade, version: int)

  type AvailabilityTable = map<ResourceAvailabilityId, AvailabilityRow>

  /** ResourceGroupedAvailability: all segments of one resource within a slot. */
  type ResourceGroupedAvailability(==, 0, !new)
  /** ResourceGroupedAvailability.Of(resourceId, slot) and Of(resourceId, slot, parentId). */
  const GroupOf: (ResourceId, TimeSlot) -> ResourceGroupedAvailability
  const GroupOfWithParent: (ResourceId, TimeSlot, ResourceId) -> ResourceGroupedAvailability
  /** The rows the group holds, each with the version it was loaded at. */
  const GroupRows: ResourceGroupedAvailability -> AvailabilityTable
  const HasNoSlots: ResourceGroupedAvailability -> bool
  /** The group's nullable ResourceId and its Owners(). */
  const GroupResourceId: ResourceGroupedAvailability -> Option<ResourceId>
  const GroupOwners: ResourceGroupedAvailability -> set<Owner>
  /** Block, Release and Disable on every segment of the group: whether it accepted, and the changed group. */
  const GroupBlock: (ResourceGroupedAvailability, Owner) -> (bool, ResourceGroupedAvailability)
  const GroupRelease: (ResourceGroupedAvailability, Owner) -> (bool, ResourceGroupedAvailability)
  const GroupDisable: (ResourceGroupedAvailability, Owner) -> (bool, ResourceGroupedAvailability)

  /** ResourceAvailabilityRepository.LoadAllWithinSlot and LoadAllByParentIdWithinSlot, wrapped in a group. */
  const LoadAllWithinSlot: (AvailabilityTable, ResourceId, TimeSlot) -> ResourceGroupedAvailability
  const LoadAllByParentIdWithinSlot: (AvailabilityTable, ResourceId, TimeSlot) -> ResourceGroupedAvailability

  /** ResourceAvailabilityReadModel: a resource's Calendar and its AvailableSlots(). */
  type Calendar(==, 0, !new)
  const LoadCalendarFrom: (AvailabilityTable, ResourceId, TimeSlot) -> Calendar
  const AvailableSlots: Calendar -> seq<TimeSlot>

  /** Calendars.CalendarsDictionary, as ResourceAvailabilityReadModel.LoadAll yields it. */
  type Calendars = map<ResourceId, Calendar>
  const LoadCalendarsFrom: (AvailabilityTable, set<ResourceId>, TimeSlot) -> Calendars

  /** A new row would repeat a stored availability id, or a stored (resource, segment) pair. */
  predicate Conflicts(table: AvailabilityTable, rows: AvailabilityTable) {
    exists id :: id in rows &&
      (id in table || exists other :: other in table && table[other].resourceId == rows[id].resourceId
                                        && table[other].segment == rows[id].segment)
  }

  /** SaveNew: inserts the group's rows, or fails on a unique-key violation and inserts none. */
  function SaveNew(table: AvailabilityTable, g: ResourceGroupedAvailability): (r: Result<AvailabilityTable>)
    ensures r.Ok? <==> !Conflicts(table, GroupRows(g))
    ensures r.Ok? ==> r.value.Keys == table.Keys + GroupRows(g).Keys
    ensures r.Ok? ==> forall id :: id in table ==> r.value[id] == table[id]
    ensures r.Ok? ==> forall id :: id in GroupRows(g) ==> r.value[id] == GroupRows(g)[id]
    ensures r.Err? ==> r.error == DuplicateKey
  {
    if Conflicts(table, GroupRows(g)) then Err(DuplicateKey) else Ok(table + GroupRows(g))
  }

  /** Every row of the group is still stored at the version the group loaded. */
  predicate VersionsUnchanged(table: AvailabilityTable, g: ResourceGroupedAvailability) {
    forall id :: id in GroupRows(g) ==> id in table && table[id].version == GroupRows(g)[id].version
  }

  /** SaveCheckingVersion: writes the group's rows with their versions bumped, or nothing. */
  function SaveCheckingVersion(table: AvailabilityTable, g: ResourceGroupedAvailability): (r: (bool, AvailabilityTable))
    ensures r.0 <==> VersionsUnchanged(table, g)
    ensures !r.0 ==> r.1 == table
    ensures r.0 ==> r.1.Keys == table.Keys
    ensures r.0 ==> forall id :: id in table && id !in GroupRows(g) ==> r.1[id] == table[id]
    ensures r.0 ==> forall id :: id in GroupRows(g) ==>
      r.1[id] == GroupRows(g)[id].(version := table[id].version + 1)
  {
    var rows := GroupRows(g);
    if VersionsUnchanged(table, g) then
      (true, table + map id | id in rows :: rows[id].(version := rows[id].version + 1))
    else (false, table)
  }

  /** The private Block(requester, group): no slots, a refusal or a lost race all give false. */
  function BlockGroup(table: AvailabilityTable, g: ResourceGroupedAvailability, requester: Owner)
    : (r: (bool, AvailabilityTable))
    ensures HasNoSlots(g) ==> r == (false, table)
    ensures !HasNoSlots(g) && !GroupBlock(g, requester).0 ==> r == (false, table)
    ensures !HasNoSlots(g) && GroupBlock(g, requester).0 ==> r == SaveCheckingVersion(table, GroupBlock(g, requester).1)
    ensures !r.0 ==> r.1 == table
  {
    if HasNoSlots(g) then (false, table)
    else
      var (accepted, blocked) := GroupBlock(g, requester);
      if accepted then SaveCheckingVersion(table, blocked) else (false, table)
  }

  /** Release(requester) over a loaded group: no slots or a refusal give false and write nothing. */
  function ReleaseGroup(table: AvailabilityTable, g: ResourceGroupedAvailability, requester: Owner)
    : (r: (bool, AvailabilityTable))
    ensures HasNoSlots(g) || !GroupRelease(g, requester).0 ==> r == (false, table)
    ensures !HasNoSlots(g) && GroupRelease(g, requester).0 ==> r == SaveCheckingVersion(table, GroupRelease(g, requester).1)
    ensures !r.0 ==> r.1 == table
  {
    if HasNoSlots(g) then (false, table)
    else
      var (accepted, released) := GroupRelease(g, requester);
      if accepted then SaveCheckingVersion(table, released) else (false, table)
  }

  class AvailabilityFacade {
    var table: AvailabilityTable
    const events: EventsPublisher

    constructor (table: AvailabilityTable, events: EventsPublisher)
      ensures this.table == table && this.events == events
    {
      this.table := table;
      this.events := events;
    }

    /** Adds the group ResourceGroupedAvailability.Of(resourceId, slot), or fails on a duplicate key. */
    method CreateResourceSlots(resourceId: ResourceId, slot: TimeSlot) returns (r: Result<()>)
      modifies this`table
      ensures SaveNew(old(table), GroupOf(resourceId, slot)).Ok? <==> r.Ok?
      ensures r.Ok? ==> table == SaveNew(old(table), GroupOf(resourceId, slot)).value
      ensures r.Err? ==> table == old(table) && r.error == DuplicateKey
    {
      var grouped := GroupOf(resourceId, slot);
      var saved := SaveNew(table, grouped);
      if saved.Ok? {
        table := saved.value;
        r := Ok(());
      } else {
        r := Err(saved.error);
      }
    }

    /** Adds the group ResourceGroupedAvailability.Of(resourceId, slot, parentId), or fails on a duplicate key. */
    method CreateResourceSlotsWithParent(resourceId: ResourceId, parentId: ResourceId, slot: TimeSlot)
      returns (r: Result<()>)
      modifies this`table
      ensures SaveNew(old(table), GroupOfWithParent(resourceId, slot, parentId)).Ok? <==> r.Ok?
      ensures r.Ok? ==> table == SaveNew(old(table), GroupOfWithParent(resourceId, slot, parentId)).value
      ensures r.Err? ==> table == old(table) && r.error == DuplicateKey
    {
      var grouped := GroupOfWithParent(resourceId, slot, parentId);
      var saved := SaveNew(table, grouped);
      if saved.Ok? {
        table := saved.value;
        r := Ok(());
      } else {
        r := Err(saved.error);
      }
    }

    /** The resource's segments within the slot, widened to segment boundaries first. */
    function FindGrouped(resourceId: ResourceId, within: TimeSlot): ResourceGroupedAvailability
      reads this
    {
      LoadAllWithinSlot(table, resourceId, NormalizeToSegmentBoundaries(within))
    }

    /** Find loads exactly what FindGrouped loads. */
    function Find(resourceId: ResourceId, within: TimeSlot): ResourceGroupedAvailability
      reads this
    {
      FindGrouped(resourceId, within)
    }

    function FindByParentId(parentId: ResourceId, within: TimeSlot): ResourceGroupedAvailability
      reads this
    {
      LoadAllByParentIdWithinSlot(table, parentId, NormalizeToSegmentBoundaries(within))
    }

    function LoadCalendar(resourceId: ResourceId, within: TimeSlot): Calendar
      reads this
    {
      LoadCalendarFrom(table, resourceId, NormalizeToSegmentBoundaries(within))
    }

    function LoadCalendars(resources: set<ResourceId>, within: TimeSlot): Calendars
      reads this
    {
      LoadCalendarsFrom(table, resources, NormalizeToSegmentBoundaries(within))
    }

    /** Every lookup sees a slot only through its normalization: slots normalizing alike load alike. */
    lemma LookupsNormalize(id: ResourceId, a: TimeSlot, b: TimeSlot, resources: set<ResourceId>)
      requires NormalizeToSegmentBoundaries(a) == NormalizeToSegmentBoundaries(b)
      ensures FindGrouped(id, a) == FindGrouped(id, b) && Find(id, a) == Find(id, b)
      ensures FindByParentId(id, a) == FindByParentId(id, b)
      ensures LoadCalendar(id, a) == LoadCalendar(id, b) && LoadCalendars(resources, a) == LoadCalendars(resources, b)
    {
    }

    /** Blocks the resource's segments within the slot for the requester, all or none. */
    method Block(resourceId: ResourceId, slot: TimeSlot, requester: Owner) returns (ok: bool)
      modifies this`table
      ensures (ok, table) == BlockGroup(old(table), old(FindGrouped(resourceId, slot)), requester)
    {
      var toBlock := FindGrouped(resourceId, slot);
      ok := BlockLoaded(requester, toBlock);
    }

    /** The private Block(requester, group) over a group loaded earlier. */
    method BlockLoaded(requester: Owner, toBlock: ResourceGroupedAvailability) returns (ok: bool)
      modifies this`table
      ensures (ok, table) == BlockGroup(old(table), toBlock, requester)
    {
      if HasNoSlots(toBlock) {
        return false;
      }
      var (accepted, blocked) := GroupBlock(toBlock, requester);
      if accepted {
        var (saved, next) := SaveCheckingVersion(table, blocked);
        table := next;
        ok := saved;
      } else {
        ok := false;
      }
    }

    /** Releases the resource's segments within the slot for the requester, all or none. */
    method Release(resourceId: ResourceId, slot: TimeSlot, requester: Owner) returns (ok: bool)
      modifies this`table
      ensures (ok, table) == ReleaseGroup(old(table), old(FindGrouped(resourceId, slot)), requester)
    {
      var toRelease := FindGrouped(resourceId, slot);
      if HasNoSlots(toRelease) {
        return false;
      }
      var (accepted, released) := GroupRelease(toRelease, requester);
      if accepted {
        var (saved, next) := SaveCheckingVersion(table, released);
        table := next;
        ok := saved;
      } else {
        ok := false;
      }
    }

    /**
     * Disables the resource's segments within the slot. The previous owners are read before the
     * change, and one ResourceTakenOver carrying them is published only if the save succeeded.
     */
    method Disable(resourceId: ResourceId, slot: TimeSlot, requester: Owner, now: Instant) returns (ok: bool)
      modifies this`table, events
      ensures var g := old(FindGrouped(resourceId, slot));
        if HasNoSlots(g) || !GroupDisable(g, requester).0 then
          !ok && table == old(table) && events.published == old(events.published)
        else
          (ok, table) == SaveCheckingVersion(old(table), GroupDisable(g, requester).1) &&
          events.published == old(events.published) +
            (if ok then [ResourceTakenOver(resourceId, GroupOwners(g), slot, now)] else [])
    {
      var toDisable := FindGrouped(resourceId, slot);
      if HasNoSlots(toDisable) {
        return false;
      }
      var previousOwners := GroupOwners(toDisable);
      var (accepted, disabled) := GroupDisable(toDisable, requester);
      ok := accepted;
      if ok {
        var (saved, next) := SaveCheckingVersion(table, disabled);
        table := next;
        ok := saved;
        if ok {
          events.Publish(ResourceTakenOver(resourceId, previousOwners, slot, now));
        }
      }
    }

    /**
     * Picks one of the candidate resources (the repository's random choice), loads its segments
     * within the normalized slot and blocks them; the group's resource id is returned iff that
     * succeeded. With no candidates the loaded group is empty, so nothing is blocked.
     */
    method BlockRandomAvailable(resourceIds: set<ResourceId>, within: TimeSlot, owner: Owner)
      returns (chosen: Option<ResourceId>, ghost picked: ResourceId)
      modifies this`table
      ensures resourceIds == {} ==> chosen == None && table == old(table)
      ensures resourceIds != {} ==> picked in resourceIds
      ensures resourceIds != {} ==>
        var g := LoadAllWithinSlot(old(table), picked, NormalizeToSegmentBoundaries(within));
        table == BlockGroup(old(table), g, owner).1 &&
        chosen == (if BlockGroup(old(table), g, owner).0 then GroupResourceId(g) else None)
    {
      picked := NoResourceId;
      if resourceIds == {} {
        return None, picked;
      }
      var normalized := NormalizeToSegmentBoundaries(within);
      var candidate :| candidate in resourceIds;
      picked := candidate;
      var grouped := LoadAllWithinSlot(table, candidate, normalized);
      var blocked := BlockLoaded(owner, grouped);
      if blocked {
        chosen := GroupResourceId(grouped);
      } else {
        chosen := None;
      }
    }
  }
}
