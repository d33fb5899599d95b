/**
 * AllocatableCapabilityRepository.cs over an in-memory table: the SQL queries become filters
 * whose predicates are the queries' WHERE clauses, and rows come back in table order.
 */
module AllocatableCapabilities {
  import opened Wrappers
  import opened Collections
  import opened Capabilities
  import opened Shared

  /** One offer of a resource: the selector it can perform within a window. */
  datatype AllocatableCapability = AllocatableCapability(id: AllocatableCapabilityId,
                                                         resourceId: AllocatableResourceId,
                                                         capabilities: CapabilitySelector,
                                                         timeSlot: TimeSlot)
  {
    /** AllocatableCapability.CanPerform(capabilities). */
    predicate CanPerform(wanted: set<Capability>) {
      Shared.CanPerform(capabilities, wanted)
    }
  }

  /** The availability resource of an offer. */
  function AvailabilityIdOf(ac: AllocatableCapability): ResourceId {
    ToAvailabilityResourceId(ac.id)
  }

  /** Some capability listed by the row's selector has this name and type. */
  predicate Offers(ac: AllocatableCapability, name: string, kind: string) {
    Capability(name, kind) in SelectorCapabilities(ac.capabilities)
  }

  /** The WHERE clause of FindByCapabilityWithin: the offer's window covers [from, to]. */
  predicate OffersWithin(ac: AllocatableCapability, name: string, kind: string, from: Instant, to: Instant) {
    Offers(ac, name, kind) && ac.timeSlot.from <= from && ac.timeSlot.to >= to
  }

  /** The WHERE clause of FindByResourceIdAndTimeSlot: this resource, exactly this window. */
  predicate OfResourceExactly(ac: AllocatableCapability, resourceId: AllocatableResourceId, from: Instant, to: Instant) {
    ac.resourceId == resourceId && ac.timeSlot.from == from && ac.timeSlot.to == to
  }

  /** The WHERE clause of FindByResourceIdAndCapabilityAndTimeSlot. */
  predicate OffersExactly(ac: AllocatableCapability, resourceId: AllocatableResourceId, name: string, kind: string,
                          from: Instant, to: Instant) {
    OfResourceExactly(ac, resourceId, from, to) && Offers(ac, name, kind)
  }

  /** The primary key: no two rows share an id. */
  predicate DistinctIds(rows: seq<AllocatableCapability>) {
    forall i, j :: 0 <= i < j < |rows| ==> rows[i].id != rows[j].id
  }

  /**
   * Adding the batch breaks the primary key: one of its ids is already stored, or two of its
   * rows share an id.
   */
  predicate SaveClashes(rows: seq<AllocatableCapability>, batch: seq<AllocatableCapability>) {
    (exists i, j :: 0 <= i < |rows| && 0 <= j < |batch| && rows[i].id == batch[j].id) ||
    (exists i, j :: 0 <= i < j < |batch| && batch[i].id == batch[j].id)
  }

  /** On a keyed table, a batch keeps the key exactly when SaveAll does not refuse it. */
  lemma SaveKeepsKeyIffNoClash(rows: seq<AllocatableCapability>, batch: seq<AllocatableCapability>)
    requires DistinctIds(rows)
    ensures DistinctIds(rows + batch) <==> !SaveClashes(rows, batch)
  {
    var all := rows + batch;
    if SaveClashes(rows, batch) {
      if i, j :| 0 <= i < |rows| && 0 <= j < |batch| && rows[i].id == batch[j].id {
        assert all[i].id == all[|rows| + j].id;
      } else {
        var i, j :| 0 <= i < j < |batch| && batch[i].id == batch[j].id;
        assert all[|rows| + i].id == all[|rows| + j].id;
      }
    } else {
      forall i, j | 0 <= i < j < |all| ensures all[i].id != all[j].id {
        if j < |rows| {
          assert all[i] == rows[i] && all[j] == rows[j];
        } else if i < |rows| {
          assert all[i] == rows[i] && all[j] == batch[j - |rows|];
        } else {
          assert all[i] == batch[i - |rows|] && all[j] == batch[j - |rows|];
        }
      }
    }
  }

  class AllocatableCapabilityRepository {
    var rows: seq<AllocatableCapability>

    /** The table's primary key on the offer id holds. */
    predicate Valid()
      reads this
    {
      DistinctIds(rows)
    }

    constructor ()
      ensures rows == [] && Valid()
    {
      rows := [];
    }

    function FindByCapabilityWithin(name: string, kind: string, from: Instant, to: Instant)
      : (r: seq<AllocatableCapability>)
      reads this
      ensures Elements(r) == set ac | ac in rows && OffersWithin(ac, name, kind, from, to)
      ensures IsSubsequence(r, rows)
      ensures forall ac :: ac in rows ==>
        multiset(r)[ac] == if OffersWithin(ac, name, kind, from, to) then multiset(rows)[ac] else 0
    {
      var matches := (ac: AllocatableCapability) => OffersWithin(ac, name, kind, from, to);
      FilterMultiset(rows, matches);
      Filter(rows, matches)
    }

    /** SingleOrDefault over the rows of the resource offering the capability over exactly [from, to]. */
    function FindByResourceIdAndCapabilityAndTimeSlot(resourceId: AllocatableResourceId, name: string,
                                                      kind: string, from: Instant, to: Instant)
      : (r: Result<Option<AllocatableCapability>>)
      reads this
      ensures r == Ok(None) <==>
        forall i :: 0 <= i < |rows| ==> !OffersExactly(rows[i], resourceId, name, kind, from, to)
      ensures r.Ok? && r.value.Some? ==>
        r.value.value in rows && OffersExactly(r.value.value, resourceId, name, kind, from, to)
      ensures r.Ok? && r.value.Some? ==>
        forall i :: 0 <= i < |rows| && OffersExactly(rows[i], resourceId, name, kind, from, to) ==>
          rows[i] == r.value.value
      ensures r.Err? ==> r.error == MoreThanOneElement
      ensures r.Err? ==> exists i, j :: 0 <= i < j < |rows| && OffersExactly(rows[i], resourceId, name, kind, from, to) &&
                                        OffersExactly(rows[j], resourceId, name, kind, from, to)
    {
      var r := SingleOrDefault(rows, (ac: AllocatableCapability) => OffersExactly(ac, resourceId, name, kind, from, to));
      if r.Ok? && r.value.Some? then
        var k :| 0 <= k < |rows| && rows[k] == r.value.value && OffersExactly(rows[k], resourceId, name, kind, from, to) &&
                 forall j :: 0 <= j < |rows| && j != k ==> !OffersExactly(rows[j], resourceId, name, kind, from, to);
        r
      else r
    }

    function FindByResourceIdAndTimeSlot(resourceId: AllocatableResourceId, from: Instant, to: Instant)
      : (r: seq<AllocatableCapability>)
      reads this
      ensures Elements(r) == set ac | ac in rows && OfResourceExactly(ac, resourceId, from, to)
      ensures IsSubsequence(r, rows)
      ensures forall ac :: ac in rows ==>
        multiset(r)[ac] == if OfResourceExactly(ac, resourceId, from, to) then multiset(rows)[ac] else 0
    {
      var matches := (ac: AllocatableCapability) => OfResourceExactly(ac, resourceId, from, to);
      FilterMultiset(rows, matches);
      Filter(rows, matches)
    }

    function FindAllById(ids: seq<AllocatableCapabilityId>): (r: seq<AllocatableCapability>)
      reads this
      ensures Elements(r) == set ac | ac in rows && ac.id in ids
      ensures IsSubsequence(r, rows)
      ensures forall ac :: ac in rows ==> multiset(r)[ac] == if ac.id in ids then multiset(rows)[ac] else 0
    {
      var matches := (ac: AllocatableCapability) => ac.id in ids;
      FilterMultiset(rows, matches);
      Filter(rows, matches)
    }

    /** FindAsync by primary key: the row with this id, if any. */
    function FindById(id: AllocatableCapabilityId): (r: Option<AllocatableCapability>)
      reads this
      ensures r.None? <==> forall i :: 0 <= i < |rows| ==> rows[i].id != id
      ensures r.Some? ==> r.value in rows && r.value.id == id
    {
      FirstMatch(rows, (ac: AllocatableCapability) => ac.id == id)
    }

    function ExistsById(id: AllocatableCapabilityId): (r: bool)
      reads this
      ensures r <==> exists ac :: ac in rows && ac.id == id
    {
      FindById(id).Some?
    }

    /**
     * AddRange of the batch: a batch that breaks the primary key fails with DuplicateKey and
     * stores nothing (the enclosing transaction rolls back); otherwise it is appended.
     */
    method SaveAll(capabilities: seq<AllocatableCapability>) returns (r: Result<()>)
      modifies this
      ensures SaveClashes(old(rows), capabilities) ==> r == Err(DuplicateKey) && rows == old(rows)
      ensures !SaveClashes(old(rows), capabilities) ==> r.Ok? && rows == old(rows) + capabilities
      ensures old(Valid()) ==> Valid()
    {
      if SaveClashes(rows, capabilities) {
        return Err(DuplicateKey);
      }
      if Valid() {
        SaveKeepsKeyIffNoClash(rows, capabilities);
      }
      rows := rows + capabilities;
      r := Ok(());
    }
  }

  /** After SaveAll every saved row is stored and found by its id, and earlier rows keep their places. */
  lemma SavedRowsAreFound(before: seq<AllocatableCapability>, saved: seq<AllocatableCapability>,
                          repository: AllocatableCapabilityRepository)
    requires repository.rows == before + saved
    ensures forall ac :: ac in saved ==> ac in repository.rows && repository.ExistsById(ac.id)
    ensures repository.rows[..|before|] == before
  {
    forall ac | ac in saved ensures ac in repository.rows {
      var i :| 0 <= i < |saved| && saved[i] == ac;
      assert repository.rows[|before| + i] == ac;
    }
  }
}
