/** ResourceAvailability.cs: one calendar segment of one resource, with its blockade. */
module Availability {
  import opened Shared

  /** Blockade (not part of this model): who holds a segment, and whether it is disabled. */
  type Blockade(==, 0, !new)
  /** Blockade.None(), Blockade.OwnedBy(owner), Blockade.DisabledBy(owner). */
  const NoBlockade: Blockade
  const OwnedBy: Owner -> Blockade
  const DisabledBy: Owner -> Blockade
  /** Blockade.TakenBy, Blockade.Disabled, Blockade.CanBeTakenBy(owner), Blockade.IsDisabledBy(owner). */
  const TakenBy: Blockade -> Owner
  const Disabled: Blockade -> bool
  const CanBeTakenBy: (Blockade, Owner) -> bool
  const BlockadeDisabledBy: (Blockade, Owner) -> bool
  /** ResourceAvailabilityId.GetHashCode(). */
  const IdHash: ResourceAvailabilityId -> int

  /** The guard of Block and Release: the requester may take the segment and it is not disabled. */
  predicate AvailableFor(b: Blockade, requester: Owner) {
    CanBeTakenBy(b, requester) && !Disabled(b)
  }

  class ResourceAvailability {
    const id: ResourceAvailabilityId
    const resourceId: ResourceId
    const resourceParentId: ResourceId
    const segment: TimeSlot
    var blockade: Blockade
    var version: int

    constructor (id: ResourceAvailabilityId, resourceId: ResourceId, resourceParentId: ResourceId,
                 segment: TimeSlot, blockade: Blockade, version: int)
      ensures this.id == id && this.resourceId == resourceId && this.resourceParentId == resourceParentId
      ensures this.segment == segment && this.blockade == blockade && this.version == version
    {
      this.id := id;
      this.resourceId := resourceId;
      this.resourceParentId := resourceParentId;
      this.segment := segment;
      this.blockade := blockade;
      this.version := version;
    }

    /** A fresh segment without a parent: no blockade, version 0. */
    constructor OfSegment(id: ResourceAvailabilityId, resourceId: ResourceId, segment: TimeSlot)
      ensures this.id == id && this.resourceId == resourceId && this.resourceParentId == NoResourceId
      ensures this.segment == segment && this.blockade == NoBlockade && this.version == 0
    {
      this.id := id;
      this.resourceId := resourceId;
      this.resourceParentId := NoResourceId;
      this.segment := segment;
      this.blockade := NoBlockade;
      this.version := 0;
    }

    /** A fresh segment of a resource with a parent: no blockade, version 0. */
    constructor WithParent(id: ResourceAvailabilityId, resourceId: ResourceId, resourceParentId: ResourceId,
                           segment: TimeSlot)
      ensures this.id == id && this.resourceId == resourceId && this.resourceParentId == resourceParentId
      ensures this.segment == segment && this.blockade == NoBlockade && this.version == 0
    {
      this.id := id;
      this.resourceId := resourceId;
      this.resourceParentId := resourceParentId;
      this.segment := segment;
      this.blockade := NoBlockade;
      this.version := 0;
    }

    /** The owner the segment's blockade records. */
    function BlockedBy(): (r: Owner)
      reads this
      ensures r == TakenBy(blockade)
    {
      TakenBy(blockade)
    }

    /** Whether the segment's blockade is a disabling one. */
    predicate IsDisabled(): (r: bool)
      reads this
      ensures r == Disabled(blockade)
    {
      Disabled(blockade)
    }

    /** The guard of Block and Release: a disabled segment is available to nobody. */
    predicate IsAvailableFor(requester: Owner): (r: bool)
      reads this
      ensures r <==> CanBeTakenBy(blockade, requester) && !IsDisabled()
      ensures IsDisabled() ==> !r
    {
      AvailableFor(blockade, requester)
    }

    /** Whether the segment's blockade disables it on behalf of the owner. */
    predicate IsDisabledBy(owner: Owner): (r: bool)
      reads this
      ensures r == BlockadeDisabledBy(blockade, owner)
    {
      BlockadeDisabledBy(blockade, owner)
    }

    /** Takes the segment for the requester when it is available to it; otherwise changes nothing. */
    method Block(requester: Owner) returns (ok: bool)
      modifies this`blockade
      ensures ok == AvailableFor(old(blockade), requester)
      ensures blockade == if ok then OwnedBy(requester) else old(blockade)
      ensures ok ==> !old(Disabled(blockade))
    {
      if IsAvailableFor(requester) {
        blockade := OwnedBy(requester);
        ok := true;
      } else {
        ok := false;
      }
    }

    /** Frees the segment under the same guard as Block; otherwise changes nothing. */
    method Release(requester: Owner) returns (ok: bool)
      modifies this`blockade
      ensures ok == AvailableFor(old(blockade), requester)
      ensures blockade == if ok then NoBlockade else old(blockade)
      ensures ok ==> !old(Disabled(blockade))
    {
      if IsAvailableFor(requester) {
        blockade := NoBlockade;
        ok := true;
      } else {
        ok := false;
      }
    }

    /** Disables the segment for everyone, whoever held it; always succeeds. */
    method Disable(requester: Owner) returns (ok: bool)
      modifies this`blockade
      ensures ok
      ensures blockade == DisabledBy(requester)
    {
      blockade := DisabledBy(requester);
      ok := true;
    }

    /** Clears the blockade when the requester may take it; the disabled flag is not consulted. */
    method Enable(requester: Owner) returns (ok: bool)
      modifies this`blockade
      ensures ok == CanBeTakenBy(old(blockade), requester)
      ensures blockade == if ok then NoBlockade else old(blockade)
    {
      if CanBeTakenBy(blockade, requester) {
        blockade := NoBlockade;
        ok := true;
      } else {
        ok := false;
      }
    }

    /** Equality by identifier only, as the source's Equals override. */
    predicate Equals(other: ResourceAvailability) {
      id == other.id
    }

    function HashCode(): int {
      IdHash(id)
    }
  }

  /**
   * The source's equality is an equivalence relation that agrees with the hash code, and it
   * ignores the blockade and version, so Block, Release, Disable and Enable never change which
   * availabilities an object equals.
   */
  lemma EqualityByIdentifier(a: ResourceAvailability, b: ResourceAvailability, c: ResourceAvailability)
    ensures a.Equals(a)
    ensures a.Equals(b) <==> b.Equals(a)
    ensures a.Equals(b) && b.Equals(c) ==> a.Equals(c)
    ensures a.Equals(b) ==> a.HashCode() == b.HashCode()
  {
  }
}
