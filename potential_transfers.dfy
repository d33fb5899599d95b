/**
 * PotentialTransfers.cs: a what-if view of all project allocations and earnings. Transfer moves
 * one allocated capability between two projects by writing into the summary's dictionary in
 * place; ToSimulatedProjects turns the summary into the simulation's input.
 */
module PotentialTransfersModel {
  import opened Wrappers
  import opened Collections
  import opened Shared
  import opened Cashflows
  import opened ProjectAllocationsModel
  import opened CapabilityFinders
  import Simulation
  import Optimization

  /** A .NET Dictionary from project to allocations: distinct keys, in enumeration order. */
  type AllocationsByProject = d: Dict<ProjectAllocationsId, Allocations> | d.Valid() witness Dict([], map[])

  /**
   * ProjectsAllocationsSummary.Of(projects), which is not part of this model: the allocations
   * and the demands dictionaries it builds.
   */
  const SummaryAllocationsOf: seq<ProjectAllocations> -> AllocationsByProject
  const SummaryDemandsOf: seq<ProjectAllocations> -> map<ProjectAllocationsId, Demands>

  /** The record equality of ProjectsAllocationsSummary, which is not part of this model. */
  const SummariesEqual: (AllocationsByProject, map<ProjectAllocationsId, Demands>,
                         AllocationsByProject, map<ProjectAllocationsId, Demands>) -> bool

  /** ProjectsAllocationsSummary: its ProjectAllocations dictionary is written in place by Transfer. */
  class ProjectsAllocationsSummary {
    var projectAllocations: AllocationsByProject
    const demands: map<ProjectAllocationsId, Demands>

    constructor (projectAllocations: AllocationsByProject, demands: map<ProjectAllocationsId, Demands>)
      ensures this.projectAllocations == projectAllocations && this.demands == demands
    {
      this.projectAllocations := projectAllocations;
      this.demands := demands;
    }
  }

  /** Transfer changes something: both projects are present and the removal changes the source. */
  predicate Moves(d: AllocationsByProject, projectFrom: ProjectAllocationsId, projectTo: ProjectAllocationsId,
                  capability: AllocatedCapability, forSlot: TimeSlot) {
    projectFrom in d.values && projectTo in d.values &&
    AllocationsRemove(d.values[projectFrom], capability.allocatedCapabilityId, forSlot) != d.values[projectFrom]
  }

  /**
   * The dictionary after Transfer(from, to, capability, slot): the source entry is written
   * first, then the target entry from the target allocations read before that write.
   */
  function TransferIn(d: AllocationsByProject, projectFrom: ProjectAllocationsId, projectTo: ProjectAllocationsId,
                      capability: AllocatedCapability, forSlot: TimeSlot): (r: AllocationsByProject)
    ensures r.keys == d.keys
  {
    if !Moves(d, projectFrom, projectTo, capability, forSlot) then d
    else
      var from := d.values[projectFrom];
      var to := d.values[projectTo];
      var written := d.Put(projectFrom, AllocationsRemove(from, capability.allocatedCapabilityId, forSlot));
      written.Put(projectTo, AllocationsAdd(to, capability.(timeSlot := forSlot)))
  }

  /** When either project is absent, or the removal leaves the source as it was, nothing changes. */
  lemma TransferNoOp(d: AllocationsByProject, projectFrom: ProjectAllocationsId, projectTo: ProjectAllocationsId,
                     capability: AllocatedCapability, forSlot: TimeSlot)
    requires projectFrom !in d.values || projectTo !in d.values ||
             AllocationsRemove(d.values[projectFrom], capability.allocatedCapabilityId, forSlot) == d.values[projectFrom]
    ensures TransferIn(d, projectFrom, projectTo, capability, forSlot) == d
  {
  }

  /**
   * Between two projects, Transfer removes the capability from the source, adds it with the
   * requested slot to the target, and leaves every other project's allocations alone.
   */
  lemma TransferBetweenProjects(d: AllocationsByProject, projectFrom: ProjectAllocationsId, projectTo: ProjectAllocationsId,
                                capability: AllocatedCapability, forSlot: TimeSlot)
    requires Moves(d, projectFrom, projectTo, capability, forSlot) && projectFrom != projectTo
    ensures var r := TransferIn(d, projectFrom, projectTo, capability, forSlot);
      r.values.Keys == d.values.Keys &&
      r.values[projectFrom] == AllocationsRemove(d.values[projectFrom], capability.allocatedCapabilityId, forSlot) &&
      r.values[projectTo] == AllocationsAdd(d.values[projectTo], capability.(timeSlot := forSlot)) &&
      forall p :: p in d.values && p != projectFrom && p != projectTo ==> r.values[p] == d.values[p]
  {
  }

  /**
   * Within one project the second write wins: the entry becomes the old allocations plus the
   * capability, and the removal is lost.
   */
  lemma TransferWithinProject(d: AllocationsByProject, project: ProjectAllocationsId,
                              capability: AllocatedCapability, forSlot: TimeSlot)
    requires Moves(d, project, project, capability, forSlot)
    ensures var r := TransferIn(d, project, project, capability, forSlot);
      r.values == d.values[project := AllocationsAdd(d.values[project], capability.(timeSlot := forSlot))]
  {
  }

  /**
   * FindProjectToMoveFrom: the first project, in dictionary order, whose allocations find the
   * capability; the slot plays no part in the search.
   */
  function ProjectToMoveFrom(d: AllocationsByProject, capabilityId: AllocatableCapabilityId): (r: Option<ProjectAllocationsId>)
    ensures r.None? <==> forall i :: 0 <= i < |d.keys| ==> AllocationsFind(d.values[d.keys[i]], capabilityId).None?
    ensures r.Some? ==> exists i :: (0 <= i < |d.keys| && d.keys[i] == r.value &&
                                    AllocationsFind(d.values[r.value], capabilityId).Some? &&
                                    forall j :: 0 <= j < i ==> AllocationsFind(d.values[d.keys[j]], capabilityId).None?)
  {
    assert forall i :: 0 <= i < |d.keys| ==> d.keys[i] in d.values;
    FirstMatch(d.keys, (k: ProjectAllocationsId) => k in d.values && AllocationsFind(d.values[k], capabilityId).Some?)
  }

  /** Transfer(to, capability, slot): from the project found to hold it, or nothing when none does. */
  function TransferCapabilityIn(d: AllocationsByProject, projectTo: ProjectAllocationsId,
                                capabilityToTransfer: AllocatableCapabilitySummary, forSlot: TimeSlot): (r: AllocationsByProject)
    ensures r.keys == d.keys
    ensures ProjectToMoveFrom(d, capabilityToTransfer.id).None? ==> r == d
  {
    match ProjectToMoveFrom(d, capabilityToTransfer.id)
    case None => d
    case Some(projectFrom) =>
      TransferIn(d, projectFrom, projectTo,
                 AllocatedCapability(capabilityToTransfer.id, capabilityToTransfer.capabilities, capabilityToTransfer.timeSlot),
                 forSlot)
  }

  /** The allocation Demand as the simulation's Demand: the same capability and slot. */
  function ToSimulationDemand(demand: Demand): Optimization.WeightDimension {
    Optimization.Demand(demand.capability, demand.slot)
  }

  /** GetMissingDemands: the project's demands not met by its allocations in the summary, as simulation demands. */
  function MissingDemandsIn(d: AllocationsByProject, demands: map<ProjectAllocationsId, Demands>, project: ProjectAllocationsId)
    : (r: seq<Simulation.Demand>)
    requires project in d.values && project in demands
    ensures var missing := MissingDemandsAgainst(demands[project], d.values[project]).all;
      |r| == |missing| &&
      forall i :: 0 <= i < |r| ==> r[i].capability == missing[i].capability && r[i].slot == missing[i].slot
  {
    Map(ToSimulationDemand, MissingDemandsAgainst(demands[project], d.values[project]).all)
  }

  /**
   * ToSimulatedProjects over the given keys: one simulated project per key, valued at its
   * earnings and demanding what it misses. Summary.Demands[key] and Earnings[key] throw for a
   * key they lack.
   */
  function SimulatedProjectsFor(keys: seq<ProjectAllocationsId>, d: AllocationsByProject,
                                demands: map<ProjectAllocationsId, Demands>, earnings: map<ProjectAllocationsId, Earnings>)
    : (r: Result<seq<Simulation.SimulatedProject>>)
    requires forall k :: k in keys ==> k in d.values
    ensures r.Ok? <==> forall k :: k in keys ==> k in demands && k in earnings
    ensures r.Err? ==> r.error == KeyNotFound
    ensures r.Ok? ==> |r.value| == |keys| && forall i :: 0 <= i < |keys| ==>
      r.value[i] == Simulation.SimulatedProject(Simulation.ProjectId(keys[i].id), earnings[keys[i]].value,
                                                 MissingDemandsIn(d, demands, keys[i]))
  {
    if keys == [] then Ok([])
    else if keys[0] !in demands || keys[0] !in earnings then Err(KeyNotFound)
    else
      match SimulatedProjectsFor(keys[1..], d, demands, earnings)
      case Err(e) =>
        assert forall k :: k in keys[1..] ==> k in keys;
        Err(e)
      case Ok(rest) =>
        assert forall k :: k in keys ==> k == keys[0] || k in keys[1..];
        assert forall i :: 1 <= i < |keys| ==> keys[i] == keys[1..][i - 1];
        Ok([Simulation.SimulatedProject(Simulation.ProjectId(keys[0].id), earnings[keys[0]].value,
                                        MissingDemandsIn(d, demands, keys[0]))] + rest)
  }

  function SimulatedProjectsOf(d: AllocationsByProject, demands: map<ProjectAllocationsId, Demands>,
                               earnings: map<ProjectAllocationsId, Earnings>): Result<seq<Simulation.SimulatedProject>>
  {
    assert forall k :: k in d.keys ==> k in Elements(d.keys);
    SimulatedProjectsFor(d.keys, d, demands, earnings)
  }

  /**
   * PotentialTransfers(Summary, Earnings): the summary is shared with every value Transfer
   * returns; IDictionary<ProjectAllocationsId, Earnings> is only looked up, so it is a map.
   */
  class PotentialTransfers {
    const summary: ProjectsAllocationsSummary
    const earnings: map<ProjectAllocationsId, Earnings>

    constructor (summary: ProjectsAllocationsSummary, earnings: map<ProjectAllocationsId, Earnings>)
      ensures this.summary == summary && this.earnings == earnings
    {
      this.summary := summary;
      this.earnings := earnings;
    }

    /**
     * Transfer(from, to, capability, slot): `this` when nothing moves; otherwise the summary
     * entries are rewritten in place and a new value sharing the summary and earnings is returned.
     */
    method Transfer(projectFrom: ProjectAllocationsId, projectTo: ProjectAllocationsId,
                    allocatedCapability: AllocatedCapability, forSlot: TimeSlot) returns (r: PotentialTransfers)
      modifies summary
      ensures summary.projectAllocations ==
        TransferIn(old(summary.projectAllocations), projectFrom, projectTo, allocatedCapability, forSlot)
      ensures !Moves(old(summary.projectAllocations), projectFrom, projectTo, allocatedCapability, forSlot) ==> r == this
      ensures Moves(old(summary.projectAllocations), projectFrom, projectTo, allocatedCapability, forSlot) ==>
        fresh(r) && r.summary == summary && r.earnings == earnings
    {
      if projectFrom !in summary.projectAllocations.values || projectTo !in summary.projectAllocations.values {
        return this;
      }
      var from := summary.projectAllocations.values[projectFrom];
      var to := summary.projectAllocations.values[projectTo];
      var newAllocationsProjectFrom := AllocationsRemove(from, allocatedCapability.allocatedCapabilityId, forSlot);
      if newAllocationsProjectFrom == from {
        return this;
      }
      summary.projectAllocations := summary.projectAllocations.Put(projectFrom, newAllocationsProjectFrom);
      var newAllocationsProjectTo := AllocationsAdd(to, allocatedCapability.(timeSlot := forSlot));
      summary.projectAllocations := summary.projectAllocations.Put(projectTo, newAllocationsProjectTo);
      r := new PotentialTransfers(summary, earnings);
    }

    /** Transfer(to, capability, slot): moves it from the first project holding it, if any does. */
    method TransferCapability(projectTo: ProjectAllocationsId, capabilityToTransfer: AllocatableCapabilitySummary,
                              forSlot: TimeSlot) returns (r: PotentialTransfers)
      modifies summary
      ensures summary.projectAllocations ==
        TransferCapabilityIn(old(summary.projectAllocations), projectTo, capabilityToTransfer, forSlot)
      ensures r.summary == summary && r.earnings == earnings
    {
      var projectToMoveFrom := FindProjectToMoveFrom(capabilityToTransfer.id, forSlot);
      if projectToMoveFrom.Some? {
        r := Transfer(projectToMoveFrom.value, projectTo,
                      AllocatedCapability(capabilityToTransfer.id, capabilityToTransfer.capabilities, capabilityToTransfer.timeSlot),
                      forSlot);
        return;
      }
      return this;
    }

    /** FindProjectToMoveFrom(cap, inSlot); `inSlot` is not used by the search. */
    function FindProjectToMoveFrom(cap: AllocatableCapabilityId, inSlot: TimeSlot): Option<ProjectAllocationsId>
      reads summary
    {
      ProjectToMoveFrom(summary.projectAllocations, cap)
    }

    function ToSimulatedProjects(): Result<seq<Simulation.SimulatedProject>>
      reads summary
    {
      SimulatedProjectsOf(summary.projectAllocations, summary.demands, earnings)
    }

    /** Equals: the same object, or equal summaries and the same earnings entries (DictionaryEqual). */
    predicate Equals(other: PotentialTransfers?)
      reads this, summary
      reads if other == null then {} else {other, other.summary}
    {
      other != null &&
      (other == this ||
       (SummariesEqual(summary.projectAllocations, summary.demands, other.summary.projectAllocations, other.summary.demands) &&
        earnings == other.earnings))
    }
  }

  /** Equals is reflexive, refuses null, and depends on the earnings entries, not their dictionary. */
  lemma EqualsProperties(a: PotentialTransfers, b: PotentialTransfers)
    ensures a.Equals(a) && !a.Equals(null)
    ensures a.earnings != b.earnings && a != b ==> !a.Equals(b)
  {
  }

  /**
   * ToSimulatedProjects: one simulated project per summary key, in key order, each demanding
   * exactly as many demands as its project misses.
   */
  lemma SimulatedProjectsPerKey(d: AllocationsByProject, demands: map<ProjectAllocationsId, Demands>,
                                earnings: map<ProjectAllocationsId, Earnings>)
    ensures var r := SimulatedProjectsOf(d, demands, earnings);
      r.Ok? <==> forall k :: k in d.values ==> k in demands && k in earnings
    ensures var r := SimulatedProjectsOf(d, demands, earnings);
      r.Ok? ==> |r.value| == |d.keys| && forall i :: 0 <= i < |d.keys| ==>
        r.value[i].projectId == Simulation.ProjectId(d.keys[i].id) &&
        r.value[i].value == earnings[d.keys[i]].value &&
        |r.value[i].missingDemands| == |MissingDemandsAgainst(demands[d.keys[i]], d.values[d.keys[i]]).all|
  {
    assert forall k :: k in d.values <==> k in d.keys by {
      assert Elements(d.keys) == d.values.Keys;
    }
  }
}
