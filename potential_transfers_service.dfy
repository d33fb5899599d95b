/**
 * PotentialTransfersService.cs: the profit a transfer would make, as the optimal profit after it
 * less the optimal profit before it, both with no extra capabilities.
 */
module PotentialTransfersServices {
  import opened Wrappers
  import opened Collections
  import opened Shared
  import opened Cashflows
  import opened ProjectAllocationsModel
  import opened ProjectAllocationsRepositories
  import opened CashFlowFacades
  import opened CapabilityFinders
  import opened PotentialTransfersModel
  import Simulation

  /** The optimal profit of a set of simulated projects with SimulatedCapabilities.None(). */
  function OptimalProfit(projects: seq<Simulation.SimulatedProject>): real {
    Simulation.WhatIsTheOptimalSetup(projects, Simulation.NoCapabilities()).profit
  }

  /**
   * The profit delta of CheckPotentialTransfer for a summary d before and d' after the move:
   * the simulated projects before fail exactly when those after do, since a move keeps the keys.
   */
  function ProfitDelta(d: AllocationsByProject, after: AllocationsByProject, demands: map<ProjectAllocationsId, Demands>,
                       earnings: map<ProjectAllocationsId, Earnings>): (r: Result<real>)
    ensures r.Err? ==> r.error == KeyNotFound
    ensures after.keys == d.keys ==>
      (r.Ok? <==> forall k :: k in d.values ==> k in demands && k in earnings)
  {
    SimulatedProjectsPerKey(d, demands, earnings);
    SimulatedProjectsPerKey(after, demands, earnings);
    match SimulatedProjectsOf(d, demands, earnings)
    case Err(e) => Err(e)
    case Ok(before) =>
      match SimulatedProjectsOf(after, demands, earnings)
      case Err(e) => Err(e)
      case Ok(moved) => Ok(OptimalProfit(moved) - OptimalProfit(before))
  }

  /** A rewrite that keeps the keys keeps the simulation's success: the lookups are by key. */
  lemma SimulatedProjectsKeepKeys(d: AllocationsByProject, after: AllocationsByProject,
                                  demands: map<ProjectAllocationsId, Demands>, earnings: map<ProjectAllocationsId, Earnings>)
    requires after.keys == d.keys
    ensures SimulatedProjectsOf(d, demands, earnings).Err? ==>
      SimulatedProjectsOf(d, demands, earnings) == Err(KeyNotFound) && ProfitDelta(d, after, demands, earnings) == Err(KeyNotFound)
    ensures SimulatedProjectsOf(d, demands, earnings).Ok? ==> SimulatedProjectsOf(after, demands, earnings).Ok?
  {
    SimulatedProjectsPerKey(d, demands, earnings);
    SimulatedProjectsPerKey(after, demands, earnings);
    assert Elements(after.keys) == after.values.Keys && Elements(d.keys) == d.values.Keys;
  }

  /** The delta of two simulations that ran is the difference of their optimal profits. */
  lemma ProfitDeltaOfRuns(d: AllocationsByProject, after: AllocationsByProject, demands: map<ProjectAllocationsId, Demands>,
                          earnings: map<ProjectAllocationsId, Earnings>, ran: seq<Simulation.SimulatedProject>,
                          moved: seq<Simulation.SimulatedProject>, profitBefore: real, profitAfter: real)
    requires SimulatedProjectsOf(d, demands, earnings) == Ok(ran)
    requires SimulatedProjectsOf(after, demands, earnings) == Ok(moved)
    requires profitBefore == OptimalProfit(ran) && profitAfter == OptimalProfit(moved)
    ensures ProfitDelta(d, after, demands, earnings).Ok?
    ensures ProfitDelta(d, after, demands, earnings).value == profitAfter - profitBefore
  {
  }

  /** A transfer that moves nothing is worth nothing. */
  lemma UnchangedSummaryIsWorthNothing(d: AllocationsByProject, demands: map<ProjectAllocationsId, Demands>,
                                       earnings: map<ProjectAllocationsId, Earnings>)
    requires forall k :: k in d.values ==> k in demands && k in earnings
    ensures ProfitDelta(d, d, demands, earnings) == Ok(0.0)
  {
    SimulatedProjectsPerKey(d, demands, earnings);
  }

  /** Transfer(to, capability, slot) of a capability no project holds is worth nothing. */
  lemma TransferOfUnheldCapabilityIsWorthNothing(d: AllocationsByProject, demands: map<ProjectAllocationsId, Demands>,
                                                 earnings: map<ProjectAllocationsId, Earnings>,
                                                 projectTo: ProjectAllocationsId, capability: AllocatableCapabilitySummary,
                                                 forSlot: TimeSlot)
    requires forall k :: k in d.values ==> k in demands && k in earnings
    requires forall p :: p in d.values ==> AllocationsFind(d.values[p], capability.id).None?
    ensures ProfitDelta(d, TransferCapabilityIn(d, projectTo, capability, forSlot), demands, earnings) == Ok(0.0)
  {
    assert forall i :: 0 <= i < |d.keys| ==> d.keys[i] in d.values by {
      assert Elements(d.keys) == d.values.Keys;
    }
    UnchangedSummaryIsWorthNothing(d, demands, earnings);
  }

  /** Transfer(from, to, …) that moves nothing (a project absent, or nothing removed) is worth nothing. */
  lemma NoMoveIsWorthNothing(d: AllocationsByProject, demands: map<ProjectAllocationsId, Demands>,
                             earnings: map<ProjectAllocationsId, Earnings>, projectFrom: ProjectAllocationsId,
                             projectTo: ProjectAllocationsId, capability: AllocatedCapability, forSlot: TimeSlot)
    requires forall k :: k in d.values ==> k in demands && k in earnings
    requires !Moves(d, projectFrom, projectTo, capability, forSlot)
    ensures ProfitDelta(d, TransferIn(d, projectFrom, projectTo, capability, forSlot), demands, earnings) == Ok(0.0)
  {
    UnchangedSummaryIsWorthNothing(d, demands, earnings);
  }

  /**
   * The profit of moving the capability to the project, given the project allocations table and
   * the cashflow table: the check run on a summary of every stored project allocation with all
   * earnings, or the failure of the earnings query.
   */
  function ProfitOfMovingIn(rows: seq<ProjectAllocations>, cashflows: seq<CashflowRow>, projectId: ProjectAllocationsId,
                            capabilityToMove: AllocatableCapabilitySummary, timeSlot: TimeSlot): (r: Result<real>)
    ensures r.Err? ==> r.error in {KeyNotFound, DuplicateKey, NullReference}
  {
    var earnings := AllEarningsIn(cashflows);
    if earnings.Err? then Err(earnings.error)
    else
      var d := SummaryAllocationsOf(rows);
      ProfitDelta(d, TransferCapabilityIn(d, projectId, capabilityToMove, timeSlot),
                  SummaryDemandsOf(rows), earnings.value.values)
  }

  class PotentialTransfersService {
    const projects: ProjectAllocationsRepository
    const cashFlow: CashFlowFacade

    constructor (projects: ProjectAllocationsRepository, cashFlow: CashFlowFacade)
      ensures this.projects == projects && this.cashFlow == cashFlow
    {
      this.projects := projects;
      this.cashFlow := cashFlow;
    }

    /**
     * The profit of moving the capability to the project in the current state: the check run on
     * a summary of every stored project allocation with all earnings, or the failure of the
     * earnings query.
     */
    function ProfitOfMoving(projectId: ProjectAllocationsId, capabilityToMove: AllocatableCapabilitySummary,
                            timeSlot: TimeSlot): (r: Result<real>)
      reads projects, cashFlow, cashFlow.cashflows
      ensures r.Err? ==> r.error in {KeyNotFound, DuplicateKey, NullReference}
    {
      ProfitOfMovingIn(projects.rows, cashFlow.Rows(), projectId, capabilityToMove, timeSlot)
    }

    /**
     * ProfitAfterMovingCapabilities: a fresh summary of every stored project allocation and all
     * earnings, then the check; a failing earnings query fails the whole call.
     */
    method ProfitAfterMovingCapabilities(projectId: ProjectAllocationsId, capabilityToMove: AllocatableCapabilitySummary,
                                         timeSlot: TimeSlot) returns (r: Result<real>)
      ensures r == ProfitOfMoving(projectId, capabilityToMove, timeSlot)
    {
      var earnings := cashFlow.FindAllEarnings();
      if earnings.Err? {
        return Err(earnings.error);
      }
      r := SimulateOnFreshSummary(SummaryAllocationsOf(projects.rows), SummaryDemandsOf(projects.rows), earnings.value.values,
                                  projectId, capabilityToMove, timeSlot);
    }

    /** The new ProjectsAllocationsSummary and PotentialTransfers built for one check. */
    method SimulateOnFreshSummary(d: AllocationsByProject, demands: map<ProjectAllocationsId, Demands>,
                                  earnings: map<ProjectAllocationsId, Earnings>, projectId: ProjectAllocationsId,
                                  capabilityToMove: AllocatableCapabilitySummary, timeSlot: TimeSlot)
      returns (r: Result<real>)
      ensures r == ProfitDelta(d, TransferCapabilityIn(d, projectId, capabilityToMove, timeSlot), demands, earnings)
    {
      var summary := new ProjectsAllocationsSummary(d, demands);
      var potentialTransfers := new PotentialTransfers(summary, earnings);
      r := CheckPotentialTransferOf(potentialTransfers, projectId, capabilityToMove, timeSlot);
    }

    /**
     * CheckPotentialTransfer(transfers, to, capability, slot): the "before" simulation is taken
     * before Transfer rewrites the shared summary, the "after" one from the moved summary.
     */
    method CheckPotentialTransferOf(transfers: PotentialTransfers, projectTo: ProjectAllocationsId,
                                    capabilityToMove: AllocatableCapabilitySummary, forSlot: TimeSlot)
      returns (r: Result<real>)
      modifies transfers.summary
      ensures var d := old(transfers.summary.projectAllocations);
        r == ProfitDelta(d, TransferCapabilityIn(d, projectTo, capabilityToMove, forSlot),
                         transfers.summary.demands, transfers.earnings)
      ensures var d := old(transfers.summary.projectAllocations);
        transfers.summary.projectAllocations ==
          if r.Ok? then TransferCapabilityIn(d, projectTo, capabilityToMove, forSlot) else d
    {
      var d := transfers.summary.projectAllocations;
      ghost var demands, earnings, moves := transfers.summary.demands, transfers.earnings, TransferCapabilityIn(d, projectTo, capabilityToMove, forSlot);
      SimulatedProjectsKeepKeys(d, moves, demands, earnings);
      var before := transfers.ToSimulatedProjects();
      if before.Err? {
        return Err(before.error);
      }
      var resultBefore := Simulation.WhatIsTheOptimalSetup(before.value, Simulation.NoCapabilities());
      var moved := transfers.TransferCapability(projectTo, capabilityToMove, forSlot);
      assert moved.summary == transfers.summary && moved.earnings == earnings;
      var after := moved.ToSimulatedProjects();
      var resultAfter := Simulation.WhatIsTheOptimalSetup(after.value, Simulation.NoCapabilities());
      ProfitDeltaOfRuns(d, moves, demands, earnings, before.value, after.value, resultBefore.profit, resultAfter.profit);
      var delta := resultAfter.profit - resultBefore.profit;
      assert delta == ProfitDelta(d, moves, demands, earnings).value;
      r := Ok(delta);
      assert r.value == delta;
      OkInjective(r, ProfitDelta(d, moves, demands, earnings));
    }

    /** CheckPotentialTransfer(transfers, from, to, capability, slot), likewise around Transfer(from, to, …). */
    method CheckPotentialTransfer(transfers: PotentialTransfers, projectFrom: ProjectAllocationsId,
                                  projectTo: ProjectAllocationsId, capability: AllocatedCapability, forSlot: TimeSlot)
      returns (r: Result<real>)
      modifies transfers.summary
      ensures var d := old(transfers.summary.projectAllocations);
        r == ProfitDelta(d, TransferIn(d, projectFrom, projectTo, capability, forSlot),
                         transfers.summary.demands, transfers.earnings)
      ensures var d := old(transfers.summary.projectAllocations);
        transfers.summary.projectAllocations ==
          if r.Ok? then TransferIn(d, projectFrom, projectTo, capability, forSlot) else d
    {
      var d := transfers.summary.projectAllocations;
      ghost var demands, earnings, moves := transfers.summary.demands, transfers.earnings, TransferIn(d, projectFrom, projectTo, capability, forSlot);
      SimulatedProjectsKeepKeys(d, moves, demands, earnings);
      var before := transfers.ToSimulatedProjects();
      if before.Err? {
        return Err(before.error);
      }
      var resultBefore := Simulation.WhatIsTheOptimalSetup(before.value, Simulation.NoCapabilities());
      var moved := transfers.Transfer(projectFrom, projectTo, capability, forSlot);
      assert moved.summary == transfers.summary && moved.earnings == earnings;
      var after := moved.ToSimulatedProjects();
      var resultAfter := Simulation.WhatIsTheOptimalSetup(after.value, Simulation.NoCapabilities());
      ProfitDeltaOfRuns(d, moves, demands, earnings, before.value, after.value, resultBefore.profit, resultAfter.profit);
      var delta := resultAfter.profit - resultBefore.profit;
      assert delta == ProfitDelta(d, moves, demands, earnings).value;
      r := Ok(delta);
      assert r.value == delta;
      OkInjective(r, ProfitDelta(d, moves, demands, earnings));
    }
  }
}
