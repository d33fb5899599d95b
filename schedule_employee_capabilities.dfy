/** ScheduleEmployeeCapabilities.cs: choose the employee's policy and schedule what it offers. */
module EmployeeCapabilityScheduling {
  import opened Wrappers
  import opened Collections
  import opened Capabilities
  import opened Shared
  import opened AvailabilityFacades
  import opened AllocatableCapabilities
  import opened CapabilitySchedulers
  import opened EmployeeAllocationPolicies
  import opened EmployeeRepositories

  /** A lead offers one of its skills and each permission in three projects at once; everyone else the default. */
  function FindAllocationPolicy(employee: EmployeeSummary): AllocationPolicy {
    if employee.seniority == Lead then Simultaneous([OneOfSkills, PermissionsInMultipleProjects(3)])
    else DefaultPolicy
  }

  /** The selectors the employee's policy offers. */
  function SelectorsOf(employee: EmployeeSummary): seq<CapabilitySelector> {
    SimultaneousCapabilitiesOf(FindAllocationPolicy(employee), employee)
  }

  /**
   * A lead's selectors are one of its skills, then three CanJustPerform per permission in
   * permission order; anybody else has the single default selector.
   */
  lemma SelectorsBySeniority(employee: EmployeeSummary)
    ensures var r := SelectorsOf(employee);
      employee.seniority == Lead ==>
        |r| == 1 + 3 * |employee.permissions| && r[0] == CanPerformOneOf(Elements(employee.skills)) &&
        forall i :: 1 <= i < |r| ==> r[i] == CanJustPerform(employee.permissions[(i - 1) / 3])
    ensures employee.seniority != Lead ==>
      SelectorsOf(employee) == [CanPerformOneOf(Elements(employee.skills) + Elements(employee.permissions))]
  {
    if employee.seniority == Lead {
      var skills := SimultaneousCapabilitiesOf(OneOfSkills, employee);
      var permissions := SimultaneousCapabilitiesOf(PermissionsInMultipleProjects(3), employee);
      CompositeConcatenates([OneOfSkills], [PermissionsInMultipleProjects(3)], employee);
      CompositeUnits(OneOfSkills, employee);
      CompositeUnits(PermissionsInMultipleProjects(3), employee);
      assert [OneOfSkills] + [PermissionsInMultipleProjects(3)] == [OneOfSkills, PermissionsInMultipleProjects(3)];
      PermissionsRepeated(3, employee);
      var r := SelectorsOf(employee);
      assert r == skills + permissions;
      forall i | 1 <= i < |r| ensures r[i] == CanJustPerform(employee.permissions[(i - 1) / 3]) {
        assert r[i] == permissions[i - 1];
      }
    }
  }

  class ScheduleEmployeeCapabilities {
    const employees: EmployeeRepository
    const scheduler: CapabilityScheduler

    constructor (employees: EmployeeRepository, scheduler: CapabilityScheduler)
      ensures this.employees == employees && this.scheduler == scheduler
    {
      this.employees := employees;
      this.scheduler := scheduler;
    }

    /**
     * Schedules, for the employee's allocatable resource and the given slot, the selectors its
     * policy offers; the ids are exactly the scheduler's. An unknown employee schedules nothing.
     */
    method SetupEmployeeCapabilities(employeeId: EmployeeId, slot: TimeSlot, newId: nat -> AllocatableCapabilityId)
      returns (r: Result<seq<AllocatableCapabilityId>>)
      modifies scheduler.repository, scheduler.availability`table
      ensures var summary := employees.FindSummary(employeeId);
        summary.Err? ==> r == Err(summary.error) && unchanged(scheduler.repository) &&
                         scheduler.availability.table == old(scheduler.availability.table)
      ensures var summary := employees.FindSummary(employeeId);
        summary.Ok? ==>
          var selectors := SelectorsOf(summary.value);
          var offers := NewCapabilities(EmployeeResourceId(employeeId), selectors, slot, newId);
          var clash := SaveClashes(old(scheduler.repository.rows), offers);
          var ids := FreshIds(newId, |selectors|);
          var all := CreateAllSlots(old(scheduler.availability.table), Map(ToAvailabilityResourceId, ids), slot);
          (r.Ok? <==> !clash && all.Ok?) &&
          (r.Ok? ==> r.value == ids && scheduler.availability.table == all.value &&
                     scheduler.repository.rows == old(scheduler.repository.rows) + offers) &&
          (r.Err? ==> r.error == (if clash then DuplicateKey else all.error) &&
                      scheduler.repository.rows == old(scheduler.repository.rows) &&
                      scheduler.availability.table == old(scheduler.availability.table))
    {
      var summary := employees.FindSummary(employeeId);
      if summary.Err? {
        return Err(summary.error);
      }
      var policy := FindAllocationPolicy(summary.value);
      var capabilities := SimultaneousCapabilitiesOf(policy, summary.value);
      r := scheduler.ScheduleResourceCapabilitiesForPeriod(EmployeeResourceId(employeeId), capabilities, slot, newId);
    }
  }
}
