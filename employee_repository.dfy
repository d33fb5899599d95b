/** EmployeeRepository.cs over an in-memory table of employees. */
module EmployeeRepositories {
  import opened Wrappers
  import opened Collections
  import opened Capabilities
  import opened Shared
  import opened EmployeeAllocationPolicies

  datatype Employee = Employee(id: EmployeeId, name: string, lastName: string, seniority: Seniority,
                               capabilities: HashSet<Capability>)

  /** The capabilities satisfying the predicate, in enumeration order, as a set again. */
  function FilterCapabilities(capabilities: HashSet<Capability>, keep: Capability -> bool)
    : (r: HashSet<Capability>)
    ensures Elements(r) == set c | c in capabilities && keep(c)
    ensures IsSubsequence(r, capabilities)
  {
    FilterNoDuplicates(capabilities, keep);
    ToHashSet(Filter(capabilities, keep))
  }

  function CapabilitiesOf(e: Employee): seq<Capability> {
    e.capabilities
  }

  /** A capability is in the flattening iff some employee has it. */
  lemma EmployeeCapabilities(employees: seq<Employee>)
    ensures forall c :: c in Flatten(Map(CapabilitiesOf, employees)) <==> exists e :: e in employees && c in e.capabilities
  {
    var all := Map(CapabilitiesOf, employees);
    forall c ensures c in Flatten(all) <==> exists e :: e in employees && c in e.capabilities {
      FlattenMember(all, c);
      if exists e :: e in employees && c in e.capabilities {
        var e :| e in employees && c in e.capabilities;
        var i :| 0 <= i < |employees| && employees[i] == e;
        assert c in all[i];
      }
    }
  }

  /** The capabilities of the `i`th employee follow those of the employees before it. */
  lemma EmployeeSegment(employees: seq<Employee>, i: nat)
    requires i < |employees|
    ensures var before := SumOfLengths(Map(CapabilitiesOf, employees[..i]));
      before + |employees[i].capabilities| <= |Flatten(Map(CapabilitiesOf, employees))| &&
      Flatten(Map(CapabilitiesOf, employees))[before..before + |employees[i].capabilities|] == employees[i].capabilities
  {
    var all := Map(CapabilitiesOf, employees);
    FlattenSegment(all, i);
    assert all[..i] == Map(CapabilitiesOf, employees[..i]);
  }

  /** The primary key: no two employees share an id. */
  predicate DistinctEmployeeIds(employees: seq<Employee>) {
    forall i, j :: 0 <= i < j < |employees| ==> employees[i].id != employees[j].id
  }

  class EmployeeRepository {
    var employees: seq<Employee>

    /** The table's primary key on the employee id holds. */
    predicate Valid()
      reads this
    {
      DistinctEmployeeIds(employees)
    }

    constructor ()
      ensures employees == [] && Valid()
    {
      employees := [];
    }

    /**
     * The summary of the one employee with the id: its skills and its permissions split by type.
     * SingleAsync throws when no employee or more than one has the id.
     */
    function FindSummary(employeeId: EmployeeId): (r: Result<EmployeeSummary>)
      reads this
      ensures r.Ok? <==> exists i :: 0 <= i < |employees| && employees[i].id == employeeId &&
                                     forall j :: 0 <= j < |employees| && j != i ==> employees[j].id != employeeId
      ensures r.Ok? ==> r.value.id == employeeId
      ensures r.Ok? ==>
        exists e :: e in employees && e.id == employeeId && r.value.name == e.name &&
                    r.value.lastName == e.lastName && r.value.seniority == e.seniority &&
                    Elements(r.value.skills) == set c | c in e.capabilities && c.IsOfType(SKILL) &&
                    Elements(r.value.permissions) == set c | c in e.capabilities && c.IsOfType(PERMISSION)
      ensures r.Err? ==> r.error == (if forall i :: 0 <= i < |employees| ==> employees[i].id != employeeId
                                     then NoMatchingElement else MoreThanOneElement)
    {
      match SingleOrDefault(employees, (e: Employee) => e.id == employeeId)
      case Err(e) => Err(e)
      case Ok(None) => Err(NoMatchingElement)
      case Ok(Some(employee)) =>
        var skills := FilterCapabilities(employee.capabilities, (c: Capability) => c.IsOfType(SKILL));
        var permissions := FilterCapabilities(employee.capabilities, (c: Capability) => c.IsOfType(PERMISSION));
        Ok(EmployeeSummary(employeeId, employee.name, employee.lastName, employee.seniority, skills, permissions))
    }

    /** Every employee's capabilities, employee after employee; duplicates across employees stay. */
    function FindAllCapabilities(): (r: seq<Capability>)
      reads this
      ensures |r| == SumOfLengths(Map(CapabilitiesOf, employees))
      ensures forall c :: c in r <==> exists e :: e in employees && c in e.capabilities
      ensures forall i :: 0 <= i < |employees| ==>
        var before := SumOfLengths(Map(CapabilitiesOf, employees[..i]));
        before + |employees[i].capabilities| <= |r| && r[before..before + |employees[i].capabilities|] == employees[i].capabilities
    {
      var all := Map(CapabilitiesOf, employees);
      FlattenLength(all);
      forall i | 0 <= i < |employees|
        ensures var before := SumOfLengths(Map(CapabilitiesOf, employees[..i]));
          before + |employees[i].capabilities| <= |Flatten(all)| &&
          Flatten(all)[before..before + |employees[i].capabilities|] == employees[i].capabilities
      {
        EmployeeSegment(employees, i);
      }
      EmployeeCapabilities(employees);
      Flatten(all)
    }

    /**
     * AddAsync of the employee: an id already stored breaks the primary key, fails with
     * DuplicateKey and stores nothing; otherwise the employee is appended.
     */
    method Add(employee: Employee) returns (r: Result<()>)
      modifies this
      ensures r.Err? <==> exists i :: 0 <= i < |old(employees)| && old(employees)[i].id == employee.id
      ensures r.Err? ==> r.error == DuplicateKey && employees == old(employees)
      ensures r.Ok? ==> employees == old(employees) + [employee]
      ensures old(Valid()) ==> Valid()
    {
      if exists i :: 0 <= i < |employees| && employees[i].id == employee.id {
        return Err(DuplicateKey);
      }
      employees := employees + [employee];
      r := Ok(());
    }
  }

  /** On a keyed table, FindSummary succeeds exactly for the stored employees' ids. */
  lemma ValidTableFindsStored(repository: EmployeeRepository, employeeId: EmployeeId)
    requires repository.Valid()
    ensures repository.FindSummary(employeeId).Ok? <==>
      exists i :: 0 <= i < |repository.employees| && repository.employees[i].id == employeeId
  {
    var employees := repository.employees;
    if i :| 0 <= i < |employees| && employees[i].id == employeeId {
      forall j | 0 <= j < |employees| && j != i ensures employees[j].id != employeeId {
        if j < i { assert employees[j].id != employees[i].id; }
        else { assert employees[i].id != employees[j].id; }
      }
    }
  }

  /** A summary's skills and permissions are disjoint, and no other type of capability is in either. */
  lemma SkillsAndPermissionsSplit(repository: EmployeeRepository, employeeId: EmployeeId)
    ensures var r := repository.FindSummary(employeeId);
      r.Ok? ==>
        (forall c :: c in r.value.skills ==> c.kind == SKILL) &&
        (forall c :: c in r.value.permissions ==> c.kind == PERMISSION) &&
        (forall c :: c in r.value.skills ==> c !in r.value.permissions)
  {
    var r := repository.FindSummary(employeeId);
    if r.Ok? {
      var e :| e in repository.employees && e.id == employeeId &&
               Elements(r.value.skills) == (set c | c in e.capabilities && c.IsOfType(SKILL)) &&
               Elements(r.value.permissions) == (set c | c in e.capabilities && c.IsOfType(PERMISSION));
      forall c | c in r.value.skills ensures c.kind == SKILL {
        assert c in Elements(r.value.skills);
      }
      forall c | c in r.value.permissions ensures c.kind == PERMISSION {
        assert c in Elements(r.value.permissions);
      }
      assert SKILL[0] != PERMISSION[0];
    }
  }
}
