/**
 * EmployeeAllocationPolicy.cs: which selectors an employee offers at the same time. The policy
 * classes are the cases of one datatype; Simultaneous(...) is the composite of its arguments.
 */
module EmployeeAllocationPolicies {
  import opened Collections
  import opened Capabilities
  import opened Shared

  datatype Seniority = Junior | Mid | Senior | Lead

  datatype EmployeeSummary = EmployeeSummary(id: EmployeeId, name: string, lastName: string,
                                             seniority: Seniority, skills: HashSet<Capability>,
                                             permissions: HashSet<Capability>)

  datatype AllocationPolicy =
    | DefaultPolicy
    | PermissionsInMultipleProjects(howMany: nat)
    | OneOfSkills
    | Composite(policies: seq<AllocationPolicy>)

  /** IEmployeeAllocationPolicy.Simultaneous(policies...). */
  function Simultaneous(policies: seq<AllocationPolicy>): AllocationPolicy {
    Composite(policies)
  }

  /** `howMany` copies of `x`: Enumerable.Range(0, howMany).Select(_ => x). */
  function Repeat<T>(x: T, howMany: nat): (r: seq<T>)
    ensures |r| == howMany && forall i :: 0 <= i < howMany ==> r[i] == x
  {
    seq(howMany, _ => x)
  }

  function SimultaneousCapabilitiesOf(policy: AllocationPolicy, employee: EmployeeSummary): seq<CapabilitySelector>
    decreases policy
  {
    match policy
    case DefaultPolicy => [CanPerformOneOf(Elements(employee.skills) + Elements(employee.permissions))]
    case PermissionsInMultipleProjects(howMany) =>
      Map(CanJustPerform, RepeatEach(employee.permissions, howMany))
    case OneOfSkills => [CanPerformOneOf(Elements(employee.skills))]
    case Composite(policies) => Flatten(EachPolicyOffers(policies, employee))
  }

  /** The selectors of each policy in turn: the lists a composite concatenates. */
  function EachPolicyOffers(policies: seq<AllocationPolicy>, employee: EmployeeSummary)
    : (r: seq<seq<CapabilitySelector>>)
    decreases policies
  {
    if policies == [] then []
    else [SimultaneousCapabilitiesOf(policies[0], employee)] + EachPolicyOffers(policies[1..], employee)
  }

  /**
   * The default policy offers one selector: one of all skills and permissions. This unfolds the
   * policy once; it is stated because the scheduling of employees only ever sees its result.
   */
  lemma DefaultOffersEverything(employee: EmployeeSummary)
    ensures SimultaneousCapabilitiesOf(DefaultPolicy, employee) ==
      [CanPerformOneOf((set c | c in employee.skills) + (set c | c in employee.permissions))]
  {
  }

  /** OneOfSkills offers one selector: one of the skills (one unfolding, stated for the same reason). */
  lemma OneOfSkillsOffersSkills(employee: EmployeeSummary)
    ensures SimultaneousCapabilitiesOf(OneOfSkills, employee) == [CanPerformOneOf(set c | c in employee.skills)]
  {
  }

  lemma DivisionUnique(x: int, n: int, q: int, r: int)
    requires n > 0 && x == n * q + r && 0 <= r < n
    ensures x / n == q
  {
    var q0, r0 := x / n, x % n;
    assert x == n * q0 + r0;
    if q0 > q {
      assert n * q0 >= n * (q + 1) by { MultiplicationMonotone(n, q + 1, q0); }
    } else if q0 < q {
      assert n * q >= n * (q0 + 1) by { MultiplicationMonotone(n, q0 + 1, q); }
    }
  }

  lemma MultiplicationMonotone(n: int, a: int, b: int)
    requires n > 0 && a <= b
    ensures n * a <= n * b
  {
    assert n * b - n * a == n * (b - a);
  }

  /** SelectMany(x => Range(0, n).Select(_ => x)): each element `n` times, in order. */
  function RepeatEach<T>(s: seq<T>, n: nat): seq<T> {
    if s == [] then [] else Repeat(s[0], n) + RepeatEach(s[1..], n)
  }

  /** Element `i` of RepeatEach(s, n) is a copy of `s[i / n]`, and there are `n * |s|` of them. */
  lemma {:induction false} RepeatEachIndex<T>(s: seq<T>, n: nat)
    ensures |RepeatEach(s, n)| == n * |s|
    ensures forall i :: 0 <= i < n * |s| ==> RepeatEach(s, n)[i] == s[i / n]
  {
    RepeatEachLength(s, n);
    forall i | 0 <= i < n * |s| ensures i / n < |s| && RepeatEach(s, n)[i] == s[i / n] {
      RepeatEachAt(s, n, i);
    }
  }

  lemma {:induction false} RepeatEachLength<T>(s: seq<T>, n: nat)
    ensures |RepeatEach(s, n)| == n * |s|
  {
    if s != [] {
      RepeatEachLength(s[1..], n);
      assert n * |s| == n * |s[1..]| + n by { MultiplicationStep(n, |s[1..]|); }
    }
  }

  lemma MultiplicationStep(n: int, k: int)
    ensures n * (k + 1) == n * k + n
  {
  }

  lemma {:induction false} RepeatEachAt<T>(s: seq<T>, n: nat, i: nat)
    requires i < n * |s|
    ensures i / n < |s| && |RepeatEach(s, n)| == n * |s| && RepeatEach(s, n)[i] == s[i / n]
  {
    QuotientBelow(i, n, |s|);
    RepeatEachLength(s, n);
    MultiplicationStep(n, |s[1..]|);
    if i >= n {
      RepeatEachAt(s[1..], n, i - n);
      DivisionShift(i, n);
      QuotientBelow(i - n, n, |s[1..]|);
      ghost var k := (i - n) / n;
      assert RepeatEach(s, n)[i] == RepeatEach(s[1..], n)[i - n] == s[1..][k] == s[k + 1];
    } else {
      DivisionUnique(i, n, 0, i);
    }
  }

  lemma QuotientBelow(x: int, n: int, k: int)
    requires 0 <= x < n * k && 0 < n
    ensures 0 <= x / n < k
  {
    if x / n >= k {
      MultiplicationMonotone(n, k, x / n);
    }
  }

  /** Taking `n` away from a numerator of at least `n` takes one away from the quotient. */
  lemma DivisionShift(i: int, n: int)
    requires 0 < n <= i
    ensures (i - n) / n == i / n - 1
  {
    var q, r := (i - n) / n, (i - n) % n;
    assert i - n == n * q + r;
    MultiplicationStep(n, q);
    DivisionUnique(i, n, q + 1, r);
  }

  /**
   * PermissionsInMultipleProjects(n) offers `n` CanJustPerform selectors per permission, in
   * permission order, and so none at all when `n` is zero.
   */
  lemma PermissionsRepeated(n: nat, employee: EmployeeSummary)
    ensures var r := SimultaneousCapabilitiesOf(PermissionsInMultipleProjects(n), employee);
      |r| == n * |employee.permissions| &&
      forall i :: 0 <= i < |r| ==> r[i] == CanJustPerform(employee.permissions[i / n])
    ensures n == 0 ==> SimultaneousCapabilitiesOf(PermissionsInMultipleProjects(n), employee) == []
  {
    RepeatEachIndex(employee.permissions, n);
  }

  lemma {:induction false} EachPolicyAppend(ps: seq<AllocationPolicy>, qs: seq<AllocationPolicy>,
                                            employee: EmployeeSummary)
    ensures EachPolicyOffers(ps + qs, employee) == EachPolicyOffers(ps, employee) + EachPolicyOffers(qs, employee)
  {
    if ps == [] {
      assert ps + qs == qs;
    } else {
      assert (ps + qs)[1..] == ps[1..] + qs;
      EachPolicyAppend(ps[1..], qs, employee);
    }
  }

  /** A composite offers its policies' selectors one policy after the other. */
  lemma CompositeConcatenates(ps: seq<AllocationPolicy>, qs: seq<AllocationPolicy>, employee: EmployeeSummary)
    ensures SimultaneousCapabilitiesOf(Composite(ps + qs), employee) ==
      SimultaneousCapabilitiesOf(Composite(ps), employee) + SimultaneousCapabilitiesOf(Composite(qs), employee)
  {
    EachPolicyAppend(ps, qs, employee);
    FlattenAppend(EachPolicyOffers(ps, employee), EachPolicyOffers(qs, employee));
  }

  /** The empty composite offers nothing, and a one-policy composite offers what its policy does. */
  lemma CompositeUnits(p: AllocationPolicy, employee: EmployeeSummary)
    ensures SimultaneousCapabilitiesOf(Simultaneous([]), employee) == []
    ensures SimultaneousCapabilitiesOf(Simultaneous([p]), employee) == SimultaneousCapabilitiesOf(p, employee)
  {
    assert [p][1..] == [];
    assert Flatten([SimultaneousCapabilitiesOf(p, employee)]) == SimultaneousCapabilitiesOf(p, employee) + [];
  }

  /** The offers of each policy are listed one per policy, and a composite offers as many selectors as they do together. */
  lemma {:induction false} CompositeLength(ps: seq<AllocationPolicy>, employee: EmployeeSummary)
    ensures |EachPolicyOffers(ps, employee)| == |ps|
    ensures forall i :: 0 <= i < |ps| ==> EachPolicyOffers(ps, employee)[i] == SimultaneousCapabilitiesOf(ps[i], employee)
    ensures |SimultaneousCapabilitiesOf(Composite(ps), employee)| == SumOfLengths(EachPolicyOffers(ps, employee))
  {
    if ps != [] {
      CompositeLength(ps[1..], employee);
      forall i | 0 < i < |ps|
        ensures EachPolicyOffers(ps, employee)[i] == SimultaneousCapabilitiesOf(ps[i], employee)
      {
        assert ps[1..][i - 1] == ps[i];
      }
    }
    FlattenLength(EachPolicyOffers(ps, employee));
  }
}
