/**
 * CashFlowFacade.cs over the cashflow table: find-or-create, update and publish; and the
 * earnings projections. The queries are functions of the table's rows, so what the facade's
 * method does to the table is one function of the rows before it.
 */
module CashFlowFacades {
  import opened Wrappers
  import opened Collections
  import opened Shared
  import opened Cashflows
  import opened Events

  /** A stored cashflow as a value: what the queries see of it. */
  datatype CashflowRow = CashflowRow(projectId: ProjectAllocationsId, income: Option<Income>, cost: Option<Cost>) {
    /** Cashflow.Earnings(), or nothing where it would dereference a missing amount. */
    function Earned(): (r: Option<Earnings>)
      ensures r.Some? <==> income.Some? && cost.Some?
      ensures r.Some? ==> r.value.value + cost.value.value == income.value.value
    {
      if income.Some? && cost.Some? then Some(Minus(income.value, cost.value)) else None
    }
  }

  function RowProjectId(row: CashflowRow): ProjectAllocationsId {
    row.projectId
  }

  /** CashflowRepository.FindById: SingleOrDefault on the project id; the first index from `from` on. */
  function IndexIn(rows: seq<CashflowRow>, projectId: ProjectAllocationsId, from: nat): (r: Option<nat>)
    requires from <= |rows|
    ensures r.None? <==> forall i :: from <= i < |rows| ==> rows[i].projectId != projectId
    ensures r.Some? ==> from <= r.value < |rows| && rows[r.value].projectId == projectId
    ensures r.Some? ==> forall i :: from <= i < r.value ==> rows[i].projectId != projectId
    decreases |rows| - from
  {
    if from == |rows| then None
    else if rows[from].projectId == projectId then Some(from)
    else IndexIn(rows, projectId, from + 1)
  }

  /** The project id is carried by more than one row: SingleOrDefault and Single throw. */
  predicate Duplicated(rows: seq<CashflowRow>, projectId: ProjectAllocationsId) {
    var found := IndexIn(rows, projectId, 0);
    found.Some? && IndexIn(rows, projectId, found.value + 1).Some?
  }

  lemma DuplicatedMeansTwoRows(rows: seq<CashflowRow>, projectId: ProjectAllocationsId)
    ensures Duplicated(rows, projectId) <==>
      exists i, j :: 0 <= i < j < |rows| && rows[i].projectId == projectId && rows[j].projectId == projectId
  {
    if exists i, j :: 0 <= i < j < |rows| && rows[i].projectId == projectId && rows[j].projectId == projectId {
      var i, j :| 0 <= i < j < |rows| && rows[i].projectId == projectId && rows[j].projectId == projectId;
      var found := IndexIn(rows, projectId, 0);
      assert found.value <= i;
      assert IndexIn(rows, projectId, found.value + 1).Some? by {
        if found.value == i { assert rows[j].projectId == projectId; }
        else { assert rows[i].projectId == projectId; }
      }
    }
  }

  /**
   * Find: GetById (Single) throws when no row or more than one has the id, and Earnings()
   * throws on a row without both amounts.
   */
  function FindIn(rows: seq<CashflowRow>, projectId: ProjectAllocationsId): (r: Result<Earnings>)
    ensures r.Ok? <==> exists i :: (0 <= i < |rows| && rows[i].projectId == projectId && rows[i].Earned().Some? &&
                                   forall j :: 0 <= j < |rows| && j != i ==> rows[j].projectId != projectId)
    ensures r.Ok? ==> exists i :: (0 <= i < |rows| && rows[i].projectId == projectId && rows[i].Earned() == Some(r.value))
    ensures (forall i :: 0 <= i < |rows| ==> rows[i].projectId != projectId) ==> r == Err(NoMatchingElement)
    ensures r.Err? ==> r.error in {NoMatchingElement, MoreThanOneElement, NullReference}
  {
    match SingleOrDefault(rows, (row: CashflowRow) => row.projectId == projectId)
    case Err(e) => Err(e)
    case Ok(None) => Err(NoMatchingElement)
    case Ok(Some(row)) =>
      if row.Earned().None? then Err(NullReference) else Ok(row.Earned().value)
  }

  function PairKey(pair: (ProjectAllocationsId, Earnings)): ProjectAllocationsId {
    pair.0
  }

  function PairValue(pair: (ProjectAllocationsId, Earnings)): Earnings {
    pair.1
  }

  /**
   * The (key, earnings) pairs ToDictionary computes before it reaches the first row whose
   * Earnings() dereferences null.
   */
  function Reached(rows: seq<CashflowRow>): (r: seq<(ProjectAllocationsId, Earnings)>)
    ensures |r| <= |rows|
    ensures forall i :: 0 <= i < |r| ==> rows[i].Earned().Some? && r[i] == (rows[i].projectId, rows[i].Earned().value)
    ensures |r| < |rows| ==> rows[|r|].Earned().None?
  {
    if rows == [] || rows[0].Earned().None? then []
    else
      var rest := Reached(rows[1..]);
      assert forall i :: 1 <= i < |rows| ==> rows[i] == rows[1..][i - 1];
      [(rows[0].projectId, rows[0].Earned().value)] + rest
  }

  /**
   * FindAllEarnings: one entry per row, keyed by project id, in table order. A repeated id
   * throws DuplicateKey and a row without both amounts throws NullReference, whichever
   * ToDictionary reaches first.
   */
  function AllEarningsIn(rows: seq<CashflowRow>): (r: Result<Dict<ProjectAllocationsId, Earnings>>)
    ensures r.Ok? <==> (NoDuplicates(Map(RowProjectId, rows)) && forall i :: 0 <= i < |rows| ==> rows[i].Earned().Some?)
    ensures r.Ok? ==> r.value.Valid() && r.value.keys == Map(RowProjectId, rows)
    ensures r.Ok? ==> forall i :: 0 <= i < |rows| ==> Some(r.value.values[rows[i].projectId]) == rows[i].Earned()
    ensures r.Err? ==> r.error in {DuplicateKey, NullReference}
  {
    var reached := Reached(rows);
    match ToDictionary(reached, PairKey, PairValue)
    case Err(e) => Err(e)
    case Ok(d) =>
      if |reached| < |rows| then Err(NullReference)
      else
        assert Map(PairKey, reached) == Map(RowProjectId, rows);
        assert forall i :: 0 <= i < |rows| ==> reached[i] in reached;
        Ok(d)
  }

  /**
   * The table after AddIncomeAndCost: the row of the project, or a new last row when there is
   * none, carries exactly the new amounts; a project id carried twice throws in FindById.
   */
  function AfterAdd(rows: seq<CashflowRow>, projectId: ProjectAllocationsId, income: Income, cost: Cost)
    : (r: Result<seq<CashflowRow>>)
    ensures r.Err? <==> Duplicated(rows, projectId)
    ensures r.Err? ==> r.error == MoreThanOneElement
  {
    var row := CashflowRow(projectId, Some(income), Some(cost));
    match IndexIn(rows, projectId, 0)
    case None => Ok(rows + [row])
    case Some(k) =>
      if IndexIn(rows, projectId, k + 1).Some? then Err(MoreThanOneElement) else Ok(rows[k := row])
  }

  /** After AddIncomeAndCost, Find reports income minus cost for the project. */
  lemma AddThenFind(rows: seq<CashflowRow>, projectId: ProjectAllocationsId, income: Income, cost: Cost)
    requires AfterAdd(rows, projectId, income, cost).Ok?
    ensures FindIn(AfterAdd(rows, projectId, income, cost).value, projectId) == Ok(Minus(income, cost))
  {
    var after := AfterAdd(rows, projectId, income, cost).value;
    var k := if IndexIn(rows, projectId, 0).Some? then IndexIn(rows, projectId, 0).value else |rows|;
    assert after[k].projectId == projectId && after[k].Earned() == Some(Minus(income, cost));
    assert forall j :: 0 <= j < |after| && j != k ==> after[j].projectId != projectId;
    var r := FindIn(after, projectId);
    if r.Ok? {
      var i :| 0 <= i < |after| && after[i].projectId == projectId && after[i].Earned() == Some(r.value);
      assert i == k;
    }
  }

  /**
   * AddIncomeAndCost creates a row only when the project has none; every other row, and so
   * every other project's cashflow, is left as it was.
   */
  lemma AddLeavesOtherRows(rows: seq<CashflowRow>, projectId: ProjectAllocationsId, income: Income, cost: Cost)
    requires AfterAdd(rows, projectId, income, cost).Ok?
    ensures var after := AfterAdd(rows, projectId, income, cost).value;
      |after| == if exists i :: 0 <= i < |rows| && rows[i].projectId == projectId then |rows| else |rows| + 1
    ensures var after := AfterAdd(rows, projectId, income, cost).value;
      forall i :: 0 <= i < |rows| && rows[i].projectId != projectId ==> after[i] == rows[i]
    ensures var after := AfterAdd(rows, projectId, income, cost).value;
      forall i :: 0 <= i < |rows| ==> after[i].projectId == rows[i].projectId
  {
  }

  /** Finding another project after AddIncomeAndCost gives what it gave before. */
  lemma AddThenFindOther(rows: seq<CashflowRow>, projectId: ProjectAllocationsId, income: Income, cost: Cost,
                         other: ProjectAllocationsId)
    requires AfterAdd(rows, projectId, income, cost).Ok? && other != projectId
    ensures FindIn(AfterAdd(rows, projectId, income, cost).value, other) == FindIn(rows, other)
  {
    var after := AfterAdd(rows, projectId, income, cost).value;
    AddLeavesOtherRows(rows, projectId, income, cost);
    var p := (row: CashflowRow) => row.projectId == other;
    assert forall i :: 0 <= i < |rows| && p(rows[i]) ==> after[i] == rows[i];
    if |after| > |rows| {
      assert after == rows + [after[|rows|]];
      assert !p(after[|rows|]);
    } else {
      assert forall i :: 0 <= i < |rows| && !p(rows[i]) ==> !p(after[i]);
    }
    SingleOrDefaultIgnoresOthers(rows, after, p);
  }

  /** SingleOrDefault only looks at the rows that match. */
  lemma {:induction false} SingleOrDefaultIgnoresOthers(a: seq<CashflowRow>, b: seq<CashflowRow>, p: CashflowRow -> bool)
    requires |a| <= |b| && forall i :: |a| <= i < |b| ==> !p(b[i])
    requires forall i :: 0 <= i < |a| ==> (p(a[i]) <==> p(b[i]))
    requires forall i :: 0 <= i < |a| && p(a[i]) ==> a[i] == b[i]
    ensures SingleOrDefault(a, p) == SingleOrDefault(b, p)
  {
    if a == [] {
      assert forall i :: 0 <= i < |b| ==> !p(b[i]);
    } else {
      SingleOrDefaultIgnoresOthers(a[1..], b[1..], p);
    }
  }

  /** One row per project, and every row carries both amounts. */
  ghost predicate RowsValid(rows: seq<CashflowRow>) {
    (forall i, j :: 0 <= i < j < |rows| ==> rows[i].projectId != rows[j].projectId) &&
    (forall i :: 0 <= i < |rows| ==> rows[i].Earned().Some?)
  }

  /** On a valid table AddIncomeAndCost succeeds and keeps the table valid, and every earnings query succeeds. */
  lemma AddKeepsValid(rows: seq<CashflowRow>, projectId: ProjectAllocationsId, income: Income, cost: Cost)
    requires RowsValid(rows)
    ensures AfterAdd(rows, projectId, income, cost).Ok?
    ensures RowsValid(AfterAdd(rows, projectId, income, cost).value)
  {
    DuplicatedMeansTwoRows(rows, projectId);
  }

  lemma ValidTableAnswers(rows: seq<CashflowRow>, projectId: ProjectAllocationsId)
    requires RowsValid(rows)
    ensures AllEarningsIn(rows).Ok?
    ensures FindIn(rows, projectId).Ok? <==> exists i :: 0 <= i < |rows| && rows[i].projectId == projectId
  {
    var ids := Map(RowProjectId, rows);
    assert forall i :: 0 <= i < |rows| ==> ids[i] == rows[i].projectId;
  }

  class CashFlowFacade {
    /** The cashflow table, in table order. */
    var cashflows: seq<Cashflow>
    const events: EventsPublisher

    constructor (events: EventsPublisher)
      ensures cashflows == [] && this.events == events && RowsValid(Rows())
    {
      cashflows := [];
      this.events := events;
    }

    /** The table as the queries see it. */
    function Rows(): (r: seq<CashflowRow>)
      reads this, cashflows
      ensures |r| == |cashflows|
      ensures forall i :: 0 <= i < |r| ==>
        r[i] == CashflowRow(cashflows[i].projectId, cashflows[i].income, cashflows[i].cost)
    {
      seq(|cashflows|, i reads this, cashflows requires 0 <= i < |cashflows| =>
        CashflowRow(cashflows[i].projectId, cashflows[i].income, cashflows[i].cost))
    }

    function Find(projectId: ProjectAllocationsId): Result<Earnings>
      reads this, cashflows
    {
      FindIn(Rows(), projectId)
    }

    function FindAllEarnings(): Result<Dict<ProjectAllocationsId, Earnings>>
      reads this, cashflows
    {
      AllEarningsIn(Rows())
    }

    /**
     * AddIncomeAndCost: find-or-create the project's cashflow, update its amounts on the
     * object itself, then publish one EarningsRecalculated with its earnings.
     */
    method AddIncomeAndCost(projectId: ProjectAllocationsId, income: Income, cost: Cost, now: Instant)
      returns (r: Result<()>)
      modifies this, cashflows, events
      ensures var after := AfterAdd(old(Rows()), projectId, income, cost);
        after.Err? ==> r == Err(after.error) && Rows() == old(Rows()) && events.published == old(events.published)
      ensures var after := AfterAdd(old(Rows()), projectId, income, cost);
        after.Ok? ==> (r.Ok? && Rows() == after.value &&
                       events.published == old(events.published) + [EarningsRecalculated(projectId, Minus(income, cost), now)])
      ensures r.Ok? ==> cashflows[..|old(cashflows)|] == old(cashflows)
      ensures r.Ok? && |cashflows| > |old(cashflows)| ==> fresh(cashflows[|old(cashflows)|])
    {
      ghost var before := Rows();
      var found := IndexIn(Rows(), projectId, 0);
      var k: nat;
      if found.Some? {
        if IndexIn(Rows(), projectId, found.value + 1).Some? {
          return Err(MoreThanOneElement);
        }
        k := found.value;
      } else {
        var created := new Cashflow(projectId);
        cashflows := cashflows + [created];
        k := |cashflows| - 1;
        assert Rows() == before + [CashflowRow(projectId, None, None)];
      }
      var cashflow := cashflows[k];
      assert forall j :: 0 <= j < |cashflows| && j != k ==> cashflows[j] != cashflow by {
        forall j | 0 <= j < |cashflows| && j != k ensures cashflows[j] != cashflow {
          assert Rows()[j].projectId != projectId;
        }
      }
      ghost var stored := Rows();
      cashflow.Update(income, cost);
      assert Rows() == stored[k := CashflowRow(projectId, Some(income), Some(cost))];
      events.Publish(EarningsRecalculated(projectId, cashflow.Earnings(), now));
      r := Ok(());
    }
  }
}
