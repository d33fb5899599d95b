/** Cashflow.cs: a project's income and cost, and the earnings they give. */
module Cashflows {
  import opened Wrappers
  import opened Shared

  datatype Income = Income(value: real)
  datatype Cost = Cost(value: real)
  datatype Earnings = Earnings(value: real)

  /** Income.Minus(Cost). */
  function Minus(income: Income, cost: Cost): (r: Earnings)
    ensures r.value + cost.value == income.value
  {
    Earnings(income.value - cost.value)
  }

  class Cashflow {
    var projectId: ProjectAllocationsId
    var income: Option<Income>
    var cost: Option<Cost>

    /** A new cashflow has neither income nor cost yet. */
    constructor (projectId: ProjectAllocationsId)
      ensures this.projectId == projectId && income == None && cost == None
    {
      this.projectId := projectId;
      income := None;
      cost := None;
    }

    /** Both fields are set: the source dereferences them without a null check. */
    predicate HasEarnings()
      reads this
    {
      income.Some? && cost.Some?
    }

    function Earnings(): Earnings
      reads this
      requires HasEarnings()
    {
      Minus(income.value, cost.value)
    }

    /** Overwrites both income and cost, whatever was there; the project id stays. */
    method Update(income: Income, cost: Cost)
      modifies this`income, this`cost
      ensures this.income == Some(income) && this.cost == Some(cost)
      ensures HasEarnings() && Earnings() == Minus(income, cost)
      ensures Earnings().value == income.value - cost.value
    {
      this.income := Some(income);
      this.cost := Some(cost);
    }
  }
}
