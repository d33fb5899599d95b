/** SimulationFacade.cs: turns simulated projects into optimizer items and compares setups. */
module Simulation {
  import opened Shared
  import opened Collections
  import opened Optimization

  /** Simulation.Demand is the optimizer's weight dimension. */
  type Demand = WeightDimension

  /** Simulation.ProjectId.From(guid); its ToString() text is not part of this model. */
  datatype ProjectId = ProjectId(id: Guid)
  const ProjectIdText: ProjectId -> string

  /**
   * SimulatedProject(ProjectId, value, MissingDemands). The value is the decimal its value
   * function yields when CalculateValue() calls it.
   */
  datatype SimulatedProject = SimulatedProject(projectId: ProjectId, value: real, missingDemands: seq<Demand>)

  /** SimulatedCapabilities: None() is empty and Add(c) appends c. */
  datatype SimulatedCapabilities = SimulatedCapabilities(capabilities: seq<CapacityDimension>) {
    function Add(c: CapacityDimension): SimulatedCapabilities {
      SimulatedCapabilities(capabilities + [c])
    }
  }

  function NoCapabilities(): SimulatedCapabilities {
    SimulatedCapabilities([])
  }

  /** AdditionalPricedCapability(Value, AvailableResourceCapability). */
  datatype AdditionalPricedCapability = AdditionalPricedCapability(price: real, capability: CapacityDimension)

  /** `Comparer<Item>.Create((x, y) => y.Value.CompareTo(x.Value))`. */
  function ByValueDescending(x: Item, y: Item): int {
    if y.value < x.value then -1 else if y.value == x.value then 0 else 1
  }

  /** The comparer puts the higher value first, and it is antisymmetric. */
  lemma ByValueDescendingOrders(x: Item, y: Item)
    ensures ByValueDescending(x, y) < 0 <==> x.value > y.value
    ensures ByValueDescending(x, y) == 0 <==> x.value == y.value
    ensures ByValueDescending(x, y) == -ByValueDescending(y, x)
  {
  }

  function ToCapacity(capabilities: SimulatedCapabilities): (r: TotalCapacity)
    ensures r.capacities == capabilities.capabilities
  {
    TotalCapacity(capabilities.capabilities)
  }

  function ToItem(p: SimulatedProject): Item {
    Item(ProjectIdText(p.projectId), p.value, TotalWeight(p.missingDemands))
  }

  /**
   * One item per project, in project order: named after the project, valued at its value,
   * weighed by exactly its missing demands.
   */
  function ToItems(projects: seq<SimulatedProject>): (r: seq<Item>)
    ensures |r| == |projects|
    ensures forall i :: 0 <= i < |r| ==>
      r[i].name == ProjectIdText(projects[i].projectId) && r[i].value == projects[i].value
      && r[i].totalWeight.components == projects[i].missingDemands
  {
    Map(ToItem, projects)
  }

  function WhatIsTheOptimalSetup(projects: seq<SimulatedProject>, capabilities: SimulatedCapabilities): OptimizationResult {
    Calculate(ToItems(projects), ToCapacity(capabilities), ByValueDescending)
  }

  function ProfitAfterBuyingNewCapability(projects: seq<SimulatedProject>, without: SimulatedCapabilities,
                                          newPriced: AdditionalPricedCapability): real
  {
    var withNew := without.Add(newPriced.capability);
    var resultWithout := Calculate(ToItems(projects), ToCapacity(without), ByValueDescending);
    var resultWith := Calculate(ToItems(projects), ToCapacity(withNew), ByValueDescending);
    resultWith.profit - newPriced.price - resultWithout.profit
  }

  /**
   * Buying a capability is worth the optimal profit with it, less its price, less the optimal
   * profit without it; both runs see the same projects, and the capacity with it is the one
   * without it plus that capability, last. The optimizer itself is not part of this model, so
   * this is as far as the service's arithmetic can be pinned down: the lemma fixes which two
   * optimizer runs are compared and on what capacities.
   */
  lemma ProfitAfterBuyingIsDifferenceOfSetups(projects: seq<SimulatedProject>, without: SimulatedCapabilities,
                                              newPriced: AdditionalPricedCapability)
    ensures ProfitAfterBuyingNewCapability(projects, without, newPriced)
      == WhatIsTheOptimalSetup(projects, without.Add(newPriced.capability)).profit - newPriced.price
         - WhatIsTheOptimalSetup(projects, without).profit
    ensures ToCapacity(without.Add(newPriced.capability)).capacities
      == ToCapacity(without).capacities + [newPriced.capability]
  {
  }

  /** WhatIsTheOptimalSetup sees projects only through their items: equal items, equal result. */
  lemma OptimalSetupDependsOnItems(ps: seq<SimulatedProject>, qs: seq<SimulatedProject>, c: SimulatedCapabilities)
    requires |ps| == |qs|
    requires forall i :: 0 <= i < |ps| ==> ToItem(ps[i]) == ToItem(qs[i])
    ensures WhatIsTheOptimalSetup(ps, c) == WhatIsTheOptimalSetup(qs, c)
  {
    assert ToItems(ps) == ToItems(qs);
  }
}
