/**
 * Item.cs, and the parts of the optimization module the simulation calls. The optimizer itself
 * (OptimizationFacade.Calculate) is not part of this model: it is an uninterpreted function.
 */
module Optimization {
  import opened Capabilities
  import opened Shared

  /** The only weight dimension of the core: a demanded capability in a slot (Simulation.Demand). */
  datatype WeightDimension = Demand(capability: Capability, slot: TimeSlot)

  /** The only capacity dimension of the core: a simulated capability (AvailableResourceCapability). */
  datatype CapacityDimension = AvailableResourceCapability(id: Guid, capabilities: CapabilitySelector, timeSlot: TimeSlot)

  /** TotalWeight(components); Components() returns the list it was built from. */
  datatype TotalWeight = TotalWeight(components: seq<WeightDimension>)

  /** TotalCapacity(capacityDimensions). */
  datatype TotalCapacity = TotalCapacity(capacities: seq<CapacityDimension>)

  /** Item(Name, Value, TotalWeight); equality is the record's value equality on all three. */
  datatype Item = Item(name: string, value: real, totalWeight: TotalWeight) {
    predicate IsWeightZero() {
      |totalWeight.components| == 0
    }
  }

  /** The optimizer's Result: its profit and the items it chose. */
  datatype OptimizationResult = OptimizationResult(profit: real, chosenItems: seq<Item>)

  /** A comparer over items: negative, zero or positive as for IComparer<Item>.Compare. */
  type ItemComparer = (Item, Item) -> int

  /** OptimizationFacade.Calculate(items, capacity, comparer). */
  const Calculate: (seq<Item>, TotalCapacity, ItemComparer) -> OptimizationResult

  /**
   * Being weight-zero is a property of the weight alone: an item with at least one component is
   * not weight-zero, and items differing only in name or value agree on it.
   */
  lemma WeightZeroOnlyOnWeight(a: Item, b: Item)
    ensures a.IsWeightZero() <==> a.totalWeight.components == []
    ensures a.totalWeight == b.totalWeight ==> a.IsWeightZero() == b.IsWeightZero()
    ensures |a.totalWeight.components| > 0 ==> !a.IsWeightZero()
  {
  }
}
