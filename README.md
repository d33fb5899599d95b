# SmartSchedule core, modelled in Dafny

SmartSchedule plans projects and allocates resources (employees and devices) to them. This
project models the core of its allocation rules as sequential state machines and decision
functions, over in-memory tables and append-only logs of published events and push
notifications:

- **Availability** (`resource_availability.dfy`, `availability_facade.dfy`): each resource's
  time is split into segments, and each segment carries a blockade. Block, release, disable and
  enable change that blockade. The facade loads a resource's segments as one group, changes them
  together, and saves them only if no row's version changed since loading. It answers `false`
  when the save fails, and it publishes `ResourceTakenOver` only after a disable that succeeded.
- **Capability matching and scheduling** (`capability.dfy`, `allocatable_capability_repository.dfy`,
  `capability_finder.dfy`, `capability_scheduler.dfy`): allocatable capabilities are offers of a
  capability selector by a resource over a time window.
  - The repository's queries are filters over the table.
  - The finder first matches structurally, then keeps only the offers whose calendar holds the
    exact requested slot.
  - The scheduler creates one offer per selector, with calendar slots for each.
- **Employees and devices** (`employee_allocation_policy.dfy`, `employee_repository.dfy`,
  `schedule_employee_capabilities.dfy`, `schedule_device_capabilities.dfy`): allocation policies
  decide which selectors a resource offers.
  - A LEAD offers one of their skills, plus each permission three times.
  - Every other seniority offers one of all its skills and permissions.
  - A device offers all its assets at the same time.
- **Allocation** (`allocation_facade.dfy`, `project_allocations_repository.dfy`,
  `publish_missing_demands.dfy`): allocate, release, and allocate-any-matching. Each returns
  early on failure. It also includes the hourly summary of missing demands.
- **Cash flow and simulation** (`cashflow.dfy`, `cashflow_facade.dfy`, `optimization.dfy`,
  `simulation.dfy`, `potential_transfers.dfy`, `potential_transfers_service.dfy`):
  - Earnings are income minus cost.
  - The simulation turns projects into items for the optimizer.
  - A potential transfer moves one allocated capability between projects, writing into a
    shared dictionary in place. The service measures the profit of the move.
- **Risk** (`risk_saga.dfy`, `risk_saga_repository.dfy`, `risk_dispatcher.dfy`,
  `verify_*.dfy`): the dispatcher feeds events to the risk sagas, finding or creating each saga,
  and maps the step a saga asks for to exactly one side effect. Three verifiers decide when to
  warn during planning.

Shared types are in `shared.dfy`, `planning.dfy`, `project_allocations.dfy` and `events.dfy`.
Small sequence helpers are in `collections.dfy` and `wrappers.dfy`.

Types the core uses but does not define are abstract in the model. Their operations are
uninterpreted functions, and the model relies only on the relationships the core's own code
relies on. These include TimeSlot's relations, segment normalization, Blockade,
ResourceGroupedAvailability, ProjectAllocations, Calendar, CapabilitySelector, the optimizer,
and the saga's handlers. Guid generation is a caller-supplied stream of identifiers. The clock
is a parameter. Exceptions are `Err` values of a `Result`, or the `Failed` outcome of a step.

## Model

| member | source | states |
|---|---|---|
| Capabilities.Skills | DomainDrivers.SmartSchedule/Shared/Capability.cs:20-23 | the set holds exactly one SKILL capability per given name, and no more entries than names |
| Capabilities.Assets | DomainDrivers.SmartSchedule/Shared/Capability.cs:25-28 | the set holds exactly one ASSET capability per given name, and no more entries than names |
| Capabilities.Permissions | DomainDrivers.SmartSchedule/Shared/Capability.cs:30-33 | the set holds exactly one PERMISSION capability per given name, and no more entries than names |
| Capabilities.FactoriesTyped | DomainDrivers.SmartSchedule/Shared/Capability.cs:5-18 | each factory keeps the name and builds a capability of its own type (IsOfType, lines 35-38); the three factories never build equal capabilities for one name |
| Capabilities.SkillsCollapseDuplicates | DomainDrivers.SmartSchedule/Shared/Capability.cs:20-23 | naming a skill again that is already named leaves the skill set unchanged (ToHashSet keeps one entry) |
| Optimization.WeightZeroOnlyOnWeight | DomainDrivers.SmartSchedule/Optimization/Item.cs:5 | an item is weight-zero exactly when its total weight has no components; name and value play no part |
| Simulation.ByValueDescendingOrders | DomainDrivers.SmartSchedule/Simulation/SimulationFacade.cs:13 | the comparer is negative exactly when the first item is worth more, zero exactly on equal values, and antisymmetric |
| Simulation.ToCapacity | DomainDrivers.SmartSchedule/Simulation/SimulationFacade.cs:26-31 | the capacity lists the simulated capabilities unchanged and in order |
| Simulation.ToItems | DomainDrivers.SmartSchedule/Simulation/SimulationFacade.cs:33-46 | one item per project, in project order, named after the project, valued at its value, weighed by its missing demands |
| Simulation.ProfitAfterBuyingIsDifferenceOfSetups | DomainDrivers.SmartSchedule/Simulation/SimulationFacade.cs:7-17 | buying is worth the optimal profit with the capability, less its price, less the optimal profit without it; the capacity with it is the one without it plus that capability, last |
| Simulation.OptimalSetupDependsOnItems | DomainDrivers.SmartSchedule/Simulation/SimulationFacade.cs:19-24 | WhatIsTheOptimalSetup sees the projects only through their items: projects with equal items give equal results |
| Cashflows.Minus | DomainDrivers.SmartSchedule/Allocation/Cashflow/Cashflow.cs:11 | the earnings plus the cost give back the income |
| Cashflows.Cashflow.constructor | DomainDrivers.SmartSchedule/Allocation/Cashflow/Cashflow.cs:3-7 | a new cashflow has the project id and neither income nor cost |
| Cashflows.Cashflow.Update | DomainDrivers.SmartSchedule/Allocation/Cashflow/Cashflow.cs:14-18 | both amounts are overwritten, the project id stays, and the earnings are then defined and equal income minus cost |
| CashFlowFacades.CashflowRow.Earned | DomainDrivers.SmartSchedule/Allocation/Cashflow/Cashflow.cs:9-12 | a stored cashflow has earnings exactly when it has both amounts, and then they add back to the income with the cost |
| CashFlowFacades.IndexIn | DomainDrivers.SmartSchedule/Allocation/Cashflow/CashflowRepository.cs:6-10 | the first row from `from` on with the project id, or none exactly when no such row exists |
| CashFlowFacades.DuplicatedMeansTwoRows | DomainDrivers.SmartSchedule/Allocation/Cashflow/CashflowRepository.cs:6-10 | SingleOrDefault throws exactly when two distinct rows carry the project id |
| CashFlowFacades.FindIn | DomainDrivers.SmartSchedule/Allocation/Cashflow/CashFlowFacade.cs:29-33 | Find succeeds exactly when one row alone has the project id and both amounts, with that row's earnings; no row gives NoMatchingElement; the only errors are those Single and Earnings() throw |
| CashFlowFacades.Reached | DomainDrivers.SmartSchedule/Allocation/Cashflow/CashFlowFacade.cs:35-39 | the pairs ToDictionary computes, in table order, up to the first row whose earnings dereference a missing amount |
| CashFlowFacades.AllEarningsIn | DomainDrivers.SmartSchedule/Allocation/Cashflow/CashFlowFacade.cs:35-39 | FindAllEarnings succeeds exactly when project ids are distinct and every row has both amounts; the keys are the ids in table order and each maps to its row's earnings; otherwise DuplicateKey or NullReference |
| CashFlowFacades.AfterAdd | DomainDrivers.SmartSchedule/Allocation/Cashflow/CashFlowFacade.cs:11-27 | the table after AddIncomeAndCost; it fails, with MoreThanOneElement, exactly when the id is carried twice |
| CashFlowFacades.AddThenFind | DomainDrivers.SmartSchedule/Allocation/Cashflow/CashFlowFacade.cs:11-33 | after AddIncomeAndCost, Find reports income minus cost for the project |
| CashFlowFacades.AddLeavesOtherRows | DomainDrivers.SmartSchedule/Allocation/Cashflow/CashFlowFacade.cs:15-23 | a row is created only when the project has none; rows of other projects are unchanged and no row changes its id |
| CashFlowFacades.AddThenFindOther | DomainDrivers.SmartSchedule/Allocation/Cashflow/CashFlowFacade.cs:11-33 | Find for another project answers the same after AddIncomeAndCost as before |
| CashFlowFacades.SingleOrDefaultIgnoresOthers | DomainDrivers.SmartSchedule/Allocation/Cashflow/CashflowRepository.cs:6-10 | SingleOrDefault depends only on the rows that match |
| CashFlowFacades.AddKeepsValid | DomainDrivers.SmartSchedule/Allocation/Cashflow/CashFlowFacade.cs:11-27 | on a table with one row per project and both amounts everywhere, AddIncomeAndCost succeeds and keeps the table so |
| CashFlowFacades.ValidTableAnswers | DomainDrivers.SmartSchedule/Allocation/Cashflow/CashFlowFacade.cs:29-39 | on such a table FindAllEarnings succeeds, and Find succeeds exactly for the projects that have a row |
| CashFlowFacades.CashFlowFacade.constructor | DomainDrivers.SmartSchedule/Allocation/Cashflow/CashFlowFacade.cs:5-10 | the facade starts with an empty, valid cashflow table |
| CashFlowFacades.CashFlowFacade.AddIncomeAndCost | DomainDrivers.SmartSchedule/Allocation/Cashflow/CashFlowFacade.cs:11-27 | the table becomes AfterAdd of the old one and exactly one EarningsRecalculated(project, income minus cost, now) is published; on a duplicated id nothing changes and the error is returned; existing cashflow objects stay in place and a created one is fresh |
| ProjectAllocationsRepositories.Replaced | DomainDrivers.SmartSchedule/Allocation/ProjectAllocationsRepository.cs:31-34 | Update replaces the stored row of the aggregate's project and leaves every other row as it was |
| ProjectAllocationsRepositories.ProjectAllocationsRepository.constructor | DomainDrivers.SmartSchedule/Allocation/ProjectAllocationsRepository.cs:5 | an empty table, which satisfies the primary key |
| ProjectAllocationsRepositories.ProjectAllocationsRepository.FindAllContainingDate | DomainDrivers.SmartSchedule/Allocation/ProjectAllocationsRepository.cs:7-12 | exactly the stored projects whose slot starts at or before the instant and ends after it, in table order, each as many times as it is stored |
| ProjectAllocationsRepositories.ProjectAllocationsRepository.FindById | DomainDrivers.SmartSchedule/Allocation/ProjectAllocationsRepository.cs:14-18 | null exactly when no row has the id; a found row is stored and has the id; the only error is a repeated id, which the key excludes |
| ProjectAllocationsRepositories.ProjectAllocationsRepository.GetById | DomainDrivers.SmartSchedule/Allocation/ProjectAllocationsRepository.cs:20-24 | a stored row with the id; NoMatchingElement when there is none and MoreThanOneElement otherwise; under the key it succeeds exactly when the id is stored |
| ProjectAllocationsRepositories.ProjectAllocationsRepository.FindAllById | DomainDrivers.SmartSchedule/Allocation/ProjectAllocationsRepository.cs:36-42 | exactly the stored projects whose id is in the set, in table order, each as many times as it is stored |
| ProjectAllocationsRepositories.ProjectAllocationsRepository.FindAll | DomainDrivers.SmartSchedule/Allocation/ProjectAllocationsRepository.cs:44-47 | every stored project, in table order |
| ProjectAllocationsRepositories.FindAllHoldsEveryQuery | DomainDrivers.SmartSchedule/Allocation/ProjectAllocationsRepository.cs:7-47 | every date query returns a subsequence of FindAll, and FindAllById over every stored project id returns all of FindAll |
| ProjectAllocationsRepositories.ProjectAllocationsRepository.Add | DomainDrivers.SmartSchedule/Allocation/ProjectAllocationsRepository.cs:26-29 | appends the aggregate; fails with DuplicateKey, changing nothing, exactly when its id is already stored; keeps the key |
| ProjectAllocationsRepositories.ProjectAllocationsRepository.Update | DomainDrivers.SmartSchedule/Allocation/ProjectAllocationsRepository.cs:31-34 | the table becomes Replaced of the old one, and keeps the key |
| AllocatableCapabilities.AllocatableCapabilityRepository.constructor | DomainDrivers.SmartSchedule/Allocation/CapabilityScheduling/AllocatableCapabilityRepository.cs:5 | an empty table, which satisfies the primary key on the offer id |
| AllocatableCapabilities.AllocatableCapabilityRepository.FindByCapabilityWithin | DomainDrivers.SmartSchedule/Allocation/CapabilityScheduling/AllocatableCapabilityRepository.cs:7-22 | exactly the stored offers listing a capability of that name and type whose window covers [from, to], in table order, each as many times as it is stored |
| AllocatableCapabilities.AllocatableCapabilityRepository.FindByResourceIdAndCapabilityAndTimeSlot | DomainDrivers.SmartSchedule/Allocation/CapabilityScheduling/AllocatableCapabilityRepository.cs:24-40 | null exactly when no offer of the resource lists the capability over exactly that window; a found offer is the only match; MoreThanOneElement exactly when two rows match |
| AllocatableCapabilities.AllocatableCapabilityRepository.FindByResourceIdAndTimeSlot | DomainDrivers.SmartSchedule/Allocation/CapabilityScheduling/AllocatableCapabilityRepository.cs:42-55 | exactly the stored offers of the resource over exactly that window, in table order, each as many times as it is stored |
| AllocatableCapabilities.AllocatableCapabilityRepository.FindAllById | DomainDrivers.SmartSchedule/Allocation/CapabilityScheduling/AllocatableCapabilityRepository.cs:57-62 | exactly the stored offers whose id is listed, in table order, each as many times as it is stored |
| AllocatableCapabilities.AllocatableCapabilityRepository.FindById | DomainDrivers.SmartSchedule/Allocation/CapabilityScheduling/AllocatableCapabilityRepository.cs:64-68 | a stored offer with the id, or null exactly when none is stored |
| AllocatableCapabilities.AllocatableCapabilityRepository.ExistsById | DomainDrivers.SmartSchedule/Allocation/CapabilityScheduling/AllocatableCapabilityRepository.cs:75-78 | true exactly when some stored offer has the id |
| AllocatableCapabilities.AllocatableCapabilityRepository.SaveAll | DomainDrivers.SmartSchedule/Allocation/CapabilityScheduling/AllocatableCapabilityRepository.cs:70-73 | the offers are appended in order; a batch whose id is already stored or repeats within it fails with DuplicateKey and stores nothing; the primary key is kept |
| AllocatableCapabilities.SaveKeepsKeyIffNoClash | DomainDrivers.SmartSchedule/Allocation/CapabilityScheduling/AllocatableCapabilityRepository.cs:63-73 | on a keyed table, appending a batch keeps the key exactly when SaveAll would not refuse it |
| AllocatableCapabilities.SavedRowsAreFound | DomainDrivers.SmartSchedule/Allocation/CapabilityScheduling/AllocatableCapabilityRepository.cs:70-78 | after SaveAll each saved offer is stored and ExistsById finds it, and earlier rows keep their places |
| CapabilityFinders.CreateSummary | DomainDrivers.SmartSchedule/Allocation/CapabilityScheduling/CapabilityFinder.cs:78-82 | the summary copies the offer's id, resource id, capabilities and slot |
| CapabilityFinders.CreateSummaries | DomainDrivers.SmartSchedule/Allocation/CapabilityScheduling/CapabilityFinder.cs:72-76 | one summary per offer, in order |
| CapabilityFinders.SummariesOfElements | DomainDrivers.SmartSchedule/Allocation/CapabilityScheduling/CapabilityFinder.cs:72-76 | the summaries of a list are the summaries of its elements |
| CapabilityFinders.CapabilityFinder.constructor | DomainDrivers.SmartSchedule/Allocation/CapabilityScheduling/CapabilityFinder.cs:18-22 | the finder keeps its availability facade and repository |
| CapabilityFinders.CapabilityFinder.FilterAvailabilityInTimeSlot | DomainDrivers.SmartSchedule/Allocation/CapabilityScheduling/CapabilityFinder.cs:58-70 | keeps, in order and each as many times as found, exactly the offers whose resource's calendar lists the slot among its available slots; an offer whose resource has no calendar makes the dictionary lookup throw (KeyNotFound) |
| CapabilityFinders.CapabilityFinder.FindCapabilities | DomainDrivers.SmartSchedule/Allocation/CapabilityScheduling/CapabilityFinder.cs:33-38 | one summary per stored offer of the capability whose window covers the slot, the `i`th summary made from the `i`th matching offer |
| CapabilityFinders.CapabilityFinder.FindAvailableCapabilities | DomainDrivers.SmartSchedule/Allocation/CapabilityScheduling/CapabilityFinder.cs:23-31 | the summaries of exactly the covering offers whose calendar lists the slot, the `i`th summary made from the `i`th offer FilterAvailabilityInTimeSlot keeps; fails with KeyNotFound exactly when some covering offer's resource has no calendar |
| CapabilityFinders.CapabilityFinder.FindByIds | DomainDrivers.SmartSchedule/Allocation/CapabilityScheduling/CapabilityFinder.cs:40-44 | one summary per stored offer whose id is listed, the `i`th summary made from the `i`th matching offer |
| CapabilityFinders.CapabilityFinder.FindById | DomainDrivers.SmartSchedule/Allocation/CapabilityScheduling/CapabilityFinder.cs:46-56 | null exactly when no stored offer has the id, otherwise the summary of that offer |
| CapabilityFinders.CapabilityFinder.AvailableAmongMatching | DomainDrivers.SmartSchedule/Allocation/CapabilityScheduling/CapabilityFinder.cs:23-38 | the available capabilities are, in order, a subsequence of the structurally matching ones |
| CapabilitySchedulers.FreshIds | DomainDrivers.SmartSchedule/Allocation/CapabilityScheduling/CapabilityScheduler.cs:54-60 | the ids a call draws are the first elements of the caller's id stream, one per new offer |
| CapabilitySchedulers.NewCapabilities | DomainDrivers.SmartSchedule/Allocation/CapabilityScheduling/CapabilityScheduler.cs:54-56 | one offer per selector, in selector order, all for the same resource and slot |
| CapabilitySchedulers.SingleCapabilityOffers | DomainDrivers.SmartSchedule/Allocation/CapabilityScheduling/CapabilityScheduler.cs:32-37 | one CanJustPerform offer per resource, in the set's enumeration order |
| CapabilitySchedulers.AllSlotsCreated | DomainDrivers.SmartSchedule/Allocation/CapabilityScheduling/CapabilityScheduler.cs:18-21 | when every calendar creation succeeds, each offer's rows are stored and earlier rows are untouched |
| CapabilitySchedulers.CapabilityScheduler.constructor | DomainDrivers.SmartSchedule/Allocation/CapabilityScheduling/CapabilityScheduler.cs:6-10 | the scheduler keeps its availability facade and repository |
| CapabilitySchedulers.CapabilityScheduler.CreateAllocatableResources | DomainDrivers.SmartSchedule/Allocation/CapabilityScheduling/CapabilityScheduler.cs:51-61 | appends one offer per selector to the repository and returns their ids in selector order; DuplicateKey with nothing saved when an id breaks the key |
| CapabilitySchedulers.CapabilityScheduler.CreateSlotsFor | DomainDrivers.SmartSchedule/Allocation/CapabilityScheduling/CapabilityScheduler.cs:18-21 | opens the calendar of each offer in turn and stops at the first duplicate key |
| CapabilitySchedulers.CapabilityScheduler.ScheduleResourceCapabilitiesForPeriod | DomainDrivers.SmartSchedule/Allocation/CapabilityScheduling/CapabilityScheduler.cs:11-25 | on success, the new offers are stored, their calendars opened, and their ids returned in selector order; it fails with DuplicateKey when an offer id breaks the key, else with the slot creation's error, and on failure the transaction leaves repository and calendars as they were |
| CapabilitySchedulers.CapabilityScheduler.ScheduleMultipleResourcesForPeriod | DomainDrivers.SmartSchedule/Allocation/CapabilityScheduling/CapabilityScheduler.cs:27-49 | on success, one offer per resource is stored, its calendar opened, and the ids returned in set order; it fails with DuplicateKey when an offer id breaks the key, else with the slot creation's error, and on failure nothing changes |
| CapabilitySchedulers.CapabilityScheduler.FindResourceCapabilities | DomainDrivers.SmartSchedule/Allocation/CapabilityScheduling/CapabilityScheduler.cs:63-76 | null exactly when no offer of the resource has the capability over exactly the period; otherwise the id of the only such offer, every matching row carrying that id; an error is MoreThanOneElement and happens only when two rows match |
| CapabilitySchedulers.CapabilityScheduler.FindResourceCapabilitiesFor | DomainDrivers.SmartSchedule/Allocation/CapabilityScheduling/CapabilityScheduler.cs:78-86 | the id of the first offer, in the table's sequence order (the database fixes none), of the resource over exactly the slot that can perform all the capabilities; null exactly when there is none |
| AvailabilityFacades.SaveNew | DomainDrivers.SmartSchedule/Availability/AvailabilityFacade.cs:33-37 | inserts every row of the new group and keeps the stored rows; a repeated id or (resource, segment) pair fails with a duplicate key and inserts nothing |
| AvailabilityFacades.SaveCheckingVersion | DomainDrivers.SmartSchedule/Availability/AvailabilityFacade.cs:65 | succeeds exactly when every row of the group is still stored at its loaded version; then writes those rows with the version bumped and leaves the others; otherwise writes nothing |
| AvailabilityFacades.BlockGroup | DomainDrivers.SmartSchedule/Availability/AvailabilityFacade.cs:55-69 | no slots or a refused block gives false with nothing written; an accepted block is saved with the version check |
| AvailabilityFacades.ReleaseGroup | DomainDrivers.SmartSchedule/Availability/AvailabilityFacade.cs:76-88 | no slots or a refused release gives false with nothing written; an accepted release is saved with the version check |
| AvailabilityFacades.AvailabilityFacade.constructor | DomainDrivers.SmartSchedule/Availability/AvailabilityFacade.cs:25-31 | the facade starts from the given table and publisher |
| AvailabilityFacades.AvailabilityFacade.CreateResourceSlots | DomainDrivers.SmartSchedule/Availability/AvailabilityFacade.cs:33-37 | the table gains the group of the resource over the slot, or stays unchanged on a duplicate key |
| AvailabilityFacades.AvailabilityFacade.CreateResourceSlotsWithParent | DomainDrivers.SmartSchedule/Availability/AvailabilityFacade.cs:39-44 | the same, for the group that records the parent resource |
| AvailabilityFacades.AvailabilityFacade.LookupsNormalize | DomainDrivers.SmartSchedule/Availability/AvailabilityFacade.cs:139-166 | every lookup depends on the slot only through its normalization to segment boundaries |
| AvailabilityFacades.AvailabilityFacade.Block | DomainDrivers.SmartSchedule/Availability/AvailabilityFacade.cs:46-53 | loads the resource's group within the slot and blocks it all or nothing |
| AvailabilityFacades.AvailabilityFacade.BlockLoaded | DomainDrivers.SmartSchedule/Availability/AvailabilityFacade.cs:55-69 | the private Block over a group loaded earlier |
| AvailabilityFacades.AvailabilityFacade.Release | DomainDrivers.SmartSchedule/Availability/AvailabilityFacade.cs:71-90 | loads the resource's group within the slot and releases it all or nothing |
| AvailabilityFacades.AvailabilityFacade.Disable | DomainDrivers.SmartSchedule/Availability/AvailabilityFacade.cs:92-118 | disables the group all or nothing; exactly one ResourceTakenOver carrying the owners seen before the change is published, and only when the save succeeds |
| AvailabilityFacades.AvailabilityFacade.BlockRandomAvailable | DomainDrivers.SmartSchedule/Availability/AvailabilityFacade.cs:120-137 | blocks the group of one candidate resource; returns that group's resource id exactly when the block is saved, and none with no candidates |
| Availability.ResourceAvailability.constructor | DomainDrivers.SmartSchedule/Availability/ResourceAvailability.cs:5-18 | the availability holds the given columns |
| Availability.ResourceAvailability.OfSegment | DomainDrivers.SmartSchedule/Availability/ResourceAvailability.cs:20-23 | a new segment has no parent, no blockade and version 0 |
| Availability.ResourceAvailability.WithParent | DomainDrivers.SmartSchedule/Availability/ResourceAvailability.cs:25-28 | a new segment with a parent has no blockade and version 0 |
| Availability.ResourceAvailability.BlockedBy | DomainDrivers.SmartSchedule/Availability/ResourceAvailability.cs:30 | the owner the segment's blockade records (the blockade's own rules are not part of this model) |
| Availability.ResourceAvailability.IsDisabled | DomainDrivers.SmartSchedule/Availability/ResourceAvailability.cs:32 | whether the segment's blockade is a disabling one |
| Availability.ResourceAvailability.IsAvailableFor | DomainDrivers.SmartSchedule/Availability/ResourceAvailability.cs:75-78 | the requester may take the blockade and the segment is not disabled; a disabled segment is available to nobody |
| Availability.ResourceAvailability.IsDisabledBy | DomainDrivers.SmartSchedule/Availability/ResourceAvailability.cs:80-83 | whether the blockade disables the segment on behalf of the owner |
| Availability.ResourceAvailability.Block | DomainDrivers.SmartSchedule/Availability/ResourceAvailability.cs:34-45 | succeeds exactly when the requester may take the segment and it is not disabled; then the requester owns it, otherwise nothing changes |
| Availability.ResourceAvailability.Release | DomainDrivers.SmartSchedule/Availability/ResourceAvailability.cs:47-56 | under the same guard, clears the blockade; otherwise nothing changes |
| Availability.ResourceAvailability.Disable | DomainDrivers.SmartSchedule/Availability/ResourceAvailability.cs:58-62 | always succeeds and leaves the segment disabled by the requester |
| Availability.ResourceAvailability.Enable | DomainDrivers.SmartSchedule/Availability/ResourceAvailability.cs:64-73 | clears the blockade exactly when the requester may take it, whether or not it is disabled |
| Availability.EqualityByIdentifier | DomainDrivers.SmartSchedule/Availability/ResourceAvailability.cs:85-101 | equality compares ids only: it is an equivalence and agrees with the hash code |
| AllocationFacades.FindChosenAllocatableCapability | DomainDrivers.SmartSchedule/Allocation/AllocationFacade.cs:120-125 | the first proposed summary scheduled under the chosen resource; no such summary makes First throw |
| AllocationFacades.AllocationFacade.constructor | DomainDrivers.SmartSchedule/Allocation/AllocationFacade.cs:7-14 | the facade keeps its repository, availability facade, finder and publisher |
| AllocationFacades.AllocationFacade.CreateAllocation | DomainDrivers.SmartSchedule/Allocation/AllocationFacade.cs:15-26 | stores a new project with no allocations and the given demands and slot, publishes one ProjectAllocationScheduled for the new id and returns it; a repeated id fails and changes nothing |
| AllocationFacades.AllocationFacade.Allocate | DomainDrivers.SmartSchedule/Allocation/AllocationFacade.cs:66-74 | loads the project, stores it after it allocates, and returns the event it produced; an unknown project fails without writing |
| AllocationFacades.AllocationFacade.AllocateToProject | DomainDrivers.SmartSchedule/Allocation/AllocationFacade.cs:38-64 | null without blocking or recording for an unknown capability, or when blocking for the project fails; otherwise blocked and recorded, returning the allocated-capability id of the event; when the project cannot be loaded after blocking, its error is returned and the block is rolled back |
| AllocationFacades.AllocationFacade.ReleaseFromProject | DomainDrivers.SmartSchedule/Allocation/AllocationFacade.cs:76-89 | releases the calendar whatever that returns, then true exactly when the project's release produced an event; an unknown project rolls back the release |
| AllocationFacades.AllocationFacade.AllocateCapabilityToProjectForPeriod | DomainDrivers.SmartSchedule/Allocation/AllocationFacade.cs:91-118 | false without writing when nothing structurally matches or nothing is blocked; otherwise the block is kept and the first proposed capability under the blocked resource is allocated, returning whether the project produced an event; when no proposed capability lies under the blocked resource, or the project is unknown, it fails with that error and rolls back the block |
| AllocationFacades.AllocationFacade.EditProjectDates | DomainDrivers.SmartSchedule/Allocation/AllocationFacade.cs:127-140 | stores the project after it defines its slot, and publishes DatesSet only when DefineSlot returned one |
| AllocationFacades.AllocationFacade.ScheduleProjectAllocationDemands | DomainDrivers.SmartSchedule/Allocation/AllocationFacade.cs:142-161 | an absent project is created empty and stored with the demands, a stored one is updated with them; no event is published |
| EmployeeAllocationPolicies.Repeat | DomainDrivers.SmartSchedule/Resource/Employee/EmployeeAllocationPolicy.cs:46 | Range(0, howMany) mapped to one value gives that many copies of it |
| EmployeeAllocationPolicies.DefaultOffersEverything | DomainDrivers.SmartSchedule/Resource/Employee/EmployeeAllocationPolicy.cs:30-39 | the default policy offers one selector: one of all the skills and permissions together |
| EmployeeAllocationPolicies.OneOfSkillsOffersSkills | DomainDrivers.SmartSchedule/Resource/Employee/EmployeeAllocationPolicy.cs:52-58 | OneOfSkills offers one selector: one of the skills |
| EmployeeAllocationPolicies.RepeatEachIndex | DomainDrivers.SmartSchedule/Resource/Employee/EmployeeAllocationPolicy.cs:45-46 | repeating each element n times gives n times as many elements, the i-th being element i / n |
| EmployeeAllocationPolicies.PermissionsRepeated | DomainDrivers.SmartSchedule/Resource/Employee/EmployeeAllocationPolicy.cs:41-50 | PermissionsInMultipleProjects(n) offers n CanJustPerform selectors per permission, in permission order, and none when n is zero |
| EmployeeAllocationPolicies.EachPolicyAppend | DomainDrivers.SmartSchedule/Resource/Employee/EmployeeAllocationPolicy.cs:64-66 | the per-policy offers of two policy lists placed one after the other are the two lists of offers one after the other |
| EmployeeAllocationPolicies.CompositeConcatenates | DomainDrivers.SmartSchedule/Resource/Employee/EmployeeAllocationPolicy.cs:60-68 | a composite of two policy lists offers the first list's selectors followed by the second's |
| EmployeeAllocationPolicies.CompositeUnits | DomainDrivers.SmartSchedule/Resource/Employee/EmployeeAllocationPolicy.cs:24-27 | Simultaneous() offers nothing, and Simultaneous(p) offers what p offers |
| EmployeeAllocationPolicies.CompositeLength | DomainDrivers.SmartSchedule/Resource/Employee/EmployeeAllocationPolicy.cs:60-68 | a composite offers, one policy after another, each policy's selectors, so as many as they offer together |
| EmployeeRepositories.FilterCapabilities | DomainDrivers.SmartSchedule/Resource/Employee/EmployeeRepository.cs:24-27 | exactly the capabilities satisfying the predicate, in their order |
| EmployeeRepositories.EmployeeRepository.constructor | DomainDrivers.SmartSchedule/Resource/Employee/EmployeeRepository.cs:6 | a new repository holds no employees |
| EmployeeRepositories.EmployeeRepository.FindSummary | DomainDrivers.SmartSchedule/Resource/Employee/EmployeeRepository.cs:8-15 | succeeds exactly when one employee has the id; then the summary carries that employee's name, last name and seniority, its SKILL capabilities as skills and its PERMISSION capabilities as permissions; none or several make SingleAsync throw |
| EmployeeRepositories.EmployeeRepository.FindAllCapabilities | DomainDrivers.SmartSchedule/Resource/Employee/EmployeeRepository.cs:17-22 | every capability of every employee and nothing else, duplicates kept: employee after employee, each employee's capabilities as one run after those of the employees before it |
| EmployeeRepositories.EmployeeRepository.Add | DomainDrivers.SmartSchedule/Resource/Employee/EmployeeRepository.cs:29-32 | the employee is appended to the table; an id already stored fails with DuplicateKey and stores nothing; the primary key is kept |
| EmployeeRepositories.ValidTableFindsStored | DomainDrivers.SmartSchedule/Resource/Employee/EmployeeRepository.cs:8-32 | on a table keyed by employee id, FindSummary succeeds exactly for the stored ids |
| EmployeeRepositories.SkillsAndPermissionsSplit | DomainDrivers.SmartSchedule/Resource/Employee/EmployeeRepository.cs:12-13 | a summary's skills are all of type SKILL, its permissions all of type PERMISSION, and no capability is in both |
| Events.EventsPublisher.constructor | DomainDrivers.SmartSchedule/Shared/IEventsPublisher.cs:11 | a new publisher has published nothing |
| Events.EventsPublisher.Publish | DomainDrivers.SmartSchedule/Shared/IEventsPublisher.cs:13-16 | appends exactly the event to the published log |
| PotentialTransfersModel.ProjectsAllocationsSummary.constructor | DomainDrivers.SmartSchedule/Allocation/PotentialTransfers.cs:8-10 | the summary holds the given allocations and demands dictionaries |
| PotentialTransfersModel.TransferIn | DomainDrivers.SmartSchedule/Allocation/PotentialTransfers.cs:12-33 | the dictionary after the move keeps the same projects in the same order |
| PotentialTransfersModel.TransferNoOp | DomainDrivers.SmartSchedule/Allocation/PotentialTransfers.cs:15-26 | when either project is absent, or removing the capability leaves the source allocations as they were, nothing changes |
| PotentialTransfersModel.TransferBetweenProjects | DomainDrivers.SmartSchedule/Allocation/PotentialTransfers.cs:22-31 | between two projects, the capability leaves the source, joins the target with the requested slot, and every other project is untouched |
| PotentialTransfersModel.TransferWithinProject | DomainDrivers.SmartSchedule/Allocation/PotentialTransfers.cs:28-31 | when source and target are the same project, the second write wins: the project gains the capability and the removal is lost |
| PotentialTransfersModel.ProjectToMoveFrom | DomainDrivers.SmartSchedule/Allocation/PotentialTransfers.cs:63-68 | the first project, in dictionary order, whose allocations hold the capability, and none exactly when no project holds it; the slot plays no part |
| PotentialTransfersModel.TransferCapabilityIn | DomainDrivers.SmartSchedule/Allocation/PotentialTransfers.cs:53-61 | keeps the projects; when no project holds the capability, nothing changes |
| PotentialTransfersModel.MissingDemandsIn | DomainDrivers.SmartSchedule/Allocation/PotentialTransfers.cs:42-51 | the project's demands not met by its allocations, one simulation demand per missing demand, with the same capability and slot |
| PotentialTransfersModel.SimulatedProjectsFor | DomainDrivers.SmartSchedule/Allocation/PotentialTransfers.cs:35-40 | one simulated project per key, in key order, valued at its earnings and demanding what it misses; fails exactly when some key has no demands or no earnings |
| PotentialTransfersModel.PotentialTransfers.constructor | DomainDrivers.SmartSchedule/Allocation/PotentialTransfers.cs:8-10 | the value holds the given summary and earnings |
| PotentialTransfersModel.PotentialTransfers.Transfer | DomainDrivers.SmartSchedule/Allocation/PotentialTransfers.cs:12-33 | rewrites the shared summary into the moved dictionary; returns itself when nothing moves, otherwise a new value sharing the summary and earnings |
| PotentialTransfersModel.PotentialTransfers.TransferCapability | DomainDrivers.SmartSchedule/Allocation/PotentialTransfers.cs:53-61 | moves the capability from the first project holding it, if any; the result shares the summary and earnings |
| PotentialTransfersModel.EqualsProperties | DomainDrivers.SmartSchedule/Allocation/PotentialTransfers.cs:70-76 | equality is reflexive, refuses null, and tells apart values whose earnings differ |
| PotentialTransfersModel.SimulatedProjectsPerKey | DomainDrivers.SmartSchedule/Allocation/PotentialTransfers.cs:35-51 | succeeds exactly when every project of the summary has demands and earnings; then one simulated project per project, in order, with its id, its earnings and as many demands as it misses |
| PotentialTransfersServices.ProfitDelta | DomainDrivers.SmartSchedule/Allocation/PotentialTransfersService.cs:25-45 | for a move that keeps the projects, the delta exists exactly when every project has demands and earnings; a failure is a missing key |
| PotentialTransfersServices.SimulatedProjectsKeepKeys | DomainDrivers.SmartSchedule/Allocation/PotentialTransfersService.cs:28-32 | the simulation before a move fails exactly when the one after it does, since both look up by the same keys |
| PotentialTransfersServices.ProfitDeltaOfRuns | DomainDrivers.SmartSchedule/Allocation/PotentialTransfersService.cs:33 | the result is the optimal profit after the move less the one before |
| PotentialTransfersServices.UnchangedSummaryIsWorthNothing | DomainDrivers.SmartSchedule/Allocation/PotentialTransfersService.cs:25-45 | a summary that the move leaves unchanged has a profit delta of zero |
| PotentialTransfersServices.TransferOfUnheldCapabilityIsWorthNothing | DomainDrivers.SmartSchedule/Allocation/PotentialTransfersService.cs:25-34 | moving a capability that no project holds is worth zero |
| PotentialTransfersServices.NoMoveIsWorthNothing | DomainDrivers.SmartSchedule/Allocation/PotentialTransfersService.cs:36-45 | Transfer(from, to, ...) that moves nothing is worth zero |
| PotentialTransfersServices.ProfitOfMovingIn | DomainDrivers.SmartSchedule/Allocation/PotentialTransfersService.cs:14-23 | the check on a summary of every stored project with all earnings; it fails only on a missing key, a duplicate cashflow, or a missing amount |
| PotentialTransfersServices.PotentialTransfersService.constructor | DomainDrivers.SmartSchedule/Allocation/PotentialTransfersService.cs:9-13 | the service keeps its repository and cashflow facade |
| PotentialTransfersServices.PotentialTransfersService.ProfitOfMoving | DomainDrivers.SmartSchedule/Allocation/PotentialTransfersService.cs:14-23 | the same, over the stored tables |
| PotentialTransfersServices.PotentialTransfersService.ProfitAfterMovingCapabilities | DomainDrivers.SmartSchedule/Allocation/PotentialTransfersService.cs:14-23 | builds a fresh summary and earnings and returns their check; a failing earnings query fails the call |
| PotentialTransfersServices.PotentialTransfersService.SimulateOnFreshSummary | DomainDrivers.SmartSchedule/Allocation/PotentialTransfersService.cs:18-22 | the check on a new summary and transfers built from the dictionaries |
| PotentialTransfersServices.PotentialTransfersService.CheckPotentialTransferOf | DomainDrivers.SmartSchedule/Allocation/PotentialTransfersService.cs:25-34 | the profit delta of moving the capability from the project holding it; the simulation before is taken before the move rewrites the shared summary |
| PotentialTransfersServices.PotentialTransfersService.CheckPotentialTransfer | DomainDrivers.SmartSchedule/Allocation/PotentialTransfersService.cs:36-45 | likewise around Transfer(from, to, capability, slot) |
| MissingDemandsPublishing.Create | DomainDrivers.SmartSchedule/Allocation/PublishMissingDemandsService.cs:23-33 | one entry per project with a time slot, keyed by its id and holding its missing demands, stamped with the instant; a repeated id among them makes ToDictionary throw |
| MissingDemandsPublishing.KeysOfProjectsWithSlot | DomainDrivers.SmartSchedule/Allocation/PublishMissingDemandsService.cs:28-30 | the keys are exactly the ids of the projects with a time slot |
| MissingDemandsPublishing.PublishMissingDemandsService.constructor | DomainDrivers.SmartSchedule/Allocation/PublishMissingDemandsService.cs:5-10 | the service keeps its repository and publisher |
| MissingDemandsPublishing.PublishMissingDemandsService.Publish | DomainDrivers.SmartSchedule/Allocation/PublishMissingDemandsService.cs:11-20 | publishes exactly one summary of the projects whose slot contains the instant, stamped with that same instant; a failed summary publishes nothing |
| MissingDemandsPublishing.SummaryOnlyOfRunningProjects | DomainDrivers.SmartSchedule/Allocation/PublishMissingDemandsService.cs:13-16 | every project in the published summary is stored, has a time slot and contains the instant |
| RiskDispatchers.FailureStops | DomainDrivers.SmartSchedule/Risk/RiskPeriodicCheckSagaDispatcher.cs:46-49 | once a step has thrown, the later steps never run |
| RiskDispatchers.SequenceWithoutFailures | DomainDrivers.SmartSchedule/Risk/RiskPeriodicCheckSagaDispatcher.cs:46-49 | the steps run through exactly when none throws, and then every notification of every step is pushed, in order |
| RiskDispatchers.RanIsSequence | DomainDrivers.SmartSchedule/Risk/RiskPeriodicCheckSagaDispatcher.cs:79-82 | the steps that ran, all of them or up to the first that threw, account for everything the loop did |
| RiskDispatchers.FirstFailure | DomainDrivers.SmartSchedule/Risk/RiskPeriodicCheckSagaDispatcher.cs:167-172 | the first step from a position on whose lookup fails or whose demand was already added, and none exactly when no later step throws |
| RiskDispatchers.SummariesOf | DomainDrivers.SmartSchedule/Risk/RiskPeriodicCheckSagaDispatcher.cs:167-172 | one summary per demand, so the dictionary's keys are exactly the demands |
| RiskDispatchers.NoDuplicatesByPrefix | DomainDrivers.SmartSchedule/Risk/RiskPeriodicCheckSagaDispatcher.cs:171 | Dictionary.Add succeeds at every step exactly when no demand repeats |
| RiskDispatchers.ReplacementsOk | DomainDrivers.SmartSchedule/Risk/RiskPeriodicCheckSagaDispatcher.cs:162-189 | the loop gets through exactly when no demand repeats and every lookup succeeds; the dictionary then lists the demands in order, each with its own lookup's summary |
| RiskDispatchers.ReplacementsErrors | DomainDrivers.SmartSchedule/Risk/RiskPeriodicCheckSagaDispatcher.cs:162-189 | a failed loop fails with a duplicate key or with one lookup's failure |
| RiskDispatchers.ReplacementsOfCompleteLoop | DomainDrivers.SmartSchedule/Risk/RiskPeriodicCheckSagaDispatcher.cs:165-174 | a loop that finishes without throwing builds exactly the specified dictionary |
| RiskDispatchers.ReplacedExtend | DomainDrivers.SmartSchedule/Risk/RiskPeriodicCheckSagaDispatcher.cs:171 | a step that does not throw adds its demand and summary |
| RiskDispatchers.ReplacedFails | DomainDrivers.SmartSchedule/Risk/RiskPeriodicCheckSagaDispatcher.cs:169-171 | a step that throws ends the loop with its exception |
| RiskDispatchers.CandidateLists | DomainDrivers.SmartSchedule/Risk/RiskPeriodicCheckSagaDispatcher.cs:137 | the summary list of each key, key by key |
| RiskDispatchers.CandidatesEmpty | DomainDrivers.SmartSchedule/Risk/RiskPeriodicCheckSagaDispatcher.cs:137 | Any() over all replacements holds exactly when some demand has a replacement |
| RiskDispatchers.CandidatesUpToKey | DomainDrivers.SmartSchedule/Risk/RiskPeriodicCheckSagaDispatcher.cs:147-149 | the replacements of the first i + 1 keys are those of the first i, then key i's |
| RiskDispatchers.CandidatesOfKey | DomainDrivers.SmartSchedule/Risk/RiskPeriodicCheckSagaDispatcher.cs:147-149 | key i's replacements follow the replacements of the keys before it |
| RiskDispatchers.RelocationStepsExtend | DomainDrivers.SmartSchedule/Risk/RiskPeriodicCheckSagaDispatcher.cs:149-157 | one more replacement adds one more step |
| RiskDispatchers.RelocationPrefixFails | DomainDrivers.SmartSchedule/Risk/RiskPeriodicCheckSagaDispatcher.cs:151-153 | once a profit computation has thrown, no later replacement is considered |
| RiskDispatchers.RelocationsNotifyProfitable | DomainDrivers.SmartSchedule/Risk/RiskPeriodicCheckSagaDispatcher.cs:147-159 | with every profit known, a notification is pushed for each replacement whose move is strictly profitable, naming it, and for no other |
| RiskDispatchers.RelocationsFailWithProfit | DomainDrivers.SmartSchedule/Risk/RiskPeriodicCheckSagaDispatcher.cs:151-153 | the first failing profit computation stops SuggestReplacement with its failure |
| RiskDispatchers.WeeklyReactions | DomainDrivers.SmartSchedule/Risk/RiskPeriodicCheckSagaDispatcher.cs:99-107 | the i-th saga is checked at the clock's i-th reading; its step is never null |
| RiskDispatchers.EventReactions | DomainDrivers.SmartSchedule/Risk/RiskPeriodicCheckSagaDispatcher.cs:79-82 | each saga handles the same event from its own prior state |
| RiskDispatchers.MissingDemandsReactions | DomainDrivers.SmartSchedule/Risk/RiskPeriodicCheckSagaDispatcher.cs:36-41 | each saga handles the missing demands listed under its own project id |
| RiskDispatchers.StatesOf | DomainDrivers.SmartSchedule/Risk/RiskPeriodicCheckSagaDispatcher.cs:36 | the states of the sagas, in order |
| RiskDispatchers.OwnerProjectList | DomainDrivers.SmartSchedule/Risk/RiskPeriodicCheckSagaDispatcher.cs:72-74 | the project ids of the previous owners; an owner without an id makes Value on the null id throw |
| RiskDispatchers.RiskPeriodicCheckSagaDispatcher.constructor | DomainDrivers.SmartSchedule/Risk/RiskPeriodicCheckSagaDispatcher.cs:9-16 | the dispatcher keeps its repository, transfer service, finder and notifier |
| RiskDispatchers.RiskPeriodicCheckSagaDispatcher.AvailableLookups | DomainDrivers.SmartSchedule/Risk/RiskPeriodicCheckSagaDispatcher.cs:167-171 | the finder's available capabilities for each demand, in order |
| RiskDispatchers.RiskPeriodicCheckSagaDispatcher.PossibleLookups | DomainDrivers.SmartSchedule/Risk/RiskPeriodicCheckSagaDispatcher.cs:181-185 | the finder's structurally matching capabilities for each demand, in order; they never fail |
| RiskDispatchers.RiskPeriodicCheckSagaDispatcher.Profits | DomainDrivers.SmartSchedule/Risk/RiskPeriodicCheckSagaDispatcher.cs:151-153 | the profit of moving each replacement to the project, in order |
| RiskDispatchers.RiskPeriodicCheckSagaDispatcher.ProfitsAreProfits | DomainDrivers.SmartSchedule/Risk/RiskPeriodicCheckSagaDispatcher.cs:151-153 | the per-replacement description of the profits is exactly the list of profits |
| RiskDispatchers.RiskPeriodicCheckSagaDispatcher.RelocationOutcomeIs | DomainDrivers.SmartSchedule/Risk/RiskPeriodicCheckSagaDispatcher.cs:143-160 | once the possible replacements and their profits are known, SuggestReplacement is their relocation steps |
| RiskDispatchers.RiskPeriodicCheckSagaDispatcher.ProfitsNow | DomainDrivers.SmartSchedule/Risk/RiskPeriodicCheckSagaDispatcher.cs:151-153 | the profits in the current state satisfy their per-replacement description |
| RiskDispatchers.RiskPeriodicCheckSagaDispatcher.OutcomesAreOutcomes | DomainDrivers.SmartSchedule/Risk/RiskPeriodicCheckSagaDispatcher.cs:110-131 | the per-saga description of the outcomes is exactly the list of outcomes |
| RiskDispatchers.RiskPeriodicCheckSagaDispatcher.OutcomesNow | DomainDrivers.SmartSchedule/Risk/RiskPeriodicCheckSagaDispatcher.cs:110-131 | the outcomes in the current state satisfy their per-saga description |
| RiskDispatchers.RiskPeriodicCheckSagaDispatcher.PerformOneActionPerStep | DomainDrivers.SmartSchedule/Risk/RiskPeriodicCheckSagaDispatcher.cs:110-131 | the notifying steps push one notification each, naming the saga's project, DoNothing pushes none, FindAvailable at most one availability notification, and a null step throws |
| RiskDispatchers.RiskPeriodicCheckSagaDispatcher.AvailabilityNotifiesIffSomeReplacement | DomainDrivers.SmartSchedule/Risk/RiskPeriodicCheckSagaDispatcher.cs:133-141 | FindAvailable notifies exactly when the lookups succeed and some missing demand has a replacement, and then with the whole dictionary of replacements |
| RiskDispatchers.RiskPeriodicCheckSagaDispatcher.FindAvailableReplacementsFor | DomainDrivers.SmartSchedule/Risk/RiskPeriodicCheckSagaDispatcher.cs:162-175 | the dictionary of each demand's available capabilities, in demand order, or the first exception |
| RiskDispatchers.RiskPeriodicCheckSagaDispatcher.AvailableReplacementsLoop | DomainDrivers.SmartSchedule/Risk/RiskPeriodicCheckSagaDispatcher.cs:165-174 | the loop builds the specified dictionary or stops at the first step that throws |
| RiskDispatchers.RiskPeriodicCheckSagaDispatcher.FindPossibleReplacements | DomainDrivers.SmartSchedule/Risk/RiskPeriodicCheckSagaDispatcher.cs:177-189 | the dictionary of each demand's structurally matching capabilities, or a duplicate key |
| RiskDispatchers.RiskPeriodicCheckSagaDispatcher.PossibleReplacementsLoop | DomainDrivers.SmartSchedule/Risk/RiskPeriodicCheckSagaDispatcher.cs:179-188 | the loop builds the specified dictionary or stops at the first repeated demand |
| RiskDispatchers.RiskPeriodicCheckSagaDispatcher.HandleFindAvailableFor | DomainDrivers.SmartSchedule/Risk/RiskPeriodicCheckSagaDispatcher.cs:133-141 | pushes exactly the FindAvailable notifications and throws exactly its failure |
| RiskDispatchers.RiskPeriodicCheckSagaDispatcher.NotifyAvailable | DomainDrivers.SmartSchedule/Risk/RiskPeriodicCheckSagaDispatcher.cs:137-140 | given the looked-up replacements, one availability notification exactly when some demand has a replacement, and the lookup's failure otherwise |
| RiskDispatchers.RiskPeriodicCheckSagaDispatcher.HandleSimulateRelocation | DomainDrivers.SmartSchedule/Risk/RiskPeriodicCheckSagaDispatcher.cs:143-160 | pushes exactly the SuggestReplacement notifications, in dictionary order, and throws exactly its failure |
| RiskDispatchers.RiskPeriodicCheckSagaDispatcher.RelocateReplacements | DomainDrivers.SmartSchedule/Risk/RiskPeriodicCheckSagaDispatcher.cs:147-159 | given the looked-up replacements, one notification per replacement whose move is strictly profitable, in order, and the lookup's failure otherwise |
| RiskDispatchers.RiskPeriodicCheckSagaDispatcher.RelocateAll | DomainDrivers.SmartSchedule/Risk/RiskPeriodicCheckSagaDispatcher.cs:147-159 | both loops together push the relocation steps of every replacement, up to the first failure |
| RiskDispatchers.RiskPeriodicCheckSagaDispatcher.RelocateKey | DomainDrivers.SmartSchedule/Risk/RiskPeriodicCheckSagaDispatcher.cs:147-158 | one pass of the outer loop adds the steps of that demand's replacements |
| RiskDispatchers.RiskPeriodicCheckSagaDispatcher.RelocateEach | DomainDrivers.SmartSchedule/Risk/RiskPeriodicCheckSagaDispatcher.cs:149-158 | the inner loop adds the steps of one demand's replacements, stopping at a failure |
| RiskDispatchers.RiskPeriodicCheckSagaDispatcher.RelocateOne | DomainDrivers.SmartSchedule/Risk/RiskPeriodicCheckSagaDispatcher.cs:151-157 | one replacement: notifies when the profit is strictly positive, throws when the profit computation does |
| RiskDispatchers.RiskPeriodicCheckSagaDispatcher.ProfitOf | DomainDrivers.SmartSchedule/Risk/RiskPeriodicCheckSagaDispatcher.cs:151-153 | the profit computed is the listed profit of the replacement |
| RiskDispatchers.RiskPeriodicCheckSagaDispatcher.Perform | DomainDrivers.SmartSchedule/Risk/RiskPeriodicCheckSagaDispatcher.cs:110-131 | pushes exactly the notifications of the step's outcome and throws exactly its failure |
| RiskDispatchers.RiskPeriodicCheckSagaDispatcher.HandleScheduled | DomainDrivers.SmartSchedule/Risk/RiskPeriodicCheckSagaDispatcher.cs:17-26 | the project's saga, stored or a new stored one, handles the event and its step is performed; several stored sagas for the project throw before anything happens: no saga is added, no saga's state changes and nothing is pushed |
| RiskDispatchers.RiskPeriodicCheckSagaDispatcher.HandleEarnings | DomainDrivers.SmartSchedule/Risk/RiskPeriodicCheckSagaDispatcher.cs:52-68 | the project's stored saga, or a new one created with the earnings and stored, handles the event and its step is performed; several stored sagas for the project throw before anything happens: no saga is added, no saga's state changes and nothing is pushed |
| RiskDispatchers.RiskPeriodicCheckSagaDispatcher.ReactionsOf | DomainDrivers.SmartSchedule/Risk/RiskPeriodicCheckSagaDispatcher.cs:40 | the step each saga asked for, with its project and its state |
| RiskDispatchers.RiskPeriodicCheckSagaDispatcher.HandleNotSatisfied | DomainDrivers.SmartSchedule/Risk/RiskPeriodicCheckSagaDispatcher.cs:28-50 | the listed projects' sagas, stored or created, each handle their own missing demands in one transaction; then their steps are performed saga by saga, up to the first that throws |
| RiskDispatchers.RiskPeriodicCheckSagaDispatcher.HandleMissingDemandsOf | DomainDrivers.SmartSchedule/Risk/RiskPeriodicCheckSagaDispatcher.cs:30-44 | the transaction: the sagas found or created and the step each asks for |
| RiskDispatchers.RiskPeriodicCheckSagaDispatcher.SagasOfMissingDemands | DomainDrivers.SmartSchedule/Risk/RiskPeriodicCheckSagaDispatcher.cs:32-33 | the stored sagas of the listed projects, then a new stored saga for each listed project without one |
| RiskDispatchers.RiskPeriodicCheckSagaDispatcher.HandleAllMissingDemands | DomainDrivers.SmartSchedule/Risk/RiskPeriodicCheckSagaDispatcher.cs:36-41 | each saga handles its own project's missing demands, and its step is recorded |
| RiskDispatchers.RiskPeriodicCheckSagaDispatcher.PerformEach | DomainDrivers.SmartSchedule/Risk/RiskPeriodicCheckSagaDispatcher.cs:46-49 | each recorded step in turn, up to the first that throws |
| RiskDispatchers.RiskPeriodicCheckSagaDispatcher.PerformNext | DomainDrivers.SmartSchedule/Risk/RiskPeriodicCheckSagaDispatcher.cs:46-49 | one more step performed: the loop goes on exactly when it did not throw |
| RiskDispatchers.RiskPeriodicCheckSagaDispatcher.PerformReaction | DomainDrivers.SmartSchedule/Risk/RiskPeriodicCheckSagaDispatcher.cs:48 | Perform for one saga and its recorded step |
| RiskDispatchers.RiskPeriodicCheckSagaDispatcher.HandleTakenOver | DomainDrivers.SmartSchedule/Risk/RiskPeriodicCheckSagaDispatcher.cs:70-83 | an owner without an id throws before anything happens: no saga's state changes and nothing is pushed; otherwise the stored sagas of the previous owners' projects, in storage order, each handle the event and have their step performed, up to the first that throws |
| RiskDispatchers.RiskPeriodicCheckSagaDispatcher.HandleEachTakenOver | DomainDrivers.SmartSchedule/Risk/RiskPeriodicCheckSagaDispatcher.cs:79-82 | the sagas that ran hold their new state, the others their old one |
| RiskDispatchers.RiskPeriodicCheckSagaDispatcher.TakeOverOne | DomainDrivers.SmartSchedule/Risk/RiskPeriodicCheckSagaDispatcher.cs:85-93 | one saga handles the event, then its step is performed |
| RiskDispatchers.RiskPeriodicCheckSagaDispatcher.HandleWeeklyCheck | DomainDrivers.SmartSchedule/Risk/RiskPeriodicCheckSagaDispatcher.cs:95-108 | every stored saga, in storage order, runs its weekly check at the clock's reading at that moment and has its step performed, up to the first that throws |
| RiskDispatchers.RiskPeriodicCheckSagaDispatcher.CheckEachWeekly | DomainDrivers.SmartSchedule/Risk/RiskPeriodicCheckSagaDispatcher.cs:99-107 | the sagas that ran hold their new state, the others their old one |
| RiskDispatchers.RiskPeriodicCheckSagaDispatcher.CheckWeeklyOne | DomainDrivers.SmartSchedule/Risk/RiskPeriodicCheckSagaDispatcher.cs:101-106 | one saga runs its weekly check, then its step is performed |
| RiskSagaRepositories.RiskPeriodicCheckSagaRepository.constructor | DomainDrivers.SmartSchedule/Risk/RiskPeriodicCheckSagaRepository.cs:6 | a new repository holds no sagas |
| RiskSagaRepositories.RiskPeriodicCheckSagaRepository.FindByProjectId | DomainDrivers.SmartSchedule/Risk/RiskPeriodicCheckSagaRepository.cs:8-11 | null exactly when no saga has the project; the only saga of the project when there is one; two sagas of the project make SingleOrDefault throw |
| RiskSagaRepositories.RiskPeriodicCheckSagaRepository.FindByProjectIdIn | DomainDrivers.SmartSchedule/Risk/RiskPeriodicCheckSagaRepository.cs:13-18 | exactly the stored sagas of the listed projects, in storage order |
| RiskSagaRepositories.RiskPeriodicCheckSagaRepository.FindAll | DomainDrivers.SmartSchedule/Risk/RiskPeriodicCheckSagaRepository.cs:42-45 | every stored saga, in storage order |
| RiskSagaRepositories.FindAllIsEveryProject | DomainDrivers.SmartSchedule/Risk/RiskPeriodicCheckSagaRepository.cs:13-45 | FindByProjectIdIn over every stored saga's project returns all of FindAll |
| RiskSagaRepositories.RiskPeriodicCheckSagaRepository.Add | DomainDrivers.SmartSchedule/Risk/RiskPeriodicCheckSagaRepository.cs:47-50 | the saga is stored last and handed back |
| RiskSagaRepositories.RiskPeriodicCheckSagaRepository.FindByProjectIdOrCreate | DomainDrivers.SmartSchedule/Risk/RiskPeriodicCheckSagaRepository.cs:20-27 | the stored saga of the project, or a new saga in its initial state, stored and returned |
| RiskSagaRepositories.RiskPeriodicCheckSagaRepository.FindByProjectIdInOrElseCreate | DomainDrivers.SmartSchedule/Risk/RiskPeriodicCheckSagaRepository.cs:29-40 | the stored sagas of the listed projects, then one new stored saga for each listed id no stored saga carries, in list order; every listed id gets a saga and every saga returned is of a listed project |
| RiskSagaRepositories.RiskPeriodicCheckSagaRepository.AddMissingSagas | DomainDrivers.SmartSchedule/Risk/RiskPeriodicCheckSagaRepository.cs:32-38 | new sagas for the missing ids are created and stored after the found ones |
| RiskSagaRepositories.RiskPeriodicCheckSagaRepository.AddNewSagas | DomainDrivers.SmartSchedule/Risk/RiskPeriodicCheckSagaRepository.cs:33-38 | one new saga per id, each stored and appended to the found list |
| RiskSagaRepositories.RiskPeriodicCheckSagaRepository.NewSagas | DomainDrivers.SmartSchedule/Risk/RiskPeriodicCheckSagaRepository.cs:33-34 | one new distinct saga per id, in its initial state |
| RiskSagaRepositories.RiskPeriodicCheckSagaRepository.AddAll | DomainDrivers.SmartSchedule/Risk/RiskPeriodicCheckSagaRepository.cs:35-38 | each missing saga is stored and appended to the list, in order |
| RiskSagaRepositories.NewSagasCoverRequested | DomainDrivers.SmartSchedule/Risk/RiskPeriodicCheckSagaRepository.cs:29-40 | every listed id gets a saga: a stored one when one carries it, a new one otherwise |
| RiskSagaRepositories.NewSagasAreListed | DomainDrivers.SmartSchedule/Risk/RiskPeriodicCheckSagaRepository.cs:29-40 | every saga handed back belongs to a listed project |
| RiskSagaRepositories.NewSagasOnlyForMissing | DomainDrivers.SmartSchedule/Risk/RiskPeriodicCheckSagaRepository.cs:32-34 | new sagas are created only for ids that no stored saga carries |
| RiskSagas.RiskPeriodicCheckSaga.constructor | DomainDrivers.SmartSchedule/Risk/RiskPeriodicCheckSagaRepository.cs:24 | a saga created for a project carries its id and starts in the initial state |
| RiskSagas.RiskPeriodicCheckSaga.WithEarnings | DomainDrivers.SmartSchedule/Risk/RiskPeriodicCheckSagaDispatcher.cs:60 | a saga created with earnings carries the project id and starts in the state for those earnings |
| RiskSagas.RiskPeriodicCheckSaga.Handle | DomainDrivers.SmartSchedule/Risk/RiskPeriodicCheckSagaDispatcher.cs:85-93 | the saga moves to the state its handler gives and returns the step it asks for |
| RiskSagas.RiskPeriodicCheckSaga.HandleMissingDemands | DomainDrivers.SmartSchedule/Risk/RiskPeriodicCheckSagaDispatcher.cs:39 | the same, for the missing demands of its project |
| RiskSagas.RiskPeriodicCheckSaga.HandleWeeklyCheck | DomainDrivers.SmartSchedule/Risk/RiskPeriodicCheckSagaDispatcher.cs:103 | the same, for the weekly check at the given instant; the step is never null |
| EmployeeCapabilityScheduling.SelectorsBySeniority | DomainDrivers.SmartSchedule/Resource/Employee/ScheduleEmployeeCapabilities.cs:14-29 | a lead offers one of its skills, then three CanJustPerform per permission in permission order; anyone else offers one selector of all skills and permissions |
| EmployeeCapabilityScheduling.ScheduleEmployeeCapabilities.constructor | DomainDrivers.SmartSchedule/Resource/Employee/ScheduleEmployeeCapabilities.cs:6-9 | the service keeps its employee repository and scheduler |
| EmployeeCapabilityScheduling.ScheduleEmployeeCapabilities.SetupEmployeeCapabilities | DomainDrivers.SmartSchedule/Resource/Employee/ScheduleEmployeeCapabilities.cs:10-18 | schedules the selectors of the employee's policy for its resource over the slot, with the scheduler's outcome; an unknown employee schedules nothing |
| DeviceCapabilityScheduling.ScheduleDeviceCapabilities.constructor | DomainDrivers.SmartSchedule/Resource/Device/ScheduleDeviceCapabilities.cs:7 | the service keeps its scheduler |
| DeviceCapabilityScheduling.ScheduleDeviceCapabilities.SetupDeviceCapabilities | DomainDrivers.SmartSchedule/Resource/Device/ScheduleDeviceCapabilities.cs:9-14 | schedules the single selector of all the device's assets at once; on success exactly one id comes back; DuplicateKey when that id is already stored |
| CriticalResourceVerification.VerifyCriticalResourceAvailableDuringPlanning.constructor | DomainDrivers.SmartSchedule/Risk/VerifyCriticalResourceAvailableDuringPlanning.cs:7-10 | keeps the availability facade and the notification sink it is given |
| CriticalResourceVerification.VerifyCriticalResourceAvailableDuringPlanning.WarningsFor | DomainDrivers.SmartSchedule/Risk/VerifyCriticalResourceAvailableDuringPlanning.cs:11-32 | at most one warning; none without a critical resource; otherwise a warning naming project, resource and slot exactly when the calendar over the stage slot offers no slot equal to it |
| CriticalResourceVerification.VerifyCriticalResourceAvailableDuringPlanning.Handle | DomainDrivers.SmartSchedule/Risk/VerifyCriticalResourceAvailableDuringPlanning.cs:11-27 | pushes exactly the warnings of WarningsFor and nothing else |
| EnoughDemandsVerification.SimulatedCapabilitiesOf | DomainDrivers.SmartSchedule/Risk/VerifyEnoughDemandsDuringPlanning.cs:37-41 | one simulated capability per listed capability, duplicates included, each performing just that capability in the empty slot under a fresh id |
| EnoughDemandsVerification.CreateSamePriceSimulatedProject | DomainDrivers.SmartSchedule/Risk/VerifyEnoughDemandsDuringPlanning.cs:50-56 | the project under its own id, worth 100, missing each of its demands in the empty slot, in order |
| EnoughDemandsVerification.SimulatedProjectsOf | DomainDrivers.SmartSchedule/Risk/VerifyEnoughDemandsDuringPlanning.cs:42-44 | one same-price simulated project per planned project, in order |
| EnoughDemandsVerification.SimulatedItemsAllWorth100 | DomainDrivers.SmartSchedule/Risk/VerifyEnoughDemandsDuringPlanning.cs:19 | every item handed to the optimizer carries the same value 100 |
| EnoughDemandsVerification.VerifyEnoughDemandsDuringPlanning.constructor | DomainDrivers.SmartSchedule/Risk/VerifyEnoughDemandsDuringPlanning.cs:12-18 | keeps the notification sink it is given |
| EnoughDemandsVerification.VerifyEnoughDemandsDuringPlanning.Handle | DomainDrivers.SmartSchedule/Risk/VerifyEnoughDemandsDuringPlanning.cs:22-48 | one possible-risk warning with the event's project and demands exactly when the optimal setup does not choose every planned project, nothing otherwise |
| NeededResourcesVerification.Flagged | DomainDrivers.SmartSchedule/Risk/VerifyNeededResourcesAvailableInTimeSlot.cs:25-31 | the flagged resources are exactly the requested ones whose calendar shows an available slot the chosen slot is not within; a resource with no available slot is never flagged |
| NeededResourcesVerification.VerifyNeededResourcesAvailableInTimeSlot.constructor | DomainDrivers.SmartSchedule/Risk/VerifyNeededResourcesAvailableInTimeSlot.cs:8-12 | keeps the availability facade and the notification sink it is given |
| NeededResourcesVerification.VerifyNeededResourcesAvailableInTimeSlot.Handle | DomainDrivers.SmartSchedule/Risk/VerifyNeededResourcesAvailableInTimeSlot.cs:13-17 | one warning carrying every flagged resource when some resource is flagged, nothing otherwise |
| NeededResourcesVerification.VerifyNeededResourcesAvailableInTimeSlot.NotifyAboutNotAvailableResources | DomainDrivers.SmartSchedule/Risk/VerifyNeededResourcesAvailableInTimeSlot.cs:19-37 | the loop collects exactly the flagged resources, and one warning carrying all of them is pushed when there is any |

## Left out

- Transactions (UnitOfWork.cs, not part of this model): each facade method is one atomic step. Where the source rolls back on an exception, the model restores the state it changed. Joining an ambient transaction is not modelled separately.
- MediatR handler wrappers, the Quartz jobs, async/await and CancellationToken: publishing an event and pushing a notification are appends to a log. The jobs only call the modelled methods.
- Floating point: profits (`double`) and prices (`decimal`) are `real`. No IEEE rounding or overflow is modelled.
- Concurrency: optimistic locking is a compare-and-swap on each row's version in a sequential table. Interleavings are not modelled.
- Randomness: the random pick in LoadAvailabilitiesOfRandomResourceWithin is an arbitrary choice (`:|`) among the candidates.
- Guid.NewGuid and the clock: identifiers come from a caller-supplied stream `newId`, and instants are parameters. The stream is not assumed to be fresh: an offer id that is already stored or repeats makes SaveAll fail with DuplicateKey, as the table's primary key would.
- Unseen collaborators are uninterpreted functions with no invented behaviour:
  - TimeSlot's Within, Empty and normalization; Blockade.CanBeTakenBy and Owner.
  - The group operations of ResourceGroupedAvailability and the repository's loading queries.
  - The read model's LoadCalendar/LoadCalendars and Calendar.AvailableSlots; Calendars.Get.
  - ProjectAllocations' Allocate, Release, DefineSlot, AddDemands and MissingDemands.
  - ProjectsAllocationsSummary.Of and its equality; OptimizationFacade.Calculate.
  - The Handle methods of RiskPeriodicCheckSaga.
- IRiskPushNotification, IEventsPublisher's MediatR dispatch, PlanningFacade, ResourceFacade, DeviceRepository and ProjectCard are not part of this model. What the core reads from them is a parameter: the planned projects, all capabilities, and a device's assets.
- Set and dictionary enumeration order: a .NET set or dictionary the core enumerates is a duplicate-free sequence in an order the caller fixes. A set that is only tested for membership is a `set`.
- Query result order: the Entity Framework queries end in `ToListAsync` or `ToDictionary` with no `OrderBy`, so the database promises no order. The model returns the rows in the table's sequence order, which is one of the orders the source allows. This fixes an answer the source leaves open in:
  - the repository queries `AllocatableCapabilityRepository.FindByCapabilityWithin`, `FindByResourceIdAndTimeSlot` and `FindAllById`; `ProjectAllocationsRepository.FindAllContainingDate`, `FindAllById` and `FindAll`; `RiskPeriodicCheckSagaRepository.FindByProjectIdIn` and `FindAll`; and `CashFlowFacades.Reached` / `AllEarningsIn`;
  - the callers that pick the first result, `CapabilityScheduler.FindResourceCapabilitiesFor` (`FirstOrDefault`) and `AllocationFacades.FindChosenAllocatableCapability` (`First`);
  - the callers that run sagas one after another, `RiskPeriodicCheckSagaDispatcher.HandleTakenOver` and `HandleWeeklyCheck`. The order decides which saga's failure stops the loop.
- AllocationFacade.FindAllProjectsAllocations (DomainDrivers.SmartSchedule/Allocation/AllocationFacade.cs:28-36) is a read-through query and is not modelled.
- EmployeeAllocationPolicies.PermissionsInMultipleProjects: the repeat count is a `nat`, so the exception Enumerable.Range throws for a negative count is not modelled. The only caller passes 3.
- ProjectAllocationsRepositories.ProjectAllocationsRepository.Update: updating a project id that is not stored leaves the table unchanged. Entity Framework would fail at save; that failure is not modelled.
- PotentialTransfersModel.SimulatedProjectsFor: a missing earnings entry is reported when the simulated projects are built. In the source the lookup is lazy and fails when the optimizer reads the value. The simulation reads every value, so the outcome is the same.
- PotentialTransfersModel.PotentialTransfers.Equals: the summaries are compared through the abstract record equality of ProjectsAllocationsSummary, and only the earnings dictionaries are compared concretely.
- RiskDispatchers: a null step from the saga, and any step value the switch does not name, are the `Failed(UnknownStep)` outcome. Dereferencing a null owner id is `Failed(NullReference)`.
- RiskSagas: the saga's internal state and its step enumeration are not part of this model. Only its project id and recorded missing demands are read.
