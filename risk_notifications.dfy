/**
 * IRiskPushNotification, which is not part of this model beyond its calls: every notification
 * the risk handlers push, in the order they push them.
 */
module RiskNotifications {
  import opened Collections
  import opened Shared
  import opened ProjectAllocationsModel
  import opened CapabilityFinders
  import Planning

  datatype Notification =
    | DemandsSatisfied(projectId: ProjectAllocationsId)
    | PossibleRisk(projectId: ProjectAllocationsId)
    | Availability(projectId: ProjectAllocationsId, available: Dict<Demand, AllocatableCapabilitiesSummary>)
    | ProfitableRelocationFound(projectId: ProjectAllocationsId, allocatableCapabilityId: AllocatableCapabilityId)
    | PossibleRiskDuringPlanning(cause: Planning.ProjectId, demands: Planning.Demands)
    | ResourcesNotAvailable(cause: Planning.ProjectId, notAvailable: set<ResourceId>)
    | CriticalResourceNotAvailable(cause: Planning.ProjectId, criticalResource: ResourceId, timeSlot: TimeSlot)

  class RiskPushNotification {
    ghost var sent: seq<Notification>

    constructor ()
      ensures sent == []
    {
      sent := [];
    }

    method NotifyDemandsSatisfied(projectId: ProjectAllocationsId)
      modifies this
      ensures sent == old(sent) + [DemandsSatisfied(projectId)]
    {
      sent := sent + [DemandsSatisfied(projectId)];
    }

    method NotifyAboutPossibleRisk(projectId: ProjectAllocationsId)
      modifies this
      ensures sent == old(sent) + [PossibleRisk(projectId)]
    {
      sent := sent + [PossibleRisk(projectId)];
    }

    method NotifyAboutAvailability(projectId: ProjectAllocationsId,
                                   available: Dict<Demand, AllocatableCapabilitiesSummary>)
      modifies this
      ensures sent == old(sent) + [Availability(projectId, available)]
    {
      sent := sent + [Availability(projectId, available)];
    }

    method NotifyProfitableRelocationFound(projectId: ProjectAllocationsId, id: AllocatableCapabilityId)
      modifies this
      ensures sent == old(sent) + [ProfitableRelocationFound(projectId, id)]
    {
      sent := sent + [ProfitableRelocationFound(projectId, id)];
    }

    method NotifyAboutPossibleRiskDuringPlanning(cause: Planning.ProjectId, demands: Planning.Demands)
      modifies this
      ensures sent == old(sent) + [PossibleRiskDuringPlanning(cause, demands)]
    {
      sent := sent + [PossibleRiskDuringPlanning(cause, demands)];
    }

    method NotifyAboutResourcesNotAvailable(cause: Planning.ProjectId, notAvailable: set<ResourceId>)
      modifies this
      ensures sent == old(sent) + [ResourcesNotAvailable(cause, notAvailable)]
    {
      sent := sent + [ResourcesNotAvailable(cause, notAvailable)];
    }

    method NotifyAboutCriticalResourceNotAvailable(cause: Planning.ProjectId, criticalResource: ResourceId,
                                                   timeSlot: TimeSlot)
      modifies this
      ensures sent == old(sent) + [CriticalResourceNotAvailable(cause, criticalResource, timeSlot)]
    {
      sent := sent + [CriticalResourceNotAvailable(cause, criticalResource, timeSlot)];
    }
  }
}
