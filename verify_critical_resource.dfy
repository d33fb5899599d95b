/**
 * VerifyCriticalResourceAvailableDuringPlanning.cs: when a critical stage is planned with a
 * critical resource, warn unless the resource's calendar offers exactly the stage's slot.
 */
module CriticalResourceVerification {
  import opened Wrappers
  import opened Shared
  import opened AvailabilityFacades
  import opened Planning
  import opened RiskNotifications

  /** ResourceIsAvailable: an available slot equal to the stage slot; one merely covering it does not count. */
  predicate ResourceIsAvailable(timeSlot: TimeSlot, calendar: Calendar) {
    exists i :: 0 <= i < |AvailableSlots(calendar)| && AvailableSlots(calendar)[i] == timeSlot
  }

  class VerifyCriticalResourceAvailableDuringPlanning {
    const availability: AvailabilityFacade
    const notifications: RiskPushNotification

    constructor (availability: AvailabilityFacade, notifications: RiskPushNotification)
      ensures this.availability == availability && this.notifications == notifications
    {
      this.availability := availability;
      this.notifications := notifications;
    }

    /**
     * What Handle pushes for the event: nothing without a critical resource; otherwise one
     * warning naming the project, the resource and the stage slot exactly when the resource's
     * calendar over the stage slot does not offer that slot.
     */
    function WarningsFor(e: CriticalStagePlanned): (r: seq<Notification>)
      reads availability
      ensures |r| <= 1
      ensures e.criticalResource.None? ==> r == []
      ensures e.criticalResource.Some? ==>
        (r == [] <==> ResourceIsAvailable(e.stageTimeSlot,
                                          availability.LoadCalendar(e.criticalResource.value, e.stageTimeSlot)))
      ensures r != [] ==> r[0] == CriticalResourceNotAvailable(e.projectId, e.criticalResource.value, e.stageTimeSlot)
    {
      match e.criticalResource
      case None => []
      case Some(resource) =>
        var calendar := availability.LoadCalendar(resource, e.stageTimeSlot);
        if e.stageTimeSlot in AvailableSlots(calendar) then []
        else [CriticalResourceNotAvailable(e.projectId, resource, e.stageTimeSlot)]
    }

    method Handle(e: CriticalStagePlanned)
      modifies notifications
      ensures notifications.sent == old(notifications.sent) + WarningsFor(e)
    {
      if e.criticalResource.None? {
        return;
      }
      var calendar := availability.LoadCalendar(e.criticalResource.value, e.stageTimeSlot);
      if e.stageTimeSlot !in AvailableSlots(calendar) {
        notifications.NotifyAboutCriticalResourceNotAvailable(e.projectId, e.criticalResource.value, e.stageTimeSlot);
      }
    }
  }
}
