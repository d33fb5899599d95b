/**
 * VerifyNeededResourcesAvailableInTimeSlot.cs: when resources are chosen for a slot, collect
 * those whose calendar shows an available slot the chosen slot does not lie within, and warn
 * once about all of them.
 */
module NeededResourcesVerification {
  import opened Collections
  import opened Shared
  import opened AvailabilityFacades
  import opened Planning
  import opened RiskNotifications

  /** Calendars.Get, which is not part of this model. */
  const CalendarsGet: (Calendars, ResourceId) -> Calendar

  /** The test of the loop: some available slot `x` of the resource's calendar has `timeSlot.Within(x)` false. */
  predicate HasSlotNotCovering(calendars: Calendars, resourceId: ResourceId, timeSlot: TimeSlot) {
    var slots := AvailableSlots(CalendarsGet(calendars, resourceId));
    exists i :: 0 <= i < |slots| && !Within(timeSlot, slots[i])
  }

  /**
   * The resources the loop flags: only requested ones, and never one whose calendar shows no
   * available slot at all, since Any over nothing is false.
   */
  function Flagged(calendars: Calendars, resourceIds: seq<ResourceId>, timeSlot: TimeSlot): (r: set<ResourceId>)
    ensures r <= Elements(resourceIds)
    ensures forall id :: id in resourceIds && HasSlotNotCovering(calendars, id, timeSlot) ==> id in r
    ensures forall id :: id in r ==> HasSlotNotCovering(calendars, id, timeSlot)
    ensures forall id :: AvailableSlots(CalendarsGet(calendars, id)) == [] ==> id !in r
  {
    set id | id in resourceIds && HasSlotNotCovering(calendars, id, timeSlot)
  }

  class VerifyNeededResourcesAvailableInTimeSlot {
    const availability: AvailabilityFacade
    const notifications: RiskPushNotification

    constructor (availability: AvailabilityFacade, notifications: RiskPushNotification)
      ensures this.availability == availability && this.notifications == notifications
    {
      this.availability := availability;
      this.notifications := notifications;
    }

    /** The resources NotifyAboutNotAvailableResources flags, with the calendars it loads. */
    function NotAvailable(resourceIds: seq<ResourceId>, timeSlot: TimeSlot): set<ResourceId>
      reads availability
    {
      Flagged(availability.LoadCalendars(Elements(resourceIds), timeSlot), resourceIds, timeSlot)
    }

    method Handle(resourcesNeeded: NeededResourcesChosen)
      modifies notifications
      ensures var flagged := NotAvailable(resourcesNeeded.neededResources, resourcesNeeded.timeSlot);
        notifications.sent == old(notifications.sent) +
          if flagged == {} then [] else [ResourcesNotAvailable(resourcesNeeded.projectId, flagged)]
    {
      NotifyAboutNotAvailableResources(resourcesNeeded.neededResources, resourcesNeeded.timeSlot,
                                       resourcesNeeded.projectId);
    }

    /** One warning carrying every flagged resource when there is one, nothing otherwise. */
    method NotifyAboutNotAvailableResources(resourceIds: HashSet<ResourceId>, timeSlot: TimeSlot, projectId: ProjectId)
      modifies notifications
      ensures var flagged := NotAvailable(resourceIds, timeSlot);
        notifications.sent == old(notifications.sent) +
          if flagged == {} then [] else [ResourcesNotAvailable(projectId, flagged)]
    {
      var notAvailable: set<ResourceId> := {};
      var calendars := availability.LoadCalendars(Elements(resourceIds), timeSlot);
      for i := 0 to |resourceIds|
        invariant notAvailable == Flagged(calendars, resourceIds[..i], timeSlot)
      {
        var slots := AvailableSlots(CalendarsGet(calendars, resourceIds[i]));
        var any := exists k :: 0 <= k < |slots| && !Within(timeSlot, slots[k]);
        if any {
          notAvailable := notAvailable + {resourceIds[i]};
        }
        assert resourceIds[..i + 1] == resourceIds[..i] + [resourceIds[i]];
      }
      assert resourceIds[..|resourceIds|] == resourceIds;
      if notAvailable != {} {
        notifications.NotifyAboutResourcesNotAvailable(projectId, notAvailable);
      }
    }
  }
}
