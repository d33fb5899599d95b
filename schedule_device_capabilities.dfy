/**
 * ScheduleDeviceCapabilities.cs: a device offers all its assets at the same time. The device
 * repository is not part of this model: the assets of the loaded DeviceSummary are a parameter.
 */
module DeviceCapabilityScheduling {
  import opened Wrappers
  import opened Collections
  import opened Capabilities
  import opened Shared
  import opened AvailabilityFacades
  import opened AllocatableCapabilities
  import opened CapabilitySchedulers

  class ScheduleDeviceCapabilities {
    const scheduler: CapabilityScheduler

    constructor (scheduler: CapabilityScheduler)
      ensures this.scheduler == scheduler
    {
      this.scheduler := scheduler;
    }

    /**
     * Schedules the single selector CanPerformAllAtTheTime(assets) for the device's allocatable
     * resource over the slot; on success exactly one id comes back.
     */
    method SetupDeviceCapabilities(deviceId: DeviceId, assets: set<Capability>, slot: TimeSlot,
                                   newId: nat -> AllocatableCapabilityId)
      returns (r: Result<seq<AllocatableCapabilityId>>)
      modifies scheduler.repository, scheduler.availability`table
      ensures var offer := AllocatableCapability(newId(0), DeviceResourceId(deviceId), CanPerformAllAtTheTime(assets), slot);
        var clash := exists i :: 0 <= i < |old(scheduler.repository.rows)| && old(scheduler.repository.rows)[i].id == newId(0);
        var all := CreateAllSlots(old(scheduler.availability.table), [ToAvailabilityResourceId(newId(0))], slot);
        (r.Ok? <==> !clash && all.Ok?) &&
        (r.Ok? ==> r.value == [newId(0)] && scheduler.availability.table == all.value &&
                   scheduler.repository.rows == old(scheduler.repository.rows) + [offer]) &&
        (r.Err? ==> r.error == (if clash then DuplicateKey else all.error) &&
                    scheduler.repository.rows == old(scheduler.repository.rows) &&
                    scheduler.availability.table == old(scheduler.availability.table))
    {
      var selectors := [CanPerformAllAtTheTime(assets)];
      r := scheduler.ScheduleResourceCapabilitiesForPeriod(DeviceResourceId(deviceId), selectors, slot, newId);
      assert FreshIds(newId, 1) == [newId(0)];
      assert Map(ToAvailabilityResourceId, [newId(0)]) == [ToAvailabilityResourceId(newId(0))];
    }
  }
}
