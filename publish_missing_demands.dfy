/**
 * PublishMissingDemandsService.cs: once per run, the demands still missing in every project
 * whose slot contains the current instant, published as one NotSatisfiedDemands.
 */
module MissingDemandsPublishing {
  import opened Wrappers
  import opened Collections
  import opened Shared
  import opened ProjectAllocationsModel
  import opened ProjectAllocationsRepositories
  import opened Events

  function ProjectIdOf(p: ProjectAllocations): ProjectAllocationsId {
    p.projectId
  }

  /**
   * CreateHourlyDemandsSummaryService.Create: the missing demands of each project with a time
   * slot, keyed by project id, in project order; a project id repeated among them throws.
   */
  function Create(projects: seq<ProjectAllocations>, when: Instant): (r: Result<Event>)
    ensures r.Ok? <==> NoDuplicates(Map(ProjectIdOf, Filter(projects, HasTimeSlot)))
    ensures r.Ok? ==> r.value.NotSatisfiedDemands? && r.value.occurredAt == when && r.value.missingDemands.Valid()
    ensures r.Ok? ==> Elements(r.value.missingDemands.keys) == set p | p in projects && HasTimeSlot(p) :: p.projectId
    ensures r.Ok? ==> forall p :: p in projects && HasTimeSlot(p) ==>
      r.value.missingDemands.values[p.projectId] == MissingDemands(p)
    ensures r.Err? ==> r.error == DuplicateKey
  {
    var withSlot := Filter(projects, HasTimeSlot);
    KeysOfProjectsWithSlot(projects);
    match ToDictionary(withSlot, ProjectIdOf, MissingDemands)
    case Err(e) => Err(e)
    case Ok(missingDemands) =>
      Ok(NotSatisfiedDemands(missingDemands, when))
  }

  /** The projects kept by Create, and their ids, are exactly those with a time slot. */
  lemma KeysOfProjectsWithSlot(projects: seq<ProjectAllocations>)
    ensures forall p :: p in projects && HasTimeSlot(p) ==> p in Filter(projects, HasTimeSlot)
    ensures Elements(Map(ProjectIdOf, Filter(projects, HasTimeSlot))) == set p | p in projects && HasTimeSlot(p) :: p.projectId
  {
    var withSlot := Filter(projects, HasTimeSlot);
    MapElements(ProjectIdOf, withSlot);
    assert Elements(withSlot) == set p | p in projects && HasTimeSlot(p);
    forall p | p in projects && HasTimeSlot(p) ensures p in withSlot {
      assert p in Elements(withSlot);
    }
    var ids := set p | p in projects && HasTimeSlot(p) :: p.projectId;
    var mapped := Elements(Map(ProjectIdOf, withSlot));
    assert mapped == set p | p in withSlot :: ProjectIdOf(p);
    forall id | id in ids ensures id in mapped {
      var p :| p in projects && HasTimeSlot(p) && p.projectId == id;
      assert p in withSlot;
    }
    forall id | id in mapped ensures id in ids {
      var p :| p in withSlot && ProjectIdOf(p) == id;
      assert p in Elements(withSlot);
    }
  }

  class PublishMissingDemandsService {
    const repository: ProjectAllocationsRepository
    const events: EventsPublisher

    constructor (repository: ProjectAllocationsRepository, events: EventsPublisher)
      ensures this.repository == repository && this.events == events
    {
      this.repository := repository;
      this.events := events;
    }

    /**
     * One instant both selects the projects whose slot contains it and stamps the single event
     * published; a repeated project id publishes nothing.
     */
    method Publish(now: Instant) returns (r: Result<()>)
      modifies events
      ensures var summary := Create(repository.FindAllContainingDate(now), now);
        (summary.Ok? ==> r.Ok? && events.published == old(events.published) + [summary.value]) &&
        (summary.Err? ==> r == Err(summary.error) && events.published == old(events.published))
    {
      var when := now;
      var projectAllocations := repository.FindAllContainingDate(when);
      var missingDemands := Create(projectAllocations, when);
      if missingDemands.Err? {
        return Err(missingDemands.error);
      }
      events.Publish(missingDemands.value);
      r := Ok(());
    }
  }

  /** Every key of the published summary is a project whose slot contains the instant. */
  lemma SummaryOnlyOfRunningProjects(repository: ProjectAllocationsRepository, now: Instant)
    ensures var summary := Create(repository.FindAllContainingDate(now), now);
      summary.Ok? ==> forall id :: id in summary.value.missingDemands.values ==>
        exists p :: p in repository.rows && ContainsDate(p, now) && HasTimeSlot(p) && p.projectId == id
  {
    var running := repository.FindAllContainingDate(now);
    var summary := Create(running, now);
    if summary.Ok? {
      forall id | id in summary.value.missingDemands.values
        ensures exists p :: p in repository.rows && ContainsDate(p, now) && HasTimeSlot(p) && p.projectId == id
      {
        assert id in Elements(summary.value.missingDemands.keys);
        var p :| p in running && HasTimeSlot(p) && p.projectId == id;
        assert p in Elements(running);
      }
    }
  }
}
