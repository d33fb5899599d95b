/**
 * ProjectAllocationsRepository.cs over an in-memory table keyed by project id. Single and
 * SingleOrDefault keep their error cases; adding a second row for a stored project id fails
 * like the table's primary key.
 */
module ProjectAllocationsRepositories {
  import opened Wrappers
  import opened Collections
  import opened Shared
  import opened ProjectAllocationsModel

  /** The WHERE clause of FindAllContainingDate: the project's slot holds the instant, its end excluded. */
  predicate ContainsDate(p: ProjectAllocations, when: Instant) {
    TimeSlotOf(p.state).Some? && TimeSlotOf(p.state).value.from <= when < TimeSlotOf(p.state).value.to
  }

  predicate HasProjectId(p: ProjectAllocations, projectId: ProjectAllocationsId) {
    p.projectId == projectId
  }

  /** Update: the stored row of the aggregate's project becomes the aggregate; other rows stay. */
  function Replaced(rows: seq<ProjectAllocations>, p: ProjectAllocations): (r: seq<ProjectAllocations>)
    ensures |r| == |rows|
    ensures forall i :: 0 <= i < |rows| ==> r[i] == if rows[i].projectId == p.projectId then p else rows[i]
  {
    Map((q: ProjectAllocations) => if q.projectId == p.projectId then p else q, rows)
  }

  class ProjectAllocationsRepository {
    var rows: seq<ProjectAllocations>

    /** The primary key: no project id is stored twice. */
    predicate Valid()
      reads this
    {
      forall i, j :: 0 <= i < j < |rows| ==> rows[i].projectId != rows[j].projectId
    }

    constructor ()
      ensures rows == [] && Valid()
    {
      rows := [];
    }

    function FindAllContainingDate(when: Instant): (r: seq<ProjectAllocations>)
      reads this
      ensures Elements(r) == set p | p in rows && ContainsDate(p, when)
      ensures IsSubsequence(r, rows)
      ensures forall p :: p in rows ==> multiset(r)[p] == if ContainsDate(p, when) then multiset(rows)[p] else 0
    {
      var matches := (p: ProjectAllocations) => ContainsDate(p, when);
      FilterMultiset(rows, matches);
      Filter(rows, matches)
    }

    /** SingleOrDefault by project id. */
    function FindById(projectId: ProjectAllocationsId): (r: Result<Option<ProjectAllocations>>)
      reads this
      ensures r == Ok(None) <==> forall i :: 0 <= i < |rows| ==> rows[i].projectId != projectId
      ensures r.Ok? && r.value.Some? ==> r.value.value in rows && r.value.value.projectId == projectId
      ensures r.Err? ==> r.error == MoreThanOneElement && !Valid()
    {
      SingleOrDefault(rows, (p: ProjectAllocations) => HasProjectId(p, projectId))
    }

    /** Single by project id: an absent project and a repeated one are both errors. */
    function GetById(projectId: ProjectAllocationsId): (r: Result<ProjectAllocations>)
      reads this
      ensures r.Ok? ==> r.value in rows && r.value.projectId == projectId
      ensures r.Err? ==> r.error == if forall i :: 0 <= i < |rows| ==> rows[i].projectId != projectId
                                    then NoMatchingElement else MoreThanOneElement
      ensures Valid() ==> (r.Ok? <==> exists i :: 0 <= i < |rows| && rows[i].projectId == projectId)
    {
      match FindById(projectId)
      case Err(e) => Err(e)
      case Ok(None) => Err(NoMatchingElement)
      case Ok(Some(p)) => Ok(p)
    }

    function FindAllById(projectIds: set<ProjectAllocationsId>): (r: seq<ProjectAllocations>)
      reads this
      ensures Elements(r) == set p | p in rows && p.projectId in projectIds
      ensures IsSubsequence(r, rows)
      ensures forall p :: p in rows ==> multiset(r)[p] == if p.projectId in projectIds then multiset(rows)[p] else 0
    {
      var matches := (p: ProjectAllocations) => p.projectId in projectIds;
      FilterMultiset(rows, matches);
      Filter(rows, matches)
    }

    /** ToListAsync over the whole table: every stored row, in table order. */
    function FindAll(): (r: seq<ProjectAllocations>)
      reads this
      ensures r == rows
    {
      rows
    }

    /** Inserts the aggregate, unless its project id is already stored. */
    method Add(p: ProjectAllocations) returns (r: Result<()>)
      modifies this
      ensures r.Err? <==> exists q :: q in old(rows) && q.projectId == p.projectId
      ensures r.Ok? ==> rows == old(rows) + [p]
      ensures r.Err? ==> r.error == DuplicateKey && rows == old(rows)
      ensures old(Valid()) ==> Valid()
    {
      if exists q :: q in rows && q.projectId == p.projectId {
        r := Err(DuplicateKey);
      } else {
        rows := rows + [p];
        r := Ok(());
      }
    }

    method Update(p: ProjectAllocations)
      modifies this
      ensures rows == Replaced(old(rows), p)
      ensures old(Valid()) ==> Valid()
    {
      rows := Replaced(rows, p);
    }
  }

  /**
   * FindAll is the unfiltered query: every date query returns part of it, and asking by every
   * stored project id gives all of it back.
   */
  lemma FindAllHoldsEveryQuery(repository: ProjectAllocationsRepository, when: Instant)
    ensures IsSubsequence(repository.FindAllContainingDate(when), repository.FindAll())
    ensures repository.FindAllById(set p | p in repository.rows :: p.projectId) == repository.FindAll()
  {
    var ids := set p | p in repository.rows :: p.projectId;
    FilterKeepsAll(repository.rows, (p: ProjectAllocations) => p.projectId in ids);
  }
}
