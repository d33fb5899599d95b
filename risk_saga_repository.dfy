/**
 * RiskPeriodicCheckSagaRepository.cs over an in-memory table of tracked sagas. A saga handed
 * out by a query is the stored entity itself, so a handler that changes it changes the table.
 */
module RiskSagaRepositories {
  import opened Wrappers
  import opened Collections
  import opened Shared
  import opened RiskSagas

  function SagaProjectId(s: RiskPeriodicCheckSaga): ProjectAllocationsId {
    s.projectId
  }

  /** The listed ids that no saga of `found` carries, in list order. */
  function MissingIds(interested: seq<ProjectAllocationsId>, found: seq<RiskPeriodicCheckSaga>)
    : seq<ProjectAllocationsId>
  {
    Filter(interested, (id: ProjectAllocationsId) => id !in Map(SagaProjectId, found))
  }

  /**
   * `r` is `existing`, the stored sagas of the listed projects, followed by one saga for each
   * listed id that none of them carries, in list order.
   */
  predicate CreatedFor(interested: seq<ProjectAllocationsId>, existing: seq<RiskPeriodicCheckSaga>,
                       r: seq<RiskPeriodicCheckSaga>)
  {
    var missing := MissingIds(interested, existing);
    |r| == |existing| + |missing| && r[..|existing|] == existing &&
    forall i :: |existing| <= i < |r| ==> r[i].projectId == missing[i - |existing|]
  }

  class RiskPeriodicCheckSagaRepository {
    /** The saga table in storage order. */
    var sagas: seq<RiskPeriodicCheckSaga>

    /** Every stored saga is a distinct entity. */
    ghost predicate Valid()
      reads this
    {
      NoDuplicates(sagas)
    }

    constructor ()
      ensures sagas == [] && Valid()
    {
      sagas := [];
    }

    /** FindByProjectId: SingleOrDefault over the table, so a second saga of the project throws. */
    function FindByProjectId(projectId: ProjectAllocationsId): (r: Result<Option<RiskPeriodicCheckSaga>>)
      reads this
      ensures r == Ok(None) <==> forall i :: 0 <= i < |sagas| ==> sagas[i].projectId != projectId
      ensures r.Ok? && r.value.Some? ==>
        exists i :: 0 <= i < |sagas| && sagas[i] == r.value.value && sagas[i].projectId == projectId &&
                    forall j :: 0 <= j < |sagas| && j != i ==> sagas[j].projectId != projectId
      ensures r.Err? <==>
        exists i, j :: 0 <= i < j < |sagas| && sagas[i].projectId == projectId && sagas[j].projectId == projectId
      ensures r.Err? ==> r.error == MoreThanOneElement
    {
      SingleOrDefault(sagas, (s: RiskPeriodicCheckSaga) => s.projectId == projectId)
    }

    /** FindByProjectIdIn: the stored sagas of the listed projects, in storage order. */
    function FindByProjectIdIn(interested: seq<ProjectAllocationsId>): (r: seq<RiskPeriodicCheckSaga>)
      reads this
      ensures IsSubsequence(r, sagas)
      ensures Elements(r) == set s | s in sagas && s.projectId in interested
    {
      Filter(sagas, (s: RiskPeriodicCheckSaga) => s.projectId in interested)
    }

    /** ToListAsync over the whole table: every stored saga, in storage order. */
    function FindAll(): (r: seq<RiskPeriodicCheckSaga>)
      reads this
      ensures r == sagas
    {
      sagas
    }

    /** Add: the saga is stored last and handed back. */
    method Add(saga: RiskPeriodicCheckSaga) returns (r: RiskPeriodicCheckSaga)
      modifies this
      ensures r == saga && sagas == old(sagas) + [saga]
      ensures old(Valid()) && saga !in old(sagas) ==> Valid()
    {
      sagas := sagas + [saga];
      r := saga;
    }

    /** FindByProjectIdOrCreate: the stored saga of the project, or a new one stored for it. */
    method FindByProjectIdOrCreate(projectId: ProjectAllocationsId) returns (r: Result<RiskPeriodicCheckSaga>)
      modifies this
      ensures match old(FindByProjectId(projectId))
        case Err(e) => r == Err(e) && sagas == old(sagas)
        case Ok(Some(s)) => r == Ok(s) && sagas == old(sagas)
        case Ok(None) =>
          r.Ok? && fresh(r.value) && r.value.state == InitialState(projectId) && sagas == old(sagas) + [r.value]
      ensures r.Ok? ==> r.value.projectId == projectId && r.value in sagas
      ensures old(Valid()) ==> Valid()
    {
      var found := FindByProjectId(projectId);
      if found.Err? {
        return Err(found.error);
      }
      if found.value.None? {
        var created := new RiskPeriodicCheckSaga(projectId);
        var added := Add(created);
        return Ok(added);
      }
      return Ok(found.value.value);
    }

    /**
     * FindByProjectIdInOrElseCreate: the stored sagas of the listed projects in storage order,
     * then one new saga, also stored, for each listed id with none, in list order.
     */
    method FindByProjectIdInOrElseCreate(interested: seq<ProjectAllocationsId>) returns (r: seq<RiskPeriodicCheckSaga>)
      modifies this
      ensures CreatedFor(interested, old(FindByProjectIdIn(interested)), r)
      ensures forall i :: |old(FindByProjectIdIn(interested))| <= i < |r| ==>
        fresh(r[i]) && r[i].state == InitialState(r[i].projectId)
      ensures sagas == old(sagas) + r[|old(FindByProjectIdIn(interested))|..]
      ensures forall i, t :: |old(FindByProjectIdIn(interested))| <= i < |r| && t in old(sagas) ==>
        t.projectId != r[i].projectId
      ensures forall id :: id in interested ==> exists s :: s in r && s.projectId == id
      ensures forall i :: 0 <= i < |r| ==> r[i].projectId in interested
      ensures old(Valid()) ==> Valid() && NoDuplicates(r)
    {
      var found := FindByProjectIdIn(interested);
      if Valid() {
        FilterNoDuplicates(sagas, (s: RiskPeriodicCheckSaga) => s.projectId in interested);
      }
      r := AddMissingSagas(interested, found);
      assert old(FindByProjectIdIn(interested)) == found;
      NewSagasCoverRequested(interested, found, r);
      NewSagasOnlyForMissing(interested, old(sagas), found, r);
      NewSagasAreListed(interested, old(sagas), found, r);
    }

    /** Stores a new saga for each listed id that no saga of `found` carries, and hands them back after `found`. */
    method AddMissingSagas(interested: seq<ProjectAllocationsId>, found: seq<RiskPeriodicCheckSaga>)
      returns (r: seq<RiskPeriodicCheckSaga>)
      modifies this
      ensures CreatedFor(interested, found, r)
      ensures forall i :: |found| <= i < |r| ==> fresh(r[i]) && r[i].state == InitialState(r[i].projectId)
      ensures sagas == old(sagas) + r[|found|..]
      ensures old(Valid()) ==> Valid()
      ensures NoDuplicates(found) ==> NoDuplicates(r)
    {
      var missingIds := MissingIds(interested, found);
      r := AddNewSagas(found, missingIds);
    }

    /** Stores one new saga per id, in order, and hands them back after `found`. */
    method AddNewSagas(found: seq<RiskPeriodicCheckSaga>, ids: seq<ProjectAllocationsId>) returns (r: seq<RiskPeriodicCheckSaga>)
      modifies this
      ensures |r| == |found| + |ids| && r[..|found|] == found
      ensures forall i :: |found| <= i < |r| ==>
        fresh(r[i]) && r[i].projectId == ids[i - |found|] && r[i].state == InitialState(ids[i - |found|])
      ensures sagas == old(sagas) + r[|found|..]
      ensures old(Valid()) ==> Valid()
      ensures NoDuplicates(found) ==> NoDuplicates(r)
    {
      var missing := NewSagas(ids);
      assert forall k :: 0 <= k < |missing| ==> missing[k] !in old(sagas);
      assert forall k :: 0 <= k < |missing| ==> missing[k] !in found;
      r := AddAll(found, missing);
      assert r[..|found|] == found && r[|found|..] == missing;
      assert forall k :: 0 <= k < |ids| ==> r[|found| + k] == missing[k];
      if NoDuplicates(found) {
        NoDuplicatesAppend(found, missing);
      }
    }

    /** One new saga per id, in order (the Select of FindByProjectIdInOrElseCreate). */
    static method NewSagas(ids: seq<ProjectAllocationsId>) returns (r: seq<RiskPeriodicCheckSaga>)
      ensures |r| == |ids| && NoDuplicates(r)
      ensures forall k :: 0 <= k < |ids| ==> fresh(r[k]) && r[k].projectId == ids[k] && r[k].state == InitialState(ids[k])
    {
      r := [];
      for i := 0 to |ids|
        invariant |r| == i && NoDuplicates(r)
        invariant forall k :: 0 <= k < i ==> fresh(r[k]) && r[k].projectId == ids[k] && r[k].state == InitialState(ids[k])
      {
        var created := new RiskPeriodicCheckSaga(ids[i]);
        r := r + [created];
      }
    }

    /** Adds each saga in turn, appending what Add hands back to `found`. */
    method AddAll(found: seq<RiskPeriodicCheckSaga>, missing: seq<RiskPeriodicCheckSaga>)
      returns (r: seq<RiskPeriodicCheckSaga>)
      modifies this
      ensures r == found + missing && sagas == old(sagas) + missing
      ensures old(Valid()) && NoDuplicates(missing) && (forall k :: 0 <= k < |missing| ==> missing[k] !in old(sagas))
        ==> Valid()
    {
      r := found;
      for j := 0 to |missing|
        invariant r == found + missing[..j]
        invariant sagas == old(sagas) + missing[..j]
      {
        var added := Add(missing[j]);
        r := r + [added];
        assert missing[..j + 1] == missing[..j] + [missing[j]];
      }
      assert missing[..|missing|] == missing;
      if old(Valid()) && NoDuplicates(missing) && (forall k :: 0 <= k < |missing| ==> missing[k] !in old(sagas)) {
        forall a, b | 0 <= a < b < |sagas| ensures sagas[a] != sagas[b] {
          if b >= |old(sagas)| && a < |old(sagas)| {
            assert sagas[b] == missing[b - |old(sagas)|];
          }
        }
      }
    }
  }

  /** Two duplicate-free sequences with no element in common concatenate to a duplicate-free one. */
  lemma NoDuplicatesAppend<T>(a: seq<T>, b: seq<T>)
    requires NoDuplicates(a) && NoDuplicates(b)
    requires forall k :: 0 <= k < |b| ==> b[k] !in a
    ensures NoDuplicates(a + b)
  {
    forall i, j | 0 <= i < j < |a + b| ensures (a + b)[i] != (a + b)[j] {
      if i < |a| && j >= |a| {
        assert (a + b)[j] == b[j - |a|];
      }
    }
  }

  /** Every listed id has a saga: a stored one when some stored saga carries it, a new one otherwise. */
  lemma NewSagasCoverRequested(interested: seq<ProjectAllocationsId>, found: seq<RiskPeriodicCheckSaga>,
                               r: seq<RiskPeriodicCheckSaga>)
    requires CreatedFor(interested, found, r)
    ensures forall id :: id in interested ==> exists s :: s in r && s.projectId == id
  {
    var missingIds := MissingIds(interested, found);
    forall id | id in interested ensures exists s :: s in r && s.projectId == id {
      var foundIds := Map(SagaProjectId, found);
      if id in foundIds {
        var k := IndexOf(foundIds, id);
        assert r[k] == found[k];
      } else {
        assert id in Elements(missingIds);
        var k := IndexOf(missingIds, id);
        assert r[|found| + k].projectId == id;
      }
    }
  }

  /** Every saga handed back, stored or new, is one of a listed project. */
  lemma NewSagasAreListed(interested: seq<ProjectAllocationsId>, stored: seq<RiskPeriodicCheckSaga>,
                          found: seq<RiskPeriodicCheckSaga>, r: seq<RiskPeriodicCheckSaga>)
    requires Elements(found) == set s | s in stored && s.projectId in interested
    requires CreatedFor(interested, found, r)
    ensures forall i :: 0 <= i < |r| ==> r[i].projectId in interested
  {
    var missingIds := MissingIds(interested, found);
    forall i | 0 <= i < |r| ensures r[i].projectId in interested {
      if i < |found| {
        assert r[i] == found[i] && found[i] in Elements(found);
      } else {
        assert r[i].projectId == missingIds[i - |found|];
        assert missingIds[i - |found|] in Elements(missingIds);
      }
    }
  }

  /** The sagas after the stored ones found for the listed ids carry ids that no stored saga carries. */
  lemma NewSagasOnlyForMissing(interested: seq<ProjectAllocationsId>, stored: seq<RiskPeriodicCheckSaga>,
                               found: seq<RiskPeriodicCheckSaga>, r: seq<RiskPeriodicCheckSaga>)
    requires Elements(found) == set s | s in stored && s.projectId in interested
    requires CreatedFor(interested, found, r)
    ensures forall i, t :: |found| <= i < |r| && t in stored ==> t.projectId != r[i].projectId
  {
    var foundIds := Map(SagaProjectId, found);
    var missingIds := MissingIds(interested, found);
    forall i, t | |found| <= i < |r| && t in stored
      ensures t.projectId != r[i].projectId
    {
      assert r[i].projectId == missingIds[i - |found|];
      assert r[i].projectId in Elements(missingIds);
      assert r[i].projectId !in foundIds;
      assert t in Elements(found) ==> t.projectId in foundIds by {
        if t in Elements(found) {
          assert foundIds[IndexOf(found, t)] == t.projectId;
        }
      }
    }
  }

  /** FindAll is the unfiltered query: asking for every stored saga's project gives all of it back. */
  lemma FindAllIsEveryProject(repository: RiskPeriodicCheckSagaRepository)
    ensures repository.FindByProjectIdIn(Map((s: RiskPeriodicCheckSaga) => s.projectId, repository.sagas)) ==
            repository.FindAll()
  {
    var ids := Map((s: RiskPeriodicCheckSaga) => s.projectId, repository.sagas);
    forall s | s in repository.sagas ensures s.projectId in ids {
      var i :| 0 <= i < |repository.sagas| && repository.sagas[i] == s;
      assert ids[i] == s.projectId;
    }
    FilterKeepsAll(repository.sagas, (s: RiskPeriodicCheckSaga) => s.projectId in ids);
  }
}
