/**
 * RiskPeriodicCheckSagaDispatcher.cs: feeds events to the risk sagas, then performs the step
 * each saga asks for. A step's side effects are notifications, pushed in order; a failure
 * (an unknown step, a failing lookup, a duplicate demand) stops them where it happens.
 *
 * The side effects are specified as an Outcome, computed from the saga's project id and missing
 * demands and from the state of the capability finder and the transfer service, which the
 * dispatcher only reads.
 */
module RiskDispatchers {
  import opened Wrappers
  import opened Collections
  import opened Shared
  import opened ProjectAllocationsModel
  import opened CapabilityFinders
  import opened PotentialTransfersServices
  import opened Events
  import opened RiskSagas
  import opened RiskSagaRepositories
  import opened RiskNotifications

  /** What running side effects does: the notifications pushed, and the error that stopped them, if any. */
  datatype Outcome = Outcome(sent: seq<Notification>, failure: Option<Error>)

  const NoEffect := Outcome([], None)

  function Pushed(n: Notification): Outcome {
    Outcome([n], None)
  }

  function Failed(e: Error): Outcome {
    Outcome([], Some(e))
  }

  /** Running `a`, then `b` unless `a` failed. */
  function Then(a: Outcome, b: Outcome): Outcome {
    if a.failure.Some? then a else Outcome(a.sent + b.sent, b.failure)
  }

  /** Running the effects in order, up to the first failure. */
  function Sequence(os: seq<Outcome>): Outcome {
    if os == [] then NoEffect else Then(Sequence(os[..|os| - 1]), os[|os| - 1])
  }

  /** The method's result: it throws the failure, if there was one. */
  function ToResult(o: Outcome): Result<()> {
    if o.failure.Some? then Err(o.failure.value) else Ok(())
  }

  function SentOf(o: Outcome): seq<Notification> {
    o.sent
  }

  /** Once the effects up to `k` have failed, the later ones never run. */
  lemma {:induction false} FailureStops(os: seq<Outcome>, k: nat)
    requires k <= |os| && Sequence(os[..k]).failure.Some?
    ensures Sequence(os) == Sequence(os[..k])
    decreases |os|
  {
    if k == |os| {
      assert os[..k] == os;
    } else {
      var init := os[..|os| - 1];
      assert init[..k] == os[..k];
      FailureStops(init, k);
    }
  }

  /**
   * The effects run through exactly when none of them fails, and then they push every
   * notification of every effect, in order.
   */
  lemma {:induction false} SequenceWithoutFailures(os: seq<Outcome>)
    ensures Sequence(os).failure.None? <==> forall i :: 0 <= i < |os| ==> os[i].failure.None?
    ensures Sequence(os).failure.None? ==> Sequence(os).sent == Flatten(Map(SentOf, os))
  {
    if os != [] {
      var init := os[..|os| - 1];
      var last := os[|os| - 1];
      SequenceWithoutFailures(init);
      assert os == init + [last];
      assert Map(SentOf, os) == Map(SentOf, init) + [last.sent];
      FlattenAppend(Map(SentOf, init), [last.sent]);
      assert Flatten([last.sent]) == last.sent + Flatten([last.sent][1..]);
      assert [last.sent][1..] == [];
      if Sequence(init).failure.Some? {
        var i :| 0 <= i < |init| && init[i].failure.Some?;
        assert os[i] == init[i];
      }
    }
  }

  /**
   * Exactly the first `n` effects ran: all of them, or those up to and including the first
   * that failed.
   */
  predicate Ran(os: seq<Outcome>, n: nat) {
    n <= |os| && (forall i :: 0 <= i < n - 1 ==> os[i].failure.None?) &&
    (n < |os| ==> 0 < n && os[n - 1].failure.Some?)
  }

  /** The effects that ran are all there is to the sequence. */
  lemma {:induction false} RanIsSequence(os: seq<Outcome>, n: nat)
    requires Ran(os, n)
    ensures Sequence(os) == Sequence(os[..n])
    ensures n < |os| ==> Sequence(os).failure.Some?
  {
    if n < |os| {
      var m := n - 1;
      assert forall i :: 0 <= i < m ==> os[..m][i] == os[i];
      SequenceWithoutFailures(os[..m]);
      assert Sequence(os[..m]).failure.None?;
      assert os[..n][..m] == os[..m] && os[..n][m] == os[m];
      assert Sequence(os[..n]) == Then(Sequence(os[..m]), os[m]);
      FailureStops(os, n);
    } else {
      assert os[..n] == os;
    }
  }

  /**
   * Step `i` of FindAvailableReplacementsFor and FindPossibleReplacements throws: its lookup
   * fails, or Dictionary.Add meets a demand an earlier step already added.
   */
  predicate FailsAt(demands: seq<Demand>, lookups: seq<Result<AllocatableCapabilitiesSummary>>, i: nat)
    requires |lookups| == |demands| && i < |demands|
  {
    lookups[i].Err? || demands[i] in demands[..i]
  }

  /** The first step from `from` on that throws. */
  function FirstFailure(demands: seq<Demand>, lookups: seq<Result<AllocatableCapabilitiesSummary>>, from: nat)
    : (r: Option<nat>)
    requires |lookups| == |demands| && from <= |demands|
    ensures r.None? <==> forall i :: from <= i < |demands| ==> !FailsAt(demands, lookups, i)
    ensures r.Some? ==> from <= r.value < |demands| && FailsAt(demands, lookups, r.value)
    ensures r.Some? ==> forall i :: from <= i < r.value ==> !FailsAt(demands, lookups, i)
    decreases |demands| - from
  {
    if from == |demands| then None
    else if FailsAt(demands, lookups, from) then Some(from)
    else FirstFailure(demands, lookups, from + 1)
  }

  /** When no step throws, every lookup succeeds and every demand is new when it is reached. */
  lemma NoStepFails(demands: seq<Demand>, lookups: seq<Result<AllocatableCapabilitiesSummary>>)
    requires |lookups| == |demands| && forall i :: 0 <= i < |demands| ==> !FailsAt(demands, lookups, i)
    ensures forall i :: 0 <= i < |demands| ==> lookups[i].Ok? && demands[i] !in demands[..i]
  {
    forall i | 0 <= i < |demands| ensures lookups[i].Ok? && demands[i] !in demands[..i] {
      assert !FailsAt(demands, lookups, i);
    }
  }

  /** Steps that add distinct demands with successful lookups do not throw. */
  lemma PrefixDoesNotFail(demands: seq<Demand>, lookups: seq<Result<AllocatableCapabilitiesSummary>>, i: nat)
    requires |lookups| == |demands| && i <= |demands|
    requires NoDuplicates(demands[..i]) && forall k :: 0 <= k < i ==> lookups[k].Ok?
    ensures forall k :: 0 <= k < i ==> !FailsAt(demands, lookups, k)
  {
    NoDuplicatesByPrefix(demands[..i]);
    forall k | 0 <= k < i ensures !FailsAt(demands, lookups, k) {
      assert demands[..i][..k] == demands[..k];
      assert demands[..i][k] == demands[k];
    }
  }

  /** The step that throws first is the first step that throws. */
  lemma FirstFailureAt(demands: seq<Demand>, lookups: seq<Result<AllocatableCapabilitiesSummary>>, i: nat)
    requires |lookups| == |demands| && i < |demands| && FailsAt(demands, lookups, i)
    requires forall k :: 0 <= k < i ==> !FailsAt(demands, lookups, k)
    ensures FirstFailure(demands, lookups, 0) == Some(i)
  {
  }

  /** The summary stored for each demand: that of the demand's (first) step. */
  function SummariesOf(demands: seq<Demand>, lookups: seq<Result<AllocatableCapabilitiesSummary>>)
    : (r: map<Demand, AllocatableCapabilitiesSummary>)
    requires |lookups| == |demands| && forall i :: 0 <= i < |demands| ==> lookups[i].Ok?
    ensures r.Keys == Elements(demands)
  {
    map d | d in Elements(demands) :: lookups[IndexOf(demands, d)].value
  }

  /**
   * The dictionary FindAvailableReplacementsFor and FindPossibleReplacements build from the
   * demands and their lookups, or the exception of the first step that throws.
   */
  function ReplacementsFrom(demands: seq<Demand>, lookups: seq<Result<AllocatableCapabilitiesSummary>>)
    : (r: Result<Dict<Demand, AllocatableCapabilitiesSummary>>)
    requires |lookups| == |demands|
  {
    match FirstFailure(demands, lookups, 0)
    case Some(i) => Err(if lookups[i].Err? then lookups[i].error else DuplicateKey)
    case None =>
      NoStepFails(demands, lookups);
      Ok(Dict(demands, SummariesOf(demands, lookups)))
  }

  /** No step throws exactly when every demand is new when it is reached. */
  lemma NoDuplicatesByPrefix<T>(s: seq<T>)
    ensures NoDuplicates(s) <==> forall i :: 0 <= i < |s| ==> s[i] !in s[..i]
  {
    if !NoDuplicates(s) {
      var i, j :| 0 <= i < j < |s| && s[i] == s[j];
      assert s[..j][i] == s[j];
    }
    if exists i :: 0 <= i < |s| && s[i] in s[..i] {
      var j :| 0 <= j < |s| && s[j] in s[..j];
      var i :| 0 <= i < j && s[..j][i] == s[j];
    }
  }

  /**
   * The loop gets through exactly when no demand repeats and every lookup succeeds; the
   * dictionary then holds the demands in order, each with its own lookup's summary.
   */
  lemma ReplacementsOk(demands: seq<Demand>, lookups: seq<Result<AllocatableCapabilitiesSummary>>)
    requires |lookups| == |demands|
    ensures ReplacementsFrom(demands, lookups).Ok? <==>
      NoDuplicates(demands) && forall i :: 0 <= i < |demands| ==> lookups[i].Ok?
    ensures ReplacementsFrom(demands, lookups).Ok? ==>
      var d := ReplacementsFrom(demands, lookups).value;
      d.Valid() && d.keys == demands &&
      forall i :: 0 <= i < |demands| ==> d.values[demands[i]] == lookups[i].value
  {
    NoDuplicatesByPrefix(demands);
    var first := FirstFailure(demands, lookups, 0);
    if first.Some? {
      var i := first.value;
      assert FailsAt(demands, lookups, i);
    } else {
      NoStepFails(demands, lookups);
    }
    if ReplacementsFrom(demands, lookups).Ok? {
      forall i | 0 <= i < |demands| ensures IndexOf(demands, demands[i]) == i {
        var k := IndexOf(demands, demands[i]);
      }
    }
  }

  /** A failed loop fails with DuplicateKey or with the failure of one of the lookups. */
  lemma ReplacementsErrors(demands: seq<Demand>, lookups: seq<Result<AllocatableCapabilitiesSummary>>)
    requires |lookups| == |demands| && ReplacementsFrom(demands, lookups).Err?
    ensures var e := ReplacementsFrom(demands, lookups).error;
      e == DuplicateKey || exists i :: 0 <= i < |demands| && lookups[i] == Err(e)
  {
  }

  /** After `i` steps that did not throw, the dictionary so far is the whole loop's, when no later step throws. */
  lemma ReplacementsOfCompleteLoop(demands: seq<Demand>, lookups: seq<Result<AllocatableCapabilitiesSummary>>,
                                   d: Dict<Demand, AllocatableCapabilitiesSummary>)
    requires |lookups| == |demands| && Replaced(demands, lookups, |demands|, d)
    ensures ReplacementsFrom(demands, lookups) == Ok(d)
  {
    assert demands[..|demands|] == demands;
    PrefixDoesNotFail(demands, lookups, |demands|);
    NoStepFails(demands, lookups);
    var m := SummariesOf(demands, lookups);
    forall k | k in m ensures k in d.values && d.values[k] == m[k] {
      var i := IndexOf(demands, k);
    }
    assert d.values == m;
  }

  /** The loop's dictionary after `i` steps that did not throw. */
  ghost predicate Replaced(demands: seq<Demand>, lookups: seq<Result<AllocatableCapabilitiesSummary>>, i: nat,
                           d: Dict<Demand, AllocatableCapabilitiesSummary>)
    requires |lookups| == |demands|
  {
    i <= |demands| && d.Valid() && d.keys == demands[..i] &&
    forall k :: 0 <= k < i ==> lookups[k].Ok? && d.values[demands[k]] == lookups[k].value
  }

  /** A step that does not throw adds its demand and summary. */
  lemma ReplacedExtend(demands: seq<Demand>, lookups: seq<Result<AllocatableCapabilitiesSummary>>, i: nat,
                       d: Dict<Demand, AllocatableCapabilitiesSummary>)
    requires |lookups| == |demands| && Replaced(demands, lookups, i, d) && i < |demands|
    requires lookups[i].Ok? && demands[i] !in d.values
    ensures Replaced(demands, lookups, i + 1, d.Put(demands[i], lookups[i].value))
  {
    assert demands[..i + 1] == demands[..i] + [demands[i]];
  }

  /** A step that throws ends the loop with its exception. */
  lemma ReplacedFails(demands: seq<Demand>, lookups: seq<Result<AllocatableCapabilitiesSummary>>, i: nat,
                      d: Dict<Demand, AllocatableCapabilitiesSummary>)
    requires |lookups| == |demands| && Replaced(demands, lookups, i, d) && i < |demands|
    requires lookups[i].Err? || demands[i] in d.values
    ensures ReplacementsFrom(demands, lookups) == Err(if lookups[i].Err? then lookups[i].error else DuplicateKey)
  {
    assert demands[i] in d.values ==> demands[i] in demands[..i] by {
      assert Elements(d.keys) == d.values.Keys;
    }
    PrefixDoesNotFail(demands, lookups, i);
    FirstFailureAt(demands, lookups, i);
  }

  /** The summaries of each key, key by key. */
  function CandidateLists(d: Dict<Demand, AllocatableCapabilitiesSummary>): (r: seq<seq<AllocatableCapabilitySummary>>)
    ensures |r| == |d.keys|
    ensures forall i :: 0 <= i < |d.keys| && d.keys[i] in d.values ==> r[i] == d.values[d.keys[i]].all
  {
    seq(|d.keys|, i requires 0 <= i < |d.keys| => if d.keys[i] in d.values then d.values[d.keys[i]].all else [])
  }

  /** Every replacement in the dictionary, in key order (Values.SelectMany(x => x.All)). */
  function Candidates(d: Dict<Demand, AllocatableCapabilitiesSummary>): seq<AllocatableCapabilitySummary> {
    Flatten(CandidateLists(d))
  }

  /** There is a replacement at all exactly when some demand has one. */
  lemma CandidatesEmpty(d: Dict<Demand, AllocatableCapabilitiesSummary>)
    requires d.Valid()
    ensures Candidates(d) == [] <==> forall k :: k in d.values ==> d.values[k].all == []
  {
    var lists := CandidateLists(d);
    if Candidates(d) != [] {
      FlattenMember(lists, Candidates(d)[0]);
    }
    forall k | k in d.values && d.values[k].all != [] ensures Candidates(d) != [] {
      assert k in Elements(d.keys);
      var i :| 0 <= i < |d.keys| && d.keys[i] == k;
      FlattenMember(lists, d.values[k].all[0]);
    }
  }

  /** The first `i + 1` keys' replacements: the first `i` keys', then key `i`'s. */
  lemma CandidatesUpToKey(d: Dict<Demand, AllocatableCapabilitiesSummary>, i: nat)
    requires d.Valid() && i < |d.keys|
    ensures d.keys[i] in d.values
    ensures Flatten(CandidateLists(d)[..i + 1]) == Flatten(CandidateLists(d)[..i]) + d.values[d.keys[i]].all
  {
    var lists := CandidateLists(d);
    assert d.keys[i] in Elements(d.keys);
    assert lists[..i + 1] == lists[..i] + [lists[i]];
    FlattenAppend(lists[..i], [lists[i]]);
    assert Flatten([lists[i]]) == lists[i] + Flatten([lists[i]][1..]);
    assert [lists[i]][1..] == [];
  }

  /** Key `i`'s replacements sit in Candidates right after those of the keys before it. */
  lemma CandidatesOfKey(d: Dict<Demand, AllocatableCapabilitiesSummary>, i: nat)
    requires d.Valid() && i < |d.keys|
    ensures d.keys[i] in d.values
    ensures var before := |Flatten(CandidateLists(d)[..i])|;
      before + |d.values[d.keys[i]].all| <= |Candidates(d)| &&
      forall j :: 0 <= j < |d.values[d.keys[i]].all| ==> Candidates(d)[before + j] == d.values[d.keys[i]].all[j]
  {
    var lists := CandidateLists(d);
    assert d.keys[i] in Elements(d.keys);
    FlattenAt(lists, i);
  }

  /** One replacement of SuggestReplacement: a notification if moving it is strictly profitable. */
  function RelocationStep(projectId: ProjectAllocationsId, replacement: AllocatableCapabilitySummary,
                          profit: Result<real>): Outcome
  {
    match profit
    case Err(e) => Failed(e)
    case Ok(p) => if p > 0.0 then Pushed(ProfitableRelocationFound(projectId, replacement.id)) else NoEffect
  }

  /** The replacements in order, each with the profit of moving it. */
  function RelocationSteps(projectId: ProjectAllocationsId, replacements: seq<AllocatableCapabilitySummary>,
                           profits: seq<Result<real>>): Outcome
    requires |profits| == |replacements|
    decreases |replacements|
  {
    if replacements == [] then NoEffect
    else
      var n := |replacements| - 1;
      Then(RelocationSteps(projectId, replacements[..n], profits[..n]), RelocationStep(projectId, replacements[n], profits[n]))
  }

  /** The steps up to `k + 1` are the steps up to `k`, then step `k`. */
  lemma RelocationStepsExtend(projectId: ProjectAllocationsId, replacements: seq<AllocatableCapabilitySummary>,
                              profits: seq<Result<real>>, k: nat)
    requires |profits| == |replacements| && k < |replacements|
    ensures RelocationSteps(projectId, replacements[..k + 1], profits[..k + 1]) ==
      Then(RelocationSteps(projectId, replacements[..k], profits[..k]), RelocationStep(projectId, replacements[k], profits[k]))
  {
    assert replacements[..k + 1][..k] == replacements[..k];
    assert profits[..k + 1][..k] == profits[..k];
  }

  /** Once a relocation step has failed, the later ones never run. */
  lemma {:induction false} RelocationPrefixFails(projectId: ProjectAllocationsId, replacements: seq<AllocatableCapabilitySummary>,
                                                 profits: seq<Result<real>>, k: nat)
    requires |profits| == |replacements| && k <= |replacements|
    requires RelocationSteps(projectId, replacements[..k], profits[..k]).failure.Some?
    ensures RelocationSteps(projectId, replacements, profits) == RelocationSteps(projectId, replacements[..k], profits[..k])
    decreases |replacements|
  {
    if k == |replacements| {
      assert replacements[..k] == replacements && profits[..k] == profits;
    } else {
      var n := |replacements| - 1;
      assert replacements[..n][..k] == replacements[..k] && profits[..n][..k] == profits[..k];
      RelocationPrefixFails(projectId, replacements[..n], profits[..n], k);
    }
  }

  /**
   * When every profit is known, SuggestReplacement notifies once for each replacement whose
   * move is strictly profitable, naming it, and for no other.
   */
  lemma {:induction false} RelocationsNotifyProfitable(projectId: ProjectAllocationsId,
                                                       replacements: seq<AllocatableCapabilitySummary>, profits: seq<Result<real>>)
    requires |profits| == |replacements| && forall i :: 0 <= i < |profits| ==> profits[i].Ok?
    ensures RelocationSteps(projectId, replacements, profits).failure.None?
    ensures |RelocationSteps(projectId, replacements, profits).sent| <= |replacements|
    ensures forall m :: m in RelocationSteps(projectId, replacements, profits).sent <==>
      exists i :: 0 <= i < |replacements| && profits[i].value > 0.0 && m == ProfitableRelocationFound(projectId, replacements[i].id)
    decreases |replacements|
  {
    if replacements != [] {
      var n := |replacements| - 1;
      var init := replacements[..n];
      assert forall i :: 0 <= i < n ==> init[i] == replacements[i] && profits[..n][i] == profits[i];
      RelocationsNotifyProfitable(projectId, init, profits[..n]);
    }
  }

  /** A failing profit stops SuggestReplacement with that failure. */
  lemma RelocationsFailWithProfit(projectId: ProjectAllocationsId, replacements: seq<AllocatableCapabilitySummary>,
                                  profits: seq<Result<real>>, k: nat)
    requires |profits| == |replacements| && k < |replacements| && profits[k].Err?
    requires forall i :: 0 <= i < k ==> profits[i].Ok?
    ensures RelocationSteps(projectId, replacements, profits).failure == Some(profits[k].error)
  {
    RelocationsNotifyProfitable(projectId, replacements[..k], profits[..k]);
    RelocationStepsExtend(projectId, replacements, profits, k);
    RelocationPrefixFails(projectId, replacements, profits, k + 1);
  }

  /** What the dispatcher did with one saga: the step the saga asked for, and its state afterwards. */
  datatype Reaction = Reaction(step: Option<Step>, projectId: ProjectAllocationsId, state: SagaState)

  /** The weekly check of a saga at `now`: its step, which is never null, and its new state. */
  function WeeklyReaction(projectId: ProjectAllocationsId, prior: SagaState, now: Instant): Reaction {
    Reaction(Some(HandleWeeklyCheckIn(prior, now).0), projectId, HandleWeeklyCheckIn(prior, now).1)
  }

  /** The weekly check of each saga, the `i`th at the clock's `i`th reading. */
  function WeeklyReactions(sagas: seq<RiskPeriodicCheckSaga>, priors: seq<SagaState>, readings: nat -> Instant)
    : (r: seq<Reaction>)
    requires |priors| == |sagas|
    ensures |r| == |sagas|
    ensures forall i :: 0 <= i < |sagas| ==> r[i] == WeeklyReaction(sagas[i].projectId, priors[i], readings(i))
  {
    seq(|sagas|, i requires 0 <= i < |sagas| => WeeklyReaction(sagas[i].projectId, priors[i], readings(i)))
  }

  function EventReactions(sagas: seq<RiskPeriodicCheckSaga>, priors: seq<SagaState>, e: Event): (r: seq<Reaction>)
    requires |priors| == |sagas|
    ensures |r| == |sagas|
    ensures forall i :: 0 <= i < |sagas| ==>
      r[i] == Reaction(HandleEventIn(priors[i], e).0, sagas[i].projectId, HandleEventIn(priors[i], e).1)
  {
    seq(|sagas|, i requires 0 <= i < |sagas| =>
      Reaction(HandleEventIn(priors[i], e).0, sagas[i].projectId, HandleEventIn(priors[i], e).1))
  }

  /** Each saga receives the missing demands listed under its own project id. */
  function MissingDemandsReactions(sagas: seq<RiskPeriodicCheckSaga>, priors: seq<SagaState>,
                                   missing: Dict<ProjectAllocationsId, Demands>): (r: seq<Reaction>)
    requires |priors| == |sagas|
    requires forall i :: 0 <= i < |sagas| ==> sagas[i].projectId in missing.values
    ensures |r| == |sagas|
    ensures forall i :: 0 <= i < |sagas| ==>
      var next := HandleMissingDemandsIn(priors[i], missing.values[sagas[i].projectId]);
      r[i] == Reaction(next.0, sagas[i].projectId, next.1)
  {
    seq(|sagas|, i requires 0 <= i < |sagas| =>
      var next := HandleMissingDemandsIn(priors[i], missing.values[sagas[i].projectId]);
      Reaction(next.0, sagas[i].projectId, next.1))
  }

  /**
   * The sagas FindByProjectIdInOrElseCreate hands back for the listed projects, with the states
   * they had then: the stored sagas `existing`, then a new saga for each listed project without one.
   */
  predicate SagasFor(interested: seq<ProjectAllocationsId>, existing: seq<RiskPeriodicCheckSaga>,
                     sagas: seq<RiskPeriodicCheckSaga>, priors: seq<SagaState>)
  {
    CreatedFor(interested, existing, sagas) && |priors| == |sagas| &&
    forall i :: |existing| <= i < |sagas| ==> priors[i] == InitialState(sagas[i].projectId)
  }

  function StatesOf(sagas: seq<RiskPeriodicCheckSaga>): (r: seq<SagaState>)
    reads sagas
    ensures |r| == |sagas| && forall i :: 0 <= i < |sagas| ==> r[i] == sagas[i].state
  {
    seq(|sagas|, i reads sagas requires 0 <= i < |sagas| => sagas[i].state)
  }

  /** The project ids of the previous owners, when every owner has an id. */
  function OwnerProjects(owners: set<Owner>): set<ProjectAllocationsId> {
    set o | o in owners && OwnerIdOf(o).Some? :: ProjectAllocationsId(OwnerIdOf(o).value)
  }

  /**
   * The project ids of the previous owners, in the set's enumeration order; an owner without an
   * id makes the `Value` of its null id throw.
   */
  method OwnerProjectList(owners: set<Owner>) returns (r: Result<seq<ProjectAllocationsId>>)
    ensures r.Err? <==> exists o :: o in owners && OwnerIdOf(o).None?
    ensures r.Err? ==> r.error == NullReference
    ensures r.Ok? ==> Elements(r.value) == OwnerProjects(owners)
  {
    var rest := owners;
    var ids := [];
    while rest != {}
      invariant rest <= owners
      invariant forall o :: o in owners - rest ==> OwnerIdOf(o).Some?
      invariant Elements(ids) == OwnerProjects(owners - rest)
      decreases rest
    {
      var o :| o in rest;
      if OwnerIdOf(o).None? {
        return Err(NullReference);
      }
      ghost var done := owners - rest;
      ids := ids + [ProjectAllocationsId(OwnerIdOf(o).value)];
      rest := rest - {o};
      assert owners - rest == done + {o};
      assert Elements(ids) == Elements(ids[..|ids| - 1]) + {ProjectAllocationsId(OwnerIdOf(o).value)};
    }
    assert owners - rest == owners;
    return Ok(ids);
  }

  /** The sagas found or created for the projects with missing demands: the found ones come first and were stored. */
  lemma FoundSagasOfMissingDemands(missing: Dict<ProjectAllocationsId, Demands>, before: seq<RiskPeriodicCheckSaga>,
                                   existing: seq<RiskPeriodicCheckSaga>, sagas: seq<RiskPeriodicCheckSaga>)
    requires missing.Valid() && CreatedFor(missing.keys, existing, sagas)
    requires Elements(existing) == set s | s in before && s.projectId in missing.keys
    requires forall i :: 0 <= i < |sagas| ==> sagas[i].projectId in missing.keys
    ensures forall i :: 0 <= i < |sagas| ==> sagas[i].projectId in missing.values
    ensures forall i :: 0 <= i < |existing| ==> sagas[i] == existing[i] && sagas[i] in before
  {
    forall i | 0 <= i < |sagas| ensures sagas[i].projectId in missing.values {
      assert sagas[i].projectId in Elements(missing.keys);
    }
    forall i | 0 <= i < |existing| ensures sagas[i] == existing[i] && sagas[i] in before {
      assert sagas[..|existing|][i] == sagas[i];
      assert existing[i] in Elements(existing);
    }
  }

  class RiskPeriodicCheckSagaDispatcher {
    const repository: RiskPeriodicCheckSagaRepository
    const transfers: PotentialTransfersService
    const finder: CapabilityFinder
    const notifications: RiskPushNotification

    constructor (repository: RiskPeriodicCheckSagaRepository, transfers: PotentialTransfersService,
                 finder: CapabilityFinder, notifications: RiskPushNotification)
      ensures this.repository == repository && this.transfers == transfers
      ensures this.finder == finder && this.notifications == notifications
    {
      this.repository := repository;
      this.transfers := transfers;
      this.finder := finder;
      this.notifications := notifications;
    }

    /** Everything the side effects read: the finder's tables, the allocations and the cash flows. */
    ghost function Context(): set<object>
      reads transfers.cashFlow
    {
      {finder.repository, finder.availability, transfers.projects, transfers.cashFlow} + Elements(transfers.cashFlow.cashflows)
    }

    function AvailableLookups(demands: seq<Demand>): (r: seq<Result<AllocatableCapabilitiesSummary>>)
      reads finder.repository, finder.availability
      ensures |r| == |demands|
      ensures forall i {:trigger finder.FindAvailableCapabilities(demands[i].capability, demands[i].slot)} ::
        0 <= i < |demands| ==> r[i] == finder.FindAvailableCapabilities(demands[i].capability, demands[i].slot)
    {
      seq(|demands|, i reads finder.repository, finder.availability requires 0 <= i < |demands| =>
        finder.FindAvailableCapabilities(demands[i].capability, demands[i].slot))
    }

    function PossibleLookups(demands: seq<Demand>): (r: seq<Result<AllocatableCapabilitiesSummary>>)
      reads finder.repository
      ensures |r| == |demands|
      ensures forall i {:trigger finder.FindCapabilities(demands[i].capability, demands[i].slot)} ::
        0 <= i < |demands| ==> r[i] == Ok(finder.FindCapabilities(demands[i].capability, demands[i].slot))
    {
      seq(|demands|, i reads finder.repository requires 0 <= i < |demands| =>
        Ok(finder.FindCapabilities(demands[i].capability, demands[i].slot)))
    }

    /**
     * `lookups` lists what the finder answers for each demand. Each answer is looked at only
     * where the finder is asked, which keeps the proofs about the loops small.
     */
    ghost predicate AvailableLookupsAre(demands: seq<Demand>, lookups: seq<Result<AllocatableCapabilitiesSummary>>)
      reads finder.repository, finder.availability
    {
      |lookups| == |demands| &&
      forall i {:trigger finder.FindAvailableCapabilities(demands[i].capability, demands[i].slot)} ::
        0 <= i < |demands| ==> lookups[i] == finder.FindAvailableCapabilities(demands[i].capability, demands[i].slot)
    }

    ghost predicate PossibleLookupsAre(demands: seq<Demand>, lookups: seq<Result<AllocatableCapabilitiesSummary>>)
      reads finder.repository
    {
      |lookups| == |demands| &&
      forall i {:trigger finder.FindCapabilities(demands[i].capability, demands[i].slot)} ::
        0 <= i < |demands| ==> lookups[i] == Ok(finder.FindCapabilities(demands[i].capability, demands[i].slot))
    }

    /** FindAvailable: one availability notification with the replacements, if there is any replacement. */
    function AvailabilityOutcome(projectId: ProjectAllocationsId, missing: Demands): Outcome
      reads finder.repository, finder.availability
    {
      match ReplacementsFrom(missing.all, AvailableLookups(missing.all))
      case Err(e) => Failed(e)
      case Ok(replacements) =>
        if Candidates(replacements) != [] then Pushed(Availability(projectId, replacements)) else NoEffect
    }

    /** The profit of moving each replacement to the project, in the current state. */
    function Profits(projectId: ProjectAllocationsId, replacements: seq<AllocatableCapabilitySummary>): (r: seq<Result<real>>)
      reads transfers.projects, transfers.cashFlow, transfers.cashFlow.cashflows
      ensures |r| == |replacements|
    {
      seq(|replacements|, i reads transfers.projects, transfers.cashFlow, transfers.cashFlow.cashflows
                             requires 0 <= i < |replacements| =>
        transfers.ProfitOfMoving(projectId, replacements[i], replacements[i].timeSlot))
    }

    /**
     * `profits` lists the profit of moving each replacement. Each profit is looked at only where
     * the profit of that replacement is computed, which keeps the proofs about SuggestReplacement small.
     */
    ghost predicate ProfitsAre(projectId: ProjectAllocationsId, replacements: seq<AllocatableCapabilitySummary>,
                               profits: seq<Result<real>>)
      reads transfers.projects, transfers.cashFlow, transfers.cashFlow.cashflows
    {
      |profits| == |replacements| &&
      forall i {:trigger transfers.ProfitOfMoving(projectId, replacements[i], replacements[i].timeSlot)} ::
        0 <= i < |replacements| ==> profits[i] == transfers.ProfitOfMoving(projectId, replacements[i], replacements[i].timeSlot)
    }

    lemma ProfitsAreProfits(projectId: ProjectAllocationsId, replacements: seq<AllocatableCapabilitySummary>,
                            profits: seq<Result<real>>)
      ensures ProfitsAre(projectId, replacements, profits) <==> profits == Profits(projectId, replacements)
    {
      var expected := Profits(projectId, replacements);
      if ProfitsAre(projectId, replacements, profits) {
        forall i | 0 <= i < |replacements| ensures profits[i] == expected[i] {
          assert expected[i] == transfers.ProfitOfMoving(projectId, replacements[i], replacements[i].timeSlot);
        }
      }
    }

    /** SuggestReplacement once the possible replacements are known and the profits of moving them. */
    lemma RelocationOutcomeIs(projectId: ProjectAllocationsId, missing: Demands, d: Dict<Demand, AllocatableCapabilitiesSummary>,
                              profits: seq<Result<real>>)
      requires ReplacementsFrom(missing.all, PossibleLookups(missing.all)) == Ok(d)
      requires ProfitsAre(projectId, Candidates(d), profits)
      ensures RelocationOutcome(projectId, missing) == RelocationSteps(projectId, Candidates(d), profits)
    {
      ProfitsAreProfits(projectId, Candidates(d), profits);
    }

    /** The profits of moving each replacement, as ProfitsAre describes them. */
    lemma ProfitsNow(projectId: ProjectAllocationsId, replacements: seq<AllocatableCapabilitySummary>)
      returns (profits: seq<Result<real>>)
      ensures ProfitsAre(projectId, replacements, profits)
    {
      profits := Profits(projectId, replacements);
      ProfitsAreProfits(projectId, replacements, profits);
    }

    /** SuggestReplacement: the relocation steps of every structurally matching replacement, in order. */
    function RelocationOutcome(projectId: ProjectAllocationsId, missing: Demands): Outcome
      reads finder.repository, transfers.projects, transfers.cashFlow, transfers.cashFlow.cashflows
    {
      match ReplacementsFrom(missing.all, PossibleLookups(missing.all))
      case Err(e) => Failed(e)
      case Ok(replacements) =>
        var all := Candidates(replacements);
        RelocationSteps(projectId, all, Profits(projectId, all))
    }

    /** Perform: exactly one action per step; a null step is the switch's default and throws. */
    function PerformOutcome(step: Option<Step>, projectId: ProjectAllocationsId, missing: Demands): Outcome
      reads Context()
    {
      match step
      case None => Failed(UnknownStep)
      case Some(NotifyAboutDemandsSatisfied) => Pushed(DemandsSatisfied(projectId))
      case Some(FindAvailable) => AvailabilityOutcome(projectId, missing)
      case Some(DoNothing) => NoEffect
      case Some(SuggestReplacement) => RelocationOutcome(projectId, missing)
      case Some(NotifyAboutPossibleRisk) => Pushed(PossibleRisk(projectId))
    }

    function ReactionOutcome(x: Reaction): Outcome
      reads Context()
    {
      PerformOutcome(x.step, x.projectId, SagaMissingDemands(x.state))
    }

    function Outcomes(xs: seq<Reaction>): (r: seq<Outcome>)
      reads Context()
      ensures |r| == |xs| && forall i :: 0 <= i < |xs| ==> r[i] == ReactionOutcome(xs[i])
    {
      seq(|xs|, i reads Context() requires 0 <= i < |xs| => ReactionOutcome(xs[i]))
    }

    /**
     * `os` lists the outcome of each reaction. Each outcome is looked at only where the step of
     * that reaction is performed, which keeps the proofs about the loops over sagas small.
     */
    ghost predicate OutcomesAre(xs: seq<Reaction>, os: seq<Outcome>)
      reads Context()
    {
      |os| == |xs| && forall i {:trigger ReactionOutcome(xs[i])} :: 0 <= i < |xs| ==> os[i] == ReactionOutcome(xs[i])
    }

    lemma OutcomesAreOutcomes(xs: seq<Reaction>, os: seq<Outcome>)
      ensures OutcomesAre(xs, os) <==> os == Outcomes(xs)
    {
      var expected := Outcomes(xs);
      if OutcomesAre(xs, os) {
        forall i | 0 <= i < |xs| ensures os[i] == expected[i] {
          assert expected[i] == ReactionOutcome(xs[i]);
        }
      }
    }

    /** The outcomes of the reactions, as OutcomesAre describes them. */
    lemma OutcomesNow(xs: seq<Reaction>) returns (os: seq<Outcome>)
      ensures OutcomesAre(xs, os)
    {
      os := Outcomes(xs);
      OutcomesAreOutcomes(xs, os);
    }

    /** Perform maps the notifying steps to one notification each and DoNothing to nothing. */
    lemma PerformOneActionPerStep(projectId: ProjectAllocationsId, missing: Demands)
      ensures PerformOutcome(Some(NotifyAboutDemandsSatisfied), projectId, missing) == Pushed(DemandsSatisfied(projectId))
      ensures PerformOutcome(Some(NotifyAboutPossibleRisk), projectId, missing) == Pushed(PossibleRisk(projectId))
      ensures PerformOutcome(Some(DoNothing), projectId, missing) == NoEffect
      ensures PerformOutcome(None, projectId, missing) == Failed(UnknownStep)
      ensures |PerformOutcome(Some(FindAvailable), projectId, missing).sent| <= 1
      ensures forall n :: n in PerformOutcome(Some(FindAvailable), projectId, missing).sent ==>
        n.Availability? && n.projectId == projectId
    {
    }

    /**
     * FindAvailable notifies, with the whole dictionary of replacements, exactly when the
     * lookups succeed and at least one missing demand has a replacement.
     */
    lemma AvailabilityNotifiesIffSomeReplacement(projectId: ProjectAllocationsId, missing: Demands)
      ensures var replacements := ReplacementsFrom(missing.all, AvailableLookups(missing.all));
        AvailabilityOutcome(projectId, missing).sent != [] <==>
          replacements.Ok? && exists i :: 0 <= i < |missing.all| && replacements.value.values[missing.all[i]].all != []
      ensures var replacements := ReplacementsFrom(missing.all, AvailableLookups(missing.all));
        AvailabilityOutcome(projectId, missing).sent != [] ==>
          AvailabilityOutcome(projectId, missing).sent == [Availability(projectId, replacements.value)]
    {
      var replacements := ReplacementsFrom(missing.all, AvailableLookups(missing.all));
      ReplacementsOk(missing.all, AvailableLookups(missing.all));
      if replacements.Ok? {
        CandidatesEmpty(replacements.value);
        var d := replacements.value;
        if Candidates(d) != [] {
          var k :| k in d.values && d.values[k].all != [];
          assert k in Elements(d.keys);
          var i :| 0 <= i < |missing.all| && missing.all[i] == k;
        }
      }
    }

    method FindAvailableReplacementsFor(demands: Demands) returns (r: Result<Dict<Demand, AllocatableCapabilitiesSummary>>)
      ensures r == ReplacementsFrom(demands.all, AvailableLookups(demands.all))
      ensures r.Ok? ==> r.value.Valid()
    {
      ghost var lookups := AvailableLookups(demands.all);
      assert AvailableLookupsAre(demands.all, lookups);
      r := AvailableReplacementsLoop(demands.all, lookups);
    }

    /** The loop of FindAvailableReplacementsFor, with the finder's answers for the demands. */
    method AvailableReplacementsLoop(all: seq<Demand>, ghost lookups: seq<Result<AllocatableCapabilitiesSummary>>)
      returns (r: Result<Dict<Demand, AllocatableCapabilitiesSummary>>)
      requires AvailableLookupsAre(all, lookups)
      ensures r == ReplacementsFrom(all, lookups)
      ensures r.Ok? ==> r.value.Valid()
    {
      var replacements := EmptyDict();
      for i := 0 to |all|
        invariant Replaced(all, lookups, i, replacements)
      {
        var demand := all[i];
        var summary := finder.FindAvailableCapabilities(demand.capability, demand.slot);
        assert lookups[i] == summary;
        if summary.Err? {
          ReplacedFails(all, lookups, i, replacements);
          return Err(summary.error);
        }
        if demand in replacements.values {
          ReplacedFails(all, lookups, i, replacements);
          return Err(DuplicateKey);
        }
        ReplacedExtend(all, lookups, i, replacements);
        replacements := replacements.Put(demand, summary.value);
      }
      ReplacementsOfCompleteLoop(all, lookups, replacements);
      return Ok(replacements);
    }

    method FindPossibleReplacements(demands: Demands) returns (r: Result<Dict<Demand, AllocatableCapabilitiesSummary>>)
      ensures r == ReplacementsFrom(demands.all, PossibleLookups(demands.all))
      ensures r.Ok? ==> r.value.Valid()
    {
      ghost var lookups := PossibleLookups(demands.all);
      assert PossibleLookupsAre(demands.all, lookups);
      r := PossibleReplacementsLoop(demands.all, lookups);
    }

    /** The loop of FindPossibleReplacements, with the finder's answers for the demands. */
    method PossibleReplacementsLoop(all: seq<Demand>, ghost lookups: seq<Result<AllocatableCapabilitiesSummary>>)
      returns (r: Result<Dict<Demand, AllocatableCapabilitiesSummary>>)
      requires PossibleLookupsAre(all, lookups)
      ensures r == ReplacementsFrom(all, lookups)
      ensures r.Ok? ==> r.value.Valid()
    {
      var replacements := EmptyDict();
      for i := 0 to |all|
        invariant Replaced(all, lookups, i, replacements)
      {
        var demand := all[i];
        var summary := finder.FindCapabilities(demand.capability, demand.slot);
        assert lookups[i] == Ok(summary);
        if demand in replacements.values {
          ReplacedFails(all, lookups, i, replacements);
          return Err(DuplicateKey);
        }
        ReplacedExtend(all, lookups, i, replacements);
        replacements := replacements.Put(demand, summary);
      }
      ReplacementsOfCompleteLoop(all, lookups, replacements);
      return Ok(replacements);
    }

    method HandleFindAvailableFor(saga: RiskPeriodicCheckSaga) returns (r: Result<()>)
      modifies notifications
      ensures var o := AvailabilityOutcome(saga.projectId, saga.MissingDemands());
        notifications.sent == old(notifications.sent) + o.sent && r == ToResult(o)
    {
      var replacements := FindAvailableReplacementsFor(saga.MissingDemands());
      r := NotifyAvailable(saga.projectId, saga.MissingDemands(), replacements);
    }

    /** HandleFindAvailableFor once the replacements are looked up. */
    method NotifyAvailable(projectId: ProjectAllocationsId, ghost missing: Demands,
                           replacements: Result<Dict<Demand, AllocatableCapabilitiesSummary>>) returns (r: Result<()>)
      requires replacements == ReplacementsFrom(missing.all, AvailableLookups(missing.all))
      modifies notifications
      ensures var o := AvailabilityOutcome(projectId, missing);
        notifications.sent == old(notifications.sent) + o.sent && r == ToResult(o)
    {
      ghost var o := AvailabilityOutcome(projectId, missing);
      if replacements.Err? {
        assert o == Failed(replacements.error);
        return Err(replacements.error);
      }
      if Candidates(replacements.value) != [] {
        assert o.sent == [Availability(projectId, replacements.value)] && o.failure.None?;
        notifications.NotifyAboutAvailability(projectId, replacements.value);
      } else {
        assert o == NoEffect;
      }
      r := Ok(());
      assert AvailabilityOutcome(projectId, missing) == o;
    }

    method HandleSimulateRelocation(saga: RiskPeriodicCheckSaga) returns (r: Result<()>)
      modifies notifications
      ensures var o := RelocationOutcome(saga.projectId, saga.MissingDemands());
        notifications.sent == old(notifications.sent) + o.sent && r == ToResult(o)
    {
      var possible := FindPossibleReplacements(saga.MissingDemands());
      r := RelocateReplacements(saga.projectId, saga.MissingDemands(), possible);
    }

    /** HandleSimulateRelocation once the replacements are looked up. */
    method RelocateReplacements(projectId: ProjectAllocationsId, ghost missing: Demands,
                                possible: Result<Dict<Demand, AllocatableCapabilitiesSummary>>) returns (r: Result<()>)
      requires possible == ReplacementsFrom(missing.all, PossibleLookups(missing.all))
      requires possible.Ok? ==> possible.value.Valid()
      modifies notifications
      ensures var o := RelocationOutcome(projectId, missing);
        notifications.sent == old(notifications.sent) + o.sent && r == ToResult(o)
    {
      if possible.Err? {
        return Err(possible.error);
      }
      ghost var profits := ProfitsNow(projectId, Candidates(possible.value));
      RelocationOutcomeIs(projectId, missing, possible.value, profits);
      ghost var o := RelocationSteps(projectId, Candidates(possible.value), profits);
      label relocating:
      r := RelocateAll(projectId, possible.value, profits);
      assert RelocationOutcome(projectId, missing) == old@relocating(RelocationOutcome(projectId, missing)) == o;
    }

    /** The two loops of HandleSimulateRelocation: each demand's replacements, in dictionary order. */
    method RelocateAll(projectId: ProjectAllocationsId, d: Dict<Demand, AllocatableCapabilitiesSummary>,
                       ghost profits: seq<Result<real>>) returns (r: Result<()>)
      requires d.Valid() && ProfitsAre(projectId, Candidates(d), profits)
      modifies notifications
      ensures var o := RelocationSteps(projectId, Candidates(d), profits);
        notifications.sent == old(notifications.sent) + o.sent && r == ToResult(o)
    {
      ghost var all := Candidates(d);
      ghost var n := 0;
      for i := 0 to |d.keys|
        invariant n == |Flatten(CandidateLists(d)[..i])| && n <= |all|
        invariant notifications.sent == old(notifications.sent) + RelocationSteps(projectId, all[..n], profits[..n]).sent
        invariant RelocationSteps(projectId, all[..n], profits[..n]).failure.None?
      {
        r, n := RelocateKey(projectId, d, profits, i, n, old(notifications.sent));
        if r.Err? {
          return;
        }
      }
      assert CandidateLists(d)[..|d.keys|] == CandidateLists(d);
      assert all[..|all|] == all && profits[..|all|] == profits;
      return Ok(());
    }

    /** One pass of the outer loop: the replacements of the demand at `i`, which follow the first `n`. */
    method RelocateKey(projectId: ProjectAllocationsId, d: Dict<Demand, AllocatableCapabilitiesSummary>,
                       ghost profits: seq<Result<real>>, i: nat, ghost n: nat, ghost base: seq<Notification>)
      returns (r: Result<()>, ghost next: nat)
      requires d.Valid() && ProfitsAre(projectId, Candidates(d), profits) && i < |d.keys|
      requires n == |Flatten(CandidateLists(d)[..i])| && n <= |Candidates(d)|
      requires notifications.sent == base + RelocationSteps(projectId, Candidates(d)[..n], profits[..n]).sent
      requires RelocationSteps(projectId, Candidates(d)[..n], profits[..n]).failure.None?
      modifies notifications
      ensures var all := Candidates(d);
        r.Ok? ==> next == |Flatten(CandidateLists(d)[..i + 1])| && next <= |all| &&
                  notifications.sent == base + RelocationSteps(projectId, all[..next], profits[..next]).sent &&
                  RelocationSteps(projectId, all[..next], profits[..next]).failure.None?
      ensures r.Err? ==> notifications.sent == base + RelocationSteps(projectId, Candidates(d), profits).sent &&
                         r == ToResult(RelocationSteps(projectId, Candidates(d), profits))
    {
      ghost var all := Candidates(d);
      CandidatesUpToKey(d, i);
      CandidatesOfKey(d, i);
      var replacements := d.values[d.keys[i]];
      r := RelocateEach(projectId, replacements.all, all, profits, n, base);
      next := n + |replacements.all|;
    }

    method RelocateEach(projectId: ProjectAllocationsId, replacements: seq<AllocatableCapabilitySummary>,
                        ghost all: seq<AllocatableCapabilitySummary>, ghost profits: seq<Result<real>>,
                        ghost start: nat, ghost base: seq<Notification>) returns (r: Result<()>)
      requires start + |replacements| <= |all| && forall j :: 0 <= j < |replacements| ==> all[start + j] == replacements[j]
      requires ProfitsAre(projectId, all, profits)
      requires notifications.sent == base + RelocationSteps(projectId, all[..start], profits[..start]).sent
      requires RelocationSteps(projectId, all[..start], profits[..start]).failure.None?
      modifies notifications
      ensures var e := start + |replacements|;
        r.Ok? ==> notifications.sent == base + RelocationSteps(projectId, all[..e], profits[..e]).sent &&
                  RelocationSteps(projectId, all[..e], profits[..e]).failure.None?
      ensures r.Err? ==> notifications.sent == base + RelocationSteps(projectId, all, profits).sent &&
                         r == ToResult(RelocationSteps(projectId, all, profits))
    {
      for j := 0 to |replacements|
        invariant notifications.sent == base + RelocationSteps(projectId, all[..start + j], profits[..start + j]).sent
        invariant RelocationSteps(projectId, all[..start + j], profits[..start + j]).failure.None?
      {
        r := RelocateOne(projectId, replacements[j], all, profits, start + j, base);
        if r.Err? {
          RelocationPrefixFails(projectId, all, profits, start + j + 1);
          return;
        }
      }
      r := Ok(());
    }

    /** One pass of the inner loop: the replacement at `k` of all of them. */
    method RelocateOne(projectId: ProjectAllocationsId, replacement: AllocatableCapabilitySummary,
                       ghost all: seq<AllocatableCapabilitySummary>, ghost profits: seq<Result<real>>,
                       ghost k: nat, ghost base: seq<Notification>) returns (r: Result<()>)
      requires ProfitsAre(projectId, all, profits) && k < |all| && all[k] == replacement
      requires notifications.sent == base + RelocationSteps(projectId, all[..k], profits[..k]).sent
      requires RelocationSteps(projectId, all[..k], profits[..k]).failure.None?
      modifies notifications
      ensures notifications.sent == base + RelocationSteps(projectId, all[..k + 1], profits[..k + 1]).sent
      ensures r == ToResult(RelocationSteps(projectId, all[..k + 1], profits[..k + 1]))
    {
      RelocationStepsExtend(projectId, all, profits, k);
      var profit := ProfitOf(projectId, replacement, all, profits, k);
      if profit.Err? {
        return Err(profit.error);
      }
      if profit.value > 0.0 {
        notifications.NotifyProfitableRelocationFound(projectId, replacement.id);
      }
      r := Ok(());
    }

    /** ProfitAfterMovingCapabilities for one replacement, the one at `k` of the listed ones. */
    method ProfitOf(projectId: ProjectAllocationsId, replacement: AllocatableCapabilitySummary,
                    ghost all: seq<AllocatableCapabilitySummary>, ghost profits: seq<Result<real>>, ghost k: nat)
      returns (profit: Result<real>)
      requires ProfitsAre(projectId, all, profits) && k < |all| && all[k] == replacement
      ensures profit == profits[k]
    {
      ghost var expected := transfers.ProfitOfMoving(projectId, replacement, replacement.timeSlot);
      assert expected == profits[k];
      profit := transfers.ProfitAfterMovingCapabilities(projectId, replacement, replacement.timeSlot);
      assert profit == expected;
    }

    method Perform(step: Option<Step>, saga: RiskPeriodicCheckSaga) returns (r: Result<()>)
      modifies notifications
      ensures var o := PerformOutcome(step, saga.projectId, saga.MissingDemands());
        notifications.sent == old(notifications.sent) + o.sent && r == ToResult(o)
    {
      match step
      case None =>
        r := Err(UnknownStep);
      case Some(NotifyAboutDemandsSatisfied) =>
        notifications.NotifyDemandsSatisfied(saga.projectId);
        r := Ok(());
      case Some(FindAvailable) =>
        r := HandleFindAvailableFor(saga);
      case Some(DoNothing) =>
        r := Ok(());
      case Some(SuggestReplacement) =>
        r := HandleSimulateRelocation(saga);
      case Some(NotifyAboutPossibleRisk) =>
        notifications.NotifyAboutPossibleRisk(saga.projectId);
        r := Ok(());
    }

    /**
     * The state Handle starts from in the ProjectAllocationScheduled and EarningsRecalculated
     * handlers: that of the project's stored saga, or `initial`, the state of the saga they create.
     */
    ghost function PriorState(projectId: ProjectAllocationsId, initial: SagaState): SagaState
      reads repository, repository.sagas
    {
      match repository.FindByProjectId(projectId)
      case Ok(Some(s)) => s.state
      case _ => initial
    }

    /** What handling `e` with a saga in state `prior` asks for, and the state it leaves. */
    function EventReaction(projectId: ProjectAllocationsId, prior: SagaState, e: Event): Reaction {
      Reaction(HandleEventIn(prior, e).0, projectId, HandleEventIn(prior, e).1)
    }

    /**
     * Handle(ProjectAllocationScheduled): the project's saga, the stored one or a new one that
     * is stored, handles the event; then the step it asks for is performed.
     */
    method HandleScheduled(e: Event) returns (r: Result<()>, ghost saga: RiskPeriodicCheckSaga?)
      requires e.ProjectAllocationScheduled? && repository.Valid()
      modifies repository, notifications, set s | s in repository.sagas && s.projectId == e.projectId
      ensures repository.Valid()
      ensures old(repository.FindByProjectId(e.projectId)).Err? ==>
        r == Err(MoreThanOneElement) && repository.sagas == old(repository.sagas) &&
        notifications.sent == old(notifications.sent) &&
        forall s :: s in old(repository.sagas) ==> s.state == old(s.state)
      ensures old(repository.FindByProjectId(e.projectId)) == Ok(None) ==>
        saga != null && fresh(saga) && repository.sagas == old(repository.sagas) + [saga]
      ensures old(repository.FindByProjectId(e.projectId)).Ok? && old(repository.FindByProjectId(e.projectId)).value.Some? ==>
        saga == old(repository.FindByProjectId(e.projectId)).value.value && repository.sagas == old(repository.sagas)
      ensures old(repository.FindByProjectId(e.projectId)).Ok? ==>
        var x := EventReaction(e.projectId, old(PriorState(e.projectId, InitialState(e.projectId))), e);
        saga != null && saga.projectId == e.projectId && saga.state == x.state &&
        notifications.sent == old(notifications.sent) + ReactionOutcome(x).sent && r == ToResult(ReactionOutcome(x))
    {
      var found := repository.FindByProjectIdOrCreate(e.projectId);
      if found.Err? {
        return Err(found.error), null;
      }
      var handled := found.value;
      saga := handled;
      var step := handled.Handle(e);
      r := Perform(step, handled);
    }

    /**
     * Handle(EarningsRecalculated): the project's stored saga, or a new one created with the
     * earnings and stored, handles the event; then the step it asks for is performed.
     */
    method HandleEarnings(e: Event) returns (r: Result<()>, ghost saga: RiskPeriodicCheckSaga?)
      requires e.EarningsRecalculated? && repository.Valid()
      modifies repository, notifications, set s | s in repository.sagas && s.projectId == e.projectId
      ensures repository.Valid()
      ensures old(repository.FindByProjectId(e.projectId)).Err? ==>
        r == Err(MoreThanOneElement) && repository.sagas == old(repository.sagas) &&
        notifications.sent == old(notifications.sent) &&
        forall s :: s in old(repository.sagas) ==> s.state == old(s.state)
      ensures old(repository.FindByProjectId(e.projectId)) == Ok(None) ==>
        saga != null && fresh(saga) && repository.sagas == old(repository.sagas) + [saga]
      ensures old(repository.FindByProjectId(e.projectId)).Ok? && old(repository.FindByProjectId(e.projectId)).value.Some? ==>
        saga == old(repository.FindByProjectId(e.projectId)).value.value && repository.sagas == old(repository.sagas)
      ensures old(repository.FindByProjectId(e.projectId)).Ok? ==>
        var x := EventReaction(e.projectId, old(PriorState(e.projectId, InitialStateWithEarnings(e.projectId, e.earnings))), e);
        saga != null && saga.projectId == e.projectId && saga.state == x.state &&
        notifications.sent == old(notifications.sent) + ReactionOutcome(x).sent && r == ToResult(ReactionOutcome(x))
    {
      var found := repository.FindByProjectId(e.projectId);
      if found.Err? {
        return Err(found.error), null;
      }
      var handled: RiskPeriodicCheckSaga;
      if found.value.None? {
        handled := new RiskPeriodicCheckSaga.WithEarnings(e.projectId, e.earnings);
        var _ := repository.Add(handled);
      } else {
        handled := found.value.value;
      }
      saga := handled;
      var step := handled.Handle(e);
      r := Perform(step, handled);
    }

    /** The step each saga asked for, recorded with the saga's project and its current state. */
    function ReactionsOf(sagas: seq<RiskPeriodicCheckSaga>, steps: seq<Option<Step>>): (r: seq<Reaction>)
      reads sagas
      requires |steps| == |sagas|
      ensures |r| == |sagas|
      ensures forall i :: 0 <= i < |sagas| ==> r[i] == Reaction(steps[i], sagas[i].projectId, sagas[i].state)
    {
      seq(|sagas|, i reads sagas requires 0 <= i < |sagas| => Reaction(steps[i], sagas[i].projectId, sagas[i].state))
    }

    /**
     * Handle(NotSatisfiedDemands): the sagas of the listed projects, found or created, each
     * handle their own missing demands; then, saga by saga, the steps they asked for are performed.
     */
    method HandleNotSatisfied(e: Event) returns (r: Result<()>, ghost sagas: seq<RiskPeriodicCheckSaga>,
                                                 ghost priors: seq<SagaState>, ghost os: seq<Outcome>)
      requires e.NotSatisfiedDemands? && e.missingDemands.Valid() && repository.Valid()
      modifies repository, notifications, set s | s in repository.sagas && s.projectId in e.missingDemands.keys
      ensures repository.Valid() && NoDuplicates(sagas) && |priors| == |sagas|
      ensures SagasFor(e.missingDemands.keys, old(repository.FindByProjectIdIn(e.missingDemands.keys)), sagas, priors)
      ensures forall i :: 0 <= i < |old(repository.FindByProjectIdIn(e.missingDemands.keys))| ==>
        priors[i] == old(StatesOf(repository.FindByProjectIdIn(e.missingDemands.keys)))[i]
      ensures repository.sagas == old(repository.sagas) + sagas[|old(repository.FindByProjectIdIn(e.missingDemands.keys))|..]
      ensures forall i :: 0 <= i < |sagas| ==> sagas[i].projectId in e.missingDemands.values
      ensures var xs := MissingDemandsReactions(sagas, priors, e.missingDemands);
        (forall i :: 0 <= i < |sagas| ==> sagas[i].state == xs[i].state) && OutcomesAre(xs, os) &&
        notifications.sent == old(notifications.sent) + Sequence(os).sent && r == ToResult(Sequence(os))
    {
      var found, steps;
      found, steps, priors := HandleMissingDemandsOf(e.missingDemands);
      sagas := found;
      ghost var xs := ReactionsOf(found, steps);
      os := OutcomesNow(xs);
      assert notifications !in Context();
      ghost var states := StatesOf(found);
      label performing:
      r := PerformEach(found, steps, os);
      assert unchanged@performing(repository) && StatesOf(found) == states;
    }

    /** The transaction of Handle(NotSatisfiedDemands): the sagas, found or created, and the steps they ask for. */
    method HandleMissingDemandsOf(missing: Dict<ProjectAllocationsId, Demands>)
      returns (sagas: seq<RiskPeriodicCheckSaga>, steps: seq<Option<Step>>, ghost priors: seq<SagaState>)
      requires missing.Valid() && repository.Valid()
      modifies repository, set s | s in repository.sagas && s.projectId in missing.keys
      ensures repository.Valid() && NoDuplicates(sagas) && |priors| == |sagas| == |steps|
      ensures SagasFor(missing.keys, old(repository.FindByProjectIdIn(missing.keys)), sagas, priors)
      ensures forall i :: 0 <= i < |old(repository.FindByProjectIdIn(missing.keys))| ==>
        priors[i] == old(StatesOf(repository.FindByProjectIdIn(missing.keys)))[i]
      ensures repository.sagas == old(repository.sagas) + sagas[|old(repository.FindByProjectIdIn(missing.keys))|..]
      ensures forall i :: 0 <= i < |sagas| ==> sagas[i].projectId in missing.values
      ensures ReactionsOf(sagas, steps) == MissingDemandsReactions(sagas, priors, missing)
    {
      var found;
      found, priors := SagasOfMissingDemands(missing);
      sagas := found;
      steps := HandleAllMissingDemands(found, missing, priors);
    }

    /** FindByProjectIdInOrElseCreate for the projects with missing demands, and the sagas' states then. */
    method SagasOfMissingDemands(missing: Dict<ProjectAllocationsId, Demands>)
      returns (sagas: seq<RiskPeriodicCheckSaga>, ghost priors: seq<SagaState>)
      requires missing.Valid() && repository.Valid()
      modifies repository
      ensures repository.Valid() && NoDuplicates(sagas) && priors == StatesOf(sagas)
      ensures SagasFor(missing.keys, old(repository.FindByProjectIdIn(missing.keys)), sagas, priors)
      ensures forall i :: 0 <= i < |old(repository.FindByProjectIdIn(missing.keys))| ==>
        priors[i] == old(StatesOf(repository.FindByProjectIdIn(missing.keys)))[i]
      ensures repository.sagas == old(repository.sagas) + sagas[|old(repository.FindByProjectIdIn(missing.keys))|..]
      ensures forall i :: 0 <= i < |sagas| ==> sagas[i].projectId in missing.values
      ensures forall i :: 0 <= i < |sagas| ==>
        (sagas[i] in old(repository.sagas) && sagas[i].projectId in missing.keys) || fresh(sagas[i])
    {
      ghost var before := repository.sagas;
      ghost var existing := repository.FindByProjectIdIn(missing.keys);
      sagas := repository.FindByProjectIdInOrElseCreate(missing.keys);
      priors := StatesOf(sagas);
      FoundSagasOfMissingDemands(missing, before, existing, sagas);
      forall i | 0 <= i < |existing| ensures priors[i] == old(existing[i].state) {
        assert sagas[i] == existing[i];
      }
    }

    /** The loop inside the transaction of Handle(NotSatisfiedDemands). */
    method HandleAllMissingDemands(sagas: seq<RiskPeriodicCheckSaga>, missing: Dict<ProjectAllocationsId, Demands>,
                                   ghost priors: seq<SagaState>) returns (steps: seq<Option<Step>>)
      requires NoDuplicates(sagas) && forall i :: 0 <= i < |sagas| ==> sagas[i].projectId in missing.values
      requires priors == StatesOf(sagas)
      modifies set s | s in sagas
      ensures |steps| == |sagas|
      ensures forall i :: 0 <= i < |sagas| ==>
        (steps[i], sagas[i].state) == HandleMissingDemandsIn(priors[i], missing.values[sagas[i].projectId])
      ensures ReactionsOf(sagas, steps) == MissingDemandsReactions(sagas, priors, missing)
    {
      steps := [];
      for i := 0 to |sagas|
        invariant |steps| == i
        invariant forall k :: 0 <= k < i ==>
          (steps[k], sagas[k].state) == HandleMissingDemandsIn(old(sagas[k].state), missing.values[sagas[k].projectId])
        invariant forall k :: i <= k < |sagas| ==> sagas[k].state == old(sagas[k].state)
      {
        var step := sagas[i].HandleMissingDemands(missing.values[sagas[i].projectId]);
        steps := steps + [step];
      }
      assert ReactionsOf(sagas, steps) == MissingDemandsReactions(sagas, priors, missing);
    }

    /** The second loop of Handle(NotSatisfiedDemands): each recorded step in turn, up to the first that throws. */
    method PerformEach(sagas: seq<RiskPeriodicCheckSaga>, steps: seq<Option<Step>>, ghost os: seq<Outcome>)
      returns (r: Result<()>)
      requires |steps| == |sagas| && OutcomesAre(ReactionsOf(sagas, steps), os)
      modifies notifications
      ensures OutcomesAre(ReactionsOf(sagas, steps), os)
      ensures notifications.sent == old(notifications.sent) + Sequence(os).sent && r == ToResult(Sequence(os))
    {
      ghost var xs := ReactionsOf(sagas, steps);
      for i := 0 to |sagas|
        invariant notifications.sent == old(notifications.sent) + Sequence(os[..i]).sent
        invariant Sequence(os[..i]).failure.None?
        invariant OutcomesAre(xs, os)
        invariant forall k :: 0 <= k < |sagas| ==> xs[k] == Reaction(steps[k], sagas[k].projectId, sagas[k].state)
      {
        r := PerformNext(steps[i], sagas[i], xs, os, i, old(notifications.sent));
        if r.Err? {
          return;
        }
      }
      assert os[..|sagas|] == os;
      r := Ok(());
    }

    /** One pass of the loops that perform a step per saga: the `i`th reaction, after the first `i` ran through. */
    method PerformNext(step: Option<Step>, saga: RiskPeriodicCheckSaga, ghost xs: seq<Reaction>,
                       ghost os: seq<Outcome>, ghost i: nat, ghost base: seq<Notification>) returns (r: Result<()>)
      requires OutcomesAre(xs, os) && i < |xs| && xs[i] == Reaction(step, saga.projectId, saga.state)
      requires notifications.sent == base + Sequence(os[..i]).sent && Sequence(os[..i]).failure.None?
      modifies notifications
      ensures OutcomesAre(xs, os)
      ensures r.Ok? ==>
        notifications.sent == base + Sequence(os[..i + 1]).sent && Sequence(os[..i + 1]).failure.None?
      ensures r.Err? ==> notifications.sent == base + Sequence(os).sent && r == ToResult(Sequence(os))
      ensures r.Ok? <==> os[i].failure.None?
    {
      r := PerformReaction(step, saga, xs, os, i);
      assert os[..i + 1][..i] == os[..i];
      if r.Err? {
        FailureStops(os, i + 1);
      }
    }

    /** Perform, for the saga and step of the `i`th reaction. */
    method PerformReaction(step: Option<Step>, saga: RiskPeriodicCheckSaga, ghost xs: seq<Reaction>,
                           ghost os: seq<Outcome>, ghost i: nat) returns (r: Result<()>)
      requires OutcomesAre(xs, os) && i < |xs| && xs[i] == Reaction(step, saga.projectId, saga.state)
      modifies notifications
      ensures OutcomesAre(xs, os)
      ensures notifications.sent == old(notifications.sent) + os[i].sent && r == ToResult(os[i])
    {
      ghost var o := ReactionOutcome(xs[i]);
      assert os[i] == o;
      assert notifications !in Context();
      r := Perform(step, saga);
      assert o == PerformOutcome(step, saga.projectId, saga.MissingDemands());
    }

    /**
     * Handle(ResourceTakenOver): the stored sagas of the previous owners' projects, in storage
     * order, each handle the event and have the step they ask for performed, one after another,
     * up to the first that throws. `handled` sagas ran.
     */
    method HandleTakenOver(e: Event) returns (r: Result<()>, ghost interested: seq<ProjectAllocationsId>,
                                              ghost sagas: seq<RiskPeriodicCheckSaga>, ghost priors: seq<SagaState>,
                                              ghost os: seq<Outcome>, ghost handled: nat)
      requires e.ResourceTakenOver? && repository.Valid()
      modifies notifications, set s | s in repository.sagas && s.projectId in OwnerProjects(e.previousOwners)
      ensures (exists o :: o in e.previousOwners && OwnerIdOf(o).None?) ==>
        r == Err(NullReference) && notifications.sent == old(notifications.sent) && sagas == [] &&
        forall s :: s in old(repository.sagas) ==> s.state == old(s.state)
      ensures (forall o :: o in e.previousOwners ==> OwnerIdOf(o).Some?) ==>
        Elements(interested) == OwnerProjects(e.previousOwners) &&
        sagas == old(repository.FindByProjectIdIn(interested)) && priors == old(StatesOf(repository.FindByProjectIdIn(interested)))
      ensures |priors| == |sagas| && NoDuplicates(sagas)
      ensures (forall o :: o in e.previousOwners ==> OwnerIdOf(o).Some?) ==>
        var xs := EventReactions(sagas, priors, e);
        OutcomesAre(xs, os) && Ran(os, handled) &&
        (forall k :: 0 <= k < |sagas| ==> sagas[k].state == if k < handled then xs[k].state else priors[k]) &&
        notifications.sent == old(notifications.sent) + Sequence(os).sent && r == ToResult(Sequence(os))
    {
      var ids := OwnerProjectList(e.previousOwners);
      if ids.Err? {
        sagas, priors, os, handled := [], [], [], 0;
        return Err(ids.error), [], sagas, priors, os, handled;
      }
      var list := ids.value;
      interested := list;
      var found := repository.FindByProjectIdIn(list);
      FilterNoDuplicates(repository.sagas, (s: RiskPeriodicCheckSaga) => s.projectId in list);
      sagas := found;
      priors := StatesOf(found);
      assert priors == old(StatesOf(repository.FindByProjectIdIn(list)));
      ghost var xs := EventReactions(found, priors, e);
      os := OutcomesNow(xs);
      assert forall s :: s in found ==> s in Elements(found);
      r, handled := HandleEachTakenOver(found, e, priors, os);
    }

    /** The loop of Handle(ResourceTakenOver): each saga handles the event, then its step is performed. */
    method HandleEachTakenOver(sagas: seq<RiskPeriodicCheckSaga>, e: Event, ghost priors: seq<SagaState>,
                               ghost os: seq<Outcome>) returns (r: Result<()>, ghost handled: nat)
      requires e.ResourceTakenOver? && NoDuplicates(sagas) && priors == StatesOf(sagas)
      requires OutcomesAre(EventReactions(sagas, priors, e), os)
      modifies notifications, set s | s in sagas
      ensures var xs := EventReactions(sagas, priors, e);
        OutcomesAre(xs, os) && Ran(os, handled) &&
        (forall k :: 0 <= k < |sagas| ==> sagas[k].state == if k < handled then xs[k].state else priors[k]) &&
        notifications.sent == old(notifications.sent) + Sequence(os).sent && r == ToResult(Sequence(os))
    {
      ghost var xs := EventReactions(sagas, priors, e);
      handled := 0;
      for i := 0 to |sagas|
        invariant handled == i
        invariant notifications.sent == old(notifications.sent) + Sequence(os[..i]).sent
        invariant Sequence(os[..i]).failure.None? && forall j :: 0 <= j < i ==> os[j].failure.None?
        invariant OutcomesAre(xs, os)
        invariant forall k :: 0 <= k < |sagas| ==> sagas[k].state == if k < i then xs[k].state else priors[k]
      {
        r := TakeOverOne(sagas[i], e, xs, os, i, old(notifications.sent));
        handled := i + 1;
        if r.Err? {
          return;
        }
      }
      assert os[..|sagas|] == os;
      r := Ok(());
    }

    /** One saga of Handle(ResourceTakenOver), the `i`th, after the first `i` ran through. */
    method TakeOverOne(saga: RiskPeriodicCheckSaga, e: Event, ghost xs: seq<Reaction>, ghost os: seq<Outcome>,
                       ghost i: nat, ghost base: seq<Notification>) returns (r: Result<()>)
      requires e.ResourceTakenOver? && OutcomesAre(xs, os) && i < |xs|
      requires xs[i] == Reaction(HandleEventIn(saga.state, e).0, saga.projectId, HandleEventIn(saga.state, e).1)
      requires notifications.sent == base + Sequence(os[..i]).sent && Sequence(os[..i]).failure.None?
      modifies saga, notifications
      ensures saga.state == xs[i].state && OutcomesAre(xs, os)
      ensures r.Ok? ==>
        notifications.sent == base + Sequence(os[..i + 1]).sent && Sequence(os[..i + 1]).failure.None?
      ensures r.Err? ==> notifications.sent == base + Sequence(os).sent && r == ToResult(Sequence(os))
      ensures r.Ok? <==> os[i].failure.None?
    {
      var step := HandleOwnEvent(saga, e, xs, os, i);
      r := PerformNext(step, saga, xs, os, i, base);
    }

    /** The saga handles the event; it is not part of what the outcomes depend on. */
    method HandleOwnEvent(saga: RiskPeriodicCheckSaga, e: Event, ghost xs: seq<Reaction>, ghost os: seq<Outcome>,
                          ghost i: nat) returns (step: Option<Step>)
      requires e.ResourceTakenOver? && OutcomesAre(xs, os) && i < |xs|
      requires xs[i] == Reaction(HandleEventIn(saga.state, e).0, saga.projectId, HandleEventIn(saga.state, e).1)
      modifies saga
      ensures OutcomesAre(xs, os) && xs[i] == Reaction(step, saga.projectId, saga.state)
    {
      ghost var context := Context();
      assert saga !in context;
      step := saga.Handle(e);
      assert unchanged(context) && Context() == context;
    }

    /**
     * HandleWeeklyCheck: every stored saga, in storage order, runs its weekly check at the
     * clock's current reading (the `i`th reading for the `i`th saga) and has the step it asks for
     * performed, up to the first that throws. `handled` sagas ran.
     */
    method HandleWeeklyCheck(readings: nat -> Instant)
      returns (r: Result<()>, ghost sagas: seq<RiskPeriodicCheckSaga>, ghost priors: seq<SagaState>,
               ghost os: seq<Outcome>, ghost handled: nat)
      requires repository.Valid()
      modifies notifications, set s | s in repository.sagas
      ensures sagas == old(repository.FindAll()) && priors == old(StatesOf(repository.FindAll()))
      ensures var xs := WeeklyReactions(sagas, priors, readings);
        OutcomesAre(xs, os) && Ran(os, handled) &&
        (forall k :: 0 <= k < |sagas| ==> sagas[k].state == if k < handled then xs[k].state else priors[k]) &&
        notifications.sent == old(notifications.sent) + Sequence(os).sent && r == ToResult(Sequence(os))
    {
      var found := repository.FindAll();
      sagas := found;
      priors := StatesOf(found);
      ghost var xs := WeeklyReactions(found, priors, readings);
      os := OutcomesNow(xs);
      r, handled := CheckEachWeekly(found, readings, priors, os);
    }

    /** The loop of HandleWeeklyCheck. */
    method CheckEachWeekly(sagas: seq<RiskPeriodicCheckSaga>, readings: nat -> Instant, ghost priors: seq<SagaState>,
                           ghost os: seq<Outcome>) returns (r: Result<()>, ghost handled: nat)
      requires NoDuplicates(sagas) && priors == StatesOf(sagas)
      requires OutcomesAre(WeeklyReactions(sagas, priors, readings), os)
      modifies notifications, set s | s in sagas
      ensures var xs := WeeklyReactions(sagas, priors, readings);
        OutcomesAre(xs, os) && Ran(os, handled) &&
        (forall k :: 0 <= k < |sagas| ==> sagas[k].state == if k < handled then xs[k].state else priors[k]) &&
        notifications.sent == old(notifications.sent) + Sequence(os).sent && r == ToResult(Sequence(os))
    {
      ghost var xs := WeeklyReactions(sagas, priors, readings);
      handled := 0;
      for i := 0 to |sagas|
        invariant handled == i
        invariant notifications.sent == old(notifications.sent) + Sequence(os[..i]).sent
        invariant Sequence(os[..i]).failure.None? && forall j :: 0 <= j < i ==> os[j].failure.None?
        invariant OutcomesAre(xs, os)
        invariant forall k :: 0 <= k < |sagas| ==> sagas[k].state == if k < i then xs[k].state else priors[k]
      {
        label checking:
        r := CheckWeeklyOne(sagas[i], readings(i), xs, os, i, old(notifications.sent));
        assert forall k :: 0 <= k < |sagas| && k != i ==> sagas[k].state == old@checking(sagas[k].state);
        handled := i + 1;
        if r.Err? {
          return;
        }
      }
      assert os[..|sagas|] == os;
      r := Ok(());
    }

    /** One saga of HandleWeeklyCheck, the `i`th, checked at `now`, after the first `i` ran through. */
    method CheckWeeklyOne(saga: RiskPeriodicCheckSaga, now: Instant, ghost xs: seq<Reaction>, ghost os: seq<Outcome>,
                          ghost i: nat, ghost base: seq<Notification>) returns (r: Result<()>)
      requires OutcomesAre(xs, os) && i < |xs|
      requires xs[i] == WeeklyReaction(saga.projectId, saga.state, now)
      requires notifications.sent == base + Sequence(os[..i]).sent && Sequence(os[..i]).failure.None?
      modifies saga, notifications
      ensures saga.state == xs[i].state && OutcomesAre(xs, os)
      ensures r.Ok? ==>
        notifications.sent == base + Sequence(os[..i + 1]).sent && Sequence(os[..i + 1]).failure.None?
      ensures r.Err? ==> notifications.sent == base + Sequence(os).sent && r == ToResult(Sequence(os))
      ensures r.Ok? <==> os[i].failure.None?
    {
      var step := WeeklyStep(saga, now, xs, os, i);
      r := PerformNext(Some(step), saga, xs, os, i, base);
    }

    /** The saga's weekly check at `now`, which changes the saga and nothing the outcomes read. */
    method WeeklyStep(saga: RiskPeriodicCheckSaga, now: Instant, ghost xs: seq<Reaction>, ghost os: seq<Outcome>,
                      ghost i: nat) returns (step: Step)
      requires OutcomesAre(xs, os) && i < |xs|
      requires xs[i] == WeeklyReaction(saga.projectId, saga.state, now)
      modifies saga
      ensures OutcomesAre(xs, os) && xs[i] == Reaction(Some(step), saga.projectId, saga.state)
    {
      ghost var context := Context();
      assert saga !in context;
      step := saga.HandleWeeklyCheck(now);
      assert unchanged(context) && Context() == context;
    }
  }
}
