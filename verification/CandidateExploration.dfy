/** Bounded, fair exploration of shapes x environments x assignments with early
    pruning and exact coverage accounting (`explore_candidates`). */
module CandidateExploration {
  import opened Prelude
  import opened Counting
  import opened ResourceShapes
  import opened SitePolicy
  import opened PlanningCandidates
  import Expressions = ConstraintExpressions
  import Providers = ConstraintProviders

  const DEFAULT_CANDIDATE_LIMIT := 64

  datatype Exploration = Exploration(
    candidates: seq<Candidate>, generatedCount: int, theoreticalCount: int, hardInvalidCount: int,
    viableCount: int, truncated: bool, hardPrunedCount: int, exploredGroups: set<GroupKey>, totalGroupCount: int)

  /** What identifies a group in the coverage report; the shape stands for its
      digest. */
  datatype GroupKey = GroupKey(shape: ResourceShape, contextId: Option<string>)

  function KeyOf(g: Group): GroupKey {
    GroupKey(g.shape, if g.environment.Some? then Some(g.environment.value.contextId) else None)
  }

  // ---- the inputs as the loops see them ----

  function AssignmentsFor(q: Question, limit: nat): (r: seq<Assignment>)
    ensures q.provider.None? ==> |r| == 1
    ensures q.provider.Some? ==> |r| == Min(limit, AssignmentCount(q))
  {
    if q.provider.None? then [map[]] else Providers.BoundedAssignments(q.provider.value, limit)
  }

  function AssignmentCount(q: Question): (n: nat)
    ensures n >= 1
  {
    if q.provider.None? then 1 else Providers.TheoreticalCount(q.provider.value)
  }

  /** Without any environment there is one group per shape. */
  function EnvironmentChoices(environments: seq<Environment>): (r: seq<Option<Environment>>)
    ensures |r| == Max(1, |environments|)
    ensures forall i | 0 <= i < |environments| :: r[i] == Some(environments[i])
    ensures environments == [] ==> r == [None]
  {
    if environments == [] then [None]
    else seq(|environments|, i requires 0 <= i < |environments| => Some(environments[i]))
  }

  function GroupsOver(shape: ResourceShape, environments: seq<Option<Environment>>): (r: seq<Group>)
    ensures |r| == |environments| && forall i | 0 <= i < |r| :: r[i] == Group(shape, environments[i])
  {
    seq(|environments|, i requires 0 <= i < |environments| => Group(shape, environments[i]))
  }

  function GroupsOf(shapes: seq<ResourceShape>, environments: seq<Option<Environment>>): (r: seq<Group>)
    ensures |r| == |shapes| * |environments|
  {
    if shapes == [] then []
    else
      var last := |shapes| - 1;
      var rest := GroupsOf(shapes[..last], environments);
      assert |shapes| * |environments| == last * |environments| + |environments|;
      rest + GroupsOver(shapes[last], environments)
  }

  function Kept(q: Question, groups: seq<Group>): seq<Group> {
    if groups == [] then []
    else
      var rest := Kept(q, groups[..|groups| - 1]);
      if Pruned(q, groups[|groups| - 1]) then rest else rest + [groups[|groups| - 1]]
  }

  function Discarded(q: Question, groups: seq<Group>): seq<Group> {
    if groups == [] then []
    else
      var rest := Discarded(q, groups[..|groups| - 1]);
      if Pruned(q, groups[|groups| - 1]) then rest + [groups[|groups| - 1]] else rest
  }

  lemma {:induction false} GroupsArePartitioned(q: Question, groups: seq<Group>)
    ensures |Kept(q, groups)| + |Discarded(q, groups)| == |groups|
    ensures forall g :: g in Kept(q, groups) <==> g in groups && !Pruned(q, g)
    ensures forall g :: g in Discarded(q, groups) <==> g in groups && Pruned(q, g)
  {
    if groups != [] {
      GroupsArePartitioned(q, groups[..|groups| - 1]);
      assert groups == groups[..|groups| - 1] + [groups[|groups| - 1]];
    }
  }

  // ---- what an exploration reports ----

  /** A candidate shows a group under an assignment, correctly judged. */
  ghost predicate Shows(c: Candidate, q: Question, g: Group, a: Assignment) {
    c.group == g && c.parameters == a && c.state == StateOf(q, g, a)
  }

  /** The first n turns of a round-robin: turn k shows group k % width under its
      (k / width)-th best assignment. */
  ghost predicate ShowsTurns(candidates: seq<Candidate>, q: Question, kept: seq<Group>, assignments: seq<Assignment>,
                             n: nat) {
    n <= |candidates| && n <= |kept| * |assignments|
    && forall k | 0 <= k < n :: ShowsTurn(candidates[k], q, kept, assignments, k)
  }

  ghost predicate ShowsTurn(c: Candidate, q: Question, kept: seq<Group>, assignments: seq<Assignment>, k: nat) {
    |kept| > 0 && k / |kept| < |assignments|
    && Shows(c, q, kept[k % |kept|], Ranked(q, assignments, kept[k % |kept|].shape)[k / |kept|])
  }

  ghost function CountState(candidates: seq<Candidate>, states: set<CandidateState>): int {
    Sum(candidates, StateValue(states))
  }

  ghost function StateValue(states: set<CandidateState>): Candidate -> int {
    (c: Candidate) => if c.state in states then 1 else 0
  }

  ghost function ExpandedCount(q: Question, groups: seq<Group>, limit: nat): nat {
    Min(limit, |Kept(q, groups)| * |AssignmentsFor(q, limit)|)
  }

  ghost function RepresentedCount(q: Question, groups: seq<Group>, limit: nat): nat {
    Min(|Discarded(q, groups)|, limit - ExpandedCount(q, groups, limit))
  }

  /** The candidates in closed form: round-robin turns over the kept groups, then
      representatives of the pruned groups while there is room. */
  ghost predicate ListsCandidates(candidates: seq<Candidate>, q: Question, groups: seq<Group>, limit: nat) {
    var kept, discarded := Kept(q, groups), Discarded(q, groups);
    var assignments := AssignmentsFor(q, limit);
    var expanded := ExpandedCount(q, groups, limit);
    && |candidates| == expanded + RepresentedCount(q, groups, limit)
    && ShowsTurns(candidates, q, kept, assignments, expanded)
    && forall k | 0 <= k < RepresentedCount(q, groups, limit) ::
         |assignments| > 0 && Shows(candidates[expanded + k], q, discarded[k], assignments[0])
  }

  ghost predicate CountsCandidates(x: Exploration, q: Question, groups: seq<Group>, limit: nat) {
    && x.generatedCount == |x.candidates|
    && x.hardPrunedCount == |Discarded(q, groups)| * AssignmentCount(q) - RepresentedCount(q, groups, limit)
    && x.theoreticalCount == |groups| * AssignmentCount(q)
    && x.truncated == (x.theoreticalCount > x.generatedCount + x.hardPrunedCount)
    && x.viableCount == CountState(x.candidates, {Viable})
    && x.hardInvalidCount == CountState(x.candidates, {HardInvalid, PolicyIncompatible})
    && x.totalGroupCount == |groups|
  }

  /** A group counts as explored when it was pruned or got a turn. */
  ghost predicate CoversGroups(keys: set<GroupKey>, discarded: seq<Group>, candidates: seq<Candidate>, n: nat)
    requires n <= |candidates|
  {
    forall key :: key in keys <==>
      (exists g | g in discarded :: key == KeyOf(g)) || (exists k | 0 <= k < n :: key == KeyOf(candidates[k].group))
  }

  ghost predicate Reports(x: Exploration, q: Question, groups: seq<Group>, limit: nat) {
    && ListsCandidates(x.candidates, q, groups, limit)
    && CountsCandidates(x, q, groups, limit)
    && CoversGroups(x.exploredGroups, Discarded(q, groups), x.candidates, ExpandedCount(q, groups, limit))
  }

  // ---- the loops ----

  ghost predicate RaisesUnder(q: Question, g: Group, assignments: seq<Assignment>) {
    exists a | a in assignments :: ConstraintRaises(q, g.shape, a)
  }

  /** Partitioning raises on a group when judging it does, or when it is kept and
      ranking some bounded assignment does. */
  ghost predicate GroupRaises(q: Question, g: Group, assignments: seq<Assignment>) {
    JudgingRaises(q, g) || (!Pruned(q, g) && RaisesUnder(q, g, assignments))
  }

  ghost predicate AnyGroupRaises(q: Question, groups: seq<Group>, assignments: seq<Assignment>) {
    exists g | g in groups :: GroupRaises(q, g, assignments)
  }

  /** A representative that there is room for raises. */
  ghost predicate RepresentativeRaises(q: Question, discarded: seq<Group>, representative: Assignment, room: int) {
    exists k | 0 <= k < Min(|discarded|, room) :: ConstraintRaises(q, discarded[k].shape, representative)
  }

  /** What makes an exploration fail. */
  ghost predicate ExplorationRaises(q: Question, groups: seq<Group>, limit: nat)
    requires limit >= 1
  {
    AnyGroupRaises(q, groups, AssignmentsFor(q, limit))
    || RepresentativeRaises(q, Discarded(q, groups), AssignmentsFor(q, limit)[0],
                            limit - ExpandedCount(q, groups, limit))
  }

  method PartitionGroups(q: Question, groups: seq<Group>, assignments: seq<Assignment>)
    returns (r: Result<(seq<Group>, seq<seq<Assignment>>, seq<Group>), Providers.ProviderError>)
    ensures r.Success? ==>
      var (kept, ranked, discarded) := r.value;
      && kept == Kept(q, groups) && discarded == Discarded(q, groups)
      && |ranked| == |kept| && forall i | 0 <= i < |kept| :: ranked[i] == Ranked(q, assignments, kept[i].shape)
    ensures r.Failure? <==> AnyGroupRaises(q, groups, assignments)
  {
    var kept: seq<Group>, ranked: seq<seq<Assignment>>, discarded: seq<Group> := [], [], [];
    for i := 0 to |groups|
      invariant IsPartition(q, groups[..i], assignments, kept, ranked, discarded)
      invariant !AnyGroupRaises(q, groups[..i], assignments)
    {
      var g := groups[i];
      PartitionNext(q, groups, i, assignments, kept, ranked, discarded);
      var judged := RankIfKept(q, g, assignments);
      if judged.Failure? { return Failure(judged.error); }
      if judged.value.None? {
        discarded := discarded + [g];
      } else {
        kept, ranked := kept + [g], ranked + [judged.value.value];
      }
    }
    assert groups[..|groups|] == groups;
    r := Success((kept, ranked, discarded));
  }

  ghost predicate IsPartition(q: Question, groups: seq<Group>, assignments: seq<Assignment>, kept: seq<Group>,
                              ranked: seq<seq<Assignment>>, discarded: seq<Group>) {
    && kept == Kept(q, groups) && discarded == Discarded(q, groups)
    && |ranked| == |kept| && forall j | 0 <= j < |kept| :: ranked[j] == Ranked(q, assignments, kept[j].shape)
  }

  lemma PartitionNext(q: Question, groups: seq<Group>, i: nat, assignments: seq<Assignment>, kept: seq<Group>,
                      ranked: seq<seq<Assignment>>, discarded: seq<Group>)
    requires i < |groups| && IsPartition(q, groups[..i], assignments, kept, ranked, discarded)
    requires !AnyGroupRaises(q, groups[..i], assignments)
    ensures GroupRaises(q, groups[i], assignments) ==> AnyGroupRaises(q, groups, assignments)
    ensures AnyGroupRaises(q, groups[..i + 1], assignments) <==> GroupRaises(q, groups[i], assignments)
    ensures Pruned(q, groups[i]) ==> IsPartition(q, groups[..i + 1], assignments, kept, ranked, discarded + [groups[i]])
    ensures !Pruned(q, groups[i]) ==>
      IsPartition(q, groups[..i + 1], assignments, kept + [groups[i]],
                  ranked + [Ranked(q, assignments, groups[i].shape)], discarded)
  {
    assert groups[..i + 1][..i] == groups[..i] && groups[..i + 1] == groups[..i] + [groups[i]];
    assert groups[i] in groups && groups[i] in groups[..i + 1];
    forall g | g in groups[..i] ensures !GroupRaises(q, g, assignments) { }
  }

  /** The ranked assignments of a group, or None when it is pruned. */
  method RankIfKept(q: Question, g: Group, assignments: seq<Assignment>)
    returns (r: Result<Option<seq<Assignment>>, Providers.ProviderError>)
    ensures r.Failure? <==> GroupRaises(q, g, assignments)
    ensures r.Success? ==> r.value == if Pruned(q, g) then None else Some(Ranked(q, assignments, g.shape))
  {
    var pruned := GroupIsHardInvalid(q, g);
    if pruned.Failure? { return Failure(pruned.error); }
    if pruned.value { return Success(None); }
    var order := AssignmentsByFeasibility(q, assignments, g.shape);
    if order.Failure? { return Failure(order.error); }
    r := Success(Some(order.value));
  }

  /** One assignment layer per pass, one candidate per kept group in a layer. */
  method ExpandKept(q: Question, kept: seq<Group>, ranked: seq<seq<Assignment>>, assignments: seq<Assignment>,
                    limit: nat)
    returns (r: Result<seq<Candidate>, Providers.ProviderError>)
    requires |ranked| == |kept| && forall i | 0 <= i < |kept| :: ranked[i] == Ranked(q, assignments, kept[i].shape)
    ensures r.Success? ==> |r.value| == Min(limit, |kept| * |assignments|)
    ensures r.Success? ==> ShowsTurns(r.value, q, kept, assignments, |r.value|)
    ensures r.Failure? ==> exists g | g in kept :: RaisesUnder(q, g, assignments)
  {
    var candidates: seq<Candidate> := [];
    for layer := 0 to |assignments|
      invariant |candidates| == layer * |kept| && |candidates| <= limit
      invariant ShowsTurns(candidates, q, kept, assignments, |candidates|)
    {
      LayerFits(layer, |assignments|, |kept|);
      for position := 0 to |kept|
        invariant |candidates| == layer * |kept| + position && |candidates| <= limit
        invariant ShowsTurns(candidates, q, kept, assignments, |candidates|)
      {
        if |candidates| >= limit { return Success(candidates); }
        var evaluated := EvaluateCandidate(q, kept[position], ranked[position][layer]);
        if evaluated.Failure? {
          RankedRaises(q, kept, assignments, position, layer);
          return Failure(evaluated.error);
        }
        TurnAppended(candidates, evaluated.value, q, kept, assignments, layer, position);
        candidates := candidates + [evaluated.value];
      }
      assert layer * |kept| + |kept| == (layer + 1) * |kept|;
      if |candidates| >= limit { return Success(candidates); }
    }
    r := Success(candidates);
  }

  lemma TurnAppended(candidates: seq<Candidate>, c: Candidate, q: Question, kept: seq<Group>,
                     assignments: seq<Assignment>, layer: nat, position: nat)
    requires ShowsTurns(candidates, q, kept, assignments, |candidates|)
    requires position < |kept| && layer < |assignments| && |candidates| == layer * |kept| + position
    requires |candidates| < |kept| * |assignments|
    requires Shows(c, q, kept[position], Ranked(q, assignments, kept[position].shape)[layer])
    ensures ShowsTurns(candidates + [c], q, kept, assignments, |candidates| + 1)
  {
    TurnIndex(layer, position, |kept|);
    var more := candidates + [c];
    assert ShowsTurn(c, q, kept, assignments, |candidates|);
    forall k | 0 <= k < |more| ensures ShowsTurn(more[k], q, kept, assignments, k) {
      if k < |candidates| { assert more[k] == candidates[k]; }
    }
  }

  lemma LayerFits(layer: nat, layers: nat, width: nat)
    requires layer < layers
    ensures layer * width + width <= width * layers
  {
    assert (layer + 1) * width <= layers * width;
  }

  lemma RankedRaises(q: Question, kept: seq<Group>, assignments: seq<Assignment>, position: nat, layer: nat)
    requires position < |kept| && layer < |assignments|
    requires ConstraintRaises(q, kept[position].shape, Ranked(q, assignments, kept[position].shape)[layer])
    ensures exists g | g in kept :: RaisesUnder(q, g, assignments)
  {
    var ranked := Ranked(q, assignments, kept[position].shape);
    assert ranked[layer] in multiset(ranked);
    assert ranked[layer] in assignments;
    assert kept[position] in kept;
  }

  /** One diagnostic representative per pruned group while there is room. */
  method RepresentDiscarded(q: Question, discarded: seq<Group>, representative: Assignment, expanded: seq<Candidate>,
                            limit: nat)
    returns (r: Result<seq<Candidate>, Providers.ProviderError>)
    requires |expanded| <= limit
    ensures r.Success? ==>
      && |r.value| == |expanded| + Min(|discarded|, limit - |expanded|)
      && r.value[..|expanded|] == expanded
      && forall k | 0 <= k < |r.value| - |expanded| :: Shows(r.value[|expanded| + k], q, discarded[k], representative)
    ensures r.Failure? <==> RepresentativeRaises(q, discarded, representative, limit - |expanded|)
  {
    var candidates := expanded;
    for i := 0 to |discarded|
      invariant |candidates| == |expanded| + i <= limit && candidates[..|expanded|] == expanded
      invariant forall k | 0 <= k < i :: Shows(candidates[|expanded| + k], q, discarded[k], representative)
      invariant forall k | 0 <= k < i :: !ConstraintRaises(q, discarded[k].shape, representative)
    {
      if |candidates| >= limit { return Success(candidates); }
      var evaluated := EvaluateCandidate(q, discarded[i], representative);
      if evaluated.Failure? { return Failure(evaluated.error); }
      candidates := candidates + [evaluated.value];
    }
    r := Success(candidates);
  }

  method CountStates(candidates: seq<Candidate>, states: set<CandidateState>) returns (n: int)
    ensures n == CountState(candidates, states)
  {
    n := 0;
    for i := 0 to |candidates|
      invariant n == CountState(candidates[..i], states)
    {
      assert candidates[..i + 1][..i] == candidates[..i];
      if candidates[i].state in states { n := n + 1; }
    }
    assert candidates[..|candidates|] == candidates;
  }

  method CollectKeys(discarded: seq<Group>, expanded: seq<Candidate>) returns (keys: set<GroupKey>)
    ensures CoversGroups(keys, discarded, expanded, |expanded|)
  {
    keys := (set g | g in discarded :: KeyOf(g)) + (set k | 0 <= k < |expanded| :: KeyOf(expanded[k].group));
  }

  /** Shapes are sorted by digest, environments by identity; both orders are
      given as keys. */
  method Explore(q: Question, resourceShapes: seq<ResourceShape>, environments: seq<Environment>, limit: int,
                 shapeKey: ResourceShape -> int, environmentKey: Environment -> int)
    returns (r: Result<Exploration, Providers.ProviderError>)
    ensures (limit < 1 || limit > DEFAULT_CANDIDATE_LIMIT) ==> r == Failure(Providers.LimitError)
    ensures r.Success? ==>
      Reports(r.value, q, SortedGroups(resourceShapes, environments, shapeKey, environmentKey), limit)
    ensures r.Failure? <==>
      !(1 <= limit <= DEFAULT_CANDIDATE_LIMIT)
      || ExplorationRaises(q, SortedGroups(resourceShapes, environments, shapeKey, environmentKey), limit)
  {
    if limit < 1 || limit > DEFAULT_CANDIDATE_LIMIT { return Failure(Providers.LimitError); }
    var shapes := SortByKey(resourceShapes, shapeKey);
    var envs := EnvironmentChoices(SortByKey(environments, environmentKey));
    var assignments, assignmentCount := [map[]], 1;
    if q.provider.Some? {
      var bounded := Providers.ParameterAssignments(q.provider.value, limit);
      assignments, assignmentCount := bounded.value.0, bounded.value.1;
    }
    var theoretical := |shapes| * |envs| * assignmentCount;
    r := ExploreGroups(q, GroupsOf(shapes, envs), assignments, assignmentCount, theoretical, limit);
  }

  /** Partition, expand, represent; also how many groups were discarded. */
  method CollectCandidates(q: Question, groups: seq<Group>, assignments: seq<Assignment>, limit: nat)
    returns (r: Result<(seq<Candidate>, set<GroupKey>, nat, nat), Providers.ProviderError>)
    requires limit >= 1 && assignments == AssignmentsFor(q, limit)
    ensures r.Success? ==>
      var (candidates, keys, discarded, represented) := r.value;
      && ListsCandidates(candidates, q, groups, limit)
      && CoversGroups(keys, Discarded(q, groups), candidates, ExpandedCount(q, groups, limit))
      && discarded == |Discarded(q, groups)| && represented == RepresentedCount(q, groups, limit)
    ensures r.Failure? <==> ExplorationRaises(q, groups, limit)
  {
    var partitioned := PartitionGroups(q, groups, assignments);
    if partitioned.Failure? { return Failure(partitioned.error); }
    var (kept, ranked, discarded) := partitioned.value;
    GroupsArePartitioned(q, groups);
    var expanded := ExpandKept(q, kept, ranked, assignments, limit);
    NothingKeptRaises(q, groups, assignments);
    var all := RepresentDiscarded(q, discarded, assignments[0], expanded.value, limit);
    if all.Failure? { return Failure(all.error); }
    var keys := CollectKeys(discarded, expanded.value);
    CandidatesAssembled(q, groups, limit, expanded.value, all.value, keys);
    r := Success((all.value, keys, |discarded|, |all.value| - |expanded.value|));
  }

  method ExploreGroups(q: Question, groups: seq<Group>, assignments: seq<Assignment>, assignmentCount: nat,
                       theoretical: int, limit: nat)
    returns (r: Result<Exploration, Providers.ProviderError>)
    requires limit >= 1 && assignments == AssignmentsFor(q, limit) && assignmentCount == AssignmentCount(q)
    requires theoretical == |groups| * assignmentCount
    ensures r.Success? ==> Reports(r.value, q, groups, limit)
    ensures r.Failure? <==> ExplorationRaises(q, groups, limit)
  {
    var collected := CollectCandidates(q, groups, assignments, limit);
    if collected.Failure? { return Failure(collected.error); }
    var (candidates, keys, discarded, represented) := collected.value;
    var hardPruned := discarded * assignmentCount - represented;
    var hardInvalid := CountStates(candidates, {HardInvalid, PolicyIncompatible});
    var viable := CountStates(candidates, {Viable});
    r := Success(Exploration(candidates, |candidates|, theoretical, hardInvalid, viable,
                             theoretical > |candidates| + hardPruned, hardPruned, keys, |groups|));
  }

  function SortedGroups(shapes: seq<ResourceShape>, environments: seq<Environment>,
                        shapeKey: ResourceShape -> int, environmentKey: Environment -> int): seq<Group> {
    GroupsOf(SortByKey(shapes, shapeKey), EnvironmentChoices(SortByKey(environments, environmentKey)))
  }

  /** Every kept group was ranked, so evaluating it again cannot raise. */
  lemma NothingKeptRaises(q: Question, groups: seq<Group>, assignments: seq<Assignment>)
    requires !AnyGroupRaises(q, groups, assignments)
    ensures forall g | g in Kept(q, groups) :: !RaisesUnder(q, g, assignments)
  {
    GroupsArePartitioned(q, groups);
    forall g | g in Kept(q, groups) ensures !RaisesUnder(q, g, assignments) {
      assert !GroupRaises(q, g, assignments);
    }
  }

  lemma CandidatesAssembled(q: Question, groups: seq<Group>, limit: nat, expanded: seq<Candidate>,
                            candidates: seq<Candidate>, keys: set<GroupKey>)
    requires limit >= 1 && |expanded| == ExpandedCount(q, groups, limit)
    requires ShowsTurns(expanded, q, Kept(q, groups), AssignmentsFor(q, limit), |expanded|)
    requires |candidates| == |expanded| + RepresentedCount(q, groups, limit) && candidates[..|expanded|] == expanded
    requires |AssignmentsFor(q, limit)| > 0
    requires forall k | 0 <= k < RepresentedCount(q, groups, limit) ::
      Shows(candidates[|expanded| + k], q, Discarded(q, groups)[k], AssignmentsFor(q, limit)[0])
    requires CoversGroups(keys, Discarded(q, groups), expanded, |expanded|)
    ensures ListsCandidates(candidates, q, groups, limit)
    ensures CoversGroups(keys, Discarded(q, groups), candidates, |expanded|)
  {
    SamePrefix(expanded, candidates);
  }

  lemma SamePrefix<T>(prefix: seq<T>, s: seq<T>)
    requires |prefix| <= |s| && s[..|prefix|] == prefix
    ensures forall k | 0 <= k < |prefix| :: s[k] == prefix[k]
  {
  }
}
