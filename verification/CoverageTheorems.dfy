/** What an exploration report guarantees: exact accounting, exact counts when
    nothing was cut off, and fairness between groups when something was. */
module CoverageTheorems {
  import opened Prelude
  import opened Counting
  import opened ResourceShapes
  import opened SitePolicy
  import opened PlanningCandidates
  import opened CandidateExploration
  import Providers = ConstraintProviders

  // ---- counting viable combinations naively ----

  ghost function Viability(q: Question, g: Group): Assignment -> int {
    (a: Assignment) => if StateOf(q, g, a) == Viable then 1 else 0
  }

  /** Viable assignments of one group, evaluating every one of them. */
  ghost function GroupViability(q: Question, assignments: seq<Assignment>): Group -> int {
    (g: Group) => Sum(assignments, Viability(q, g))
  }

  /** Every assignment of the full product. */
  ghost function AllAssignments(q: Question): seq<Assignment> {
    if q.provider.None? then [map[]]
    else Providers.BoundedAssignments(q.provider.value, Providers.TheoreticalCount(q.provider.value))
  }

  /** Viable (shape, environment, assignment) triples of the cartesian product. */
  ghost function ViableTriples(q: Question, shapes: seq<ResourceShape>, environments: seq<Option<Environment>>,
                               assignments: seq<Assignment>): int {
    Sum(shapes, (s: ResourceShape) => ShapeViability(q, s, environments, assignments))
  }

  ghost function ShapeViability(q: Question, s: ResourceShape, environments: seq<Option<Environment>>,
                                assignments: seq<Assignment>): int {
    Sum(environments, (e: Option<Environment>) => GroupViability(q, assignments)(Group(s, e)))
  }

  // ---- accounting ----

  /** The counters add up for every input, and a report is truncated exactly
      when the limit is below the number of unpruned combinations. */
  lemma CoverageIsAccounted(x: Exploration, q: Question, groups: seq<Group>, limit: nat)
    requires limit >= 1 && CountsCandidates(x, q, groups, limit)
    requires |x.candidates| == ExpandedCount(q, groups, limit) + RepresentedCount(q, groups, limit)
    ensures x.generatedCount <= limit
    ensures x.generatedCount + x.hardPrunedCount <= x.theoreticalCount
    ensures x.truncated <==> limit < |Kept(q, groups)| * AssignmentCount(q)
    ensures !x.truncated ==> x.generatedCount + x.hardPrunedCount == x.theoreticalCount
  {
    var kept, discarded := |Kept(q, groups)|, |Discarded(q, groups)|;
    GroupsArePartitioned(q, groups);
    Accounting(limit, kept, discarded, AssignmentCount(q), |AssignmentsFor(q, limit)|);
  }

  /** Unless truncated, every assignment of the product was bounded in. */
  lemma UntruncatedSeesAll(q: Question, groups: seq<Group>, limit: nat)
    requires limit >= |Kept(q, groups)| * AssignmentCount(q) && limit >= 1
    ensures Kept(q, groups) != [] ==> AssignmentsFor(q, limit) == AllAssignments(q)
    ensures ExpandedCount(q, groups, limit) == |AssignmentsFor(q, limit)| * |Kept(q, groups)|
  {
    Accounting(limit, |Kept(q, groups)|, 0, AssignmentCount(q), |AssignmentsFor(q, limit)|);
  }

  /** The arithmetic behind the counters: min(limit, kept * min(limit, count)) is
      min(limit, kept * count). */
  lemma Accounting(limit: nat, kept: nat, discarded: nat, count: nat, bounded: nat)
    requires limit >= 1 && count >= 1 && bounded == Min(limit, count)
    ensures Min(limit, kept * bounded) == Min(limit, kept * count)
    ensures kept > 0 && kept * count <= limit ==> bounded == count
    ensures kept * count <= limit ==> Min(limit, kept * bounded) == kept * bounded
    ensures (kept + discarded) * count == kept * count + discarded * count
  {
    if kept > 0 {
      assert kept * count >= count;
      assert kept * limit >= limit;
    }
  }

  // ---- an untruncated report is exact ----

  /** Viability of a group's layer-th best assignment. */
  ghost function LayerValue(q: Question, assignments: seq<Assignment>): (Group, nat) -> int {
    (g: Group, layer: nat) =>
      if layer < |assignments| then Viability(q, g)(Ranked(q, assignments, g.shape)[layer]) else 0
  }

  lemma TurnValue(c: Candidate, q: Question, kept: seq<Group>, assignments: seq<Assignment>, k: nat)
    requires ShowsTurn(c, q, kept, assignments, k)
    ensures StateValue({Viable})(c) == LayerValue(q, assignments)(kept[k % |kept|], k / |kept|)
  {
    var g, layer := kept[k % |kept|], k / |kept|;
    LayerValueIs(q, g, assignments, layer);
  }

  lemma LayerValueIs(q: Question, g: Group, assignments: seq<Assignment>, layer: nat)
    requires layer < |assignments|
    ensures LayerValue(q, assignments)(g, layer) == Viability(q, g)(Ranked(q, assignments, g.shape)[layer])
  {
  }

  /** Ranking only reorders, so all layers of a group count every assignment. */
  lemma AllLayers(q: Question, g: Group, assignments: seq<Assignment>)
    ensures Layers(LayerValue(q, assignments), |assignments|)(g) == GroupViability(q, assignments)(g)
  {
    var ranked := Ranked(q, assignments, g.shape);
    forall l: nat | l < |assignments| ensures LayerValue(q, assignments)(g, l) == Viability(q, g)(ranked[l]) {
      LayerValueIs(q, g, assignments, l);
    }
    SumToSeq(ranked, |assignments|, Viability(q, g), (l: nat) => LayerValue(q, assignments)(g, l));
    assert ranked[..|assignments|] == ranked;
    SumPermuted(ranked, assignments, Viability(q, g));
  }

  /** All turns over all layers count every assignment of every kept group. */
  lemma TurnsCountEverything(candidates: seq<Candidate>, q: Question, kept: seq<Group>, assignments: seq<Assignment>,
                             n: nat)
    requires n == |assignments| * |kept| && ShowsTurns(candidates, q, kept, assignments, n)
    ensures Sum(candidates[..n], StateValue({Viable})) == Sum(kept, GroupViability(q, assignments))
  {
    forall k: nat | k < n
      ensures TurnHolds(candidates, StateValue({Viable}), kept, LayerValue(q, assignments), k)
    {
      assert ShowsTurn(candidates[k], q, kept, assignments, k);
      TurnValue(candidates[k], q, kept, assignments, k);
    }
    RoundRobinSum(candidates, StateValue({Viable}), kept, LayerValue(q, assignments), |assignments|, n);
    forall g | g in kept
      ensures Layers(LayerValue(q, assignments), |assignments|)(g) == GroupViability(q, assignments)(g)
    {
      AllLayers(q, g, assignments);
    }
    SumEqual(kept, Layers(LayerValue(q, assignments), |assignments|), GroupViability(q, assignments));
  }

  /** Pruned groups contribute nothing to the naive count. */
  lemma {:induction false} PrunedCountNothing(q: Question, groups: seq<Group>, assignments: seq<Assignment>)
    ensures Sum(groups, GroupViability(q, assignments)) == Sum(Kept(q, groups), GroupViability(q, assignments))
  {
    if groups != [] {
      var last := groups[|groups| - 1];
      PrunedCountNothing(q, groups[..|groups| - 1], assignments);
      if Pruned(q, last) {
        forall a | a in assignments ensures Viability(q, last)(a) == 0 { PruningIsSound(q, last, a); }
        SumZero(assignments, Viability(q, last));
      } else {
        var rest := Kept(q, groups[..|groups| - 1]);
        assert (rest + [last])[..|rest|] == rest;
      }
    }
  }

  /** Representatives of pruned groups are never viable. */
  lemma RepresentativesCountNothing(x: Exploration, q: Question, groups: seq<Group>, limit: nat)
    requires limit >= 1 && Reports(x, q, groups, limit)
    ensures ExpandedCount(q, groups, limit) <= |x.candidates|
    ensures x.viableCount == Sum(x.candidates[..ExpandedCount(q, groups, limit)], StateValue({Viable}))
  {
    var expanded := ExpandedCount(q, groups, limit);
    var tail := x.candidates[expanded..];
    forall c | c in tail ensures StateValue({Viable})(c) == 0 {
      var k :| 0 <= k < |tail| && tail[k] == c;
      RepresentativeIsNotViable(x, q, groups, limit, k);
    }
    SumZero(tail, StateValue({Viable}));
    assert x.candidates == x.candidates[..expanded] + tail;
    SumConcat(x.candidates[..expanded], tail, StateValue({Viable}));
  }

  lemma RepresentativeIsNotViable(x: Exploration, q: Question, groups: seq<Group>, limit: nat, k: nat)
    requires limit >= 1 && Reports(x, q, groups, limit)
    requires ExpandedCount(q, groups, limit) + k < |x.candidates|
    ensures x.candidates[ExpandedCount(q, groups, limit) + k].state != Viable
  {
    var g := Discarded(q, groups)[k];
    GroupsArePartitioned(q, groups);
    assert g in Discarded(q, groups);
    PruningIsSound(q, g, AssignmentsFor(q, limit)[0]);
  }

  /** Untruncated exploration is exact: the viable count is the number of viable
      combinations in the full product, every one evaluated on its own. */
  lemma UntruncatedIsExact(x: Exploration, q: Question, groups: seq<Group>, limit: nat)
    requires limit >= 1 && Reports(x, q, groups, limit) && !x.truncated
    ensures x.viableCount == Sum(groups, GroupViability(q, AllAssignments(q)))
  {
    var kept, assignments := Kept(q, groups), AssignmentsFor(q, limit);
    CoverageIsAccounted(x, q, groups, limit);
    UntruncatedSeesAll(q, groups, limit);
    RepresentativesCountNothing(x, q, groups, limit);
    PrunedCountNothing(q, groups, AllAssignments(q));
    if kept == [] {
      assert x.candidates[..0] == [];
    } else {
      TurnsCountEverything(x.candidates, q, kept, assignments, ExpandedCount(q, groups, limit));
    }
  }

  lemma {:induction false} GroupsSum(q: Question, shapes: seq<ResourceShape>, environments: seq<Option<Environment>>,
                                     assignments: seq<Assignment>)
    ensures Sum(GroupsOf(shapes, environments), GroupViability(q, assignments))
         == ViableTriples(q, shapes, environments, assignments)
  {
    if shapes != [] {
      var last := |shapes| - 1;
      GroupsSum(q, shapes[..last], environments, assignments);
      SumConcat(GroupsOf(shapes[..last], environments), GroupsOver(shapes[last], environments),
                GroupViability(q, assignments));
      GroupsOverSum(q, shapes[last], environments, assignments);
      SumEqual(shapes[..last], (s: ResourceShape) => ShapeViability(q, s, environments, assignments),
               (s: ResourceShape) => ShapeViability(q, s, environments, assignments));
    }
  }

  lemma {:induction false} GroupsOverSum(q: Question, s: ResourceShape, environments: seq<Option<Environment>>,
                                         assignments: seq<Assignment>)
    ensures Sum(GroupsOver(s, environments), GroupViability(q, assignments))
        == ShapeViability(q, s, environments, assignments)
  {
    if environments != [] {
      var last := |environments| - 1;
      GroupsOverSum(q, s, environments[..last], assignments);
      assert GroupsOver(s, environments)[..last] == GroupsOver(s, environments[..last]);
    }
  }

  /** The same in terms of what the caller passed: sorting the shapes and the
      environments does not change the number of viable combinations. */
  lemma ExplorationCountsTheProduct(x: Exploration, q: Question, shapes: seq<ResourceShape>,
                                    environments: seq<Environment>, limit: nat,
                                    shapeKey: ResourceShape -> int, environmentKey: Environment -> int)
    requires limit >= 1 && Reports(x, q, SortedGroups(shapes, environments, shapeKey, environmentKey), limit)
    requires !x.truncated
    ensures x.viableCount == ViableTriples(q, shapes, EnvironmentChoices(environments), AllAssignments(q))
    ensures x.generatedCount + x.hardPrunedCount
         == |shapes| * |EnvironmentChoices(environments)| * AssignmentCount(q)
  {
    var groups := SortedGroups(shapes, environments, shapeKey, environmentKey);
    var sorted, choices := SortByKey(shapes, shapeKey), EnvironmentChoices(SortByKey(environments, environmentKey));
    CoverageIsAccounted(x, q, groups, limit);
    UntruncatedIsExact(x, q, groups, limit);
    GroupsSum(q, sorted, choices, AllAssignments(q));
    var f := (s: ResourceShape) => ShapeViability(q, s, choices, AllAssignments(q));
    SumPermuted(sorted, shapes, f);
    ChoicesPermuted(SortByKey(environments, environmentKey), environments);
    forall s | s in shapes
      ensures f(s) == ShapeViability(q, s, EnvironmentChoices(environments), AllAssignments(q))
    {
      SumPermuted(choices, EnvironmentChoices(environments),
                  (e: Option<Environment>) => GroupViability(q, AllAssignments(q))(Group(s, e)));
    }
    SumEqual(shapes, f,
             (s: ResourceShape) => ShapeViability(q, s, EnvironmentChoices(environments), AllAssignments(q)));
  }

  lemma {:induction false} OptionsPermuted(a: seq<Environment>, b: seq<Environment>)
    requires multiset(a) == multiset(b) && a != [] && b != []
    ensures multiset(EnvironmentChoices(a)) == multiset(EnvironmentChoices(b))
  {
    forall e: Option<Environment> ensures multiset(EnvironmentChoices(a))[e] == multiset(EnvironmentChoices(b))[e] {
      OptionMultiplicity(a, e);
      OptionMultiplicity(b, e);
    }
  }

  lemma {:induction false} OptionMultiplicity(a: seq<Environment>, e: Option<Environment>)
    requires a != []
    ensures multiset(EnvironmentChoices(a))[e] == if e.Some? then multiset(a)[e.value] else 0
    decreases |a|
  {
    var last := |a| - 1;
    var choices := EnvironmentChoices(a);
    assert a == a[..last] + [a[last]];
    assert choices == choices[..last] + [choices[last]];
    if last == 0 {
      assert a == [a[0]] && choices == [Some(a[0])];
    } else {
      assert choices[..last] == EnvironmentChoices(a[..last]);
      OptionMultiplicity(a[..last], e);
    }
  }

  lemma ChoicesPermuted(a: seq<Environment>, b: seq<Environment>)
    requires multiset(a) == multiset(b)
    ensures multiset(EnvironmentChoices(a)) == multiset(EnvironmentChoices(b))
  {
    assert |a| == |multiset(a)| == |multiset(b)| == |b|;
    if a != [] { OptionsPermuted(a, b); }
  }

  // ---- a truncated report is fair ----

  /** With room for one candidate per kept group, candidate i shows group i under
      its best assignment, and no group gets two turns more than another. */
  lemma NoGroupStarves(x: Exploration, q: Question, groups: seq<Group>, limit: nat, i: nat, j: nat)
    requires limit >= |Kept(q, groups)| && limit >= 1 && Reports(x, q, groups, limit)
    requires i < |Kept(q, groups)| && j < |Kept(q, groups)|
    ensures i < |x.candidates| && AssignmentsFor(q, limit) != []
    ensures Shows(x.candidates[i], q, Kept(q, groups)[i],
                  Ranked(q, AssignmentsFor(q, limit), Kept(q, groups)[i].shape)[0])
    ensures
      var expanded, width := ExpandedCount(q, groups, limit), |Kept(q, groups)|;
      TurnsOf(i, expanded, width) >= 1 && TurnsOf(i, expanded, width) <= TurnsOf(j, expanded, width) + 1
  {
    var kept, assignments := Kept(q, groups), AssignmentsFor(q, limit);
    EveryGroupHasATurn(q, groups, limit);
    assert ShowsTurn(x.candidates[i], q, kept, assignments, i);
    FirstTurn(x.candidates[i], q, kept, assignments, i);
    BalancedTurns(ExpandedCount(q, groups, limit), |kept|, i, j);
  }

  lemma EveryGroupHasATurn(q: Question, groups: seq<Group>, limit: nat)
    requires limit >= |Kept(q, groups)| && limit >= 1
    ensures ExpandedCount(q, groups, limit) >= |Kept(q, groups)|
  {
    RoomForAll(limit, |Kept(q, groups)|, |AssignmentsFor(q, limit)|);
  }

  lemma FirstTurn(c: Candidate, q: Question, kept: seq<Group>, assignments: seq<Assignment>, i: nat)
    requires i < |kept| && ShowsTurn(c, q, kept, assignments, i)
    ensures assignments != [] && Shows(c, q, kept[i], Ranked(q, assignments, kept[i].shape)[0])
  {
    TurnIndex(0, i, |kept|);
  }

  lemma RoomForAll(limit: nat, kept: nat, assignments: nat)
    requires limit >= kept && assignments >= 1
    ensures Min(limit, kept * assignments) >= kept
  {
  }

  lemma BalancedTurns(n: nat, width: nat, i: nat, j: nat)
    requires i < width && j < width && width <= n
    ensures 1 <= TurnsOf(i, n, width) <= TurnsOf(j, n, width) + 1
  {
    TurnsAreBalanced(i, n, width);
    TurnsAreBalanced(j, n, width);
    AtLeastOneTurn(n, width);
  }

  lemma AtLeastOneTurn(n: nat, width: nat)
    requires 0 < width <= n
    ensures n / width >= 1
  {
    var q, r := n / width, n % width;
    assert n == q * width + r;
    assert q <= 0 ==> q * width <= 0;
  }

  /** A group with any viable bounded assignment shows a viable candidate first. */
  lemma ViableGroupIsSeen(q: Question, g: Group, assignments: seq<Assignment>, a: Assignment)
    requires a in assignments && StateOf(q, g, a) == Viable
    ensures StateOf(q, g, Ranked(q, assignments, g.shape)[0]) == Viable
  {
    if q.provider.Some? {
      BestComesFirst(q, assignments, g.shape, a);
      assert Priority(q, g.shape, a) == 0;
    }
  }

  /** So with that much room, reporting no viable candidate means that no
      combination of any group with a bounded assignment is viable. */
  lemma NoneReportedMeansNone(x: Exploration, q: Question, groups: seq<Group>, limit: nat, g: Group, a: Assignment)
    requires limit >= |Kept(q, groups)| && limit >= 1 && Reports(x, q, groups, limit)
    requires x.viableCount == 0 && g in groups && a in AssignmentsFor(q, limit)
    ensures StateOf(q, g, a) != Viable
  {
    GroupsArePartitioned(q, groups);
    if Pruned(q, g) {
      PruningIsSound(q, g, a);
    } else if StateOf(q, g, a) == Viable {
      var kept := Kept(q, groups);
      assert g in kept;
      var i :| 0 <= i < |kept| && kept[i] == g;
      NoGroupStarves(x, q, groups, limit, i, i);
      ViableGroupIsSeen(q, g, AssignmentsFor(q, limit), a);
      ViableCandidateCounts(x.candidates, i);
    }
  }

  lemma {:induction false} ViableCandidateCounts(candidates: seq<Candidate>, i: nat)
    requires i < |candidates| && candidates[i].state == Viable
    ensures CountState(candidates, {Viable}) >= 1
  {
    CountsArePositive(candidates[..i]);
    CountsArePositive(candidates[i + 1..]);
    var f := StateValue({Viable});
    assert candidates == candidates[..i] + [candidates[i]] + candidates[i + 1..];
    SumConcat(candidates[..i] + [candidates[i]], candidates[i + 1..], f);
    SumConcat(candidates[..i], [candidates[i]], f);
    assert [candidates[i]][..0] == [];
    assert Sum([candidates[i]], f) == Sum<Candidate>([], f) + 1;
  }

  lemma {:induction false} CountsArePositive(candidates: seq<Candidate>)
    ensures CountState(candidates, {Viable}) >= 0
  {
    if candidates != [] { CountsArePositive(candidates[..|candidates| - 1]); }
  }
}
