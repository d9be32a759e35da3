/** Judging one (shape, environment, assignment) combination, pruning a whole
    (shape, environment) group, and ranking assignments (site_planning.py). */
module PlanningCandidates {
  import opened Prelude
  import opened ResourceShapes
  import opened SitePolicy
  import Expressions = ConstraintExpressions
  import Providers = ConstraintProviders

  type Assignment = Expressions.Assignment

  datatype Environment = Environment(contextId: string, name: string, compatible: bool)

  /** The inputs that stay fixed while candidates are explored. */
  datatype Question = Question(request: Requirements, provider: Option<Providers.Provider>, claims: seq<Claim>)

  datatype Group = Group(shape: ResourceShape, environment: Option<Environment>)

  datatype Candidate = Candidate(group: Group, parameters: Assignment, state: CandidateState, reasons: seq<Reason>)

  // ---- what a candidate's state means ----

  predicate LsfUnmapped(q: Question, s: ResourceShape) {
    s.placement.scheduler == Some("lsf")
    && (q.request.memoryBytes !in {None, Some(0)} || q.request.gpus !in {None, Some(0)})
  }

  predicate EnvironmentOpen(q: Question, e: Option<Environment>) {
    if e.None? then q.provider.Some? && q.provider.value.requiresEnvironment else !e.value.compatible
  }

  predicate ConstraintBroken(q: Question, s: ResourceShape, a: Assignment) {
    q.provider.Some? && Providers.HardViolated(q.provider.value, a, ResourcesOf(s))
  }

  predicate ConstraintOpen(q: Question, s: ResourceShape, a: Assignment) {
    q.provider.Some? && Providers.AnyUndetermined(q.provider.value, a, ResourcesOf(s))
  }

  predicate ConstraintRaises(q: Question, s: ResourceShape, a: Assignment) {
    q.provider.Some? && Providers.Raises(q.provider.value, a, ResourcesOf(s))
  }

  /** Everything but the constraints that leaves a group unresolved. */
  predicate GroupOpen(q: Question, g: Group) {
    AuthorizationState(g.shape) == Unresolved || ResourcesMissing(q.request, g.shape) || LsfUnmapped(q, g.shape)
    || PolicyState(g.shape, q.claims) == Unresolved || EnvironmentOpen(q, g.environment)
  }

  /** The worst of all verdicts, each judged on its own. */
  function StateOf(q: Question, g: Group, a: Assignment): CandidateState {
    if AuthorizationState(g.shape) == HardInvalid || ResourcesShort(q.request, g.shape)
       || ConstraintBroken(q, g.shape, a) then HardInvalid
    else if PolicyState(g.shape, q.claims) == PolicyIncompatible then PolicyIncompatible
    else if GroupOpen(q, g) || ConstraintOpen(q, g.shape, a) then Unresolved
    else Viable
  }

  ghost predicate HardReason(reasons: seq<Reason>) {
    Mentions(reasons, AuthorizationRefused) || Mentions(reasons, ResourceIncompatible)
    || Mentions(reasons, ConstraintViolated)
  }

  ghost predicate OpenReason(reasons: seq<Reason>) {
    Mentions(reasons, AuthorizationUnknown) || Mentions(reasons, ResourceUnknown)
    || Mentions(reasons, PolicyUnknown) || Mentions(reasons, ConstraintUnknown)
  }

  /** The state is justified by the reasons shown to the user. */
  ghost predicate Explained(reasons: seq<Reason>, state: CandidateState) {
    && (state == HardInvalid <==> HardReason(reasons))
    && (state == PolicyIncompatible <==> !HardReason(reasons) && Mentions(reasons, PolicyExceeded))
    && (OpenReason(reasons) ==> state != Viable)
  }

  // ---- evaluating one candidate ----

  function Raised(before: CandidateState, to: CandidateState): CandidateState {
    if before == Viable then to else before
  }

  /** The constraint part: results in order, each possibly worsening the state. */
  method ApplyConstraints(p: Providers.Provider, a: Assignment, s: ResourceShape,
                          before: CandidateState, reasonsBefore: seq<Reason>)
    returns (r: Result<(CandidateState, seq<Reason>), Providers.ProviderError>)
    ensures r.Failure? <==> Providers.Raises(p, a, ResourcesOf(s))
    ensures r.Success? ==>
      var (state, reasons) := r.value;
      && state == (if Providers.HardViolated(p, a, ResourcesOf(s)) then HardInvalid
                   else if Providers.AnyUndetermined(p, a, ResourcesOf(s)) then Raised(before, Unresolved)
                   else before)
      && (forall code | code !in {ConstraintViolated, ConstraintUnknown} ::
            Mentions(reasons, code) <==> Mentions(reasonsBefore, code))
      && (Mentions(reasons, ConstraintViolated) <==>
            Mentions(reasonsBefore, ConstraintViolated) || Providers.HardViolated(p, a, ResourcesOf(s)))
      && (Mentions(reasons, ConstraintUnknown) <==>
            Mentions(reasonsBefore, ConstraintUnknown) || Providers.AnyUndetermined(p, a, ResourcesOf(s)))
  {
    var evaluated := Providers.EvaluateConstraints(p, a, ResourcesOf(s));
    if evaluated.Failure? { return Failure(evaluated.error); }
    var items := evaluated.value;
    var state, reasons := before, reasonsBefore;
    for i := 0 to |items|
      invariant state == (if BrokenIn(items[..i]) then HardInvalid
                          else if OpenIn(items[..i]) then Raised(before, Unresolved) else before)
      invariant forall code | code !in {ConstraintViolated, ConstraintUnknown} ::
        Mentions(reasons, code) <==> Mentions(reasonsBefore, code)
      invariant Mentions(reasons, ConstraintViolated)
           <==> Mentions(reasonsBefore, ConstraintViolated) || BrokenIn(items[..i])
      invariant Mentions(reasons, ConstraintUnknown)
           <==> Mentions(reasonsBefore, ConstraintUnknown) || OpenIn(items[..i])
    {
      var item := items[i];
      assert items[..i + 1] == items[..i] + [item];
      InExtended(items[..i], item);
      if item.state == Providers.Violated && item.hard {
        MentionsAdd(reasons, Reason(ConstraintViolated, item.constraintId));
        reasons := reasons + [Reason(ConstraintViolated, item.constraintId)];
        state := HardInvalid;
      } else if item.state == Providers.Undetermined {
        MentionsAdd(reasons, Reason(ConstraintUnknown, item.constraintId));
        reasons := reasons + [Reason(ConstraintUnknown, item.constraintId)];
        if state == Viable { state := Unresolved; }
      }
    }
    assert items[..|items|] == items;
    EvaluationsSummarise(p, a, ResourcesOf(s), items);
    r := Success((state, reasons));
  }

  ghost predicate BrokenIn(items: seq<Providers.Evaluation>) {
    exists x | x in items :: x.state == Providers.Violated && x.hard
  }

  ghost predicate OpenIn(items: seq<Providers.Evaluation>) {
    exists x | x in items :: x.state == Providers.Undetermined
  }

  lemma InExtended(items: seq<Providers.Evaluation>, item: Providers.Evaluation)
    ensures BrokenIn(items + [item]) <==> BrokenIn(items) || (item.state == Providers.Violated && item.hard)
    ensures OpenIn(items + [item]) <==> OpenIn(items) || item.state == Providers.Undetermined
  {
    assert forall x :: x in items + [item] <==> x in items || x == item;
  }

  /** items are the evaluations of the provider's constraints, in order. */
  ghost predicate EvaluationsOf(p: Providers.Provider, a: Assignment, resources: Expressions.Resources,
                                items: seq<Providers.Evaluation>) {
    |items| == |p.constraints|
    && forall i | 0 <= i < |items| ::
      Providers.Verdict(p.constraints[i], a, resources) == Some(items[i].state)
      && items[i].hard == p.constraints[i].hard
  }

  lemma EvaluationsSummarise(p: Providers.Provider, a: Assignment, resources: Expressions.Resources,
                             items: seq<Providers.Evaluation>)
    requires EvaluationsOf(p, a, resources, items)
    ensures BrokenIn(items) <==> Providers.HardViolated(p, a, resources)
    ensures OpenIn(items) <==> Providers.AnyUndetermined(p, a, resources)
  {
    BrokenAgrees(p, a, resources, items);
    OpenAgrees(p, a, resources, items);
  }

  lemma BrokenAgrees(p: Providers.Provider, a: Assignment, resources: Expressions.Resources,
                     items: seq<Providers.Evaluation>)
    requires EvaluationsOf(p, a, resources, items)
    ensures BrokenIn(items) <==> Providers.HardViolated(p, a, resources)
  {
    if BrokenIn(items) {
      var i :| 0 <= i < |items| && items[i].state == Providers.Violated && items[i].hard;
      assert p.constraints[i] in p.constraints;
    }
    if Providers.HardViolated(p, a, resources) {
      var c :| c in p.constraints && c.hard && Providers.Verdict(c, a, resources) == Some(Providers.Violated);
      var i :| 0 <= i < |items| && p.constraints[i] == c;
      assert items[i] in items;
    }
  }

  lemma OpenAgrees(p: Providers.Provider, a: Assignment, resources: Expressions.Resources,
                   items: seq<Providers.Evaluation>)
    requires EvaluationsOf(p, a, resources, items)
    ensures OpenIn(items) <==> Providers.AnyUndetermined(p, a, resources)
  {
    if OpenIn(items) {
      var i :| 0 <= i < |items| && items[i].state == Providers.Undetermined;
      assert p.constraints[i] in p.constraints;
    }
    if Providers.AnyUndetermined(p, a, resources) {
      var c :| c in p.constraints && Providers.Verdict(c, a, resources) == Some(Providers.Undetermined);
      var i :| 0 <= i < |items| && p.constraints[i] == c;
      assert items[i] in items;
    }
  }

  lemma MentionsJoin(a: seq<Reason>, b: seq<Reason>, c: seq<Reason>)
    ensures forall code :: Mentions(a + b + c, code) <==> Mentions(a, code) || Mentions(b, code) || Mentions(c, code)
  {
    assert forall x :: x in a + b + c <==> x in a || x in b || x in c;
  }

  /** The reasons that do not depend on the assignment; those about requested
      resources also on their own. */
  method GroupReasons(q: Question, g: Group)
    returns (reasons: seq<Reason>, requirements: seq<Reason>, policyState: CandidateState)
    ensures policyState == PolicyState(g.shape, q.claims)
    ensures Mentions(requirements, ResourceIncompatible) <==> ResourcesShort(q.request, g.shape)
    ensures Mentions(requirements, ResourceUnknown) <==> ResourcesMissing(q.request, g.shape) || LsfUnmapped(q, g.shape)
    ensures Mentions(reasons, AuthorizationRefused) <==> AuthorizationState(g.shape) == HardInvalid
    ensures Mentions(reasons, ResourceIncompatible) <==> ResourcesShort(q.request, g.shape)
    ensures Mentions(reasons, PolicyExceeded) <==> policyState == PolicyIncompatible
    ensures !Mentions(reasons, ConstraintViolated) && !Mentions(reasons, ConstraintUnknown)
    ensures Mentions(reasons, AuthorizationUnknown) <==> AuthorizationState(g.shape) == Unresolved
    ensures Mentions(reasons, ResourceUnknown) <==> ResourcesMissing(q.request, g.shape) || LsfUnmapped(q, g.shape)
    ensures Mentions(reasons, PolicyUnknown) <==> SomeProperty(g.shape, q.claims, Unresolved)
  {
    requirements := RequirementReasons(q, g.shape);
    var policyReasons;
    policyReasons, policyState := Policy(g.shape, q.claims);
    reasons := AuthorizationReasons(g.shape) + requirements + policyReasons;
    ReasonsTogether(g.shape, requirements, policyReasons);
  }

  /** Reasons of the three kinds do not get in each other's way. */
  lemma ReasonsTogether(s: ResourceShape, requirements: seq<Reason>, policyReasons: seq<Reason>)
    requires forall r | r in requirements :: r.code in {ResourceIncompatible, ResourceUnknown}
    requires forall r | r in policyReasons :: r.code in {PolicyUnknown, PolicyExceeded, PolicyConflictPreserved}
    ensures
      var all := AuthorizationReasons(s) + requirements + policyReasons;
      && (Mentions(all, AuthorizationRefused) <==> AuthorizationState(s) == HardInvalid)
      && (Mentions(all, AuthorizationUnknown) <==> AuthorizationState(s) == Unresolved)
      && (Mentions(all, ResourceIncompatible) <==> Mentions(requirements, ResourceIncompatible))
      && (Mentions(all, ResourceUnknown) <==> Mentions(requirements, ResourceUnknown))
      && (Mentions(all, PolicyExceeded) <==> Mentions(policyReasons, PolicyExceeded))
      && (Mentions(all, PolicyUnknown) <==> Mentions(policyReasons, PolicyUnknown))
      && !Mentions(all, ConstraintViolated) && !Mentions(all, ConstraintUnknown)
  {
    AuthorizationMentions(s);
    MentionsJoin(AuthorizationReasons(s), requirements, policyReasons);
    OnlyMentions(requirements, {ResourceIncompatible, ResourceUnknown});
    OnlyMentions(policyReasons, {PolicyUnknown, PolicyExceeded, PolicyConflictPreserved});
  }

  lemma OnlyMentions(reasons: seq<Reason>, codes: set<ReasonCode>)
    requires forall r | r in reasons :: r.code in codes
    ensures forall code | code !in codes :: !Mentions(reasons, code)
  {
  }

  /** The state before constraints are looked at, worsened step by step. */
  method JudgeGroup(q: Question, g: Group) returns (state: CandidateState, reasons: seq<Reason>)
    ensures state == GroupState(q, g)
    ensures Explained(reasons, state)
    ensures Mentions(reasons, PolicyExceeded) <==> PolicyState(g.shape, q.claims) == PolicyIncompatible
    ensures !Mentions(reasons, ConstraintViolated) && !Mentions(reasons, ConstraintUnknown)
  {
    var requirements, policyState;
    reasons, requirements, policyState := GroupReasons(q, g);
    var authorization := AuthorizationState(g.shape);
    state := Viable;
    if authorization == HardInvalid {
      state := HardInvalid;
    } else if authorization == Unresolved {
      state := Unresolved;
    }
    if Mentions(requirements, ResourceIncompatible) {
      state := HardInvalid;
    } else if Mentions(requirements, ResourceUnknown) {
      state := Raised(state, Unresolved);
    }
    if policyState == PolicyIncompatible && state != HardInvalid {
      state := PolicyIncompatible;
    } else if policyState == Unresolved {
      state := Raised(state, Unresolved);
    }
    if EnvironmentOpen(q, g.environment) {
      state := Raised(state, Unresolved);
    }
  }

  ghost function GroupState(q: Question, g: Group): CandidateState {
    if AuthorizationState(g.shape) == HardInvalid || ResourcesShort(q.request, g.shape) then HardInvalid
    else if PolicyState(g.shape, q.claims) == PolicyIncompatible then PolicyIncompatible
    else if GroupOpen(q, g) then Unresolved else Viable
  }

  lemma AuthorizationMentions(s: ResourceShape)
    ensures forall code :: Mentions(AuthorizationReasons(s), code) <==>
      (code == AuthorizationRefused && AuthorizationState(s) == HardInvalid)
      || (code == AuthorizationUnknown && AuthorizationState(s) == Unresolved)
  {
    var reasons := AuthorizationReasons(s);
    assert reasons != [] ==> reasons[0] in reasons;
  }

  /** Requested resources, plus what LSF has no portable mapping for. */
  method RequirementReasons(q: Question, s: ResourceShape) returns (reasons: seq<Reason>)
    ensures Mentions(reasons, ResourceIncompatible) <==> ResourcesShort(q.request, s)
    ensures Mentions(reasons, ResourceUnknown) <==> ResourcesMissing(q.request, s) || LsfUnmapped(q, s)
    ensures forall r | r in reasons :: r.code == ResourceIncompatible || r.code == ResourceUnknown
  {
    reasons := ResourceRequirements(q.request, s);
    if s.placement.scheduler == Some("lsf") {
      if q.request.memoryBytes !in {None, Some(0)} {
        MentionsAdd(reasons, Reason(ResourceUnknown, "memory"));
        reasons := reasons + [Reason(ResourceUnknown, "memory")];
      }
      if q.request.gpus !in {None, Some(0)} {
        MentionsAdd(reasons, Reason(ResourceUnknown, "GPU"));
        reasons := reasons + [Reason(ResourceUnknown, "GPU")];
      }
    }
  }

  method EvaluateCandidate(q: Question, g: Group, a: Assignment)
    returns (r: Result<Candidate, Providers.ProviderError>)
    ensures r.Failure? <==> ConstraintRaises(q, g.shape, a)
    ensures r.Success? ==> r.value.group == g && r.value.parameters == a && r.value.state == StateOf(q, g, a)
    ensures r.Success? ==> Explained(r.value.reasons, r.value.state)
  {
    var state, reasons := JudgeGroup(q, g);
    if q.provider.Some? {
      var applied := ApplyConstraints(q.provider.value, a, g.shape, state, reasons);
      if applied.Failure? { return Failure(applied.error); }
      state, reasons := applied.value.0, applied.value.1;
    }
    r := Success(Candidate(g, a, state, reasons));
  }

  // ---- pruning a group ----

  predicate Pruned(q: Question, g: Group) {
    AuthorizationState(g.shape) == HardInvalid || ResourcesShort(q.request, g.shape)
    || PolicyState(g.shape, q.claims) == PolicyIncompatible || ConstraintBroken(q, g.shape, map[])
  }

  /** Constraints are looked at only when nothing before them refuses the group. */
  predicate JudgingRaises(q: Question, g: Group) {
    !(AuthorizationState(g.shape) == HardInvalid || ResourcesShort(q.request, g.shape)
      || PolicyState(g.shape, q.claims) == PolicyIncompatible)
    && ConstraintRaises(q, g.shape, map[])
  }

  method GroupIsHardInvalid(q: Question, g: Group) returns (r: Result<bool, Providers.ProviderError>)
    ensures r.Success? ==> r.value == Pruned(q, g)
    ensures r.Failure? <==> JudgingRaises(q, g)
  {
    if AuthorizationState(g.shape) == HardInvalid { return Success(true); }
    var requirements := ResourceRequirements(q.request, g.shape);
    if exists x | x in requirements :: x.code == ResourceIncompatible {
      assert Mentions(requirements, ResourceIncompatible);
      return Success(true);
    }
    assert !Mentions(requirements, ResourceIncompatible);
    var _, policyState := Policy(g.shape, q.claims);
    if policyState == PolicyIncompatible { return Success(true); }
    if q.provider.Some? {
      var evaluated := Providers.EvaluateConstraints(q.provider.value, map[], ResourcesOf(g.shape));
      if evaluated.Failure? { return Failure(evaluated.error); }
      EvaluationsSummarise(q.provider.value, map[], ResourcesOf(g.shape), evaluated.value);
      if exists x | x in evaluated.value :: x.state == Providers.Violated && x.hard {
        assert BrokenIn(evaluated.value);
        return Success(true);
      }
      assert !BrokenIn(evaluated.value);
    }
    r := Success(false);
  }

  /** Pruning is sound: no assignment could have made a pruned group viable, or
      even unresolved. */
  lemma {:induction false} PruningIsSound(q: Question, g: Group, a: Assignment)
    requires Pruned(q, g)
    ensures StateOf(q, g, a) in {HardInvalid, PolicyIncompatible}
  {
    if ConstraintBroken(q, g.shape, map[]) {
      Providers.ShapeOnlyViolationIsPermanent(q.provider.value, a, ResourcesOf(g.shape));
    }
  }

  /** Pruning is as strong as it can be without looking at parameters: a group
      it keeps is refused under an assignment only by a constraint that was not
      already violated by the shape alone. */
  lemma KeptGroupsFailOnlyOnParameters(q: Question, g: Group, a: Assignment)
    requires !Pruned(q, g)
    ensures StateOf(q, g, a) in {HardInvalid, PolicyIncompatible} <==>
      ConstraintBroken(q, g.shape, a) && !ConstraintBroken(q, g.shape, map[])
  {
  }

  // ---- ranking assignments within a group ----

  function Priority(q: Question, s: ResourceShape, a: Assignment): int {
    if ConstraintBroken(q, s, a) then 2 else if ConstraintOpen(q, s, a) then 1 else 0
  }

  /** Feasible assignments first, undetermined next, violating last; enumeration
      order within each. Without a provider nothing is reordered. */
  function Ranked(q: Question, assignments: seq<Assignment>, s: ResourceShape): (r: seq<Assignment>)
    ensures multiset(r) == multiset(assignments) && |r| == |assignments|
  {
    if q.provider.None? then assignments else SortByKey(assignments, a => Priority(q, s, a))
  }

  method AssignmentsByFeasibility(q: Question, assignments: seq<Assignment>, s: ResourceShape)
    returns (r: Result<seq<Assignment>, Providers.ProviderError>)
    ensures r.Failure? <==> exists a | a in assignments :: ConstraintRaises(q, s, a)
    ensures r.Success? ==> r.value == Ranked(q, assignments, s)
  {
    if q.provider.None? { return Success(assignments); }
    var p := q.provider.value;
    for i := 0 to |assignments|
      invariant forall k | 0 <= k < i :: !ConstraintRaises(q, s, assignments[k])
    {
      var evaluated := Providers.EvaluateConstraints(p, assignments[i], ResourcesOf(s));
      if evaluated.Failure? {
        assert ConstraintRaises(q, s, assignments[i]);
        return Failure(evaluated.error);
      }
    }
    r := Success(SortByKey(assignments, a => Priority(q, s, a)));
  }

  /** The first assignment tried is one of the most feasible. */
  lemma {:induction false} BestComesFirst(q: Question, assignments: seq<Assignment>, s: ResourceShape, a: Assignment)
    requires q.provider.Some? && a in assignments
    ensures Priority(q, s, Ranked(q, assignments, s)[0]) <= Priority(q, s, a)
  {
    var key := (x: Assignment) => Priority(q, s, x);
    var ranked := SortByKey(assignments, key);
    SortingOrdersKeys(assignments, key);
    assert a in multiset(ranked);
    var i :| 0 <= i < |ranked| && ranked[i] == a;
    assert key(ranked[0]) <= key(ranked[i]);
    assert ranked == Ranked(q, assignments, s);
  }
}
