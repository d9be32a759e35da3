/** The declarative constraint provider of constraint_providers.py: evaluating
    constraints, enumerating parameter assignments, deriving resource hints. */
module ConstraintProviders {
  import opened Prelude
  import opened ConstraintExpressions

  /** Null stands for an absent bound or default. */
  datatype ParameterDefinition = ParameterDefinition(
    name: string, allowedValues: seq<Value>, minimum: Value, maximum: Value, default: Value)

  datatype Constraint = Constraint(id: string, operator: Operator, left: Expr, right: Expr, hard: bool)

  datatype Provider = Provider(
    parameters: seq<ParameterDefinition>, constraints: seq<Constraint>, requiresEnvironment: bool)

  datatype ConstraintState = Satisfied | Violated | Undetermined

  datatype Evaluation = Evaluation(constraintId: string, state: ConstraintState, hard: bool)

  datatype ProviderError = TypeError | LimitError

  // ---- evaluating constraints ----

  /** None when evaluating an operand raises a TypeError. */
  function Verdict(c: Constraint, parameters: Assignment, shape: Resources): Option<ConstraintState> {
    var left := Evaluate(c.left, parameters, shape);
    var right := Evaluate(c.right, parameters, shape);
    if left.Raised? || right.Raised? then None
    else if left.Unknown? || right.Unknown? then Some(Undetermined)
    else
      match Compare(c.operator, left.value, right.value)
      case None => Some(Undetermined)
      case Some(holds) => Some(if holds then Satisfied else Violated)
  }

  predicate Raises(p: Provider, parameters: Assignment, shape: Resources) {
    exists c | c in p.constraints :: Verdict(c, parameters, shape).None?
  }

  predicate HardViolated(p: Provider, parameters: Assignment, shape: Resources) {
    exists c | c in p.constraints :: c.hard && Verdict(c, parameters, shape) == Some(Violated)
  }

  predicate AnyUndetermined(p: Provider, parameters: Assignment, shape: Resources) {
    exists c | c in p.constraints :: Verdict(c, parameters, shape) == Some(Undetermined)
  }

  method EvaluateConstraints(p: Provider, parameters: Assignment, shape: Resources)
    returns (r: Result<seq<Evaluation>, ProviderError>)
    ensures r.Failure? <==> Raises(p, parameters, shape)
    ensures r.Success? ==> |r.value| == |p.constraints|
    ensures r.Success? ==> forall i | 0 <= i < |r.value| ::
      var c := p.constraints[i];
      Verdict(c, parameters, shape) == Some(r.value[i].state)
      && r.value[i].hard == c.hard && r.value[i].constraintId == c.id
  {
    var results: seq<Evaluation> := [];
    for i := 0 to |p.constraints|
      invariant |results| == i
      invariant forall k | 0 <= k < i ::
        var c := p.constraints[k];
        Verdict(c, parameters, shape) == Some(results[k].state)
        && results[k].hard == c.hard && results[k].constraintId == c.id
    {
      var constraint := p.constraints[i];
      var left := Evaluate(constraint.left, parameters, shape);
      if left.Raised? {
        assert Verdict(constraint, parameters, shape).None?;
        return Failure(TypeError);
      }
      var right := Evaluate(constraint.right, parameters, shape);
      if right.Raised? {
        assert Verdict(constraint, parameters, shape).None?;
        return Failure(TypeError);
      }
      var state;
      if left.Unknown? || right.Unknown? {
        state := Undetermined;
      } else {
        var holds := Compare(constraint.operator, left.value, right.value);
        state := if holds.None? then Undetermined else if holds.value then Satisfied else Violated;
      }
      results := results + [Evaluation(constraint.id, state, constraint.hard)];
    }
    r := Success(results);
  }

  /** What is violated before any parameter is chosen stays violated under every
      assignment; this is what makes shape-only pruning safe. */
  lemma {:induction false} ShapeOnlyViolationIsPermanent(p: Provider, parameters: Assignment, shape: Resources)
    requires HardViolated(p, map[], shape)
    ensures HardViolated(p, parameters, shape)
  {
    var c :| c in p.constraints && c.hard && Verdict(c, map[], shape) == Some(Violated);
    EvaluationIsMonotone(c.left, map[], parameters, shape);
    EvaluationIsMonotone(c.right, map[], parameters, shape);
    assert Verdict(c, parameters, shape) == Some(Violated);
  }

  // ---- enumerating parameter assignments ----

  function AddDistinct(values: seq<Value>, v: Value): seq<Value> {
    if v.Null? || exists w | w in values :: SameValue(w, v) then values else values + [v]
  }

  function CandidateValues(d: ParameterDefinition): (r: seq<Value>)
    ensures r != []
    ensures d.allowedValues == [] && !d.default.Null? ==> r[0] == d.default
  {
    if d.allowedValues != [] then d.allowedValues
    else
      var values := AddDistinct(AddDistinct(AddDistinct([], d.default), d.minimum), d.maximum);
      if values == [] then [Null] else values
  }

  function CandidateSets(ps: seq<ParameterDefinition>): (r: seq<seq<Value>>)
    ensures |r| == |ps|
    ensures forall i | 0 <= i < |r| :: r[i] == CandidateValues(ps[i])
  {
    seq(|ps|, i requires 0 <= i < |ps| => CandidateValues(ps[i]))
  }

  ghost predicate NoneEmpty(sets: seq<seq<Value>>) {
    forall i | 0 <= i < |sets| :: sets[i] != []
  }

  function CartesianSize(sets: seq<seq<Value>>): nat {
    if sets == [] then 1 else CartesianSize(sets[..|sets| - 1]) * |sets[|sets| - 1]|
  }

  lemma {:induction false} CartesianSizePositive(sets: seq<seq<Value>>)
    requires NoneEmpty(sets)
    ensures CartesianSize(sets) >= 1
  {
    if sets != [] { CartesianSizePositive(sets[..|sets| - 1]); }
  }

  lemma QuotientInRange(k: nat, blocks: nat, n: nat)
    requires k < blocks * n
    ensures n > 0 && k / n < blocks
  {
    assert n > 0;
    var q := k / n;
    assert k == q * n + k % n;
    assert q >= blocks ==> q * n >= blocks * n;
  }

  lemma OneRepresentation(q: nat, p: nat, n: nat, rest: nat, other: nat)
    requires rest < n && other < n && q * n + rest == p * n + other
    ensures p == q && rest == other
  {
    assert p < q ==> (p + 1) * n <= q * n;
    assert p > q ==> (q + 1) * n <= p * n;
  }

  lemma QuotientAndRemainder(q: nat, n: nat, rest: nat)
    requires rest < n
    ensures (q * n + rest) / n == q && (q * n + rest) % n == rest
  {
    var k := q * n + rest;
    assert k == k / n * n + k % n;
    OneRepresentation(q, k / n, n, rest, k % n);
  }

  /** The k-th tuple of the product, last component varying fastest. */
  function TupleAt(sets: seq<seq<Value>>, k: nat): (values: seq<Value>)
    requires k < CartesianSize(sets)
    ensures |values| == |sets|
  {
    if sets == [] then []
    else
      var last := |sets| - 1;
      QuotientInRange(k, CartesianSize(sets[..last]), |sets[last]|);
      TupleAt(sets[..last], k / |sets[last]|) + [sets[last][k % |sets[last]|]]
  }

  lemma IndexInRange(q: nat, blocks: nat, n: nat, digit: nat)
    requires q < blocks && digit < n
    ensures q * n + digit < blocks * n
  {
    assert (q + 1) * n <= blocks * n;
  }

  /** A choice names one position in every value set. */
  ghost predicate IsChoice(sets: seq<seq<Value>>, choice: seq<nat>) {
    |choice| == |sets| && forall i | 0 <= i < |sets| :: choice[i] < |sets[i]|
  }

  /** The index at which the product reaches a choice. */
  function RankOf(sets: seq<seq<Value>>, choice: seq<nat>): (k: nat)
    requires IsChoice(sets, choice)
    ensures k < CartesianSize(sets)
  {
    if sets == [] then 0
    else
      var last := |sets| - 1;
      var high := RankOf(sets[..last], choice[..last]);
      IndexInRange(high, CartesianSize(sets[..last]), |sets[last]|, choice[last]);
      high * |sets[last]| + choice[last]
  }

  /** Every combination is enumerated ... */
  lemma {:induction false} EveryChoiceIsReached(sets: seq<seq<Value>>, choice: seq<nat>, i: nat)
    requires IsChoice(sets, choice) && i < |sets|
    ensures TupleAt(sets, RankOf(sets, choice))[i] == sets[i][choice[i]]
  {
    var last := |sets| - 1;
    QuotientAndRemainder(RankOf(sets[..last], choice[..last]), |sets[last]|, choice[last]);
    if i < last { EveryChoiceIsReached(sets[..last], choice[..last], i); }
  }

  /** ... and every index comes from exactly one combination. */
  lemma {:induction false} EveryIndexIsAChoice(sets: seq<seq<Value>>, k: nat) returns (choice: seq<nat>)
    requires k < CartesianSize(sets)
    ensures IsChoice(sets, choice) && RankOf(sets, choice) == k
  {
    if sets == [] {
      choice := [];
    } else {
      var last := |sets| - 1;
      var n := |sets[last]|;
      var q, digit := SplitIndex(k, CartesianSize(sets[..last]), n);
      var high := EveryIndexIsAChoice(sets[..last], q);
      choice := high + [digit];
      assert choice[..last] == high && choice[last] == digit;
      forall i | 0 <= i < |sets| ensures choice[i] < |sets[i]| {
        if i < last { assert sets[..last][i] == sets[i]; }
      }
    }
  }

  lemma SplitIndex(k: nat, blocks: nat, n: nat) returns (q: nat, digit: nat)
    requires k < blocks * n
    ensures q < blocks && digit < n && k == q * n + digit
  {
    QuotientInRange(k, blocks, n);
    q, digit := k / n, k % n;
  }

  /** The dictionary built from parameters and one value for each. */
  function AssignmentFor(ps: seq<ParameterDefinition>, values: seq<Value>): Assignment
    requires |values| == |ps|
  {
    if ps == [] then map[]
    else
      var last := |ps| - 1;
      AssignmentFor(ps[..last], values[..last])[ps[last].name := values[last]]
  }

  function NamesOf(ps: seq<ParameterDefinition>): set<string> {
    if ps == [] then {} else NamesOf(ps[..|ps| - 1]) + {ps[|ps| - 1].name}
  }

  /** The k-th assignment of the product of the given value sets. */
  function AssignmentAt(ps: seq<ParameterDefinition>, sets: seq<seq<Value>>, k: nat): Assignment
    requires |sets| == |ps| && k < CartesianSize(sets)
  {
    AssignmentFor(ps, TupleAt(sets, k))
  }

  function FirstAssignments(ps: seq<ParameterDefinition>, sets: seq<seq<Value>>, count: nat): (r: seq<Assignment>)
    requires |sets| == |ps| && count <= CartesianSize(sets)
    ensures |r| == count
  {
    if count == 0 then []
    else FirstAssignments(ps, sets, count - 1) + [AssignmentAt(ps, sets, count - 1)]
  }

  lemma {:induction false} FirstAssignmentsAt(ps: seq<ParameterDefinition>, sets: seq<seq<Value>>, count: nat, k: nat)
    requires |sets| == |ps| && k < count <= CartesianSize(sets)
    ensures FirstAssignments(ps, sets, count)[k] == AssignmentAt(ps, sets, k)
  {
    if k < count - 1 { FirstAssignmentsAt(ps, sets, count - 1, k); }
  }

  function TheoreticalCount(p: Provider): (n: nat)
    ensures n >= 1
  {
    CartesianSizePositive(CandidateSets(p.parameters));
    CartesianSize(CandidateSets(p.parameters))
  }

  /** The first `limit` assignments of the product. */
  function BoundedAssignments(p: Provider, limit: nat): (r: seq<Assignment>)
    ensures |r| == Min(limit, TheoreticalCount(p))
  {
    FirstAssignments(p.parameters, CandidateSets(p.parameters), Min(limit, TheoreticalCount(p)))
  }

  method CountCombinations(sets: seq<seq<Value>>) returns (theoretical: nat)
    ensures theoretical == CartesianSize(sets)
  {
    theoretical := 1;
    for i := 0 to |sets|
      invariant theoretical == CartesianSize(sets[..i])
    {
      assert sets[..i + 1][..i] == sets[..i];
      theoretical := theoretical * |sets[i]|;
    }
    assert sets[..|sets|] == sets;
  }

  method ParameterAssignments(p: Provider, limit: int)
    returns (r: Result<(seq<Assignment>, nat), ProviderError>)
    ensures r.Failure? <==> limit < 1
    ensures r.Success? ==> r.value == (BoundedAssignments(p, limit), TheoreticalCount(p))
  {
    if limit < 1 { return Failure(LimitError); }
    var valueSets := CandidateSets(p.parameters);
    var theoretical := CountCombinations(valueSets);
    var result := Enumerate(p.parameters, valueSets, Min(limit, theoretical));
    r := Success((result, theoretical));
  }

  method Enumerate(ps: seq<ParameterDefinition>, valueSets: seq<seq<Value>>, count: nat)
    returns (result: seq<Assignment>)
    requires |valueSets| == |ps| && count <= CartesianSize(valueSets)
    ensures result == FirstAssignments(ps, valueSets, count)
  {
    result := [];
    for k := 0 to count
      invariant result == FirstAssignments(ps, valueSets, k)
    {
      var values := TupleAt(valueSets, k);
      result := result + [AssignmentFor(ps, values)];
    }
  }

  ghost predicate DistinctNames(ps: seq<ParameterDefinition>) {
    forall i, j | 0 <= i < j < |ps| :: ps[i].name != ps[j].name
  }

  lemma {:induction false} AssignmentForAt(ps: seq<ParameterDefinition>, values: seq<Value>, i: nat)
    requires |values| == |ps| && i < |ps| && DistinctNames(ps)
    ensures ps[i].name in AssignmentFor(ps, values)
    ensures AssignmentFor(ps, values)[ps[i].name] == values[i]
  {
    var last := |ps| - 1;
    if i < last {
      AssignmentForAt(ps[..last], values[..last], i);
      assert ps[i].name != ps[last].name;
    }
  }

  lemma {:induction false} AssignmentNames(ps: seq<ParameterDefinition>, values: seq<Value>)
    requires |values| == |ps|
    ensures AssignmentFor(ps, values).Keys == NamesOf(ps)
  {
    if ps != [] { AssignmentNames(ps[..|ps| - 1], values[..|ps| - 1]); }
  }

  lemma {:induction false} NameHasPosition(ps: seq<ParameterDefinition>, name: string) returns (i: nat)
    requires name in NamesOf(ps)
    ensures i < |ps| && ps[i].name == name
  {
    var last := |ps| - 1;
    if ps[last].name == name { i := last; } else { i := NameHasPosition(ps[..last], name); }
  }

  /** An assignment gives every parameter one of the values of its set. */
  ghost predicate IsAssignment(ps: seq<ParameterDefinition>, sets: seq<seq<Value>>, m: Assignment)
    requires |sets| == |ps|
  {
    m.Keys == NamesOf(ps)
    && forall i | 0 <= i < |ps| :: ps[i].name in m && m[ps[i].name] in sets[i]
  }

  /** The enumeration holds assignments only, and when the limit reaches the
      theoretical count it holds all of them. */
  lemma {:induction false} EnumerationIsComplete(p: Provider, limit: nat, m: Assignment)
    requires DistinctNames(p.parameters)
    ensures m in BoundedAssignments(p, limit) ==> IsAssignment(p.parameters, CandidateSets(p.parameters), m)
    ensures TheoreticalCount(p) <= limit && IsAssignment(p.parameters, CandidateSets(p.parameters), m)
      ==> m in BoundedAssignments(p, limit)
  {
    var ps, sets, bounded := p.parameters, CandidateSets(p.parameters), BoundedAssignments(p, limit);
    if m in bounded {
      var k :| 0 <= k < |bounded| && bounded[k] == m;
      FirstAssignmentsAt(ps, sets, |bounded|, k);
      EnumeratedIsAssignment(ps, sets, k);
    }
    if TheoreticalCount(p) <= limit && IsAssignment(ps, sets, m) {
      var k := AssignmentIsEnumerated(ps, sets, m);
      FirstAssignmentsAt(ps, sets, |bounded|, k);
      assert bounded[k] == m;
    }
  }

  lemma {:induction false} EnumeratedIsAssignment(ps: seq<ParameterDefinition>, sets: seq<seq<Value>>, k: nat)
    requires DistinctNames(ps) && |sets| == |ps| && k < CartesianSize(sets)
    ensures IsAssignment(ps, sets, AssignmentAt(ps, sets, k))
  {
    var choice := EveryIndexIsAChoice(sets, k);
    var values := TupleAt(sets, k);
    AssignmentNames(ps, values);
    forall i | 0 <= i < |ps|
      ensures ps[i].name in AssignmentFor(ps, values) && AssignmentFor(ps, values)[ps[i].name] in sets[i]
    {
      EveryChoiceIsReached(sets, choice, i);
      AssignmentForAt(ps, values, i);
    }
  }

  lemma {:induction false} AssignmentIsEnumerated(ps: seq<ParameterDefinition>, sets: seq<seq<Value>>, m: Assignment)
    returns (k: nat)
    requires DistinctNames(ps) && |sets| == |ps| && IsAssignment(ps, sets, m)
    ensures k < CartesianSize(sets) && AssignmentAt(ps, sets, k) == m
  {
    var choice: seq<nat> := seq(|ps|, i requires 0 <= i < |ps| => PositionOf(sets[i], m[ps[i].name]));
    k := RankOf(sets, choice);
    forall i | 0 <= i < |ps| ensures TupleAt(sets, k)[i] == m[ps[i].name] {
      EveryChoiceIsReached(sets, choice, i);
    }
    AssignmentDetermined(ps, sets, m, TupleAt(sets, k));
  }

  function PositionOf(values: seq<Value>, v: Value): (k: nat)
    requires v in values
    ensures k < |values| && values[k] == v
  {
    if values[0] == v then 0 else 1 + PositionOf(values[1..], v)
  }

  lemma {:induction false} AssignmentDetermined(ps: seq<ParameterDefinition>, sets: seq<seq<Value>>, m: Assignment,
                                                values: seq<Value>)
    requires DistinctNames(ps) && |sets| == |ps| == |values| && IsAssignment(ps, sets, m)
    requires forall i | 0 <= i < |values| :: values[i] == m[ps[i].name]
    ensures AssignmentFor(ps, values) == m
  {
    var built := AssignmentFor(ps, values);
    AssignmentNames(ps, values);
    forall name | name in m ensures built[name] == m[name] {
      var i := NameHasPosition(ps, name);
      AssignmentForAt(ps, values, i);
    }
  }

  // ---- resource value hints ----

  function AllowsNonPositive(r: ResourceName): bool {
    r == Gpus || r == GpusPerNode
  }

  /** The peer expression of a resource directly equated by a hard constraint. */
  ghost predicate Equates(c: Constraint, r: ResourceName, peer: Expr) {
    c.hard && c.operator == Equal && ResourcesOf(peer) == {}
    && ((c.left == Resource(r) && c.right == peer) || (c.right == Resource(r) && c.left == peer))
  }

  predicate Contributes(r: ResourceName, o: Outcome, v: int) {
    o == Known(Int(v)) && (v > 0 || AllowsNonPositive(r))
  }

  ghost predicate ContributesUnder(r: ResourceName, peer: Expr, assignments: seq<Assignment>, v: int) {
    exists k | 0 <= k < |assignments| :: Contributes(r, Evaluate(peer, assignments[k], map[]), v)
  }

  ghost predicate RaisesUnder(peer: Expr, assignments: seq<Assignment>) {
    exists k | 0 <= k < |assignments| :: Evaluate(peer, assignments[k], map[]).Raised?
  }

  /** v is justified as a value of r by one of the first n constraints. */
  ghost predicate HintedBy(cs: seq<Constraint>, assignments: seq<Assignment>, r: ResourceName, v: int) {
    exists c, peer | c in cs && Equates(c, r, peer) :: ContributesUnder(r, peer, assignments, v)
  }

  ghost predicate HintsRaise(cs: seq<Constraint>, assignments: seq<Assignment>) {
    exists c, r, peer | c in cs && Equates(c, r, peer) :: RaisesUnder(peer, assignments)
  }

  type Hints = map<ResourceName, seq<int>>

  function HintsFor(hints: Hints, r: ResourceName): seq<int> {
    if r in hints then hints[r] else []
  }

  /** One orientation of one constraint. */
  method AddHints(hints: Hints, resource: Expr, peer: Expr, assignments: seq<Assignment>)
    returns (r: Result<Hints, ProviderError>)
    requires forall name | name in hints :: hints[name] != []
    ensures r.Failure? <==> resource.Resource? && ResourcesOf(peer) == {} && RaisesUnder(peer, assignments)
    ensures r.Success? ==> forall name | name in r.value :: r.value[name] != []
    ensures r.Success? ==> forall name, v ::
      v in HintsFor(r.value, name) <==>
        v in HintsFor(hints, name)
        || (resource == Resource(name) && ResourcesOf(peer) == {} && ContributesUnder(name, peer, assignments, v))
  {
    if !resource.Resource? || ResourcesOf(peer) != {} { return Success(hints); }
    var name := resource.resource;
    var result := hints;
    for k := 0 to |assignments|
      invariant forall j | 0 <= j < k :: !Evaluate(peer, assignments[j], map[]).Raised?
      invariant forall other | other in result :: result[other] != []
      invariant forall other | other != name :: HintsFor(result, other) == HintsFor(hints, other)
      invariant forall v :: v in HintsFor(result, name) <==>
        v in HintsFor(hints, name)
        || exists j | 0 <= j < k :: Contributes(name, Evaluate(peer, assignments[j], map[]), v)
    {
      var value := Evaluate(peer, assignments[k], map[]);
      if value.Raised? { return Failure(TypeError); }
      if value.Known? && value.value.Int? && (value.value.i > 0 || AllowsNonPositive(name)) {
        result := result[name := HintsFor(result, name) + [value.value.i]];
      }
    }
    r := Success(result);
  }

  method ResourceValueHints(p: Provider, limit: int) returns (r: Result<Hints, ProviderError>)
    ensures r.Failure? <==> limit < 1 || HintsRaise(p.constraints, BoundedAssignments(p, limit))
    ensures r.Success? ==> forall name | name in r.value :: r.value[name] != [] && Ascending(r.value[name])
    ensures r.Success? ==> forall name, v ::
      v in HintsFor(r.value, name) <==> HintedBy(p.constraints, BoundedAssignments(p, limit), name, v)
  {
    var bounded := ParameterAssignments(p, limit);
    if bounded.Failure? { return Failure(bounded.error); }
    var assignments := bounded.value.0;
    var hints: Hints := map[];
    for i := 0 to |p.constraints|
      invariant forall name | name in hints :: hints[name] != []
      invariant !HintsRaise(p.constraints[..i], assignments)
      invariant forall name, v :: v in HintsFor(hints, name) <==> HintedBy(p.constraints[..i], assignments, name, v)
    {
      var c := p.constraints[i];
      ghost var before := hints;
      assert p.constraints[..i + 1] == p.constraints[..i] + [c];
      if c.hard && c.operator == Equal {
        var first := AddHints(hints, c.left, c.right, assignments);
        if first.Failure? {
          assert Equates(c, c.left.resource, c.right);
          return Failure(first.error);
        }
        var second := AddHints(first.value, c.right, c.left, assignments);
        if second.Failure? {
          assert Equates(c, c.right.resource, c.left);
          return Failure(second.error);
        }
        hints := second.value;
      }
      forall name, v ensures v in HintsFor(hints, name) <==> HintedBy(p.constraints[..i + 1], assignments, name, v) {
        HintsExtend(p.constraints[..i], c, assignments, name, v);
      }
    }
    assert p.constraints[..|p.constraints|] == p.constraints;
    r := Success(map name | name in hints :: SortedDistinct(hints[name]));
    forall name | name in r.value ensures r.value[name] != [] {
      assert hints[name][0] in r.value[name];
    }
  }

  lemma HintsExtend(cs: seq<Constraint>, c: Constraint, assignments: seq<Assignment>, r: ResourceName, v: int)
    ensures HintedBy(cs + [c], assignments, r, v) <==>
      HintedBy(cs, assignments, r, v)
      || (Equates(c, r, c.right) && ContributesUnder(r, c.right, assignments, v))
      || (Equates(c, r, c.left) && ContributesUnder(r, c.left, assignments, v))
  {
    forall d ensures d in cs + [c] <==> d in cs || d == c { }
    if Equates(c, r, c.right) && ContributesUnder(r, c.right, assignments, v) { assert c in cs + [c]; }
    if Equates(c, r, c.left) && ContributesUnder(r, c.left, assignments, v) { assert c in cs + [c]; }
  }

  /** Soundness: a hint is the value some bounded assignment forces, so that
      assignment satisfies the constraint on every shape offering the value. */
  lemma {:induction false} HintsAreSound(p: Provider, limit: nat, r: ResourceName, v: int)
    returns (c: Constraint, k: nat)
    requires HintedBy(p.constraints, BoundedAssignments(p, limit), r, v)
    ensures c in p.constraints && c.hard && k < |BoundedAssignments(p, limit)|
    ensures forall shape: Resources | Lookup(shape, r) == Known(Int(v)) ::
      Verdict(c, BoundedAssignments(p, limit)[k], shape) == Some(Satisfied)
  {
    var assignments := BoundedAssignments(p, limit);
    var peer;
    c, peer :| c in p.constraints && Equates(c, r, peer) && ContributesUnder(r, peer, assignments, v);
    k :| 0 <= k < |assignments| && Contributes(r, Evaluate(peer, assignments[k], map[]), v);
    forall shape: Resources | Lookup(shape, r) == Known(Int(v))
      ensures Verdict(c, assignments[k], shape) == Some(Satisfied)
    {
      EqualityIsMet(c, r, peer, assignments[k], shape, v);
    }
  }

  lemma EqualityIsMet(c: Constraint, r: ResourceName, peer: Expr, a: Assignment, shape: Resources, v: int)
    requires Equates(c, r, peer) && Evaluate(peer, a, map[]) == Known(Int(v))
    requires Lookup(shape, r) == Known(Int(v))
    ensures Verdict(c, a, shape) == Some(Satisfied)
  {
    EvaluationIsLocal(peer, a, a, map[], shape);
    assert Evaluate(Resource(r), a, shape) == Known(Int(v));
  }

  /** Completeness, with its exact condition: a shape value accepted by such an
      equality is contributed by that assignment precisely when the peer is not
      itself a boolean and no float occurs in it, which leaves an integer. */
  lemma {:induction false} HintsAreComplete(p: Provider, limit: nat, c: Constraint, r: ResourceName, peer: Expr,
                                            k: nat, shape: Resources, v: int)
    requires c in p.constraints && Equates(c, r, peer) && k < |BoundedAssignments(p, limit)|
    requires Lookup(shape, r) == Known(Int(v)) && (v > 0 || AllowsNonPositive(r))
    requires Verdict(c, BoundedAssignments(p, limit)[k], shape) == Some(Satisfied)
    ensures
      var a := BoundedAssignments(p, limit)[k];
      (Contributes(r, Evaluate(peer, a, map[]), v) <==> !BareBoolean(peer, a) && !FloatLeaf(peer, a))
      && (!BareBoolean(peer, a) && !FloatLeaf(peer, a) ==> HintedBy(p.constraints, BoundedAssignments(p, limit), r, v))
  {
    var a := BoundedAssignments(p, limit)[k];
    SatisfiedPeer(c, r, peer, a, shape, v);
    KindOfValue(peer, a);
    if !BareBoolean(peer, a) && !FloatLeaf(peer, a) {
      assert Evaluate(peer, a, map[]) == Known(Int(v));
      assert ContributesUnder(r, peer, BoundedAssignments(p, limit), v);
    }
  }

  /** The peer of a satisfied equality evaluates to a number equal to the shape's. */
  lemma SatisfiedPeer(c: Constraint, r: ResourceName, peer: Expr, a: Assignment, shape: Resources, v: int)
    requires Equates(c, r, peer) && Lookup(shape, r) == Known(Int(v)) && Verdict(c, a, shape) == Some(Satisfied)
    ensures Evaluate(peer, a, map[]).Known? && Numeric(Evaluate(peer, a, map[]).value)
    ensures RealOf(Evaluate(peer, a, map[]).value) == v as real
  {
    EvaluationIsLocal(peer, a, a, map[], shape);
    assert Evaluate(Resource(r), a, shape) == Known(Int(v));
  }

  /** The condition matters: `nodes == true` accepts one node but hints nothing. */
  lemma BooleanPeerHintsNothing()
    ensures
      var c := Constraint("c", Equal, Resource(Nodes), Constant(Bool(true)), true);
      var p := Provider([], [c], false);
      Verdict(c, map[], map[Nodes := Int(1)]) == Some(Satisfied)
      && BoundedAssignments(p, 1) == [map[]]
      && !HintedBy(p.constraints, BoundedAssignments(p, 1), Nodes, 1)
  {
    var c := Constraint("c", Equal, Resource(Nodes), Constant(Bool(true)), true);
    var p := Provider([], [c], false);
    assert Evaluate(c.left, map[], map[Nodes := Int(1)]) == Known(Int(1));
    assert CandidateSets(p.parameters) == [];
    assert TheoreticalCount(p) == 1;
    assert AssignmentAt(p.parameters, [], 0) == map[];
    assert BoundedAssignments(p, 1) == [map[]];
  }
}
