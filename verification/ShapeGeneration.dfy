/** Turning one scheduler target and the user's intent into bounded request
    shapes, and interleaving the targets (site_planning.py). */
module ShapeGeneration {
  import opened Prelude
  import opened Schedulers
  import opened ResourceShapes
  import opened SitePolicy
  import opened NodeWidths
  import Expressions = ConstraintExpressions
  import Providers = ConstraintProviders

  /** A discovered scheduler target; its capacity is already parsed. */
  datatype Target = Target(
    id: string, name: string, scheduler: Family, capacity: Capacity,
    architecture: Option<string>, nodeClass: Option<string>, account: Option<string>, evidence: seq<Evidence>)

  type Hints = Providers.Hints

  /** Hints for every resource but GPUs are positive. */
  ghost predicate PositiveHints(hints: Hints) {
    forall r, v | v in Providers.HintsFor(hints, r) && !Providers.AllowsNonPositive(r) :: v > 0
  }

  /** The hints a provider derives meet that condition. */
  lemma ProviderHintsArePositive(p: Providers.Provider, limit: nat, hints: Hints)
    requires forall r, v :: v in Providers.HintsFor(hints, r) <==>
      Providers.HintedBy(p.constraints, Providers.BoundedAssignments(p, limit), r, v)
    ensures PositiveHints(hints)
  {
  }

  function FamilyName(f: Family): string {
    match f case Slurm => "slurm" case Pbs => "pbs" case Lsf => "lsf"
  }

  /** The bare shape site policy is matched against before any is generated. */
  function TargetShape(t: Target): ResourceShape {
    ResourceShape(None, None, None, None, None, None, None, None, None, None, None, t.nodeClass, None,
                  Some(t.name), Placement(Some(t.id), Some(FamilyName(t.scheduler)), t.account), [])
  }

  // ---- candidate totals ----

  function Options(values: seq<int>): (r: seq<Option<int>>)
    ensures |r| == |values|
    ensures forall v :: v in r <==> v.Some? && v.value in values
  {
    if values == [] then []
    else
      assert values == [values[0]] + values[1..];
      [Some(values[0])] + Options(values[1..])
  }

  function DimensionValues(requested: Option<int>, hinted: seq<int>): seq<Option<int>> {
    if requested.Some? then [requested] else if hinted != [] then Options(hinted) else [None]
  }

  function RankValues(r: Requirements, hints: Hints): seq<Option<int>> {
    DimensionValues(r.mpiRanks, Providers.HintsFor(hints, Expressions.MpiRanks))
  }

  /** Without a request or a hint there is one CPU per rank. */
  function CpuValues(r: Requirements, hints: Hints, mpiRanks: Option<int>): seq<Option<int>> {
    var hinted := Providers.HintsFor(hints, Expressions.TotalCpus);
    if r.cpus.Some? then [r.cpus] else if hinted != [] then Options(hinted) else [mpiRanks]
  }

  predicate SharesOut(total: int, perNode: int, nodes: int) {
    perNode > 0 && total % perNode == 0 && nodes == total / perNode
  }

  function QuotientsBy(total: int, perNode: seq<int>): seq<int> {
    if perNode == [] then []
    else
      var rest := QuotientsBy(total, perNode[1..]);
      if perNode[0] > 0 && total % perNode[0] == 0 then [total / perNode[0]] + rest else rest
  }

  lemma {:induction false} QuotientsAreShares(total: int, perNode: seq<int>, v: int)
    ensures v in QuotientsBy(total, perNode) <==> exists p | p in perNode :: SharesOut(total, p, v)
  {
    if perNode != [] {
      QuotientsAreShares(total, perNode[1..], v);
      assert perNode == [perNode[0]] + perNode[1..];
      if SharesOut(total, perNode[0], v) { assert perNode[0] in perNode; }
    }
  }

  function PositiveOf(s: seq<int>): seq<int> {
    if s == [] then [] else if s[0] > 0 then [s[0]] + PositiveOf(s[1..]) else PositiveOf(s[1..])
  }

  lemma {:induction false} PositiveOfContents(s: seq<int>, v: int)
    ensures v in PositiveOf(s) <==> v in s && v > 0
  {
    if s != [] {
      PositiveOfContents(s[1..], v);
      assert s == [s[0]] + s[1..];
    }
  }

  /** A hint names v itself, or a per-node count that shares a total out over v. */
  predicate JustifiedNodes(totalCpus: Option<int>, mpiRanks: Option<int>, hints: Hints, v: int) {
    v in Providers.HintsFor(hints, Expressions.Nodes)
    || (totalCpus.Some? && exists p | p in Providers.HintsFor(hints, Expressions.CpusPerNode) ::
          SharesOut(totalCpus.value, p, v))
    || (mpiRanks.Some? && exists p | p in Providers.HintsFor(hints, Expressions.RanksPerNode) ::
          SharesOut(mpiRanks.value, p, v))
  }

  /** Node counts a provider's layout hints give; empty for none. */
  function LayoutNodes(totalCpus: Option<int>, mpiRanks: Option<int>, hints: Hints): seq<int> {
    var byCpus := if totalCpus.Some?
      then QuotientsBy(totalCpus.value, Providers.HintsFor(hints, Expressions.CpusPerNode)) else [];
    var byRanks := if mpiRanks.Some?
      then QuotientsBy(mpiRanks.value, Providers.HintsFor(hints, Expressions.RanksPerNode)) else [];
    SortedDistinct(PositiveOf(Providers.HintsFor(hints, Expressions.Nodes) + byCpus + byRanks))
  }

  /** Layout hints give exactly the positive node counts they justify directly. */
  lemma LayoutNodesAreJustified(totalCpus: Option<int>, mpiRanks: Option<int>, hints: Hints, v: int)
    ensures Ascending(LayoutNodes(totalCpus, mpiRanks, hints))
    ensures v in LayoutNodes(totalCpus, mpiRanks, hints) <==> v > 0 && JustifiedNodes(totalCpus, mpiRanks, hints, v)
  {
    var byCpus := if totalCpus.Some?
      then QuotientsBy(totalCpus.value, Providers.HintsFor(hints, Expressions.CpusPerNode)) else [];
    var byRanks := if mpiRanks.Some?
      then QuotientsBy(mpiRanks.value, Providers.HintsFor(hints, Expressions.RanksPerNode)) else [];
    PositiveOfContents(Providers.HintsFor(hints, Expressions.Nodes) + byCpus + byRanks, v);
    if totalCpus.Some? { QuotientsAreShares(totalCpus.value, Providers.HintsFor(hints, Expressions.CpusPerNode), v); }
    if mpiRanks.Some? { QuotientsAreShares(mpiRanks.value, Providers.HintsFor(hints, Expressions.RanksPerNode), v); }
  }

  // ---- one shape ----

  function Over(total: Option<int>, n: Option<int>): Option<int>
    requires n.Some? ==> n.value > 0
  {
    if total.Some? && n.Some? then Some(total.value / n.value) else None
  }

  function CpusFor(cpus: Option<int>, nodes: Option<int>): Option<int> {
    if cpus.Some? || nodes.None? then cpus else nodes
  }

  /** The divisibility tests that let a combination through. */
  predicate Even(r: Requirements, mpiRanks: Option<int>, cpus: Option<int>, nodes: Option<int>)
    requires AtLeast(nodes, 1) && AtLeast(mpiRanks, 1)
  {
    var total := CpusFor(cpus, nodes);
    (nodes.Some? ==> Splits(total, nodes.value) && Splits(mpiRanks, nodes.value)
                     && Splits(r.gpus, nodes.value) && Splits(r.memoryBytes, nodes.value))
    && (mpiRanks.Some? ==> Splits(total, mpiRanks.value))
  }

  function BuildShape(t: Target, r: Requirements, mpiRanks: Option<int>, cpus: Option<int>, nodes: Option<int>)
    : ResourceShape
    requires AtLeast(nodes, 1) && AtLeast(mpiRanks, 1)
  {
    var total := CpusFor(cpus, nodes);
    ResourceShape(
      nodes, Over(total, nodes), total, mpiRanks, Over(mpiRanks, nodes), Over(total, mpiRanks),
      r.gpus, Over(r.gpus, nodes), r.memoryBytes, Over(r.memoryBytes, nodes),
      t.architecture, t.nodeClass, r.walltimeSeconds, Some(t.name),
      TargetShape(t).placement, t.evidence)
  }

  predicate AtMost(value: Option<int>, maximum: Option<int>) {
    value.Some? && maximum.Some? ==> value.value <= maximum.value
  }

  predicate WithinCapacity(s: ResourceShape, c: Capacity) {
    AtMost(s.cpusPerNode, c.cpusPerNode) && AtMost(s.gpusPerNode, c.gpusPerNode)
    && AtMost(s.memoryPerNodeBytes, c.memoryPerNodeBytes) && AtMost(s.totalCpus, c.totalCpus)
    && AtMost(s.memoryBytes, c.memoryBytes) && AtMost(s.walltimeSeconds, c.walltimeSeconds)
  }

  predicate Accepted(t: Target, r: Requirements, mpiRanks: Option<int>, cpus: Option<int>, nodes: Option<int>)
    requires AtLeast(nodes, 1) && AtLeast(mpiRanks, 1)
  {
    Even(r, mpiRanks, cpus, nodes) && WithinCapacity(BuildShape(t, r, mpiRanks, cpus, nodes), t.capacity)
  }

  lemma ExactShare(total: int, n: int)
    requires n > 0 && Divides(n, total)
    ensures n * (total / n) == total
    ensures total >= 1 ==> total / n >= 1
    ensures total >= 0 ==> total / n >= 0
  {
    var q := total / n;
    assert total == n * q;
    assert q <= 0 ==> n * q <= 0;
    assert q <= -1 ==> n * q <= -n;
  }

  lemma ExactShareOption(total: Option<int>, n: Option<int>, least: nat)
    requires n.Some? ==> n.value > 0 && Splits(total, n.value)
    requires least <= 1 && AtLeast(total, least)
    ensures AtLeast(Over(total, n), least) && Multiplies(n, Over(total, n), total)
  {
    if total.Some? && n.Some? { ExactShare(total.value, n.value); }
  }

  /** Every combination that passes the divisibility tests is a well-formed
      shape, so building it never raises. */
  lemma EvenShapeIsWellFormed(t: Target, r: Requirements, mpiRanks: Option<int>, cpus: Option<int>, nodes: Option<int>)
    requires WellFormedRequest(r) && AtLeast(nodes, 1) && AtLeast(mpiRanks, 1) && AtLeast(cpus, 1)
    requires Even(r, mpiRanks, cpus, nodes)
    ensures WellFormed(BuildShape(t, r, mpiRanks, cpus, nodes))
  {
    var total := CpusFor(cpus, nodes);
    ExactShareOption(total, nodes, 1);
    ExactShareOption(mpiRanks, nodes, 1);
    ExactShareOption(total, mpiRanks, 1);
    ExactShareOption(r.gpus, nodes, 0);
    ExactShareOption(r.memoryBytes, nodes, 1);
  }

  // ---- all shapes of one target ----

  /** Ranks and provisional CPUs of one pass through the two outer loops. */
  datatype Combo = Combo(mpiRanks: Option<int>, cpus: Option<int>)

  function CombosFor(mpiRanks: Option<int>, cpuValues: seq<Option<int>>): (r: seq<Combo>)
    ensures |r| == |cpuValues| && forall i | 0 <= i < |r| :: r[i] == Combo(mpiRanks, cpuValues[i])
  {
    seq(|cpuValues|, i requires 0 <= i < |cpuValues| => Combo(mpiRanks, cpuValues[i]))
  }

  function CombosOver(r: Requirements, hints: Hints, rankValues: seq<Option<int>>): seq<Combo> {
    if rankValues == [] then []
    else
      var last := |rankValues| - 1;
      CombosOver(r, hints, rankValues[..last]) + CombosFor(rankValues[last], CpuValues(r, hints, rankValues[last]))
  }

  function ChoicesFor(t: Target, r: Requirements, hints: Hints, claims: seq<Claim>, limit: nat, combo: Combo)
    : Result<NodeChoices, GenerationError>
  {
    DerivedChoices(r.nodes, LayoutNodes(combo.cpus, combo.mpiRanks, hints),
                   Demand(combo.cpus, combo.mpiRanks, r.gpus, r.memoryBytes), t.capacity,
                   HardMaxNodes(TargetShape(t), claims), limit, t.scheduler == Lsf)
  }

  function NodeOptions(choices: NodeChoices): seq<Option<int>> {
    match choices case UnknownTopology => [None] case Widths(values) => Options(values)
  }

  predicate AllAtLeastOne(values: seq<Option<int>>) {
    forall v | v in values :: AtLeast(v, 1)
  }

  /** The accepted shapes of one combination, in the order of the node values. */
  function ShapesOver(t: Target, r: Requirements, combo: Combo, nodes: seq<Option<int>>): seq<ResourceShape>
    requires AtLeast(combo.mpiRanks, 1) && AllAtLeastOne(nodes)
  {
    if nodes == [] then []
    else
      var rest := ShapesOver(t, r, combo, nodes[1..]);
      if Accepted(t, r, combo.mpiRanks, combo.cpus, nodes[0])
        then [BuildShape(t, r, combo.mpiRanks, combo.cpus, nodes[0])] + rest
        else rest
  }

  lemma {:induction false} ShapesOverContents(t: Target, r: Requirements, combo: Combo, nodes: seq<Option<int>>,
                                              s: ResourceShape) returns (n: Option<int>)
    requires AtLeast(combo.mpiRanks, 1) && AllAtLeastOne(nodes) && s in ShapesOver(t, r, combo, nodes)
    ensures n in nodes && AtLeast(n, 1)
    ensures Accepted(t, r, combo.mpiRanks, combo.cpus, n) && s == BuildShape(t, r, combo.mpiRanks, combo.cpus, n)
  {
    if Accepted(t, r, combo.mpiRanks, combo.cpus, nodes[0])
       && s == BuildShape(t, r, combo.mpiRanks, combo.cpus, nodes[0]) {
      n := nodes[0];
    } else {
      n := ShapesOverContents(t, r, combo, nodes[1..], s);
    }
  }

  ghost predicate ValidCombos(combos: seq<Combo>) {
    forall c | c in combos :: AtLeast(c.mpiRanks, 1) && AtLeast(c.cpus, 1)
  }

  lemma ChoicesAreCounts(t: Target, r: Requirements, hints: Hints, claims: seq<Claim>, limit: nat, combo: Combo)
    requires AtLeast(r.nodes, 1)
    ensures
      var choices := ChoicesFor(t, r, hints, claims, limit, combo);
      choices.Success? ==> AllAtLeastOne(NodeOptions(choices.value))
    ensures
      var choices := ChoicesFor(t, r, hints, claims, limit, combo);
      choices.Success? && r.nodes.Some? ==> forall n | n in NodeOptions(choices.value) :: n == r.nodes
    ensures
      var choices := ChoicesFor(t, r, hints, claims, limit, combo);
      choices.Success? && t.scheduler != Lsf ==> choices.value.Widths?
  {
    forall v | v in LayoutNodes(combo.cpus, combo.mpiRanks, hints) ensures v > 0 {
      LayoutNodesAreJustified(combo.cpus, combo.mpiRanks, hints, v);
    }
    DerivedAreCounts(r.nodes, LayoutNodes(combo.cpus, combo.mpiRanks, hints),
                     Demand(combo.cpus, combo.mpiRanks, r.gpus, r.memoryBytes), t.capacity,
                     HardMaxNodes(TargetShape(t), claims), limit, t.scheduler == Lsf);
  }

  lemma DerivedAreCounts(requestedNodes: Option<int>, hintedNodes: seq<int>, d: Demand, c: Capacity,
                         hardMaxNodes: Option<int>, limit: nat, preserve: bool)
    requires AtLeast(requestedNodes, 1) && forall v | v in hintedNodes :: v > 0
    ensures
      var choices := DerivedChoices(requestedNodes, hintedNodes, d, c, hardMaxNodes, limit, preserve);
      choices.Success? ==>
        && (choices.value.Widths? ==> forall v | v in choices.value.values :: v > 0)
        && (requestedNodes.Some? ==>
             (choices.value.Widths? && forall v | v in choices.value.values :: v == requestedNodes.value))
        && (!preserve ==> choices.value.Widths?)
  {
  }

  /** One combination's effect on the shapes found so far. */
  function Extended(t: Target, r: Requirements, hints: Hints, claims: seq<Claim>, limit: nat,
                    combo: Combo, found: seq<ResourceShape>)
    : Result<seq<ResourceShape>, GenerationError>
    requires AtLeast(r.nodes, 1) && AtLeast(combo.mpiRanks, 1)
  {
    ChoicesAreCounts(t, r, hints, claims, limit, combo);
    match ChoicesFor(t, r, hints, claims, limit, combo)
    case Failure(e) => Failure(e)
    case Success(choices) => Success(Take(found + ShapesOver(t, r, combo, NodeOptions(choices)), limit))
  }

  type Step = (Combo, seq<ResourceShape>) -> Result<seq<ResourceShape>, GenerationError>

  /** The same as a function value; the loops only ever meet positive counts. */
  function StepFor(t: Target, r: Requirements, hints: Hints, claims: seq<Claim>, limit: nat): Step {
    (combo: Combo, found: seq<ResourceShape>) =>
      if AtLeast(r.nodes, 1) && AtLeast(combo.mpiRanks, 1) then Extended(t, r, hints, claims, limit, combo, found)
      else Failure(InvalidShape)
  }

  /** Combination after combination until the limit is reached or one fails. */
  function Accumulate(step: Step, limit: nat, combos: seq<Combo>, found: seq<ResourceShape>)
    : Result<seq<ResourceShape>, GenerationError>
    decreases |combos|
  {
    if combos == [] || |found| >= limit then Success(found)
    else
      match step(combos[0], found)
      case Failure(e) => Failure(e)
      case Success(more) => Accumulate(step, limit, combos[1..], more)
  }

  /** Accumulating a list of combinations in two parts. */
  lemma {:induction false} AccumulateConcat(step: Step, limit: nat, a: seq<Combo>, b: seq<Combo>,
                                            found: seq<ResourceShape>)
    ensures
      var first := Accumulate(step, limit, a, found);
      Accumulate(step, limit, a + b, found) ==
        if first.Failure? then first else Accumulate(step, limit, b, first.value)
    decreases |a|
  {
    if a == [] {
      assert a + b == b;
    } else if |found| < limit {
      assert (a + b)[1..] == a[1..] + b;
      if step(a[0], found).Success? { AccumulateConcat(step, limit, a[1..], b, step(a[0], found).value); }
    }
  }

  /** One more combination after a prefix that neither failed nor filled up. */
  lemma AccumulateNext(step: Step, limit: nat, a: seq<Combo>, c: Combo, b: seq<Combo>, found: seq<ResourceShape>)
    requires Accumulate(step, limit, a, found).Success? && |Accumulate(step, limit, a, found).value| < limit
    ensures
      var next := step(c, Accumulate(step, limit, a, found).value);
      && Accumulate(step, limit, a + [c], found) == next
      && (next.Failure? || |next.value| >= limit ==> Accumulate(step, limit, a + [c] + b, found) == next)
  {
    AccumulateConcat(step, limit, a, [c], found);
    AccumulateConcat(step, limit, a + [c], b, found);
  }

  /** Reference enumeration of one target's shapes. */
  function Generated(t: Target, r: Requirements, hints: Hints, claims: seq<Claim>, limit: nat)
    : Result<seq<ResourceShape>, GenerationError>
  {
    Accumulate(StepFor(t, r, hints, claims, limit), limit, AllCombos(r, hints), [])
  }

  /** What the caller passes: parsed capacity, a validated request, provider
      hints. */
  ghost predicate ValidInput(t: Target, r: Requirements, hints: Hints) {
    WellFormedRequest(r) && ValidCapacity(t.capacity) && PositiveHints(hints)
  }

  function AllCombos(r: Requirements, hints: Hints): seq<Combo> {
    CombosOver(r, hints, RankValues(r, hints))
  }

  lemma ValuesAreValid(r: Requirements, hints: Hints)
    requires WellFormedRequest(r) && PositiveHints(hints)
    ensures forall m | m in RankValues(r, hints) :: AtLeast(m, 1)
    ensures forall m, c | AtLeast(m, 1) && c in CpuValues(r, hints, m) :: AtLeast(c, 1)
  {
    assert !Providers.AllowsNonPositive(Expressions.MpiRanks) && !Providers.AllowsNonPositive(Expressions.TotalCpus);
  }

  lemma {:induction false} CombosAreValid(r: Requirements, hints: Hints, rankValues: seq<Option<int>>)
    requires WellFormedRequest(r) && PositiveHints(hints)
    requires forall m | m in rankValues :: AtLeast(m, 1)
    ensures ValidCombos(CombosOver(r, hints, rankValues))
    ensures forall c | c in CombosOver(r, hints, rankValues) ::
      c.mpiRanks in rankValues && c.cpus in CpuValues(r, hints, c.mpiRanks)
  {
    if rankValues != [] {
      var last := |rankValues| - 1;
      ValuesAreValid(r, hints);
      assert rankValues[last] in rankValues && forall m | m in rankValues[..last] :: m in rankValues;
      CombosAreValid(r, hints, rankValues[..last]);
    }
  }

  lemma ComboIsValid(r: Requirements, hints: Hints, combo: Combo)
    requires WellFormedRequest(r) && PositiveHints(hints) && combo in AllCombos(r, hints)
    ensures AtLeast(combo.mpiRanks, 1) && AtLeast(combo.cpus, 1)
    ensures r.mpiRanks.Some? ==> combo.mpiRanks == r.mpiRanks
    ensures r.cpus.Some? ==> combo.cpus == r.cpus
  {
    ValuesAreValid(r, hints);
    CombosAreValid(r, hints, RankValues(r, hints));
  }

  /** The innermost loop: one combination's node values. */
  method ExtendWithNodes(t: Target, r: Requirements, combo: Combo, nodeValues: seq<Option<int>>, limit: nat,
                         found: seq<ResourceShape>)
    returns (result: Result<seq<ResourceShape>, GenerationError>)
    requires WellFormedRequest(r) && AtLeast(combo.mpiRanks, 1) && AtLeast(combo.cpus, 1)
    requires AllAtLeastOne(nodeValues) && |found| < limit
    ensures result == Success(Take(found + ShapesOver(t, r, combo, nodeValues), limit))
  {
    var generated := found;
    for i := 0 to |nodeValues|
      invariant |generated| < limit
      invariant forall n | n in nodeValues[i..] :: n in nodeValues
      invariant found + ShapesOver(t, r, combo, nodeValues) == generated + ShapesOver(t, r, combo, nodeValues[i..])
    {
      var nodes := nodeValues[i];
      assert nodes in nodeValues && nodeValues[i..][1..] == nodeValues[i + 1..];
      if !Even(r, combo.mpiRanks, combo.cpus, nodes) { continue; }
      var shape := BuildShape(t, r, combo.mpiRanks, combo.cpus, nodes);
      EvenShapeIsWellFormed(t, r, combo.mpiRanks, combo.cpus, nodes);
      if !WellFormed(shape) { return Failure(InvalidShape); }
      if !WithinCapacity(shape, t.capacity) { continue; }
      generated := generated + [shape];
      assert found + ShapesOver(t, r, combo, nodeValues) == generated + ShapesOver(t, r, combo, nodeValues[i + 1..]);
      if |generated| == limit {
        TakeExactly(generated, ShapesOver(t, r, combo, nodeValues[i + 1..]), limit);
        return Success(generated);
      }
    }
    result := Success(generated);
  }

  lemma TakeExactly<T>(a: seq<T>, b: seq<T>, limit: nat)
    requires |a| == limit
    ensures Take(a + b, limit) == a
  {
  }

  method GenerateTargetShapes(t: Target, r: Requirements, hints: Hints, claims: seq<Claim>, limit: nat)
    returns (result: Result<seq<ResourceShape>, GenerationError>)
    requires ValidInput(t, r, hints) && limit >= 1
    ensures result == Generated(t, r, hints, claims, limit)
  {
    var rankValues := RankValues(r, hints);
    var maxNodes := HardMaxNodes(TargetShape(t), claims);
    ghost var step := StepFor(t, r, hints, claims, limit);
    ValuesAreValid(r, hints);
    var generated: seq<ResourceShape> := [];
    for i := 0 to |rankValues|
      invariant |generated| < limit
      invariant Accumulate(step, limit, CombosOver(r, hints, rankValues[..i]), []) == Success(generated)
    {
      var mpiRanks := rankValues[i];
      assert mpiRanks in rankValues;
      var cpuValues := CpuValues(r, hints, mpiRanks);
      RanksNext(r, hints, rankValues, i, step, limit, generated);
      var extended := ExtendWithCpus(t, r, hints, claims, limit, maxNodes, mpiRanks, cpuValues, generated, step);
      if extended.Failure? || |extended.value| == limit { return extended; }
      generated := extended.value;
    }
    assert rankValues[..|rankValues|] == rankValues;
    result := Success(generated);
  }

  /** One more rank count after a prefix that neither failed nor filled up. */
  lemma RanksNext(r: Requirements, hints: Hints, rankValues: seq<Option<int>>, i: nat, step: Step, limit: nat,
                  found: seq<ResourceShape>)
    requires i < |rankValues| && Accumulate(step, limit, CombosOver(r, hints, rankValues[..i]), []) == Success(found)
    ensures
      var next := Accumulate(step, limit, CombosFor(rankValues[i], CpuValues(r, hints, rankValues[i])), found);
      && Accumulate(step, limit, CombosOver(r, hints, rankValues[..i + 1]), []) == next
      && (next.Failure? || |next.value| >= limit ==>
            Accumulate(step, limit, CombosOver(r, hints, rankValues), []) == next)
  {
    var before := CombosOver(r, hints, rankValues[..i]);
    var row := CombosFor(rankValues[i], CpuValues(r, hints, rankValues[i]));
    assert rankValues[..i + 1][..i] == rankValues[..i];
    AccumulateConcat(step, limit, before, row, []);
    var rest := CombosPrefix(r, hints, rankValues, i + 1);
    AccumulateConcat(step, limit, before + row, rest, []);
  }

  lemma {:induction false} CombosPrefix(r: Requirements, hints: Hints, rankValues: seq<Option<int>>, i: nat)
    returns (rest: seq<Combo>)
    requires i <= |rankValues|
    ensures CombosOver(r, hints, rankValues) == CombosOver(r, hints, rankValues[..i]) + rest
  {
    if i == |rankValues| {
      rest := [];
      assert rankValues[..i] == rankValues;
    } else {
      var last := |rankValues| - 1;
      var before := CombosPrefix(r, hints, rankValues[..last], i);
      assert rankValues[..last][..i] == rankValues[..i];
      var tail := CombosFor(rankValues[last], CpuValues(r, hints, rankValues[last]));
      rest := before + tail;
      ConcatIsAssociative(CombosOver(r, hints, rankValues[..i]), before, tail);
    }
  }

  lemma SplitAt<T>(s: seq<T>, i: nat)
    requires i < |s|
    ensures s[..i + 1] == s[..i] + [s[i]] && s == s[..i] + [s[i]] + s[i + 1..]
  {
  }

  /** The middle loop: one rank count's CPU values. */
  method ExtendWithCpus(t: Target, r: Requirements, hints: Hints, claims: seq<Claim>, limit: nat, maxNodes: Option<int>,
                        mpiRanks: Option<int>, cpuValues: seq<Option<int>>, found: seq<ResourceShape>, ghost step: Step)
    returns (result: Result<seq<ResourceShape>, GenerationError>)
    requires ValidInput(t, r, hints) && |found| < limit && maxNodes == HardMaxNodes(TargetShape(t), claims)
    requires AtLeast(mpiRanks, 1) && forall v | v in cpuValues :: AtLeast(v, 1)
    requires step == StepFor(t, r, hints, claims, limit)
    ensures result == Accumulate(step, limit, CombosFor(mpiRanks, cpuValues), found)
    ensures result.Success? ==> |result.value| <= limit
  {
    var generated := found;
    ghost var combos := CombosFor(mpiRanks, cpuValues);
    for j := 0 to |cpuValues|
      invariant |generated| < limit
      invariant Accumulate(step, limit, combos[..j], found) == Success(generated)
    {
      assert cpuValues[j] in cpuValues;
      var combo := Combo(mpiRanks, cpuValues[j]);
      SplitAt(combos, j);
      AccumulateNext(step, limit, combos[..j], combo, combos[j + 1..], found);
      var extended := ExtendWithCombo(t, r, hints, claims, limit, maxNodes, combo, generated, step);
      if extended.Failure? || |extended.value| == limit { return extended; }
      generated := extended.value;
    }
    assert combos[..|cpuValues|] == combos;
    result := Success(generated);
  }

  method ExtendWithCombo(t: Target, r: Requirements, hints: Hints, claims: seq<Claim>, limit: nat,
                         maxNodes: Option<int>, combo: Combo, found: seq<ResourceShape>, ghost step: Step)
    returns (result: Result<seq<ResourceShape>, GenerationError>)
    requires ValidInput(t, r, hints) && |found| < limit && maxNodes == HardMaxNodes(TargetShape(t), claims)
    requires AtLeast(combo.mpiRanks, 1) && AtLeast(combo.cpus, 1)
    requires step == StepFor(t, r, hints, claims, limit)
    ensures result == step(combo, found)
    ensures result.Success? ==> |result.value| <= limit
  {
    ChoicesAreCounts(t, r, hints, claims, limit, combo);
    var choices := DerivedNodeValues(
      r.nodes, LayoutNodes(combo.cpus, combo.mpiRanks, hints),
      Demand(combo.cpus, combo.mpiRanks, r.gpus, r.memoryBytes), t.capacity, maxNodes, limit, t.scheduler == Lsf);
    if choices.Failure? { return Failure(choices.error); }
    result := ExtendWithNodes(t, r, combo, NodeOptions(choices.value), limit, found);
  }

  // ---- what every generated shape is ----

  /** The concrete, requested layout the rest of the system relies on. */
  ghost predicate FaithfulShape(t: Target, r: Requirements, s: ResourceShape) {
    WellFormed(s) && WithinCapacity(s, t.capacity)
    && !ResourcesShort(r, s) && !ResourcesMissing(r, s)
    && (r.cpus.Some? ==> s.totalCpus == r.cpus) && (r.nodes.Some? ==> s.nodes == r.nodes)
    && (r.mpiRanks.Some? ==> s.mpiRanks == r.mpiRanks)
    && s.gpus == r.gpus && s.memoryBytes == r.memoryBytes && s.walltimeSeconds == r.walltimeSeconds
    && SameTarget(s, TargetShape(t))
    && (t.scheduler != Lsf ==> s.nodes.Some?) && (s.nodes.Some? ==> CompleteLayout(s))
  }

  /** With the node count known, every total comes with its per-node share. */
  predicate CompleteLayout(s: ResourceShape) {
    s.nodes.Some? && s.totalCpus.Some? && s.cpusPerNode.Some?
    && (s.mpiRanks.Some? <==> s.ranksPerNode.Some?) && (s.mpiRanks.Some? <==> s.threadsPerRank.Some?)
    && (s.gpus.Some? <==> s.gpusPerNode.Some?) && (s.memoryBytes.Some? <==> s.memoryPerNodeBytes.Some?)
  }

  /** What the loops guarantee of a combination before its shape is built. */
  ghost predicate Chosen(t: Target, r: Requirements, combo: Combo, nodes: Option<int>) {
    AtLeast(nodes, 1) && AtLeast(combo.mpiRanks, 1) && AtLeast(combo.cpus, 1)
    && (r.nodes.Some? ==> nodes == r.nodes) && (r.mpiRanks.Some? ==> combo.mpiRanks == r.mpiRanks)
    && (r.cpus.Some? ==> combo.cpus == r.cpus) && (t.scheduler != Lsf ==> nodes.Some?)
  }

  lemma LoopsChoose(t: Target, r: Requirements, hints: Hints, claims: seq<Claim>, limit: nat,
                    combo: Combo, nodes: Option<int>)
    requires ValidInput(t, r, hints) && combo in AllCombos(r, hints)
    requires ChoicesFor(t, r, hints, claims, limit, combo).Success?
    requires nodes in NodeOptions(ChoicesFor(t, r, hints, claims, limit, combo).value)
    ensures Chosen(t, r, combo, nodes)
  {
    ComboIsValid(r, hints, combo);
    ChoicesAreCounts(t, r, hints, claims, limit, combo);
  }

  lemma AcceptedIsFaithful(t: Target, r: Requirements, combo: Combo, nodes: Option<int>)
    requires WellFormedRequest(r) && Chosen(t, r, combo, nodes)
    requires Accepted(t, r, combo.mpiRanks, combo.cpus, nodes)
    ensures FaithfulShape(t, r, BuildShape(t, r, combo.mpiRanks, combo.cpus, nodes))
  {
    EvenShapeIsWellFormed(t, r, combo.mpiRanks, combo.cpus, nodes);
    MatchesRequest(r, BuildShape(t, r, combo.mpiRanks, combo.cpus, nodes));
  }

  lemma MatchesRequest(r: Requirements, s: ResourceShape)
    requires (r.cpus.Some? ==> s.totalCpus == r.cpus) && (r.nodes.Some? ==> s.nodes == r.nodes)
    requires (r.mpiRanks.Some? ==> s.mpiRanks == r.mpiRanks)
    requires s.gpus == r.gpus && s.memoryBytes == r.memoryBytes && s.walltimeSeconds == r.walltimeSeconds
    ensures !ResourcesShort(r, s) && !ResourcesMissing(r, s)
  {
    forall d | d in Dimensions(r, s) ensures !Short(d) && !Missing(d) { }
  }

  lemma ShapesOverAreFaithful(t: Target, r: Requirements, combo: Combo, nodes: seq<Option<int>>)
    requires WellFormedRequest(r) && AtLeast(combo.mpiRanks, 1) && AllAtLeastOne(nodes)
    requires forall n | n in nodes :: Chosen(t, r, combo, n)
    ensures forall s | s in ShapesOver(t, r, combo, nodes) :: FaithfulShape(t, r, s)
  {
    forall s | s in ShapesOver(t, r, combo, nodes) ensures FaithfulShape(t, r, s) {
      var n := ShapesOverContents(t, r, combo, nodes, s);
      AcceptedIsFaithful(t, r, combo, n);
    }
  }

  lemma OnlyZeroGpusFail(t: Target, r: Requirements, hints: Hints, claims: seq<Claim>, limit: nat, combo: Combo)
    requires ValidCapacity(t.capacity)
    ensures
      var choices := ChoicesFor(t, r, hints, claims, limit, combo);
      choices.Failure? ==>
        choices.error == ZeroDivision && t.capacity.gpusPerNode == Some(0) && r.gpus.Some? && r.nodes.None?
  {
  }

  lemma ExtendedIsFaithful(t: Target, r: Requirements, hints: Hints, claims: seq<Claim>, limit: nat,
                           combo: Combo, found: seq<ResourceShape>)
    requires ValidInput(t, r, hints) && combo in AllCombos(r, hints)
    requires forall s | s in found :: FaithfulShape(t, r, s)
    ensures AtLeast(combo.mpiRanks, 1)
    ensures
      var extended := Extended(t, r, hints, claims, limit, combo, found);
      if extended.Success? then |extended.value| <= limit && forall s | s in extended.value :: FaithfulShape(t, r, s)
      else extended.error == ZeroDivision && t.capacity.gpusPerNode == Some(0) && r.gpus.Some? && r.nodes.None?
  {
    ComboIsValid(r, hints, combo);
    var choices := ChoicesFor(t, r, hints, claims, limit, combo);
    ChoicesAreCounts(t, r, hints, claims, limit, combo);
    OnlyZeroGpusFail(t, r, hints, claims, limit, combo);
    if choices.Success? {
      var nodes := NodeOptions(choices.value);
      forall n | n in nodes ensures Chosen(t, r, combo, n) { LoopsChoose(t, r, hints, claims, limit, combo, n); }
      ShapesOverAreFaithful(t, r, combo, nodes);
      var all := found + ShapesOver(t, r, combo, nodes);
      assert forall s | s in all :: FaithfulShape(t, r, s);
    }
  }

  lemma {:induction false} AccumulatedIsFaithful(
    t: Target, r: Requirements, hints: Hints, claims: seq<Claim>, limit: nat,
    combos: seq<Combo>, found: seq<ResourceShape>)
    requires ValidInput(t, r, hints) && forall c | c in combos :: c in AllCombos(r, hints)
    requires |found| <= limit && forall s | s in found :: FaithfulShape(t, r, s)
    ensures
      var g := Accumulate(StepFor(t, r, hints, claims, limit), limit, combos, found);
      if g.Success? then |g.value| <= limit && forall s | s in g.value :: FaithfulShape(t, r, s)
      else g.error == ZeroDivision && t.capacity.gpusPerNode == Some(0) && r.gpus.Some? && r.nodes.None?
    decreases |combos|
  {
    if combos != [] && |found| < limit {
      ExtendedIsFaithful(t, r, hints, claims, limit, combos[0], found);
      var extended := StepFor(t, r, hints, claims, limit)(combos[0], found);
      if extended.Success? {
        assert forall c | c in combos[1..] :: c in combos;
        AccumulatedIsFaithful(t, r, hints, claims, limit, combos[1..], extended.value);
      }
    }
  }

  /** Every generated shape is well formed, within observed capacity and equal
      to each explicit request, so no later check calls it incompatible; and
      generation fails only by dividing by a zero GPU count. */
  lemma GeneratorIsFaithful(t: Target, r: Requirements, hints: Hints, claims: seq<Claim>, limit: nat)
    requires ValidInput(t, r, hints)
    ensures
      var g := Generated(t, r, hints, claims, limit);
      if g.Success? then |g.value| <= limit && forall s | s in g.value :: FaithfulShape(t, r, s)
      else g.error == ZeroDivision && t.capacity.gpusPerNode == Some(0) && r.gpus.Some? && r.nodes.None?
  {
    AccumulatedIsFaithful(t, r, hints, claims, limit, AllCombos(r, hints), []);
  }

  // ---- exactly when generation fails ----

  /** The target lists no GPU, GPUs are mentioned, and nothing global decides the
      node count first. */
  predicate GpusUnanswerable(t: Target, r: Requirements, claims: seq<Claim>) {
    t.capacity.gpusPerNode == Some(0) && r.gpus.Some? && r.nodes.None?
    && WithinCap(1, HardMaxNodes(TargetShape(t), claims))
  }

  predicate Unhinted(hints: Hints, combo: Combo) {
    LayoutNodes(combo.cpus, combo.mpiRanks, hints) == []
  }

  /** How many shapes the hinted node counts of a combination give. */
  function HintedCount(t: Target, r: Requirements, hints: Hints, claims: seq<Claim>, limit: nat, combo: Combo): nat {
    var nodes := Options(Take(WithinCapOnly(SortedDistinct(LayoutNodes(combo.cpus, combo.mpiRanks, hints)),
                                            HardMaxNodes(TargetShape(t), claims)), limit));
    if AtLeast(combo.mpiRanks, 1) && AllAtLeastOne(nodes) then |ShapesOver(t, r, combo, nodes)| else 0
  }

  /** A combination that stops the enumeration comes up while there is still room:
      the ones before it leave some. */
  ghost predicate ComesUp(combos: seq<Combo>, stops: Combo -> bool, shapes: Combo -> nat, room: int)
    decreases |combos|
  {
    combos != [] && room > 0 && (stops(combos[0]) || ComesUp(combos[1..], stops, shapes, room - shapes(combos[0])))
  }

  ghost function UnhintedOf(hints: Hints): Combo -> bool {
    (combo: Combo) => Unhinted(hints, combo)
  }

  ghost function HintedCounts(t: Target, r: Requirements, hints: Hints, claims: seq<Claim>, limit: nat): Combo -> nat {
    (combo: Combo) => HintedCount(t, r, hints, claims, limit, combo)
  }

  /** What a step does: it fails exactly on a stopping combination, and otherwise
      adds that combination's shapes as far as there is room. */
  ghost predicate StepsLike(step: Step, limit: nat, broken: bool, stops: Combo -> bool, shapes: Combo -> nat,
                            combo: Combo, found: seq<ResourceShape>)
  {
    (step(combo, found).Failure? <==> broken && stops(combo))
    && (step(combo, found).Success? ==> |step(combo, found).value| <= limit)
    && (broken && !stops(combo) ==> |step(combo, found).value| == Min(limit, |found| + shapes(combo)))
  }

  ghost predicate AllStepLike(step: Step, limit: nat, broken: bool, stops: Combo -> bool, shapes: Combo -> nat,
                              combos: seq<Combo>)
  {
    forall c, f | c in combos && |f| < limit :: StepsLike(step, limit, broken, stops, shapes, c, f)
  }

  lemma {:induction false} AccumulationFailsExactly(step: Step, limit: nat, broken: bool, stops: Combo -> bool,
                                                    shapes: Combo -> nat, combos: seq<Combo>, found: seq<ResourceShape>)
    requires AllStepLike(step, limit, broken, stops, shapes, combos)
    requires |found| <= limit
    ensures Accumulate(step, limit, combos, found).Failure?
       <==> broken && ComesUp(combos, stops, shapes, limit - |found|)
    decreases |combos|
  {
    if combos != [] && |found| < limit {
      assert StepsLike(step, limit, broken, stops, shapes, combos[0], found);
      if step(combos[0], found).Success? {
        var more := step(combos[0], found).value;
        assert forall c | c in combos[1..] :: c in combos;
        AccumulationFailsExactly(step, limit, broken, stops, shapes, combos[1..], more);
        if broken && |found| + shapes(combos[0]) > limit {
          NoRoomLeft(combos[1..], stops, shapes, limit - |more|);
          NoRoomLeft(combos[1..], stops, shapes, limit - |found| - shapes(combos[0]));
        }
      }
    }
  }

  lemma FailsExactly(step: Step, limit: nat, broken: bool, stops: Combo -> bool, shapes: Combo -> nat,
                     combos: seq<Combo>)
    requires AllStepLike(step, limit, broken, stops, shapes, combos)
    ensures Accumulate(step, limit, combos, []).Failure? <==> broken && ComesUp(combos, stops, shapes, limit)
  {
    AccumulationFailsExactly(step, limit, broken, stops, shapes, combos, []);
  }

  lemma NoRoomLeft(combos: seq<Combo>, stops: Combo -> bool, shapes: Combo -> nat, room: int)
    requires room <= 0
    ensures !ComesUp(combos, stops, shapes, room)
  {
  }

  lemma ChoicesFailExactly(t: Target, r: Requirements, hints: Hints, claims: seq<Claim>, limit: nat, combo: Combo)
    requires ValidInput(t, r, hints) && AtLeast(combo.mpiRanks, 1) && AtLeast(combo.cpus, 1)
    ensures ChoicesFor(t, r, hints, claims, limit, combo).Failure?
       <==> GpusUnanswerable(t, r, claims) && Unhinted(hints, combo)
    ensures GpusUnanswerable(t, r, claims) && !Unhinted(hints, combo) ==>
      ChoicesFor(t, r, hints, claims, limit, combo)
      == Success(Widths(Take(WithinCapOnly(SortedDistinct(LayoutNodes(combo.cpus, combo.mpiRanks, hints)),
                                           HardMaxNodes(TargetShape(t), claims)), limit)))
  {
    ZeroGpuTargetFails(r.nodes, LayoutNodes(combo.cpus, combo.mpiRanks, hints),
                       Demand(combo.cpus, combo.mpiRanks, r.gpus, r.memoryBytes), t.capacity,
                       HardMaxNodes(TargetShape(t), claims), limit, t.scheduler == Lsf);
  }

  lemma ExtendedCounts(t: Target, r: Requirements, hints: Hints, claims: seq<Claim>, limit: nat, combo: Combo,
                       found: seq<ResourceShape>)
    requires ValidInput(t, r, hints) && AtLeast(combo.mpiRanks, 1) && AtLeast(combo.cpus, 1)
    ensures
      var extended := Extended(t, r, hints, claims, limit, combo, found);
      && (extended.Failure? <==> GpusUnanswerable(t, r, claims) && Unhinted(hints, combo))
      && (extended.Success? ==> |extended.value| <= limit)
      && (GpusUnanswerable(t, r, claims) && !Unhinted(hints, combo) ==>
            |extended.value| == Min(limit, |found| + HintedCount(t, r, hints, claims, limit, combo)))
  {
    ChoicesAreCounts(t, r, hints, claims, limit, combo);
    ChoicesFailExactly(t, r, hints, claims, limit, combo);
  }

  lemma GeneratorSteps(t: Target, r: Requirements, hints: Hints, claims: seq<Claim>, limit: nat, combo: Combo,
                       found: seq<ResourceShape>)
    requires ValidInput(t, r, hints) && combo in AllCombos(r, hints) && |found| < limit
    ensures StepsLike(StepFor(t, r, hints, claims, limit), limit, GpusUnanswerable(t, r, claims), UnhintedOf(hints),
                      HintedCounts(t, r, hints, claims, limit), combo, found)
  {
    ComboIsValid(r, hints, combo);
    ExtendedCounts(t, r, hints, claims, limit, combo, found);
    assert StepFor(t, r, hints, claims, limit)(combo, found) == Extended(t, r, hints, claims, limit, combo, found);
  }

  lemma AllGeneratorSteps(t: Target, r: Requirements, hints: Hints, claims: seq<Claim>, limit: nat)
    requires ValidInput(t, r, hints)
    ensures AllStepLike(StepFor(t, r, hints, claims, limit), limit, GpusUnanswerable(t, r, claims), UnhintedOf(hints),
                        HintedCounts(t, r, hints, claims, limit), AllCombos(r, hints))
  {
    forall c, f: seq<ResourceShape> | c in AllCombos(r, hints) && |f| < limit
      ensures StepsLike(StepFor(t, r, hints, claims, limit), limit, GpusUnanswerable(t, r, claims), UnhintedOf(hints),
                        HintedCounts(t, r, hints, claims, limit), c, f)
    {
      GeneratorSteps(t, r, hints, claims, limit, c, f);
    }
  }

  /** Generation fails exactly when the target cannot answer the GPU request and a
      combination without layout hints comes up before the limit is reached. */
  lemma GeneratorFailsExactly(t: Target, r: Requirements, hints: Hints, claims: seq<Claim>, limit: nat)
    requires ValidInput(t, r, hints)
    ensures Generated(t, r, hints, claims, limit).Failure?
       <==> GpusUnanswerable(t, r, claims)
            && ComesUp(AllCombos(r, hints), UnhintedOf(hints), HintedCounts(t, r, hints, claims, limit), limit)
  {
    AllGeneratorSteps(t, r, hints, claims, limit);
    FailsExactly(StepFor(t, r, hints, claims, limit), limit, GpusUnanswerable(t, r, claims), UnhintedOf(hints),
                 HintedCounts(t, r, hints, claims, limit), AllCombos(r, hints));
  }

  /** Without layout hints the first combination already fails. */
  lemma UnhintedGeneratorFailsExactly(t: Target, r: Requirements, hints: Hints, claims: seq<Claim>, limit: nat)
    requires ValidInput(t, r, hints) && limit >= 1
    requires Providers.HintsFor(hints, Expressions.Nodes) == []
    requires Providers.HintsFor(hints, Expressions.CpusPerNode) == []
    requires Providers.HintsFor(hints, Expressions.RanksPerNode) == []
    ensures Generated(t, r, hints, claims, limit).Failure? <==> GpusUnanswerable(t, r, claims)
  {
    GeneratorFailsExactly(t, r, hints, claims, limit);
    var ranks := RankValues(r, hints);
    var last := ranks[|ranks| - 1];
    var tail := CombosFor(last, CpuValues(r, hints, last));
    assert AllCombos(r, hints) == CombosOver(r, hints, ranks[..|ranks| - 1]) + tail && tail != [];
    NoLayoutNodes(hints, AllCombos(r, hints)[0]);
  }

  lemma NoLayoutNodes(hints: Hints, combo: Combo)
    requires Providers.HintsFor(hints, Expressions.Nodes) == []
    requires Providers.HintsFor(hints, Expressions.CpusPerNode) == []
    requires Providers.HintsFor(hints, Expressions.RanksPerNode) == []
    ensures Unhinted(hints, combo)
  {
    var nodes := LayoutNodes(combo.cpus, combo.mpiRanks, hints);
    if nodes != [] { LayoutNodesAreJustified(combo.cpus, combo.mpiRanks, hints, nodes[0]); }
  }

  /** The enumeration loses nothing below its limit: shapes found stay, and every
      accepted shape of every combination is among them. */
  lemma {:induction false} GeneratorIsComplete(
    t: Target, r: Requirements, hints: Hints, claims: seq<Claim>, limit: nat,
    combos: seq<Combo>, found: seq<ResourceShape>, combo: Combo, s: ResourceShape)
    requires AtLeast(r.nodes, 1) && AtLeast(combo.mpiRanks, 1)
    requires Accumulate(StepFor(t, r, hints, claims, limit), limit, combos, found).Success?
    requires |Accumulate(StepFor(t, r, hints, claims, limit), limit, combos, found).value| < limit
    requires s in found || (combo in combos && InCombo(t, r, hints, claims, limit, combo, s))
    ensures s in Accumulate(StepFor(t, r, hints, claims, limit), limit, combos, found).value
    decreases |combos|
  {
    var step := StepFor(t, r, hints, claims, limit);
    if combos != [] {
      GrowsOnly(t, r, hints, claims, limit, combos, found);
      var more := step(combos[0], found).value;
      GrowsOnly(t, r, hints, claims, limit, combos[1..], more);
      assert AtLeast(combos[0].mpiRanks, 1);
      ChoicesAreCounts(t, r, hints, claims, limit, combos[0]);
      var shapes := ShapesOver(t, r, combos[0], NodeOptions(ChoicesFor(t, r, hints, claims, limit, combos[0]).value));
      assert more == found + shapes;
      if combo != combos[0] && combo in combos { assert combo in combos[1..]; }
      GeneratorIsComplete(t, r, hints, claims, limit, combos[1..], more, combo, s);
    }
  }

  /** s is an accepted shape of the combination. */
  ghost predicate InCombo(t: Target, r: Requirements, hints: Hints, claims: seq<Claim>, limit: nat,
                          combo: Combo, s: ResourceShape)
    requires AtLeast(combo.mpiRanks, 1)
  {
    var choices := ChoicesFor(t, r, hints, claims, limit, combo);
    choices.Success? && AllAtLeastOne(NodeOptions(choices.value))
    && s in ShapesOver(t, r, combo, NodeOptions(choices.value))
  }

  lemma {:induction false} GrowsOnly(t: Target, r: Requirements, hints: Hints, claims: seq<Claim>, limit: nat,
                                     combos: seq<Combo>, found: seq<ResourceShape>)
    requires Accumulate(StepFor(t, r, hints, claims, limit), limit, combos, found).Success?
    requires |found| <= limit
    ensures |Accumulate(StepFor(t, r, hints, claims, limit), limit, combos, found).value| >= |found|
    decreases |combos|
  {
    if combos != [] && |found| < limit {
      var more := StepFor(t, r, hints, claims, limit)(combos[0], found).value;
      GrowsOnly(t, r, hints, claims, limit, combos[1..], more);
    }
  }

  // ---- interleaving targets ----

  /** Layer by layer, in target order within a layer. */
  ghost predicate EarlierTurn(layer: nat, target: nat, layer': nat, target': nat) {
    layer < layer' || (layer == layer' && target < target')
  }

  datatype Turn = Turn(layer: nat, target: nat)

  /** Round-robin over the targets' shape lists, cut at the limit. The ghost
      turns say which shape each output position shows: turns strictly advance
      and none is skipped, so a target gets its k-th shape before any target
      gets its (k+1)-th. */
  method InterleaveTargets(perTarget: seq<seq<ResourceShape>>, limit: nat)
    returns (shapes: seq<ResourceShape>, ghost turns: seq<Turn>)
    requires limit >= 1
    ensures |shapes| <= limit && forall s | s in shapes :: exists t | 0 <= t < |perTarget| :: s in perTarget[t]
    ensures |shapes| < limit ==> forall t, s | 0 <= t < |perTarget| && s in perTarget[t] :: s in shapes
    ensures |shapes| == |turns|
    ensures forall k | 0 <= k < |turns| ::
      turns[k].target < |perTarget| && turns[k].layer < |perTarget[turns[k].target]|
      && shapes[k] == perTarget[turns[k].target][turns[k].layer]
    ensures forall j, k | 0 <= j < k < |turns| ::
      EarlierTurn(turns[j].layer, turns[j].target, turns[k].layer, turns[k].target)
    ensures forall layer: nat, target: nat | target < |perTarget| && layer < |perTarget[target]| ::
      Turn(layer, target) in turns
      || (|shapes| == limit && forall k | 0 <= k < |turns| ::
            EarlierTurn(turns[k].layer, turns[k].target, layer, target))
  {
    shapes, turns := [], [];
    var longest := 0;
    for i := 0 to |perTarget|
      invariant 0 <= longest && forall t | 0 <= t < i :: |perTarget[t]| <= longest
    {
      longest := Max(longest, |perTarget[i]|);
    }
    for layer := 0 to longest
      invariant |shapes| == |turns| < limit
      invariant TurnsSound(perTarget, shapes, turns) && TurnsUpTo(perTarget, turns, layer, 0)
    {
      for target := 0 to |perTarget|
        invariant |shapes| == |turns| < limit
        invariant TurnsSound(perTarget, shapes, turns) && TurnsUpTo(perTarget, turns, layer, target)
      {
        if layer < |perTarget[target]| {
          TurnTaken(perTarget, shapes, turns, layer, target);
          shapes := shapes + [perTarget[target][layer]];
          turns := turns + [Turn(layer, target)];
          if |shapes| == limit {
            TurnsReached(perTarget, turns, layer, target + 1);
            return;
          }
        }
      }
    }
    AllTurnsTaken(perTarget, shapes, turns, longest);
  }

  lemma AllTurnsTaken(perTarget: seq<seq<ResourceShape>>, shapes: seq<ResourceShape>, turns: seq<Turn>, longest: nat)
    requires |shapes| == |turns| && TurnsSound(perTarget, shapes, turns) && TurnsUpTo(perTarget, turns, longest, 0)
    requires forall t | 0 <= t < |perTarget| :: |perTarget[t]| <= longest
    ensures forall t, s | 0 <= t < |perTarget| && s in perTarget[t] :: s in shapes
  {
    forall t: nat, s | t < |perTarget| && s in perTarget[t] ensures s in shapes {
      var l :| 0 <= l < |perTarget[t]| && perTarget[t][l] == s;
      assert EarlierTurn(l, t, longest, 0);
      assert Turn(l, t) in turns;
    }
  }

  ghost predicate TurnsSound(perTarget: seq<seq<ResourceShape>>, shapes: seq<ResourceShape>, turns: seq<Turn>)
    requires |shapes| == |turns|
  {
    && (forall k | 0 <= k < |turns| ::
          turns[k].target < |perTarget| && turns[k].layer < |perTarget[turns[k].target]|
          && shapes[k] == perTarget[turns[k].target][turns[k].layer])
    && (forall j, k | 0 <= j < k < |turns| ::
          EarlierTurn(turns[j].layer, turns[j].target, turns[k].layer, turns[k].target))
  }

  /** Exactly the existing turns before (layer, target) have been taken. */
  ghost predicate TurnsUpTo(perTarget: seq<seq<ResourceShape>>, turns: seq<Turn>, layer: nat, target: nat) {
    && (forall l: nat, t: nat | t < |perTarget| && l < |perTarget[t]| && EarlierTurn(l, t, layer, target) ::
          Turn(l, t) in turns)
    && (forall k | 0 <= k < |turns| :: EarlierTurn(turns[k].layer, turns[k].target, layer, target))
  }

  lemma TurnTaken(perTarget: seq<seq<ResourceShape>>, shapes: seq<ResourceShape>, turns: seq<Turn>,
                  layer: nat, target: nat)
    requires |shapes| == |turns| && TurnsSound(perTarget, shapes, turns) && TurnsUpTo(perTarget, turns, layer, target)
    requires target < |perTarget| && layer < |perTarget[target]|
    ensures TurnsSound(perTarget, shapes + [perTarget[target][layer]], turns + [Turn(layer, target)])
    ensures TurnsUpTo(perTarget, turns + [Turn(layer, target)], layer, target + 1)
  {
    var more := turns + [Turn(layer, target)];
    assert more[|turns|] == Turn(layer, target);
    forall l: nat, t: nat | t < |perTarget| && l < |perTarget[t]| && EarlierTurn(l, t, layer, target + 1)
      ensures Turn(l, t) in more
    {
      if EarlierTurn(l, t, layer, target) { assert Turn(l, t) in turns; }
    }
  }

  lemma TurnsReached(perTarget: seq<seq<ResourceShape>>, turns: seq<Turn>, layer: nat, target: nat)
    requires TurnsUpTo(perTarget, turns, layer, target)
    ensures forall l: nat, t: nat | t < |perTarget| && l < |perTarget[t]| && Turn(l, t) !in turns ::
      forall k | 0 <= k < |turns| :: EarlierTurn(turns[k].layer, turns[k].target, l, t)
  {
    forall l: nat, t: nat, k | t < |perTarget| && l < |perTarget[t]| && Turn(l, t) !in turns && 0 <= k < |turns|
      ensures EarlierTurn(turns[k].layer, turns[k].target, l, t)
    {
      assert !EarlierTurn(l, t, layer, target);
    }
  }
}
