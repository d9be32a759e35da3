/** Choosing how many nodes a request may be spread over: divisor enumeration,
    capacity bounds and the hard node cap (site_planning.py). */
module NodeWidths {
  import opened Prelude
  import opened ResourceShapes
  import opened SitePolicy

  predicate Divides(d: int, n: int)
    requires d > 0
  {
    n % d == 0
  }

  // ---- divisibility ----

  lemma CofactorDivides(d: nat, n: nat)
    requires d > 0 && n > 0 && Divides(d, n)
    ensures n / d > 0 && (n / d) * d == n && Divides(n / d, n) && n / (n / d) == d && d <= n
  {
    var q := n / d;
    assert q * d == n;
    assert q > 0;
    MultipleDivides(d, q);
    assert d * q == n;
  }

  lemma MultipleDivides(k: nat, d: nat)
    requires d > 0
    ensures (k * d) % d == 0 && (k * d) / d == k
  {
    var q, r := (k * d) / d, (k * d) % d;
    assert k * d == q * d + r;
    var gap: int := k - q;
    assert gap * d == r;
    assert gap >= 1 ==> gap * d >= d;
    assert gap <= -1 ==> gap * d < 0;
  }

  lemma DividesDifference(d: nat, a: nat, b: nat)
    requires d > 0 && a <= b && Divides(d, a)
    ensures Divides(d, b) <==> Divides(d, b - a)
  {
    var qa := a / d;
    assert a == qa * d;
    if Divides(d, b) {
      var qb := b / d;
      assert b == qb * d;
      assert b - a == (qb - qa) * d;
      assert qb >= qa by { assert qb < qa ==> qb * d < qa * d; }
      MultipleDivides(qb - qa, d);
    }
    if Divides(d, b - a) {
      var q := (b - a) / d;
      assert b - a == q * d;
      assert b == (q + qa) * d;
      MultipleDivides(q + qa, d);
    }
  }

  function Gcd(a: nat, b: nat): (g: nat)
    requires a > 0 && b > 0
    ensures 0 < g <= a && g <= b
    decreases a + b
  {
    if a == b then a else if a < b then Gcd(a, b - a) else Gcd(a - b, b)
  }

  lemma {:induction false} GcdDivisors(d: nat, a: nat, b: nat)
    requires d > 0 && a > 0 && b > 0
    ensures Divides(d, Gcd(a, b)) <==> Divides(d, a) && Divides(d, b)
    decreases a + b
  {
    if a < b {
      GcdDivisors(d, a, b - a);
      if Divides(d, a) { DividesDifference(d, a, b); }
    } else if b < a {
      GcdDivisors(d, a - b, b);
      if Divides(d, b) { DividesDifference(d, b, a); }
    }
  }

  ghost predicate AllPositive(values: seq<int>) {
    forall i | 0 <= i < |values| :: values[i] > 0
  }

  function GcdAll(values: seq<int>): (g: nat)
    requires values != [] && AllPositive(values)
    ensures 0 < g <= values[0]
  {
    if |values| == 1 then values[0] else Gcd(values[0], GcdAll(values[1..]))
  }

  lemma {:induction false} GcdAllDivisors(d: nat, values: seq<int>)
    requires d > 0 && values != [] && AllPositive(values)
    ensures Divides(d, GcdAll(values)) <==> forall v | v in values :: Divides(d, v)
  {
    assert values == [values[0]] + values[1..];
    if |values| > 1 {
      GcdAllDivisors(d, values[1..]);
      GcdDivisors(d, values[0], GcdAll(values[1..]));
    }
  }

  function IntegerSquareRoot(n: nat): (r: nat)
    ensures r * r <= n < (r + 1) * (r + 1)
  {
    if n == 0 then 0
    else
      var r := IntegerSquareRoot(n - 1);
      if (r + 1) * (r + 1) <= n then r + 1 else r
  }

  lemma ProductsAreMonotone(a: nat, b: nat, c: nat, d: nat)
    requires a <= b && c <= d
    ensures a * c <= b * d
  {
    assert a * c <= b * c <= b * d;
  }

  lemma FactorsUpToRoot(value: nat, root: nat, d: nat, q: nat)
    requires q * d == value && root * root <= value && d <= root && q <= root
    ensures q == d
  {
    ProductsAreMonotone(q, root, d, root);
    if q < root { ProductsAreMonotone(q + 1, root, d, root); }
    if d < root { ProductsAreMonotone(q, root, d + 1, root); }
  }

  lemma FactorsBeyondRoot(value: nat, root: nat, d: nat, q: nat)
    requires q * d == value < (root + 1) * (root + 1)
    ensures d <= root || q <= root
  {
    if d > root && q > root { ProductsAreMonotone(root + 1, q, root + 1, d); }
  }

  /** Divisors up to the square root pair off with the divisors from it on. */
  lemma CofactorAcrossRoot(value: nat, root: nat, d: nat)
    requires value > 0 && root * root <= value < (root + 1) * (root + 1)
    requires d > 0 && Divides(d, value)
    ensures d <= root ==> value / d > root || value / d == d
    ensures d > root ==> value / d <= root
  {
    CofactorDivides(d, value);
    FactorsBeyondRoot(value, root, d, value / d);
    if d <= root && value / d <= root { FactorsUpToRoot(value, root, d, value / d); }
  }

  /** Larger divisors have smaller cofactors. */
  lemma CofactorsReverse(value: nat, u: nat, v: nat)
    requires value > 0 && u > 0 && v > 0 && Divides(u, value) && Divides(v, value)
    requires value / u < value / v
    ensures u > v
  {
    CofactorDivides(u, value);
    CofactorDivides(v, value);
    if u <= v {
      ProductsAreMonotone(value / u + 1, value / v, u, v);
    }
  }

  ghost predicate Descending(s: seq<int>) {
    forall i, j | 0 <= i < j < |s| :: s[i] > s[j]
  }

  function Reversed(s: seq<int>): (r: seq<int>)
    ensures |r| == |s| && forall i | 0 <= i < |s| :: r[i] == s[|s| - 1 - i]
  {
    if s == [] then [] else Reversed(s[1..]) + [s[0]]
  }

  lemma ReversedContents(s: seq<int>, v: int)
    ensures v in Reversed(s) <==> v in s
  {
    if v in s {
      var i :| 0 <= i < |s| && s[i] == v;
      assert Reversed(s)[|s| - 1 - i] == v;
    }
  }

  /** A divisor beyond the root whose cofactor has been tried. */
  ghost predicate IsUpper(value: nat, root: nat, tried: nat, u: int) {
    root < u <= value && Divides(u, value) && value / u < tried
  }

  lemma CofactorIsUpper(value: nat, root: nat, candidate: nat)
    requires value > 0 && 0 < candidate <= root && Divides(candidate, value)
    requires value / candidate > root || value / candidate == candidate
    ensures value / candidate == candidate <==> !IsUpper(value, root, candidate + 1, value / candidate)
  {
    CofactorDivides(candidate, value);
    CofactorDivides(value / candidate, value);
  }

  lemma UpperStep(value: nat, root: nat, candidate: nat, u: int)
    requires value > 0 && 0 < candidate && IsUpper(value, root, candidate + 1, u)
    ensures IsUpper(value, root, candidate, u) || (Divides(candidate, value) && u == value / candidate)
    ensures IsUpper(value, root, candidate, u) && Divides(candidate, value) ==> u > value / candidate
  {
    CofactorDivides(u, value);
    if IsUpper(value, root, candidate, u) && Divides(candidate, value) {
      CofactorDivides(candidate, value);
      CofactorsReverse(value, u, value / candidate);
    }
  }

  /** The divisors found once every candidate below `tried` has been tried. */
  ghost predicate Found(value: nat, root: nat, tried: nat, lower: seq<int>, upper: seq<int>) {
    && Ascending(lower) && Descending(upper)
    && (forall d :: d in lower <==> 0 < d < tried && Divides(d, value))
    && (forall u :: u in upper <==> IsUpper(value, root, tried, u))
  }

  lemma FoundDivisor(value: nat, root: nat, candidate: nat, lower: seq<int>, upper: seq<int>)
    requires value > 0 && root * root <= value < (root + 1) * (root + 1)
    requires 0 < candidate <= root && Divides(candidate, value)
    requires Found(value, root, candidate, lower, upper)
    ensures
      var paired := value / candidate;
      Found(value, root, candidate + 1, lower + [candidate], if paired != candidate then upper + [paired] else upper)
  {
    var paired := value / candidate;
    var upper' := if paired != candidate then upper + [paired] else upper;
    CofactorAcrossRoot(value, root, candidate);
    CofactorIsUpper(value, root, candidate);
    assert forall i | 0 <= i < |lower| :: lower[i] in lower;
    forall i | 0 <= i < |upper| ensures upper[i] > paired {
      assert upper[i] in upper;
      UpperStep(value, root, candidate, upper[i]);
    }
    forall u ensures u in upper' <==> IsUpper(value, root, candidate + 1, u) {
      if IsUpper(value, root, candidate + 1, u) { UpperStep(value, root, candidate, u); }
    }
  }

  lemma FoundNothing(value: nat, root: nat, candidate: nat, lower: seq<int>, upper: seq<int>)
    requires value > 0 && 0 < candidate && !Divides(candidate, value)
    requires Found(value, root, candidate, lower, upper)
    ensures Found(value, root, candidate + 1, lower, upper)
  {
    forall u ensures u in upper <==> IsUpper(value, root, candidate + 1, u) {
      if IsUpper(value, root, candidate + 1, u) { UpperStep(value, root, candidate, u); }
    }
  }

  lemma FoundEverything(value: nat, root: nat, lower: seq<int>, upper: seq<int>)
    requires value > 0 && Found(value, root, root + 1, lower, upper)
    requires forall d | 0 < d <= value && Divides(d, value) :: d <= root || value / d <= root
    ensures Ascending(lower + Reversed(upper))
    ensures forall d :: d in lower + Reversed(upper) <==> 0 < d <= value && Divides(d, value)
  {
    assert forall i | 0 <= i < |lower| :: lower[i] in lower;
    assert forall i | 0 <= i < |upper| :: upper[i] in upper;
    forall d ensures d in lower + Reversed(upper) <==> 0 < d <= value && Divides(d, value) {
      ReversedContents(upper, d);
      if d in lower { CofactorDivides(d, value); }
    }
  }

  /** Trial division up to the square root, collecting cofactors on the way. */
  method PositiveDivisors(value: nat) returns (divisors: seq<int>)
    requires value > 0
    ensures Ascending(divisors)
    ensures forall d :: d in divisors <==> 0 < d <= value && Divides(d, value)
  {
    var root := IntegerSquareRoot(value);
    var lower: seq<int>, upper: seq<int> := [], [];
    for candidate := 1 to root + 1
      invariant Found(value, root, candidate, lower, upper)
    {
      if value % candidate == 0 {
        FoundDivisor(value, root, candidate, lower, upper);
        lower := lower + [candidate];
        var paired := value / candidate;
        if paired != candidate {
          upper := upper + [paired];
        }
      } else {
        FoundNothing(value, root, candidate, lower, upper);
      }
    }
    forall d | 0 < d <= value && Divides(d, value) ensures d <= root || value / d <= root {
      CofactorAcrossRoot(value, root, d);
    }
    FoundEverything(value, root, lower, upper);
    divisors := lower + Reversed(upper);
  }

  // ---- the hard node cap ----

  /** Claims about `max_nodes` as the generator reads them: one common floor, or
      no cap when a claim is not a number or floors disagree. */
  function HardMaxNodes(target: ResourceShape, claims: seq<Claim>): Option<int> {
    var applicable := Applicable(claims, target, MaxNodes);
    if applicable == [] || !AllNumeric(applicable) then None
    else if forall c | c in applicable :: c.value.r.Floor == applicable[0].value.r.Floor
      then Some(applicable[0].value.r.Floor)
    else None
  }

  /** Shapes of one target: same class, node class and account. */
  predicate SameTarget(s: ResourceShape, t: ResourceShape) {
    s.schedulerClass == t.schedulerClass && s.nodeClass == t.nodeClass
    && s.placement.account == t.placement.account
  }

  lemma {:induction false} SameClaimsApply(claims: seq<Claim>, s: ResourceShape, t: ResourceShape, p: Property)
    requires SameTarget(s, t)
    ensures Applicable(claims, s, p) == Applicable(claims, t, p)
  {
    if claims != [] { SameClaimsApply(claims[..|claims| - 1], s, t, p); }
  }

  lemma FloorBound(n: int, r: real)
    ensures n > r.Floor <==> n as real > r
  {
  }

  /** The cap the generator filters by is exactly the policy verdict: a node
      count above it is refused by `max_nodes`, a count within it is not. */
  lemma HardCapIsPolicy(target: ResourceShape, s: ResourceShape, claims: seq<Claim>, nodes: int)
    requires SameTarget(s, target) && s.nodes == Some(nodes)
    requires HardMaxNodes(target, claims).Some?
    ensures nodes > HardMaxNodes(target, claims).value
       <==> PropertyState(Applicable(claims, s, MaxNodes), s.nodes) == PolicyIncompatible
    ensures nodes > HardMaxNodes(target, claims).value ==> PolicyState(s, claims) == PolicyIncompatible
  {
    var cap := HardMaxNodes(target, claims).value;
    SameClaimsApply(claims, s, target, MaxNodes);
    var items := Applicable(claims, s, MaxNodes);
    assert items[0] in items;
    forall c | c in items ensures Exceeds(nodes, c) <==> nodes > cap {
      FloorBound(nodes, c.value.r);
    }
    assert Exceeds(nodes, items[0]) <==> nodes > cap;
    assert MaxNodes in POLICY_PROPERTIES;
    assert Limited(MaxNodes, s) == s.nodes;
  }

  // ---- node counts for one combination of totals ----

  datatype Capacity = Capacity(
    cpusPerNode: Option<int>, gpusPerNode: Option<int>, memoryPerNodeBytes: Option<int>,
    totalCpus: Option<int>, memoryBytes: Option<int>, walltimeSeconds: Option<int>)

  datatype Demand = Demand(totalCpus: Option<int>, mpiRanks: Option<int>, gpus: Option<int>, memoryBytes: Option<int>)

  /** Python's `(None,)`, or a tuple of node counts. */
  datatype NodeChoices = UnknownTopology | Widths(values: seq<int>)

  datatype GenerationError = ZeroDivision | InvalidShape | LimitOutOfRange

  predicate ValidDemand(d: Demand) {
    AtLeast(d.totalCpus, 1) && AtLeast(d.mpiRanks, 1) && AtLeast(d.gpus, 0) && AtLeast(d.memoryBytes, 1)
  }

  /** What discovery guarantees: a GPU count may be zero, the others may not. */
  predicate ValidCapacity(c: Capacity) {
    AtLeast(c.cpusPerNode, 1) && AtLeast(c.gpusPerNode, 0) && AtLeast(c.memoryPerNodeBytes, 1)
  }

  predicate Splits(total: Option<int>, n: int)
    requires n > 0
  {
    total.Some? ==> Divides(n, total.value)
  }

  predicate ShareFits(total: Option<int>, perNode: Option<int>, n: int)
    requires n > 0
  {
    total.Some? && perNode.Some? ==> total.value / n <= perNode.value
  }

  predicate WithinCap(n: int, hardMaxNodes: Option<int>) {
    hardMaxNodes.Some? ==> n <= hardMaxNodes.value
  }

  /** n nodes divide every total, hold their shares and respect the cap. */
  predicate IsWidth(d: Demand, c: Capacity, hardMaxNodes: Option<int>, n: int) {
    n > 0
    && Splits(d.totalCpus, n) && Splits(d.mpiRanks, n) && Splits(d.gpus, n) && Splits(d.memoryBytes, n)
    && ShareFits(d.totalCpus, c.cpusPerNode, n) && ShareFits(d.gpus, c.gpusPerNode, n)
    && ShareFits(d.memoryBytes, c.memoryPerNodeBytes, n)
    && WithinCap(n, hardMaxNodes)
  }

  /** The naive enumeration: try every count up to a bound. */
  function WidthsUpTo(d: Demand, c: Capacity, hardMaxNodes: Option<int>, bound: nat): (r: seq<int>)
    ensures Ascending(r)
    ensures forall n :: n in r <==> 0 < n <= bound && IsWidth(d, c, hardMaxNodes, n)
  {
    if bound == 0 then []
    else
      var rest := WidthsUpTo(d, c, hardMaxNodes, bound - 1);
      assert forall i | 0 <= i < |rest| :: rest[i] in rest;
      if IsWidth(d, c, hardMaxNodes, bound) then rest + [bound] else rest
  }

  predicate Known(total: Option<int>, perNode: Option<int>) {
    total.Some? && perNode.Some?
  }

  predicate DividesByZero(d: Demand, c: Capacity) {
    (Known(d.totalCpus, c.cpusPerNode) && c.cpusPerNode.value == 0)
    || (Known(d.gpus, c.gpusPerNode) && c.gpusPerNode.value == 0)
    || (Known(d.memoryBytes, c.memoryPerNodeBytes) && c.memoryPerNodeBytes.value == 0)
  }

  predicate SomeBound(d: Demand, c: Capacity) {
    Known(d.totalCpus, c.cpusPerNode) || Known(d.gpus, c.gpusPerNode) || Known(d.memoryBytes, c.memoryPerNodeBytes)
  }

  function PositiveTotals(totals: seq<Option<int>>): (r: seq<int>)
    ensures AllPositive(r)
    ensures forall v :: v in r <==> v > 0 && Some(v) in totals
  {
    if totals == [] then []
    else
      assert totals == [totals[0]] + totals[1..];
      var rest := PositiveTotals(totals[1..]);
      if totals[0].Some? && totals[0].value > 0 then [totals[0].value] + rest else rest
  }

  function Aggregates(d: Demand): seq<int> {
    PositiveTotals([d.totalCpus, d.mpiRanks, d.gpus])
  }

  function WithinCapOnly(s: seq<int>, hardMaxNodes: Option<int>): (r: seq<int>)
    ensures forall v :: v in r <==> v in s && WithinCap(v, hardMaxNodes)
  {
    if s == [] then []
    else
      assert s == [s[0]] + s[1..];
      (if WithinCap(s[0], hardMaxNodes) then [s[0]] else []) + WithinCapOnly(s[1..], hardMaxNodes)
  }

  /** Reference semantics of `_derived_node_values`; an empty `hintedNodes` is
      the absent hint. */
  function DerivedChoices(requestedNodes: Option<int>, hintedNodes: seq<int>, d: Demand, c: Capacity,
                          hardMaxNodes: Option<int>, limit: nat, preserveUnknownTopology: bool)
    : Result<NodeChoices, GenerationError>
  {
    if hardMaxNodes.Some? && hardMaxNodes.value < 1 then Success(Widths([]))
    else if requestedNodes.Some? then Success(Widths([requestedNodes.value]))
    else if hintedNodes != [] then
      Success(Widths(Take(WithinCapOnly(SortedDistinct(hintedNodes), hardMaxNodes), limit)))
    else if DividesByZero(d, c) then Failure(ZeroDivision)
    else if !SomeBound(d, c) || Aggregates(d) == [] then
      Success(if preserveUnknownTopology then UnknownTopology else Widths([1]))
    else
      Success(Widths(Take(WidthsUpTo(d, c, hardMaxNodes, Max(Aggregates(d)[0], 0)), limit)))
  }

  /** `math.ceil(total / per_node)`, or zero when either is unknown. */
  function Needed(total: Option<int>, perNode: Option<int>): int
    requires Known(total, perNode) ==> perNode.value > 0
  {
    if Known(total, perNode) then (total.value + perNode.value - 1) / perNode.value else 0
  }

  lemma CeilingBound(total: nat, perNode: nat, n: nat)
    requires perNode > 0
    ensures (total + perNode - 1) / perNode <= n <==> total <= n * perNode
  {
    var m := total + perNode - 1;
    var q := m / perNode;
    assert m == q * perNode + m % perNode;
    assert q <= n ==> q * perNode <= n * perNode;
    assert q >= n + 1 ==> q * perNode >= (n + 1) * perNode;
  }

  lemma ShareBound(total: nat, perNode: nat, n: nat)
    requires n > 0 && Divides(n, total)
    ensures total <= n * perNode <==> total / n <= perNode
  {
    var q := total / n;
    assert total == q * n;
    assert q <= perNode ==> q * n <= perNode * n;
    assert q >= perNode + 1 ==> q * n >= (perNode + 1) * n;
  }

  /** The ceiling bound and the per-node share say the same of a divisor. */
  lemma NeededIsShare(total: Option<int>, perNode: Option<int>, n: nat)
    requires n > 0 && Splits(total, n) && AtLeast(total, 0) && AtLeast(perNode, 1)
    ensures Needed(total, perNode) <= n <==> ShareFits(total, perNode, n)
  {
    if Known(total, perNode) {
      CeilingBound(total.value, perNode.value, n);
      ShareBound(total.value, perNode.value, n);
    }
  }

  lemma PositiveTotalsDivisors(totals: seq<Option<int>>, n: nat)
    requires n > 0 && forall t | t in totals :: AtLeast(t, 0)
    ensures (forall v | v in PositiveTotals(totals) :: Divides(n, v)) <==> (forall t | t in totals :: Splits(t, n))
  {
    var values := PositiveTotals(totals);
    if forall v | v in values :: Divides(n, v) {
      forall t | t in totals ensures Splits(t, n) {
        if t.Some? && t.value > 0 { assert t.value in values; }
      }
    }
    if forall t | t in totals :: Splits(t, n) {
      forall v | v in values ensures Divides(n, v) { assert Some(v) in totals; }
    }
  }

  lemma AggregateDivisors(d: Demand, n: nat)
    requires ValidDemand(d) && n > 0 && Aggregates(d) != []
    ensures Divides(n, GcdAll(Aggregates(d))) <==>
      Splits(d.totalCpus, n) && Splits(d.mpiRanks, n) && Splits(d.gpus, n)
  {
    var totals := [d.totalCpus, d.mpiRanks, d.gpus];
    GcdAllDivisors(n, Aggregates(d));
    PositiveTotalsDivisors(totals, n);
    assert forall t :: t in totals <==> t == d.totalCpus || t == d.mpiRanks || t == d.gpus;
  }

  /** Minimum, divisibility and cap together are exactly the width condition. */
  lemma DivisorIsWidth(d: Demand, c: Capacity, hardMaxNodes: Option<int>, n: nat)
    requires ValidDemand(d) && ValidCapacity(c) && !DividesByZero(d, c) && n > 0 && Aggregates(d) != []
    ensures IsWidth(d, c, hardMaxNodes, n) <==>
      Divides(n, GcdAll(Aggregates(d)))
      && Needed(d.totalCpus, c.cpusPerNode) <= n && Needed(d.gpus, c.gpusPerNode) <= n
      && Needed(d.memoryBytes, c.memoryPerNodeBytes) <= n
      && WithinCap(n, hardMaxNodes) && Splits(d.memoryBytes, n)
  {
    AggregateDivisors(d, n);
    if Splits(d.totalCpus, n) { NeededIsShare(d.totalCpus, c.cpusPerNode, n); }
    if Splits(d.memoryBytes, n) { NeededIsShare(d.memoryBytes, c.memoryPerNodeBytes, n); }
    if Splits(d.gpus, n) {
      if Known(d.gpus, c.gpusPerNode) { NeededIsShare(d.gpus, c.gpusPerNode, n); }
    }
  }

  method DerivedNodeValues(requestedNodes: Option<int>, hintedNodes: seq<int>, d: Demand, c: Capacity,
                           hardMaxNodes: Option<int>, limit: nat, preserveUnknownTopology: bool)
    returns (r: Result<NodeChoices, GenerationError>)
    requires ValidDemand(d) && ValidCapacity(c)
    ensures r == DerivedChoices(requestedNodes, hintedNodes, d, c, hardMaxNodes, limit, preserveUnknownTopology)
  {
    if hardMaxNodes.Some? && hardMaxNodes.value < 1 { return Success(Widths([])); }
    if requestedNodes.Some? { return Success(Widths([requestedNodes.value])); }
    if hintedNodes != [] {
      return Success(Widths(Take(WithinCapOnly(SortedDistinct(hintedNodes), hardMaxNodes), limit)));
    }
    if DividesByZero(d, c) { return Failure(ZeroDivision); }
    var aggregates := Aggregates(d);
    if !SomeBound(d, c) || aggregates == [] {
      if preserveUnknownTopology { return Success(UnknownTopology); }
      return Success(Widths([1]));
    }
    var minimumNodes := Max(1, Max(Needed(d.totalCpus, c.cpusPerNode),
      Max(Needed(d.gpus, c.gpusPerNode), Needed(d.memoryBytes, c.memoryPerNodeBytes))));
    var divisors := PositiveDivisors(GcdAll(aggregates));
    var values := SelectWidths(d, c, hardMaxNodes, divisors, minimumNodes);
    FeasibleAscending(d, c, hardMaxNodes, divisors);
    WidthsAreComplete(d, c, hardMaxNodes, divisors, values);
    r := Success(Widths(Take(values, limit)));
  }

  function FeasibleOf(d: Demand, c: Capacity, hardMaxNodes: Option<int>, s: seq<int>): (r: seq<int>)
    ensures forall n :: n in r <==> n in s && IsWidth(d, c, hardMaxNodes, n)
  {
    if s == [] then []
    else
      var last := |s| - 1;
      assert s == s[..last] + [s[last]];
      var rest := FeasibleOf(d, c, hardMaxNodes, s[..last]);
      if IsWidth(d, c, hardMaxNodes, s[last]) then rest + [s[last]] else rest
  }

  lemma {:induction false} FeasibleAscending(d: Demand, c: Capacity, hardMaxNodes: Option<int>, s: seq<int>)
    requires Ascending(s)
    ensures Ascending(FeasibleOf(d, c, hardMaxNodes, s))
  {
    if s != [] {
      var rest := FeasibleOf(d, c, hardMaxNodes, s[..|s| - 1]);
      FeasibleAscending(d, c, hardMaxNodes, s[..|s| - 1]);
      forall k | 0 <= k < |rest| ensures rest[k] < s[|s| - 1] { assert rest[k] in rest; }
    }
  }

  method SelectWidths(d: Demand, c: Capacity, hardMaxNodes: Option<int>, divisors: seq<int>, minimumNodes: int)
    returns (values: seq<int>)
    requires ValidDemand(d) && ValidCapacity(c) && !DividesByZero(d, c) && Aggregates(d) != []
    requires forall n | n in divisors :: n > 0 && Divides(n, GcdAll(Aggregates(d)))
    requires minimumNodes == Max(1, Max(Needed(d.totalCpus, c.cpusPerNode),
      Max(Needed(d.gpus, c.gpusPerNode), Needed(d.memoryBytes, c.memoryPerNodeBytes))))
    ensures values == FeasibleOf(d, c, hardMaxNodes, divisors)
  {
    values := [];
    for i := 0 to |divisors|
      invariant values == FeasibleOf(d, c, hardMaxNodes, divisors[..i])
    {
      var nodes := divisors[i];
      assert nodes in divisors && divisors[..i + 1][..i] == divisors[..i];
      DivisorIsWidth(d, c, hardMaxNodes, nodes);
      if nodes >= minimumNodes && WithinCap(nodes, hardMaxNodes) && Splits(d.memoryBytes, nodes) {
        values := values + [nodes];
      }
    }
    assert divisors[..|divisors|] == divisors;
  }

  lemma WidthsAreComplete(d: Demand, c: Capacity, hardMaxNodes: Option<int>, divisors: seq<int>, values: seq<int>)
    requires ValidDemand(d) && ValidCapacity(c) && !DividesByZero(d, c) && Aggregates(d) != []
    requires forall n :: n in divisors <==> 0 < n <= GcdAll(Aggregates(d)) && Divides(n, GcdAll(Aggregates(d)))
    requires Ascending(values)
    requires forall n :: n in values <==> n in divisors && IsWidth(d, c, hardMaxNodes, n)
    ensures values == WidthsUpTo(d, c, hardMaxNodes, Max(Aggregates(d)[0], 0))
  {
    var expected := WidthsUpTo(d, c, hardMaxNodes, Max(Aggregates(d)[0], 0));
    forall n ensures n in values <==> n in expected {
      if n > 0 && IsWidth(d, c, hardMaxNodes, n) {
        DivisorIsWidth(d, c, hardMaxNodes, n);
        CofactorDivides(n, GcdAll(Aggregates(d)));
      }
    }
    AscendingUnique(values, expected);
  }

  /** Automatic widths are exact: ascending, every one feasible, and a feasible
      count is missing only if the limit was reached below it. */
  lemma AutomaticWidthsAreExact(d: Demand, c: Capacity, hardMaxNodes: Option<int>, limit: nat, preserve: bool)
    requires ValidDemand(d) && ValidCapacity(c) && !DividesByZero(d, c) && SomeBound(d, c) && Aggregates(d) != []
    requires hardMaxNodes.Some? ==> hardMaxNodes.value >= 1
    ensures
      var r := DerivedChoices(None, [], d, c, hardMaxNodes, limit, preserve);
      && r.Success? && r.value.Widths? && |r.value.values| <= limit && Ascending(r.value.values)
      && (forall n | n in r.value.values :: IsWidth(d, c, hardMaxNodes, n))
      && (forall n | IsWidth(d, c, hardMaxNodes, n) && n !in r.value.values ::
            |r.value.values| == limit && forall v | v in r.value.values :: v < n)
  {
    var aggregates := Aggregates(d);
    var all := WidthsUpTo(d, c, hardMaxNodes, Max(aggregates[0], 0));
    var values := Take(all, limit);
    forall v | v in values ensures v in all { }
    forall n | IsWidth(d, c, hardMaxNodes, n) && n !in values
      ensures |values| == limit && forall v | v in values :: v < n
    {
      DivisorIsWidth(d, c, hardMaxNodes, n);
      CofactorDivides(n, GcdAll(aggregates));
      assert n in all;
      var i :| 0 <= i < |all| && all[i] == n;
      assert forall j | 0 <= j < |values| :: values[j] == all[j] && values[j] in values;
      assert i >= |values|;
      forall v | v in values ensures v < n {
        var j :| 0 <= j < |values| && values[j] == v;
        assert all[j] == v;
      }
    }
  }

  /** The division fails exactly for a target whose generic resources list no GPU
      and a request that mentions GPUs, even a request for zero of them, when neither
      a node count, a layout hint nor a cap below one decides first. */
  lemma ZeroGpuTargetFails(requestedNodes: Option<int>, hintedNodes: seq<int>, d: Demand, c: Capacity,
                           hardMaxNodes: Option<int>, limit: nat, preserve: bool)
    requires ValidDemand(d) && ValidCapacity(c)
    ensures DerivedChoices(requestedNodes, hintedNodes, d, c, hardMaxNodes, limit, preserve).Failure?
       <==> WithinCap(1, hardMaxNodes) && requestedNodes.None? && hintedNodes == []
            && c.gpusPerNode == Some(0) && d.gpus.Some?
  {
  }

  /** A shape of unknown topology is lost to the cap exactly when the cap is below
      one and topology would have stayed unknown without it: nothing requested or
      hinted, unknown kept, no division by zero, no bound or no total to divide. */
  lemma CapDropsUnknownTopology(target: ResourceShape, claims: seq<Claim>, requestedNodes: Option<int>,
                                hintedNodes: seq<int>, d: Demand, c: Capacity, limit: nat, preserve: bool)
    ensures
      var cap := HardMaxNodes(target, claims);
      DerivedChoices(requestedNodes, hintedNodes, d, c, None, limit, preserve) == Success(UnknownTopology)
      && DerivedChoices(requestedNodes, hintedNodes, d, c, cap, limit, preserve) != Success(UnknownTopology)
      <==> !WithinCap(1, cap) && requestedNodes.None? && hintedNodes == [] && preserve
           && !DividesByZero(d, c) && (!SomeBound(d, c) || Aggregates(d) == [])
  {
  }

  /** Policy never calls such a shape incompatible over its node count: what the cap
      drops there, policy would have left unresolved. */
  lemma DroppedTopologyIsUnresolved(target: ResourceShape, claims: seq<Claim>)
    requires target.nodes.None? && HardMaxNodes(target, claims).Some?
    ensures PropertyState(Applicable(claims, target, MaxNodes), target.nodes) == Unresolved
    ensures PolicyState(target, claims) != Viable
  {
    assert MaxNodes in POLICY_PROPERTIES && Limited(MaxNodes, target) == target.nodes;
  }

  /** Such a claim: half a node. */
  lemma HalfANodeDropsTopology(target: ResourceShape)
    requires target.nodes == None
    ensures
      var claims := [Claim("c", MaxNodes, Number(0.5), true, Global, None)];
      var d := Demand(Some(4), None, None, None);
      var c := Capacity(None, None, None, None, None, None);
      && HardMaxNodes(target, claims) == Some(0)
      && DerivedChoices(None, [], d, c, Some(0), 64, true) == Success(Widths([]))
      && DerivedChoices(None, [], d, c, None, 64, true) == Success(UnknownTopology)
      && PolicyState(target, claims) == Unresolved
  {
    var claim := Claim("c", MaxNodes, Number(0.5), true, Global, None);
    var claims := [claim];
    assert claims[..0] == [];
    assert Applicable(claims, target, MaxNodes) == [claim];
    assert PropertyState(Applicable(claims, target, MaxNodes), Limited(MaxNodes, target)) == Unresolved;
    assert MaxNodes in POLICY_PROPERTIES;
    forall p | p in POLICY_PROPERTIES
      ensures PropertyState(Applicable(claims, target, p), Limited(p, target)) != PolicyIncompatible
    {
      assert p != MaxNodes ==> Applicable(claims, target, p) == [];
    }
  }
}
