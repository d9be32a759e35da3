/** Typed constraint expressions and their three-valued evaluation
    (`_evaluate_expression`, `_compare`, `_expression_parameters`,
    `_expression_resources` of constraint_providers.py). */
module ConstraintExpressions {
  import opened Prelude

  /** A scalar constant, parameter value or resource value. Finite floats are
      reals here, so rounding is not modelled. */
  datatype Value = Null | Bool(b: bool) | Int(i: int) | Float(f: real) | Str(s: string)

  datatype ResourceName =
    | Nodes | CpusPerNode | TotalCpus | MpiRanks | RanksPerNode | ThreadsPerRank
    | Gpus | GpusPerNode | MemoryBytes | MemoryPerNodeBytes
    | Architecture | NodeClass | WalltimeSeconds | SchedulerClass

  datatype Expr =
    | Constant(value: Value)
    | Parameter(name: string)
    | Resource(resource: ResourceName)
    | Add(operands: seq<Expr>)
    | Multiply(operands: seq<Expr>)
    | Subtract(minuend: Expr, subtrahend: Expr)

  /** A parameter assignment; an absent or null parameter is unknown. */
  type Assignment = map<string, Value>

  /** What a shape answers for a resource name; null stands for unknown. */
  type Resources = map<ResourceName, Value>

  /** `Raised` is a TypeError escaping the evaluator. */
  datatype Outcome = Known(value: Value) | Unknown | Raised

  datatype Operands = Values(values: seq<Value>) | Stopped(outcome: Outcome)

  predicate Numeric(v: Value) {
    v.Bool? || v.Int? || v.Float?
  }

  predicate Integral(v: Value) {
    v.Bool? || v.Int?
  }

  function IntegerOf(v: Value): int
    requires Integral(v)
  {
    if v.Int? then v.i else if v.b then 1 else 0
  }

  function RealOf(v: Value): real
    requires Numeric(v)
  {
    if v.Float? then v.f else IntegerOf(v) as real
  }

  function Lookup<K>(m: map<K, Value>, k: K): Outcome {
    if k !in m || m[k].Null? then Unknown else Known(m[k])
  }

  // ---- arithmetic of the host language ----

  function Plus(a: Value, b: Value): Outcome {
    if Integral(a) && Integral(b) then Known(Int(IntegerOf(a) + IntegerOf(b)))
    else if Numeric(a) && Numeric(b) then Known(Float(RealOf(a) + RealOf(b)))
    else Raised
  }

  function Minus(a: Value, b: Value): Outcome {
    if Integral(a) && Integral(b) then Known(Int(IntegerOf(a) - IntegerOf(b)))
    else if Numeric(a) && Numeric(b) then Known(Float(RealOf(a) - RealOf(b)))
    else Raised
  }

  function Repeat(s: string, n: int): string
    decreases Max(n, 0)
  {
    if n <= 0 then "" else s + Repeat(s, n - 1)
  }

  /** Multiplication repeats a string when the other operand is an integer. */
  function Times(a: Value, b: Value): Outcome {
    if Integral(a) && Integral(b) then Known(Int(IntegerOf(a) * IntegerOf(b)))
    else if Numeric(a) && Numeric(b) then Known(Float(RealOf(a) * RealOf(b)))
    else if a.Str? && Integral(b) then Known(Str(Repeat(a.s, IntegerOf(b))))
    else if Integral(a) && b.Str? then Known(Str(Repeat(b.s, IntegerOf(a))))
    else Raised
  }

  function SumFrom(total: Value, values: seq<Value>): Outcome
    decreases |values|
  {
    if values == [] then Known(total)
    else
      match Plus(total, values[0])
      case Known(t) => SumFrom(t, values[1..])
      case other => other
  }

  function ProductFrom(product: Value, values: seq<Value>): Outcome
    decreases |values|
  {
    if values == [] then Known(product)
    else
      match Times(product, values[0])
      case Known(t) => ProductFrom(t, values[1..])
      case other => other
  }

  // ---- evaluation ----

  function Evaluate(e: Expr, parameters: Assignment, shape: Resources): Outcome
    decreases e, 1
  {
    match e
    case Constant(v) => Known(v)
    case Parameter(name) => Lookup(parameters, name)
    case Resource(name) => Lookup(shape, name)
    case Add(operands) =>
      (match EvaluateAll(operands, parameters, shape)
       case Stopped(o) => o
       case Values(vs) => SumFrom(Int(0), vs))
    case Multiply(operands) =>
      (match EvaluateAll(operands, parameters, shape)
       case Stopped(o) => o
       case Values(vs) => ProductFrom(Int(1), vs))
    case Subtract(a, b) =>
      Both(Evaluate(a, parameters, shape), Evaluate(b, parameters, shape))
  }

  /** All operands are evaluated, left to right, before any is inspected. */
  function EvaluateAll(es: seq<Expr>, parameters: Assignment, shape: Resources): Operands
    decreases es, 0
  {
    if es == [] then Values([])
    else
      var first := Evaluate(es[0], parameters, shape);
      var rest := EvaluateAll(es[1..], parameters, shape);
      if first.Raised? || rest == Stopped(Raised) then Stopped(Raised)
      else if first.Unknown? || rest.Stopped? then Stopped(Unknown)
      else Values([first.value] + rest.values)
  }

  function Both(a: Outcome, b: Outcome): Outcome {
    if a.Raised? || b.Raised? then Raised
    else if a.Unknown? || b.Unknown? then Unknown
    else Minus(a.value, b.value)
  }

  function ParametersOf(e: Expr): set<string>
    decreases e, 1
  {
    match e
    case Parameter(name) => {name}
    case Add(operands) => ParametersOfAll(operands)
    case Multiply(operands) => ParametersOfAll(operands)
    case Subtract(a, b) => ParametersOf(a) + ParametersOf(b)
    case _ => {}
  }

  function ParametersOfAll(es: seq<Expr>): set<string>
    decreases es, 0
  {
    if es == [] then {} else ParametersOf(es[0]) + ParametersOfAll(es[1..])
  }

  function ResourcesOf(e: Expr): set<ResourceName>
    decreases e, 1
  {
    match e
    case Resource(name) => {name}
    case Add(operands) => ResourcesOfAll(operands)
    case Multiply(operands) => ResourcesOfAll(operands)
    case Subtract(a, b) => ResourcesOf(a) + ResourcesOf(b)
    case _ => {}
  }

  function ResourcesOfAll(es: seq<Expr>): set<ResourceName>
    decreases es, 0
  {
    if es == [] then {} else ResourcesOf(es[0]) + ResourcesOfAll(es[1..])
  }

  // ---- comparison ----

  datatype Operator =
    | Equal | NotEqual | LessThan | LessOrEqual | GreaterThan | GreaterOrEqual | DivisibleBy

  /** Equality of the host language: numbers by value whatever their type. */
  predicate SameValue(a: Value, b: Value) {
    if Numeric(a) && Numeric(b) then RealOf(a) == RealOf(b) else a == b
  }

  predicate StringBefore(a: string, b: string) {
    if b == [] then false
    else if a == [] then true
    else a[0] < b[0] || (a[0] == b[0] && StringBefore(a[1..], b[1..]))
  }

  /** `a < b`, or None for a TypeError. */
  function Before(a: Value, b: Value): Option<bool> {
    if Numeric(a) && Numeric(b) then Some(RealOf(a) < RealOf(b))
    else if a.Str? && b.Str? then Some(StringBefore(a.s, b.s))
    else None
  }

  function Negated(b: Option<bool>): Option<bool> {
    if b.Some? then Some(!b.value) else None
  }

  predicate Divides(divisor: Value, v: Value)
    requires Numeric(divisor) && Numeric(v) && RealOf(divisor) != 0.0
  {
    if Integral(divisor) && Integral(v) then IntegerOf(v) % IntegerOf(divisor) == 0
    else
      var quotient := RealOf(v) / RealOf(divisor);
      quotient == quotient.Floor as real
  }

  /** None is an error the provider turns into an unknown constraint. */
  function Compare(op: Operator, left: Value, right: Value): Option<bool> {
    match op
    case Equal => Some(SameValue(left, right))
    case NotEqual => Some(!SameValue(left, right))
    case LessThan => Before(left, right)
    case GreaterThan => Before(right, left)
    case LessOrEqual => Negated(Before(right, left))
    case GreaterOrEqual => Negated(Before(left, right))
    case DivisibleBy =>
      if SameValue(right, Int(0)) then Some(false)
      else if Numeric(left) && Numeric(right) then Some(Divides(right, left))
      else None
  }

  // ---- more knowledge never changes what was already known ----

  ghost predicate Refines(less: Outcome, more: Outcome) {
    less.Unknown? || less == more
  }

  ghost predicate KnowsMore(less: Assignment, more: Assignment) {
    forall name: string :: Refines(Lookup(less, name), Lookup(more, name))
  }

  /** Evaluation is monotone in the known parameters: a value, or an escaping
      error, found with fewer parameters is found with more. */
  lemma {:induction false} EvaluationIsMonotone(e: Expr, less: Assignment, more: Assignment, shape: Resources)
    requires KnowsMore(less, more)
    ensures Refines(Evaluate(e, less, shape), Evaluate(e, more, shape))
    decreases e, 1
  {
    match e
    case Constant(_) =>
    case Parameter(name) => assert Refines(Lookup(less, name), Lookup(more, name));
    case Resource(_) =>
    case Add(operands) => OperandsAreMonotone(operands, less, more, shape);
    case Multiply(operands) => OperandsAreMonotone(operands, less, more, shape);
    case Subtract(a, b) =>
      EvaluationIsMonotone(a, less, more, shape);
      EvaluationIsMonotone(b, less, more, shape);
  }

  lemma {:induction false} OperandsAreMonotone(es: seq<Expr>, less: Assignment, more: Assignment, shape: Resources)
    requires KnowsMore(less, more)
    ensures EvaluateAll(es, less, shape) == Stopped(Unknown)
         || EvaluateAll(es, less, shape) == EvaluateAll(es, more, shape)
    decreases es, 0
  {
    if es != [] {
      EvaluationIsMonotone(es[0], less, more, shape);
      OperandsAreMonotone(es[1..], less, more, shape);
    }
  }

  ghost predicate AgreeOn<K>(names: set<K>, a: map<K, Value>, b: map<K, Value>) {
    forall k | k in names :: Lookup(a, k) == Lookup(b, k)
  }

  /** An expression looks at nothing but the parameters and resources it names. */
  lemma {:induction false} EvaluationIsLocal(e: Expr, p: Assignment, q: Assignment, s: Resources, t: Resources)
    requires AgreeOn(ParametersOf(e), p, q) && AgreeOn(ResourcesOf(e), s, t)
    ensures Evaluate(e, p, s) == Evaluate(e, q, t)
    decreases e, 1
  {
    match e
    case Constant(_) =>
    case Parameter(_) =>
    case Resource(_) =>
    case Add(operands) => OperandsAreLocal(operands, p, q, s, t);
    case Multiply(operands) => OperandsAreLocal(operands, p, q, s, t);
    case Subtract(a, b) =>
      EvaluationIsLocal(a, p, q, s, t);
      EvaluationIsLocal(b, p, q, s, t);
  }

  lemma {:induction false} OperandsAreLocal(es: seq<Expr>, p: Assignment, q: Assignment, s: Resources, t: Resources)
    requires AgreeOn(ParametersOfAll(es), p, q) && AgreeOn(ResourcesOfAll(es), s, t)
    ensures EvaluateAll(es, p, s) == EvaluateAll(es, q, t)
    decreases es, 0
  {
    if es != [] {
      EvaluationIsLocal(es[0], p, q, s, t);
      OperandsAreLocal(es[1..], p, q, s, t);
    }
  }

  // ---- what kind of number comes out ----

  /** Some constant or assigned parameter of a resource-free expression is a float. */
  predicate FloatLeaf(e: Expr, parameters: Assignment)
    decreases e, 1
  {
    match e
    case Constant(v) => v.Float?
    case Parameter(name) => name in parameters && parameters[name].Float?
    case Resource(_) => false
    case Add(operands) => AnyFloatLeaf(operands, parameters)
    case Multiply(operands) => AnyFloatLeaf(operands, parameters)
    case Subtract(a, b) => FloatLeaf(a, parameters) || FloatLeaf(b, parameters)
  }

  predicate AnyFloatLeaf(es: seq<Expr>, parameters: Assignment)
    decreases es, 0
  {
    es != [] && (FloatLeaf(es[0], parameters) || AnyFloatLeaf(es[1..], parameters))
  }

  /** The expression is itself a boolean constant or parameter. */
  predicate BareBoolean(e: Expr, parameters: Assignment) {
    match e
    case Constant(v) => v.Bool?
    case Parameter(name) => name in parameters && parameters[name].Bool?
    case _ => false
  }

  ghost predicate AllNumeric(vs: seq<Value>) {
    forall v | v in vs :: Numeric(v)
  }

  ghost predicate SomeFloat(vs: seq<Value>) {
    exists v | v in vs :: v.Float?
  }

  lemma SplitFirst(vs: seq<Value>)
    requires vs != []
    ensures AllNumeric(vs) <==> Numeric(vs[0]) && AllNumeric(vs[1..])
    ensures SomeFloat(vs) <==> vs[0].Float? || SomeFloat(vs[1..])
  {
    assert forall v :: v in vs <==> v == vs[0] || v in vs[1..] by { assert vs == [vs[0]] + vs[1..]; }
  }

  lemma {:induction false} SumKind(total: Value, vs: seq<Value>)
    requires (total.Int? || total.Float?) && SumFrom(total, vs).Known?
    ensures AllNumeric(vs)
    ensures var v := SumFrom(total, vs).value; (v.Int? || v.Float?) && (v.Float? <==> total.Float? || SomeFloat(vs))
    decreases |vs|
  {
    if vs != [] {
      SplitFirst(vs);
      SumKind(Plus(total, vs[0]).value, vs[1..]);
    }
  }

  /** A string, once multiplied in, never becomes a number again. */
  lemma {:induction false} ProductKind(product: Value, vs: seq<Value>)
    requires (product.Int? || product.Float? || product.Str?) && ProductFrom(product, vs).Known?
    ensures !ProductFrom(product, vs).value.Bool?
    ensures Numeric(ProductFrom(product, vs).value) ==>
      Numeric(product) && AllNumeric(vs) && (ProductFrom(product, vs).value.Float? <==> product.Float? || SomeFloat(vs))
    decreases |vs|
  {
    if vs != [] {
      SplitFirst(vs);
      ProductKind(Times(product, vs[0]).value, vs[1..]);
    }
  }

  /** A numeric value of a resource-free expression is a float exactly when a float
      occurs in it, and a boolean exactly when the expression is one. */
  lemma {:induction false} KindOfValue(e: Expr, parameters: Assignment)
    requires Evaluate(e, parameters, map[]).Known? && Numeric(Evaluate(e, parameters, map[]).value)
    ensures Evaluate(e, parameters, map[]).value.Float? <==> FloatLeaf(e, parameters)
    ensures Evaluate(e, parameters, map[]).value.Bool? <==> BareBoolean(e, parameters)
    decreases e, 1
  {
    match e
    case Constant(_) =>
    case Parameter(_) =>
    case Resource(_) =>
    case Add(operands) =>
      SumKind(Int(0), EvaluateAll(operands, parameters, map[]).values);
      KindsOfValues(operands, parameters);
    case Multiply(operands) =>
      ProductKind(Int(1), EvaluateAll(operands, parameters, map[]).values);
      KindsOfValues(operands, parameters);
    case Subtract(a, b) =>
      KindOfValue(a, parameters);
      KindOfValue(b, parameters);
  }

  lemma {:induction false} KindsOfValues(es: seq<Expr>, parameters: Assignment)
    requires EvaluateAll(es, parameters, map[]).Values? && AllNumeric(EvaluateAll(es, parameters, map[]).values)
    ensures SomeFloat(EvaluateAll(es, parameters, map[]).values) <==> AnyFloatLeaf(es, parameters)
    decreases es, 0
  {
    if es != [] {
      var vs := EvaluateAll(es, parameters, map[]).values;
      SplitFirst(vs);
      KindOfValue(es[0], parameters);
      KindsOfValues(es[1..], parameters);
    }
  }
}
