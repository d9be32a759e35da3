/** Judging one shape on its own: authorization evidence, requested resources
    and hard site policy (site_planning.py). */
module SitePolicy {
  import opened Prelude
  import opened ResourceShapes

  datatype CandidateState = Viable | Unresolved | PolicyIncompatible | HardInvalid

  datatype ReasonCode =
    | AuthorizationRefused | AuthorizationUnknown
    | ResourceUnknown | ResourceIncompatible
    | PolicyUnknown | PolicyExceeded | PolicyConflictPreserved
    | ConstraintViolated | ConstraintUnknown

  /** `subject` names the dimension, claim or constraint the reason is about. */
  datatype Reason = Reason(code: ReasonCode, subject: string)

  predicate Mentions(reasons: seq<Reason>, code: ReasonCode) {
    exists r | r in reasons :: r.code == code
  }

  // ---- authorization ----

  predicate Denies(e: Evidence) {
    e.authorization.Some? && e.authorization.value in {"denied", "unauthorized", "observed-unauthorized"}
  }

  predicate Grants(e: Evidence) {
    e.authorization.Some?
    && e.authorization.value in {"authorized", "observed-authorized", "user-declared-authorized"}
  }

  /** One denial outweighs every grant; visibility alone grants nothing. */
  function AuthorizationState(s: ResourceShape): CandidateState {
    if exists e | e in s.evidence :: Denies(e) then HardInvalid
    else if exists e | e in s.evidence :: Grants(e) then Viable
    else Unresolved
  }

  function AuthorizationReasons(s: ResourceShape): seq<Reason> {
    match AuthorizationState(s)
    case HardInvalid => [Reason(AuthorizationRefused, "authorization")]
    case Viable => []
    case _ => [Reason(AuthorizationUnknown, "authorization")]
  }

  // ---- requested resources ----

  datatype Dimension = Dimension(name: string, required: Option<int>, available: Option<int>)

  function Dimensions(r: Requirements, s: ResourceShape): seq<Dimension> {
    [Dimension("total_cpus", r.cpus, s.totalCpus), Dimension("gpus", r.gpus, s.gpus),
     Dimension("nodes", r.nodes, s.nodes), Dimension("mpi_ranks", r.mpiRanks, s.mpiRanks),
     Dimension("memory_bytes", r.memoryBytes, s.memoryBytes),
     Dimension("walltime_seconds", r.walltimeSeconds, s.walltimeSeconds)]
  }

  predicate Missing(d: Dimension) {
    d.required.Some? && d.available.None?
  }

  predicate Short(d: Dimension) {
    d.required.Some? && d.available.Some? && d.available.value < d.required.value
  }

  predicate ResourcesShort(r: Requirements, s: ResourceShape) {
    exists d | d in Dimensions(r, s) :: Short(d)
  }

  predicate ResourcesMissing(r: Requirements, s: ResourceShape) {
    exists d | d in Dimensions(r, s) :: Missing(d)
  }

  method ResourceRequirements(r: Requirements, s: ResourceShape) returns (result: seq<Reason>)
    ensures Mentions(result, ResourceIncompatible) <==> ResourcesShort(r, s)
    ensures Mentions(result, ResourceUnknown) <==> ResourcesMissing(r, s)
    ensures forall reason | reason in result :: reason.code == ResourceIncompatible || reason.code == ResourceUnknown
  {
    result := [];
    var dimensions := Dimensions(r, s);
    for i := 0 to |dimensions|
      invariant Mentions(result, ResourceIncompatible) <==> exists k | 0 <= k < i :: Short(dimensions[k])
      invariant Mentions(result, ResourceUnknown) <==> exists k | 0 <= k < i :: Missing(dimensions[k])
      invariant forall reason | reason in result ::
        reason.code == ResourceIncompatible || reason.code == ResourceUnknown
    {
      var d := dimensions[i];
      if d.required.Some? {
        if d.available.None? {
          MentionsAdd(result, Reason(ResourceUnknown, d.name));
          result := result + [Reason(ResourceUnknown, d.name)];
        } else if d.available.value < d.required.value {
          MentionsAdd(result, Reason(ResourceIncompatible, d.name));
          result := result + [Reason(ResourceIncompatible, d.name)];
        }
      }
    }
  }

  lemma MentionsAdd(reasons: seq<Reason>, r: Reason)
    ensures forall code :: Mentions(reasons + [r], code) <==> Mentions(reasons, code) || r.code == code
  {
    assert r in reasons + [r];
    assert forall x | x in reasons :: x in reasons + [r];
  }

  lemma MentionsConcat(a: seq<Reason>, b: seq<Reason>)
    ensures forall code :: Mentions(a + b, code) <==> Mentions(a, code) || Mentions(b, code)
  {
    assert forall x :: x in a + b <==> x in a || x in b;
  }

  // ---- hard site policy ----

  /** A claim value is a finite number or something else (a boolean, a string,
      a structure). */
  datatype ClaimValue = Number(r: real) | NotNumber

  datatype Property = MaxNodes | MaxTotalCpus | MaxGpus | MaxWalltimeSeconds | OtherProperty(name: string)

  datatype Scope = Global | SchedulerScope | Queue | Partition | NodeClassScope | AccountScope

  datatype Claim = Claim(id: string, property: Property, value: ClaimValue, hard: bool,
                         scope: Scope, scopeValue: Option<string>)

  predicate PolicyApplies(c: Claim, s: ResourceShape) {
    match c.scope
    case Global => true
    case SchedulerScope => s.schedulerClass == c.scopeValue
    case Queue => s.schedulerClass == c.scopeValue
    case Partition => s.schedulerClass == c.scopeValue
    case NodeClassScope => s.nodeClass == c.scopeValue
    case AccountScope => s.placement.account == c.scopeValue
  }

  const POLICY_PROPERTIES := [MaxNodes, MaxTotalCpus, MaxGpus, MaxWalltimeSeconds]

  predicate Limits(c: Claim, s: ResourceShape) {
    c.hard && c.property in POLICY_PROPERTIES && PolicyApplies(c, s)
  }

  function Limited(p: Property, s: ResourceShape): Option<int> {
    match p
    case MaxNodes => s.nodes
    case MaxTotalCpus => s.totalCpus
    case MaxGpus => s.gpus
    case MaxWalltimeSeconds => s.walltimeSeconds
    case OtherProperty(_) => None
  }

  /** The hard claims about one property that apply to a shape, in order. */
  function Applicable(claims: seq<Claim>, s: ResourceShape, p: Property): (r: seq<Claim>)
    ensures forall c :: c in r <==> c in claims && Limits(c, s) && c.property == p
  {
    if claims == [] then []
    else
      var last := claims[|claims| - 1];
      assert claims == claims[..|claims| - 1] + [last];
      var rest := Applicable(claims[..|claims| - 1], s, p);
      if Limits(last, s) && last.property == p then rest + [last] else rest
  }

  predicate AllNumeric(items: seq<Claim>) {
    forall c | c in items :: c.value.Number?
  }

  predicate Exceeds(requested: int, c: Claim) {
    c.value.Number? && requested as real > c.value.r
  }

  /** What the hard claims about one property say of a shape. */
  function PropertyState(items: seq<Claim>, requested: Option<int>): CandidateState {
    if items == [] then Viable
    else if !AllNumeric(items) || requested.None? then Unresolved
    else if exists c | c in items :: Exceeds(requested.value, c) then PolicyIncompatible
    else Viable
  }

  predicate SomeProperty(s: ResourceShape, claims: seq<Claim>, state: CandidateState) {
    exists p | p in POLICY_PROPERTIES :: PropertyState(Applicable(claims, s, p), Limited(p, s)) == state
  }

  /** The worst verdict over all properties. */
  function PolicyState(s: ResourceShape, claims: seq<Claim>): CandidateState {
    if SomeProperty(s, claims, PolicyIncompatible) then PolicyIncompatible
    else if SomeProperty(s, claims, Unresolved) then Unresolved
    else Viable
  }

  function Smallest(items: seq<Claim>): (m: real)
    requires items != [] && AllNumeric(items)
    ensures exists c | c in items :: c.value.r == m
    ensures forall c | c in items :: m <= c.value.r
  {
    if |items| == 1 then items[0].value.r
    else
      assert items == [items[0]] + items[1..];
      var rest := Smallest(items[1..]);
      if items[0].value.r <= rest then items[0].value.r else rest
  }

  function ReasonsFor(items: seq<Claim>, code: ReasonCode): (r: seq<Reason>)
    ensures items != [] ==> Mentions(r, code)
    ensures forall reason | reason in r :: reason.code == code
  {
    if items == [] then []
    else
      var rest := ReasonsFor(items[..|items| - 1], code);
      MentionsAdd(rest, Reason(code, items[|items| - 1].id));
      rest + [Reason(code, items[|items| - 1].id)]
  }

  function NotNumeric(items: seq<Claim>): (r: seq<Claim>)
    ensures r == [] <==> AllNumeric(items)
  {
    if items == [] then []
    else
      assert items == [items[0]] + items[1..];
      (if items[0].value.Number? then [] else [items[0]]) + NotNumeric(items[1..])
  }

  function Exceeded(items: seq<Claim>, requested: int): (r: seq<Claim>)
    ensures r != [] <==> exists c | c in items :: Exceeds(requested, c)
  {
    if items == [] then []
    else
      assert items == [items[0]] + items[1..];
      (if Exceeds(requested, items[0]) then [items[0]] else []) + Exceeded(items[1..], requested)
  }

  predicate Conflicting(items: seq<Claim>) {
    exists c, d | c in items && d in items :: c.value != d.value
  }

  /** The claims of each property, properties in order of first appearance. */
  method GroupClaims(s: ResourceShape, claims: seq<Claim>)
    returns (grouped: map<Property, seq<Claim>>, order: seq<Property>)
    ensures forall p :: p in grouped <==> p in order
    ensures forall p :: p in order <==> p in POLICY_PROPERTIES && Applicable(claims, s, p) != []
    ensures forall p | p in grouped :: grouped[p] == Applicable(claims, s, p)
    ensures forall i, j | 0 <= i < j < |order| :: order[i] != order[j]
  {
    grouped, order := map[], [];
    for i := 0 to |claims|
      invariant forall p :: p in grouped <==> p in order
      invariant forall p :: p in order <==> p in POLICY_PROPERTIES && Applicable(claims[..i], s, p) != []
      invariant forall p | p in grouped :: grouped[p] == Applicable(claims[..i], s, p)
      invariant forall i, j | 0 <= i < j < |order| :: order[i] != order[j]
    {
      var claim := claims[i];
      assert claims[..i + 1][..i] == claims[..i];
      if Limits(claim, s) {
        if claim.property !in grouped {
          grouped := grouped[claim.property := []];
          order := order + [claim.property];
        }
        grouped := grouped[claim.property := grouped[claim.property] + [claim]];
      }
    }
    assert claims[..|claims|] == claims;
  }

  /** One property's contribution to the reasons and the running state. */
  method JudgeProperty(items: seq<Claim>, requested: Option<int>, before: CandidateState)
    returns (reasons: seq<Reason>, state: CandidateState)
    requires items != [] && before != HardInvalid
    ensures
      var verdict := PropertyState(items, requested);
      && state == (if verdict == PolicyIncompatible then PolicyIncompatible
                   else if verdict == Unresolved && before == Viable then Unresolved
                   else before)
      && (Mentions(reasons, PolicyExceeded) <==> verdict == PolicyIncompatible)
      && (Mentions(reasons, PolicyUnknown) <==> verdict == Unresolved)
    ensures forall r | r in reasons :: r.code in {PolicyUnknown, PolicyExceeded, PolicyConflictPreserved}
  {
    reasons, state := [], before;
    var invalid := NotNumeric(items);
    if invalid != [] {
      reasons := ReasonsFor(invalid, PolicyUnknown);
      if state == Viable { state := Unresolved; }
    } else if requested.None? {
      reasons := ReasonsFor(items, PolicyUnknown);
      if state == Viable { state := Unresolved; }
    } else if requested.value as real > Smallest(items) {
      state := PolicyIncompatible;
      reasons := ReasonsFor(Exceeded(items, requested.value), PolicyExceeded);
    } else if Conflicting(items) {
      reasons := ReasonsFor(items, PolicyConflictPreserved);
    }
  }

  method Policy(s: ResourceShape, claims: seq<Claim>) returns (result: seq<Reason>, state: CandidateState)
    ensures state == PolicyState(s, claims)
    ensures Mentions(result, PolicyExceeded) <==> state == PolicyIncompatible
    ensures Mentions(result, PolicyUnknown) <==> SomeProperty(s, claims, Unresolved)
    ensures forall r | r in result :: r.code in {PolicyUnknown, PolicyExceeded, PolicyConflictPreserved}
  {
    result, state := [], Viable;
    var grouped, order := GroupClaims(s, claims);
    ghost var verdicts: seq<CandidateState> := [];
    for i := 0 to |order|
      invariant |verdicts| == i
      invariant forall k | 0 <= k < i :: verdicts[k] == PropertyState(grouped[order[k]], Limited(order[k], s))
      invariant state == WorstOf(verdicts)
      invariant Mentions(result, PolicyExceeded) <==> PolicyIncompatible in verdicts
      invariant Mentions(result, PolicyUnknown) <==> Unresolved in verdicts
      invariant forall r | r in result :: r.code in {PolicyUnknown, PolicyExceeded, PolicyConflictPreserved}
    {
      assert order[i] in order;
      var items := grouped[order[i]];
      var reasons, next := JudgeProperty(items, Limited(order[i], s), state);
      MentionsConcat(result, reasons);
      result, state := result + reasons, next;
      verdicts := verdicts + [PropertyState(items, Limited(order[i], s))];
    }
    forall k | 0 <= k < |order| ensures order[k] in order { }
    VerdictsCover(s, claims, order, verdicts, PolicyIncompatible);
    VerdictsCover(s, claims, order, verdicts, Unresolved);
  }

  function WorstOf(verdicts: seq<CandidateState>): CandidateState {
    if PolicyIncompatible in verdicts then PolicyIncompatible
    else if Unresolved in verdicts then Unresolved
    else Viable
  }

  lemma VerdictsCover(s: ResourceShape, claims: seq<Claim>, order: seq<Property>, verdicts: seq<CandidateState>,
                      state: CandidateState)
    requires forall p :: p in order <==> p in POLICY_PROPERTIES && Applicable(claims, s, p) != []
    requires |verdicts| == |order|
    requires forall k | 0 <= k < |order| ::
      verdicts[k] == PropertyState(Applicable(claims, s, order[k]), Limited(order[k], s))
    requires state != Viable
    ensures SomeProperty(s, claims, state) <==> state in verdicts
  {
    if state in verdicts {
      var k :| 0 <= k < |verdicts| && verdicts[k] == state;
      assert order[k] in order;
    }
    if SomeProperty(s, claims, state) {
      var p :| p in POLICY_PROPERTIES && PropertyState(Applicable(claims, s, p), Limited(p, s)) == state;
      assert p in order;
      var k :| 0 <= k < |order| && order[k] == p;
      assert verdicts[k] == state;
    }
  }
}
