/** Variant edits of JSON workload inputs (variants.py). A loaded document is a
    heap of nodes that edits write in place; what a file holds is a value. */
module VariantDocuments {
  import opened Prelude

  /** A step of a binding path: a list index or a dictionary key. */
  datatype Component = Index(i: int) | Key(k: string)

  datatype Atom = Null | Bool(b: bool) | Int(i: int) | Float(x: real) | Str(s: string)

  datatype Node<+T> = Scalar(atom: Atom) | List(items: seq<T>) | Dict(fields: map<string, T>)

  /** What a file holds. */
  datatype Json = Json(node: Node<Json>)

  /** What memory holds: nodes at references. */
  type Ref = int
  type Heap = map<Ref, Node<Ref>>

  function Child<T>(n: Node<T>, c: Component): Option<T> {
    if c.Index? && n.List? && 0 <= c.i < |n.items| then Some(n.items[c.i])
    else if c.Key? && n.Dict? && c.k in n.fields then Some(n.fields[c.k])
    else None
  }

  function WithChild<T>(n: Node<T>, c: Component, t: T): Node<T>
    requires Child(n, c).Some?
  {
    if c.Index? then List(n.items[c.i := t]) else Dict(n.fields[c.k := t])
  }

  // ---- values ----

  function Get(j: Json, path: seq<Component>): Option<Json> {
    if path == [] then Some(j)
    else match Child(j.node, path[0])
      case None => None
      case Some(child) => Get(child, path[1..])
  }

  function Put(j: Json, path: seq<Component>, v: Json): Json
    requires Get(j, path).Some?
  {
    if path == [] then v
    else Json(WithChild(j.node, path[0], Put(Child(j.node, path[0]).value, path[1..], v)))
  }

  predicate IsPrefix(p: seq<Component>, q: seq<Component>) {
    |p| <= |q| && q[..|p|] == p
  }

  predicate Apart(p: seq<Component>, q: seq<Component>) {
    !IsPrefix(p, q) && !IsPrefix(q, p)
  }

  /** What was written is found, and writing back what was there undoes it. */
  lemma {:induction false} PutThenGet(j: Json, path: seq<Component>, v: Json)
    requires Get(j, path).Some?
    ensures Get(Put(j, path, v), path) == Some(v)
    ensures Put(Put(j, path, v), path, Get(j, path).value) == j
  {
    if path != [] {
      PutThenGet(Child(j.node, path[0]).value, path[1..], v);
    }
  }

  /** Everything at a path apart from the edited one is untouched. */
  lemma {:induction false} PutElsewhere(j: Json, path: seq<Component>, v: Json, other: seq<Component>)
    requires Get(j, path).Some? && Apart(path, other)
    ensures Get(Put(j, path, v), other) == Get(j, other)
  {
    assert path != [] && other != [];
    if path[0] == other[0] {
      assert Apart(path[1..], other[1..]) by {
        assert path == [path[0]] + path[1..] && other == [path[0]] + other[1..];
      }
      PutElsewhere(Child(j.node, path[0]).value, path[1..], v, other[1..]);
    }
  }

  // ---- memory ----

  function Resolve(h: Heap, r: Ref, path: seq<Component>): Option<Ref>
    decreases |path|
  {
    if r !in h then None
    else if path == [] then Some(r)
    else match Child(h[r], path[0])
      case None => None
      case Some(child) => Resolve(h, child, path[1..])
  }

  lemma {:induction false} ResolveSplits(h: Heap, r: Ref, p: seq<Component>, q: seq<Component>)
    ensures Resolve(h, r, p + q)
         == match Resolve(h, r, p) case None => None case Some(mid) => Resolve(h, mid, q)
    decreases |p|
  {
    if p == [] {
      assert p + q == q;
    } else {
      assert (p + q)[0] == p[0] && (p + q)[1..] == p[1..] + q;
      if r in h && Child(h[r], p[0]).Some? { ResolveSplits(h, Child(h[r], p[0]).value, p[1..], q); }
    }
  }

  /** The heap after writing one slot: the container the path leads to, at the
      last component. */
  function Written(h: Heap, root: Ref, path: seq<Component>, v: Ref): Heap
    requires path != [] && Resolve(h, root, path).Some?
  {
    ResolveSplits(h, root, path[..|path| - 1], path[|path| - 1..]);
    assert path == path[..|path| - 1] + path[|path| - 1..];
    var container := Resolve(h, root, path[..|path| - 1]).value;
    h[container := WithChild(h[container], path[|path| - 1], v)]
  }

  /** A document in memory: where each of its nodes lives. */
  datatype Tree = Tree(ref: Ref, node: Node<Tree>)

  ghost predicate Occurs(t: Tree, r: Ref)
    decreases t
  {
    t.ref == r || exists c :: Child(t.node, c).Some? && Occurs(Child(t.node, c).value, r)
  }

  predicate SameKind<S, T>(a: Node<S>, b: Node<T>) {
    match b
    case Scalar(atom) => a.Scalar? && a.atom == atom
    case List(items) => a.List? && |a.items| == |items|
    case Dict(fields) => a.Dict? && a.fields.Keys == fields.Keys
  }

  /** The heap holds the tree. */
  ghost predicate Stored(h: Heap, t: Tree)
    decreases t
  {
    && t.ref in h && SameKind(h[t.ref], t.node)
    && forall c | Child(t.node, c).Some? ::
         Child(h[t.ref], c) == Some(Child(t.node, c).value.ref) && Stored(h, Child(t.node, c).value)
  }

  ghost predicate Disjoint(a: Tree, b: Tree) {
    forall r :: !(Occurs(a, r) && Occurs(b, r))
  }

  /** No node is shared: the parser builds such trees. */
  ghost predicate Separate(t: Tree)
    decreases t
  {
    && (forall c | Child(t.node, c).Some? :: Separate(Child(t.node, c).value) && !Occurs(Child(t.node, c).value, t.ref))
    && (forall c, d | c != d && Child(t.node, c).Some? && Child(t.node, d).Some? ::
          Disjoint(Child(t.node, c).value, Child(t.node, d).value))
  }

  function GetTree(t: Tree, path: seq<Component>): Option<Tree>
    decreases |path|
  {
    if path == [] then Some(t)
    else match Child(t.node, path[0])
      case None => None
      case Some(child) => GetTree(child, path[1..])
  }

  function PutTree(t: Tree, path: seq<Component>, v: Tree): Tree
    requires GetTree(t, path).Some?
    decreases |path|
  {
    if path == [] then v
    else Tree(t.ref, WithChild(t.node, path[0], PutTree(Child(t.node, path[0]).value, path[1..], v)))
  }

  /** Paths in memory lead where they lead in the tree. */
  lemma {:induction false} ResolvesLikeTree(h: Heap, t: Tree, path: seq<Component>)
    requires Stored(h, t)
    ensures Resolve(h, t.ref, path) == match GetTree(t, path) case None => None case Some(u) => Some(u.ref)
    ensures GetTree(t, path).Some? ==>
      Stored(h, GetTree(t, path).value) && forall r | Occurs(GetTree(t, path).value, r) :: Occurs(t, r)
    decreases |path|
  {
    if path != [] {
      KindsHaveChildren(h[t.ref], t.node, path[0]);
      if Child(t.node, path[0]).Some? { ResolvesLikeTree(h, Child(t.node, path[0]).value, path[1..]); }
    }
  }

  lemma KindsHaveChildren<S, T>(a: Node<S>, b: Node<T>, c: Component)
    requires SameKind(a, b)
    ensures Child(a, c).Some? <==> Child(b, c).Some?
  {
  }

  /** A tree is still there when only nodes outside it were written. */
  lemma {:induction false} StoredFrame(h: Heap, g: Heap, t: Tree)
    requires Stored(h, t) && forall r | Occurs(t, r) :: r in g && r in h && g[r] == h[r]
    ensures Stored(g, t)
    decreases t
  {
    assert Occurs(t, t.ref);
    forall c | Child(t.node, c).Some?
      ensures Stored(g, Child(t.node, c).value)
    {
      StoredFrame(h, g, Child(t.node, c).value);
    }
  }

  lemma WithChildLaws<T>(n: Node<T>, c: Component, t: T, d: Component)
    requires Child(n, c).Some?
    ensures Child(WithChild(n, c, t), d) == if d == c then Some(t) else Child(n, d)
    ensures SameKind(WithChild(n, c, t), n)
  {
  }

  lemma {:induction false} PutOccurs(t: Tree, path: seq<Component>, v: Tree, r: Ref)
    requires GetTree(t, path).Some? && Occurs(PutTree(t, path, v), r)
    ensures Occurs(t, r) || Occurs(v, r)
    decreases |path|
  {
    if path != [] && t.ref != r {
      var child := Child(t.node, path[0]).value;
      var after := PutTree(t, path, v);
      var c :| Child(after.node, c).Some? && Occurs(Child(after.node, c).value, r);
      WithChildLaws(t.node, path[0], PutTree(child, path[1..], v), c);
      if c == path[0] { PutOccurs(child, path[1..], v, r); }
    }
  }

  /** Replacing a part by a tree that shares nothing keeps nodes unshared. */
  lemma {:induction false} PutSeparate(t: Tree, path: seq<Component>, v: Tree)
    requires GetTree(t, path).Some? && Separate(t) && Separate(v) && Disjoint(t, v)
    ensures Separate(PutTree(t, path, v))
    decreases |path|
  {
    if path != [] {
      var child := Child(t.node, path[0]).value;
      var put := PutTree(child, path[1..], v);
      var after := PutTree(t, path, v);
      ChildOccurs(t, path[0]);
      PutSeparate(child, path[1..], v);
      assert Occurs(t, t.ref);
      forall r | Occurs(put, r) ensures Occurs(child, r) || Occurs(v, r) { PutOccurs(child, path[1..], v, r); }
      forall c | Child(after.node, c).Some?
        ensures Separate(Child(after.node, c).value) && !Occurs(Child(after.node, c).value, t.ref)
      {
        WithChildLaws(t.node, path[0], put, c);
      }
      forall c, d | c != d && Child(after.node, c).Some? && Child(after.node, d).Some?
        ensures Disjoint(Child(after.node, c).value, Child(after.node, d).value)
      {
        WithChildLaws(t.node, path[0], put, c);
        WithChildLaws(t.node, path[0], put, d);
        if c != path[0] { ChildOccurs(t, c); }
        if d != path[0] { ChildOccurs(t, d); }
      }
    }
  }

  lemma ChildOccurs(t: Tree, c: Component)
    requires Child(t.node, c).Some?
    ensures forall r | Occurs(Child(t.node, c).value, r) :: Occurs(t, r)
  {
  }

  /** One write in place is one replacement in the tree. */
  lemma {:induction false} WriteRefines(h: Heap, t: Tree, path: seq<Component>, v: Tree)
    requires path != [] && Stored(h, t) && Separate(t) && Stored(h, v) && Disjoint(t, v)
    requires GetTree(t, path).Some?
    ensures Resolve(h, t.ref, path).Some?
    ensures Stored(Written(h, t.ref, path, v.ref), PutTree(t, path, v))
    ensures forall r | r in h && !Occurs(t, r) ::
      r in Written(h, t.ref, path, v.ref) && Written(h, t.ref, path, v.ref)[r] == h[r]
    decreases |path|
  {
    ResolvesLikeTree(h, t, path);
    var last := |path| - 1;
    ResolveSplits(h, t.ref, path[..last], path[last..]);
    assert path == path[..last] + path[last..];
    var w := Resolve(h, t.ref, path[..last]).value;
    ResolvesLikeTree(h, t, path[..last]);
    assert Occurs(GetTree(t, path[..last]).value, w);
    var g := Written(h, t.ref, path, v.ref);
    assert g == h[w := g[w]];
    var child := Child(t.node, path[0]).value;
    var put := PutTree(child, path[1..], v);
    if |path| == 1 {
      forall r | Occurs(v, r) ensures r in g && r in h && g[r] == h[r] { StoredHas(h, v, r); }
      StoredFrame(h, g, v);
    } else {
      assert path[..last][0] == path[0] && path[..last][1..] == path[1..][..last - 1];
      assert Written(h, child.ref, path[1..], v.ref) == g;
      WriteRefines(h, child, path[1..], v) by { ChildOccurs(t, path[0]); }
      ResolvesLikeTree(h, child, path[1..][..last - 1]);
      assert Occurs(child, w) by { assert Occurs(GetTree(child, path[1..][..last - 1]).value, w); }
    }
    WrittenNode(h, t, path[0], put, w, g[w]);
  }

  /** A node after the write: the slot on the path holds the new subtree, all
      other subtrees are where they were. */
  lemma WrittenNode(h: Heap, t: Tree, c: Component, put: Tree, w: Ref, n: Node<Ref>)
    requires Stored(h, t) && Separate(t) && Child(t.node, c).Some? && Stored(h[w := n], put)
    requires if w == t.ref then n == WithChild(h[w], c, put.ref)
             else Occurs(Child(t.node, c).value, w) && put.ref == Child(t.node, c).value.ref
    ensures Stored(h[w := n], Tree(t.ref, WithChild(t.node, c, put)))
  {
    var g, after := h[w := n], Tree(t.ref, WithChild(t.node, c, put));
    WithChildLaws(t.node, c, put, c);
    WithChildLaws(h[t.ref], c, put.ref, c);
    forall d | Child(after.node, d).Some?
      ensures Child(g[t.ref], d) == Some(Child(after.node, d).value.ref) && Stored(g, Child(after.node, d).value)
    {
      WithChildLaws(t.node, c, put, d);
      WithChildLaws(h[t.ref], c, put.ref, d);
      if d != c {
        var sibling := Child(t.node, d).value;
        forall r | Occurs(sibling, r) ensures r in g && r in h && g[r] == h[r] { StoredHas(h, sibling, r); }
        StoredFrame(h, g, sibling);
      }
    }
  }

  lemma {:induction false} StoredHas(h: Heap, t: Tree, r: Ref)
    requires Stored(h, t) && Occurs(t, r)
    ensures r in h
    decreases t
  {
    if r != t.ref {
      var c :| Child(t.node, c).Some? && Occurs(Child(t.node, c).value, r);
      StoredHas(h, Child(t.node, c).value, r);
    }
  }

  // ---- what memory means ----

  /** The value of a tree, wherever it lives. */
  function Erase(t: Tree): Json
    decreases t
  {
    Json(match t.node
      case Scalar(atom) => Scalar(atom)
      case List(items) => List(seq(|items|, i requires 0 <= i < |items| => Erase(items[i])))
      case Dict(fields) => Dict(map k | k in fields :: Erase(fields[k])))
  }

  lemma EraseChild(t: Tree, c: Component)
    ensures Child(Erase(t).node, c) == match Child(t.node, c) case None => None case Some(u) => Some(Erase(u))
  {
  }

  lemma {:induction false} EraseGet(t: Tree, path: seq<Component>)
    ensures Get(Erase(t), path) == match GetTree(t, path) case None => None case Some(u) => Some(Erase(u))
    decreases |path|
  {
    if path != [] {
      EraseChild(t, path[0]);
      if Child(t.node, path[0]).Some? { EraseGet(Child(t.node, path[0]).value, path[1..]); }
    }
  }

  /** Editing a tree edits its value. */
  lemma {:induction false} ErasePut(t: Tree, path: seq<Component>, v: Tree)
    requires GetTree(t, path).Some?
    ensures Get(Erase(t), path).Some?
    ensures Erase(PutTree(t, path, v)) == Put(Erase(t), path, Erase(v))
    decreases |path|
  {
    EraseGet(t, path);
    if path != [] {
      var child := Child(t.node, path[0]).value;
      var put := PutTree(child, path[1..], v);
      EraseChild(t, path[0]);
      ErasePut(child, path[1..], v);
      EraseWith(t, path[0], put);
    }
  }

  lemma EraseWith(t: Tree, c: Component, put: Tree)
    requires Child(t.node, c).Some?
    ensures Child(Erase(t).node, c).Some?
    ensures Erase(Tree(t.ref, WithChild(t.node, c, put))).node == WithChild(Erase(t).node, c, Erase(put))
  {
    var after := Tree(t.ref, WithChild(t.node, c, put));
    EraseChild(t, c);
    match t.node
    case Scalar(_) =>
    case List(items) => assert Erase(after).node.items == Erase(t).node.items[c.i := Erase(put)];
    case Dict(fields) => assert Erase(after).node.fields == Erase(t).node.fields[c.k := Erase(put)];
  }

  // ---- editing a file's value ----

  datatype Change = Change(path: seq<Component>, value: Json)

  /** All changes in order; None when one meets a missing path. */
  function Edited(j: Json, cs: seq<Change>): Option<Json> {
    if cs == [] then Some(j)
    else
      var c := cs[|cs| - 1];
      match Edited(j, cs[..|cs| - 1])
      case None => None
      case Some(k) => if Get(k, c.path).None? then None else Some(Put(k, c.path, c.value))
  }

  /** The `before` value of each change, as recorded. */
  function Befores(j: Json, cs: seq<Change>): (r: seq<Json>)
    requires Edited(j, cs).Some?
    ensures |r| == |cs|
  {
    if cs == [] then []
    else Befores(j, cs[..|cs| - 1]) + [Get(Edited(j, cs[..|cs| - 1]).value, cs[|cs| - 1].path).value]
  }

  /** Writing recorded values back, last change first. */
  function Undone(j: Json, cs: seq<Change>, befores: seq<Json>): Option<Json>
    requires |befores| == |cs|
    decreases |cs|
  {
    if cs == [] then Some(j)
    else
      var n := |cs| - 1;
      if Get(j, cs[n].path).None? then None
      else Undone(Put(j, cs[n].path, befores[n]), cs[..n], befores[..n])
  }

  /** Replaying the recorded `before` values in reverse restores the document,
      whatever the paths, overlapping or repeated. */
  lemma {:induction false} UndoRestores(j: Json, cs: seq<Change>)
    requires Edited(j, cs).Some?
    ensures Undone(Edited(j, cs).value, cs, Befores(j, cs)) == Some(j)
  {
    if cs != [] {
      var n := |cs| - 1;
      var k := Edited(j, cs[..n]).value;
      PutThenGet(k, cs[n].path, cs[n].value);
      assert Befores(j, cs)[..n] == Befores(j, cs[..n]);
      UndoRestores(j, cs[..n]);
    }
  }

  // ---- materializing in memory ----

  datatype VariantError = UnknownParameter | NoBinding | WrongInput | NotApproved | MissingPath

  /** A proposed change: its new value, what the provider says of the parameter,
      and whether the change is approved. */
  datatype Proposal = Proposal(known: bool, binding: Option<seq<Component>>, targets: bool, approved: bool, value: Ref)

  predicate ProviderValid(p: Proposal) {
    p.binding.Some? ==> p.binding.value != []
  }

  function Refusal(p: Proposal): Option<VariantError> {
    if !p.known then Some(UnknownParameter)
    else if p.binding.None? then Some(NoBinding)
    else if !p.targets then Some(WrongInput)
    else if !p.approved then Some(NotApproved)
    else None
  }

  /** The heap and the references recorded as `before`. */
  function Materialized(h: Heap, root: Ref, ps: seq<Proposal>): Result<(Heap, seq<Ref>), VariantError>
    requires forall k | 0 <= k < |ps| :: ProviderValid(ps[k])
  {
    if ps == [] then Success((h, []))
    else
      match Materialized(h, root, ps[..|ps| - 1])
      case Failure(e) => Failure(e)
      case Success((g, befores)) =>
        var p := ps[|ps| - 1];
        assert ProviderValid(p);
        if Refusal(p).Some? then Failure(Refusal(p).value)
        else match Resolve(g, root, p.binding.value)
          case None => Failure(MissingPath)
          case Some(before) => Success((Written(g, root, p.binding.value, p.value), befores + [before]))
  }

  /** A loaded document; edits move a cursor and write one slot in place. */
  class LoadedDocument {
    var heap: Heap
    const root: Ref

    constructor (heap: Heap, root: Ref)
      ensures this.heap == heap && this.root == root
    {
      this.heap, this.root := heap, root;
    }

    /** Every reference leads to a node. */
    ghost predicate Closed()
      reads this
    {
      root in heap && forall r, c | r in heap && Child(heap[r], c).Some? :: Child(heap[r], c).value in heap
    }

    method Descend(path: seq<Component>) returns (r: Result<Ref, VariantError>)
      requires Closed()
      ensures r == match Resolve(heap, root, path) case None => Failure(MissingPath) case Some(found) => Success(found)
      ensures r.Success? ==> r.value in heap
    {
      var current := root;
      assert path[0..] == path;
      for i := 0 to |path|
        invariant current in heap && Resolve(heap, root, path) == Resolve(heap, current, path[i..])
      {
        assert path[i..][0] == path[i] && path[i..][1..] == path[i + 1..];
        var next := Child(heap[current], path[i]);
        if next.None? { return Failure(MissingPath); }
        current := next.value;
      }
      r := Success(current);
    }

    method Replace(path: seq<Component>, replacement: Ref) returns (r: Result<Ref, VariantError>)
      requires Closed() && path != [] && replacement in heap
      modifies this
      ensures Closed() && heap.Keys == old(heap).Keys
      ensures r == match Resolve(old(heap), root, path)
                   case None => Failure(MissingPath)
                   case Some(before) => Success(before)
      ensures heap == if r.Success? then Written(old(heap), root, path, replacement) else old(heap)
    {
      var last := |path| - 1;
      ResolveSplits(heap, root, path[..last], path[last..]);
      assert path == path[..last] + path[last..];
      var found := Descend(path[..last]);
      if found.Failure? { return Failure(MissingPath); }
      var current := found.value;
      assert Resolve(heap, root, path) == Resolve(heap, current, path[last..]);
      var original := Child(heap[current], path[last]);
      if original.None? { return Failure(MissingPath); }
      assert path[last..][1..] == [] && path[last..][0] == path[last];
      assert original.value in heap;
      ghost var before := heap[current];
      heap := heap[current := WithChild(heap[current], path[last], replacement)];
      forall c ensures Child(heap[current], c) == if c == path[last] then Some(replacement) else Child(before, c) {
        WithChildLaws(before, path[last], replacement, c);
      }
      r := Success(original.value);
    }

    /** The change loop: parameters in sorted order, each checked and written. */
    method Materialize(ps: seq<Proposal>) returns (r: Result<seq<Ref>, VariantError>)
      requires Closed()
      requires forall k | 0 <= k < |ps| :: ProviderValid(ps[k]) && ps[k].value in heap
      modifies this
      ensures Materialized(old(heap), root, ps).Success? ==>
        var (edited, befores) := Materialized(old(heap), root, ps).value;
        r == Success(befores) && heap == edited
      ensures Materialized(old(heap), root, ps).Failure? ==> r == Failure(Materialized(old(heap), root, ps).error)
    {
      ghost var h := heap;
      var changed := [];
      for i := 0 to |ps|
        invariant Closed() && heap.Keys == h.Keys
        invariant Materialized(h, root, ps[..i]) == Success((heap, changed))
      {
        assert ps[..i + 1][..i] == ps[..i];
        var p := ps[i];
        if Refusal(p).Some? {
          FailureStays(h, root, ps, i + 1);
          return Failure(Refusal(p).value);
        }
        var before := Replace(p.binding.value, p.value);
        if before.Failure? {
          FailureStays(h, root, ps, i + 1);
          return Failure(before.error);
        }
        changed := changed + [before.value];
      }
      assert ps[..|ps|] == ps;
      r := Success(changed);
    }
  }

  lemma {:induction false} FailureStays(h: Heap, root: Ref, ps: seq<Proposal>, i: nat)
    requires forall k | 0 <= k < |ps| :: ProviderValid(ps[k])
    requires i <= |ps| && Materialized(h, root, ps[..i]).Failure?
    ensures Materialized(h, root, ps) == Materialized(h, root, ps[..i])
    decreases |ps|
  {
    if i == |ps| {
      assert ps[..i] == ps;
    } else {
      assert ps[..|ps| - 1][..i] == ps[..i];
      FailureStays(h, root, ps[..|ps| - 1], i);
    }
  }

  // ---- memory and file agree ----

  /** What an edit takes out of a tree shares nothing with what remains, and
      stays as it was. */
  lemma {:induction false} DetachedStays(h: Heap, t: Tree, path: seq<Component>, v: Tree)
    requires path != [] && Stored(h, t) && Separate(t) && Stored(h, v) && Disjoint(t, v)
    requires GetTree(t, path).Some?
    ensures Resolve(h, t.ref, path).Some?
    ensures Disjoint(PutTree(t, path, v), GetTree(t, path).value)
    ensures Stored(Written(h, t.ref, path, v.ref), GetTree(t, path).value)
    decreases |path|
  {
    WriteRefines(h, t, path, v);
    ResolvesLikeTree(h, t, path);
    var child, out := Child(t.node, path[0]).value, GetTree(t, path).value;
    var last := |path| - 1;
    ResolveSplits(h, t.ref, path[..last], path[last..]);
    assert path == path[..last] + path[last..];
    ResolvesLikeTree(h, child, path[1..]);
    if |path| > 1 {
      assert path[..last][0] == path[0] && path[..last][1..] == path[1..][..last - 1];
      ChildOccurs(t, path[0]);
      DetachedStays(h, child, path[1..], v);
      assert Written(h, child.ref, path[1..], v.ref) == Written(h, t.ref, path, v.ref);
    } else {
      forall r | Occurs(out, r) ensures r in h { StoredHas(h, out, r); }
      StoredFrame(h, Written(h, t.ref, path, v.ref), out);
    }
    forall r | Occurs(PutTree(t, path, v), r) ensures !Occurs(out, r) {
      RemainsOutside(t, path, v, r);
    }
  }

  lemma {:induction false} RemainsOutside(t: Tree, path: seq<Component>, v: Tree, r: Ref)
    requires path != [] && GetTree(t, path).Some? && Separate(t) && Disjoint(t, v) && Occurs(PutTree(t, path, v), r)
    ensures !Occurs(GetTree(t, path).value, r)
    decreases |path|
  {
    var child := Child(t.node, path[0]).value;
    var put := PutTree(child, path[1..], v);
    PartOccurs(child, path[1..]);
    ChildOccurs(t, path[0]);
    if r != t.ref {
      var c :| Child(PutTree(t, path, v).node, c).Some? && Occurs(Child(PutTree(t, path, v).node, c).value, r);
      WithChildLaws(t.node, path[0], put, c);
      if c == path[0] && |path| > 1 { RemainsOutside(child, path[1..], v, r); }
    }
  }

  lemma {:induction false} PartOccurs(t: Tree, path: seq<Component>)
    requires GetTree(t, path).Some?
    ensures forall r | Occurs(GetTree(t, path).value, r) :: Occurs(t, r)
    decreases |path|
  {
    if path != [] {
      PartOccurs(Child(t.node, path[0]).value, path[1..]);
      ChildOccurs(t, path[0]);
    }
  }

  /** Every proposal is accepted, and its value is a tree of its own. */
  ghost predicate OwnTrees(h: Heap, t: Tree, ps: seq<Proposal>, trees: seq<Tree>) {
    && |ps| == |trees| && Stored(h, t) && Separate(t)
    && (forall k | 0 <= k < |ps| :: ProviderValid(ps[k]) && Refusal(ps[k]).None? && ps[k].value == trees[k].ref)
    && (forall k | 0 <= k < |trees| :: Stored(h, trees[k]) && Separate(trees[k]) && Disjoint(t, trees[k]))
    && (forall i, k | 0 <= i < k < |trees| :: Disjoint(trees[i], trees[k]))
  }

  ghost function Changes(ps: seq<Proposal>, trees: seq<Tree>): seq<Change>
    requires |ps| == |trees| && forall k | 0 <= k < |ps| :: Refusal(ps[k]).None?
  {
    seq(|ps|, k requires 0 <= k < |ps| =>
      assert Refusal(ps[k]).None?; Change(ps[k].binding.value, Erase(trees[k])))
  }

  ghost function TreeEdited(t: Tree, ps: seq<Proposal>, trees: seq<Tree>): Option<Tree>
    requires |ps| == |trees| && forall k | 0 <= k < |ps| :: Refusal(ps[k]).None?
    decreases |ps|
  {
    if ps == [] then Some(t)
    else
      var n := |ps| - 1;
      assert Refusal(ps[n]).None?;
      match TreeEdited(t, ps[..n], trees[..n])
      case None => None
      case Some(u) =>
        if GetTree(u, ps[n].binding.value).None? then None else Some(PutTree(u, ps[n].binding.value, trees[n]))
  }

  /** Trees that are there too and share nothing with the document nor with what
      will be written into it. */
  ghost predicate Bystanders(h: Heap, t: Tree, trees: seq<Tree>, others: seq<Tree>) {
    forall i | 0 <= i < |others| ::
      Stored(h, others[i]) && Disjoint(t, others[i]) && forall k | 0 <= k < |trees| :: Disjoint(trees[k], others[i])
  }

  lemma BystandersPrefix(h: Heap, t: Tree, ps: seq<Proposal>, trees: seq<Tree>, others: seq<Tree>)
    requires OwnTrees(h, t, ps, trees) && ps != [] && Bystanders(h, t, trees, others)
    ensures OwnTrees(h, t, ps[..|ps| - 1], trees[..|ps| - 1])
    ensures Bystanders(h, t, trees[..|ps| - 1], others + [trees[|ps| - 1]])
  {
    var n := |ps| - 1;
    assert forall k | 0 <= k < n :: ps[..n][k] == ps[k] && trees[..n][k] == trees[k];
    forall i | 0 <= i < |others + [trees[n]]|
      ensures Stored(h, (others + [trees[n]])[i]) && Disjoint(t, (others + [trees[n]])[i])
      ensures forall k | 0 <= k < n :: Disjoint(trees[..n][k], (others + [trees[n]])[i])
    {
      if i < |others| { assert (others + [trees[n]])[i] == others[i]; }
    }
  }

  /** Editing memory edits the tree, and leaves bystanders alone. */
  lemma {:induction false} MaterializedTree(h: Heap, t: Tree, ps: seq<Proposal>, trees: seq<Tree>, others: seq<Tree>)
    requires OwnTrees(h, t, ps, trees) && Bystanders(h, t, trees, others)
    ensures Materialized(h, t.ref, ps).Success? <==> TreeEdited(t, ps, trees).Some?
    ensures TreeEdited(t, ps, trees).Some? ==>
      var g, u := Materialized(h, t.ref, ps).value.0, TreeEdited(t, ps, trees).value;
      Stored(g, u) && Separate(u) && u.ref == t.ref && Bystanders(g, u, [], others)
    decreases |ps|
  {
    if ps != [] {
      var n := |ps| - 1;
      var more := others + [trees[n]];
      BystandersPrefix(h, t, ps, trees, others);
      MaterializedTree(h, t, ps[..n], trees[..n], more);
      if TreeEdited(t, ps[..n], trees[..n]).Some? {
        var g, u := Materialized(h, t.ref, ps[..n]).value.0, TreeEdited(t, ps[..n], trees[..n]).value;
        var path, v := ps[n].binding.value, trees[n];
        assert ProviderValid(ps[n]) && Refusal(ps[n]).None?;
        assert more[|others|] == v;
        ResolvesLikeTree(g, u, path);
        if GetTree(u, path).Some? {
          EditKeeps(g, u, path, v);
          forall i | 0 <= i < |others|
            ensures Stored(Written(g, u.ref, path, v.ref), others[i]) && Disjoint(PutTree(u, path, v), others[i])
          {
            assert more[i] == others[i];
            EditSpares(g, u, path, v, others[i]);
          }
        }
      }
    }
  }

  lemma EditKeeps(g: Heap, u: Tree, path: seq<Component>, v: Tree)
    requires path != [] && Stored(g, u) && Separate(u) && Stored(g, v) && Separate(v) && Disjoint(u, v)
    requires GetTree(u, path).Some?
    ensures Resolve(g, u.ref, path).Some?
    ensures Stored(Written(g, u.ref, path, v.ref), PutTree(u, path, v))
    ensures Separate(PutTree(u, path, v)) && PutTree(u, path, v).ref == u.ref
  {
    WriteRefines(g, u, path, v);
    PutSeparate(u, path, v);
  }

  lemma EditSpares(g: Heap, u: Tree, path: seq<Component>, v: Tree, b: Tree)
    requires path != [] && Stored(g, u) && Separate(u) && Stored(g, v) && Disjoint(u, v)
    requires GetTree(u, path).Some? && Stored(g, b) && Disjoint(u, b) && Disjoint(v, b)
    ensures Resolve(g, u.ref, path).Some?
    ensures Stored(Written(g, u.ref, path, v.ref), b) && Disjoint(PutTree(u, path, v), b)
  {
    WriteRefines(g, u, path, v);
    forall r | Occurs(PutTree(u, path, v), r) ensures !Occurs(b, r) { PutOccurs(u, path, v, r); }
    forall r | Occurs(b, r) ensures r in g { StoredHas(g, b, r); }
    StoredFrame(g, Written(g, u.ref, path, v.ref), b);
  }

  ghost function BeforeTrees(t: Tree, ps: seq<Proposal>, trees: seq<Tree>): (r: seq<Tree>)
    requires |ps| == |trees| && forall k | 0 <= k < |ps| :: Refusal(ps[k]).None?
    requires TreeEdited(t, ps, trees).Some?
    ensures |r| == |ps|
    decreases |ps|
  {
    if ps == [] then []
    else
      var n := |ps| - 1;
      assert Refusal(ps[n]).None?;
      BeforeTrees(t, ps[..n], trees[..n])
      + [GetTree(TreeEdited(t, ps[..n], trees[..n]).value, ps[n].binding.value).value]
  }

  /** Trees taken out so far are there, where they were recorded, and share
      nothing with the document or the others. */
  ghost predicate AllKept(g: Heap, u: Tree, taken: seq<Tree>, befores: seq<Ref>, others: seq<Tree>) {
    && |befores| == |taken|
    && (forall k | 0 <= k < |taken| :: Stored(g, taken[k]) && taken[k].ref == befores[k] && Disjoint(u, taken[k]))
    && (forall k, i | 0 <= k < |taken| && 0 <= i < |others| :: Disjoint(taken[k], others[i]))
  }

  lemma KeptNext(g: Heap, u: Tree, path: seq<Component>, v: Tree, taken: seq<Tree>, befores: seq<Ref>,
                 others: seq<Tree>)
    requires path != [] && Stored(g, u) && Separate(u) && Stored(g, v) && Disjoint(u, v) && GetTree(u, path).Some?
    requires AllKept(g, u, taken, befores, others + [v])
    requires forall i | 0 <= i < |others| :: Disjoint(u, others[i])
    ensures Resolve(g, u.ref, path).Some?
    ensures AllKept(Written(g, u.ref, path, v.ref), PutTree(u, path, v), taken + [GetTree(u, path).value],
                    befores + [GetTree(u, path).value.ref], others)
  {
    DetachedStays(g, u, path, v);
    PartOccurs(u, path);
    var after := taken + [GetTree(u, path).value];
    forall k | 0 <= k < |taken|
      ensures Stored(Written(g, u.ref, path, v.ref), taken[k]) && Disjoint(PutTree(u, path, v), taken[k])
    {
      assert (others + [v])[|others|] == v;
      EditSpares(g, u, path, v, taken[k]);
    }
    forall k, i | 0 <= k < |after| && 0 <= i < |others| ensures Disjoint(after[k], others[i]) {
      assert (others + [v])[i] == others[i];
      if k < |taken| { assert Disjoint(taken[k], (others + [v])[i]); }
    }
  }

  /** What was taken out stays in memory as it was when it was recorded. */
  lemma {:induction false} BeforesStay(h: Heap, t: Tree, ps: seq<Proposal>, trees: seq<Tree>, others: seq<Tree>)
    requires OwnTrees(h, t, ps, trees) && Bystanders(h, t, trees, others) && TreeEdited(t, ps, trees).Some?
    ensures Materialized(h, t.ref, ps).Success?
    ensures
      var (g, befores) := Materialized(h, t.ref, ps).value;
      AllKept(g, TreeEdited(t, ps, trees).value, BeforeTrees(t, ps, trees), befores, others)
    decreases |ps|
  {
    if ps != [] {
      var n := |ps| - 1;
      BystandersPrefix(h, t, ps, trees, others);
      BeforesStay(h, t, ps[..n], trees[..n], others + [trees[n]]);
      MaterializedTree(h, t, ps[..n], trees[..n], others + [trees[n]]);
      BeforesNext(h, t, ps, trees, others);
    }
  }

  lemma BeforesNext(h: Heap, t: Tree, ps: seq<Proposal>, trees: seq<Tree>, others: seq<Tree>)
    requires OwnTrees(h, t, ps, trees) && TreeEdited(t, ps, trees).Some? && ps != []
    requires Materialized(h, t.ref, ps[..|ps| - 1]).Success?
    requires
      var n := |ps| - 1;
      var (g, befores) := Materialized(h, t.ref, ps[..n]).value;
      var u := TreeEdited(t, ps[..n], trees[..n]).value;
      && Stored(g, u) && Separate(u) && u.ref == t.ref && Bystanders(g, u, [], others + [trees[n]])
      && AllKept(g, u, BeforeTrees(t, ps[..n], trees[..n]), befores, others + [trees[n]])
    ensures Materialized(h, t.ref, ps).Success?
    ensures
      var (g, befores) := Materialized(h, t.ref, ps).value;
      AllKept(g, TreeEdited(t, ps, trees).value, BeforeTrees(t, ps, trees), befores, others)
  {
    var n := |ps| - 1;
    var more := others + [trees[n]];
    var (g, befores) := Materialized(h, t.ref, ps[..n]).value;
    var u := TreeEdited(t, ps[..n], trees[..n]).value;
    assert ProviderValid(ps[n]) && Refusal(ps[n]).None?;
    assert more[|others|] == trees[n];
    forall i | 0 <= i < |others| ensures Disjoint(u, others[i]) { assert more[i] == others[i]; }
    ResolvesLikeTree(g, u, ps[n].binding.value);
    KeptNext(g, u, ps[n].binding.value, trees[n], BeforeTrees(t, ps[..n], trees[..n]), befores, others);
  }

  lemma {:induction false} BeforesErase(t: Tree, ps: seq<Proposal>, trees: seq<Tree>)
    requires |ps| == |trees| && forall k | 0 <= k < |ps| :: Refusal(ps[k]).None?
    requires TreeEdited(t, ps, trees).Some?
    ensures Edited(Erase(t), Changes(ps, trees)).Some?
    ensures forall k | 0 <= k < |ps| :: Erase(BeforeTrees(t, ps, trees)[k]) == Befores(Erase(t), Changes(ps, trees))[k]
    decreases |ps|
  {
    TreeEditsAreFileEdits(t, ps, trees);
    if ps != [] {
      var n := |ps| - 1;
      assert Refusal(ps[n]).None?;
      assert Changes(ps, trees)[..n] == Changes(ps[..n], trees[..n]);
      BeforesErase(t, ps[..n], trees[..n]);
      TreeEditsAreFileEdits(t, ps[..n], trees[..n]);
      EraseGet(TreeEdited(t, ps[..n], trees[..n]).value, ps[n].binding.value);
    }
  }

  /** The tree after the edits has the value the file edits give. */
  lemma {:induction false} TreeEditsAreFileEdits(t: Tree, ps: seq<Proposal>, trees: seq<Tree>)
    requires |ps| == |trees| && forall k | 0 <= k < |ps| :: Refusal(ps[k]).None?
    ensures Edited(Erase(t), Changes(ps, trees))
         == match TreeEdited(t, ps, trees) case None => None case Some(u) => Some(Erase(u))
    decreases |ps|
  {
    if ps != [] {
      var n := |ps| - 1;
      assert Refusal(ps[n]).None?;
      assert Changes(ps, trees)[..n] == Changes(ps[..n], trees[..n]);
      TreeEditsAreFileEdits(t, ps[..n], trees[..n]);
      if TreeEdited(t, ps[..n], trees[..n]).Some? {
        var u := TreeEdited(t, ps[..n], trees[..n]).value;
        EraseGet(u, ps[n].binding.value);
        if GetTree(u, ps[n].binding.value).Some? { ErasePut(u, ps[n].binding.value, trees[n]); }
      }
    }
  }

  /** The heap holds this value at that reference. */
  ghost predicate HoldsAt(h: Heap, r: Ref, j: Json) {
    exists t :: Stored(h, t) && t.ref == r && Erase(t) == j
  }

  /** Materializing in place refines editing the value: it succeeds exactly when
      every path exists when its turn comes, and what is then in memory, the
      document and every recorded `before`, is what editing the value gives. */
  lemma MaterializedIsEdited(h: Heap, t: Tree, ps: seq<Proposal>, trees: seq<Tree>)
    requires OwnTrees(h, t, ps, trees)
    ensures Materialized(h, t.ref, ps).Success? <==> Edited(Erase(t), Changes(ps, trees)).Some?
    ensures Materialized(h, t.ref, ps).Success? ==>
      var (g, befores) := Materialized(h, t.ref, ps).value;
      && HoldsAt(g, t.ref, Edited(Erase(t), Changes(ps, trees)).value)
      && |befores| == |ps|
      && (forall k | 0 <= k < |ps| :: HoldsAt(g, befores[k], Befores(Erase(t), Changes(ps, trees))[k]))
  {
    MaterializedTree(h, t, ps, trees, []);
    TreeEditsAreFileEdits(t, ps, trees);
    if TreeEdited(t, ps, trees).Some? {
      BeforesStay(h, t, ps, trees, []);
      BeforesErase(t, ps, trees);
    }
  }

  // ---- which candidate values change the file ----

  predicate IsNumber(a: Atom) {
    a.Bool? || a.Int? || a.Float?
  }

  function NumberOf(a: Atom): real
    requires IsNumber(a)
  {
    match a
    case Bool(b) => if b then 1.0 else 0.0
    case Int(i) => i as real
    case Float(x) => x
  }

  /** The host language's `==`: numbers of any kind compare by value. */
  predicate PyEq(a: Json, b: Json)
    decreases a
  {
    match (a.node, b.node)
    case (Scalar(x), Scalar(y)) => if IsNumber(x) && IsNumber(y) then NumberOf(x) == NumberOf(y) else x == y
    case (List(xs), List(ys)) => |xs| == |ys| && forall i | 0 <= i < |xs| :: PyEq(xs[i], ys[i])
    case (Dict(xs), Dict(ys)) => xs.Keys == ys.Keys && forall k | k in xs :: k in ys && PyEq(xs[k], ys[k])
    case _ => false
  }

  lemma {:induction false} PyEqReflexive(a: Json)
    ensures PyEq(a, a)
    decreases a
  {
    match a.node
    case Scalar(_) =>
    case List(xs) => forall i | 0 <= i < |xs| ensures PyEq(xs[i], xs[i]) { PyEqReflexive(xs[i]); }
    case Dict(xs) => forall k | k in xs ensures PyEq(xs[k], xs[k]) { PyEqReflexive(xs[k]); }
  }

  lemma {:induction false} PyEqInside(a: Json, b: Json, path: seq<Component>)
    requires PyEq(a, b) && Get(a, path).Some?
    ensures Get(b, path).Some? && PyEq(Get(a, path).value, Get(b, path).value)
  {
    if path != [] { PyEqInside(Child(a.node, path[0]).value, Child(b.node, path[0]).value, path[1..]); }
  }

  /** A candidate value: whether the provider knows the parameter, its binding,
      and whether that targets this input. */
  datatype Parameter = Parameter(known: bool, binding: Option<seq<Component>>, targets: bool, value: Json)

  predicate Bound(p: Parameter) {
    p.known && p.binding.Some? && p.targets
  }

  function Candidates(j: Json, ps: seq<Parameter>): Result<seq<Change>, VariantError> {
    if ps == [] then Success([])
    else
      var p := ps[|ps| - 1];
      match Candidates(j, ps[..|ps| - 1])
      case Failure(e) => Failure(e)
      case Success(cs) =>
        if !p.known then Failure(UnknownParameter)
        else if !Bound(p) then Success(cs)
        else match Get(j, p.binding.value)
          case None => Failure(MissingPath)
          case Some(now) => Success(if PyEq(now, p.value) then cs else cs + [Change(p.binding.value, p.value)])
  }

  method Lookup(document: Json, path: seq<Component>) returns (r: Result<Json, VariantError>)
    ensures r == match Get(document, path) case None => Failure(MissingPath) case Some(found) => Success(found)
  {
    var current := document;
    assert path[0..] == path;
    for i := 0 to |path|
      invariant Get(document, path) == Get(current, path[i..])
    {
      assert path[i..][0] == path[i] && path[i..][1..] == path[i + 1..];
      var next := Child(current.node, path[i]);
      if next.None? { return Failure(MissingPath); }
      current := next.value;
    }
    r := Success(current);
  }

  method CandidateVariantChanges(document: Json, ps: seq<Parameter>) returns (r: Result<seq<Change>, VariantError>)
    ensures r == Candidates(document, ps)
  {
    var changes := [];
    for i := 0 to |ps|
      invariant Candidates(document, ps[..i]) == Success(changes)
    {
      assert ps[..i + 1][..i] == ps[..i];
      var p := ps[i];
      if !p.known {
        CandidateFailureStays(document, ps, i + 1);
        return Failure(UnknownParameter);
      }
      if p.binding.Some? && p.targets {
        var now := Lookup(document, p.binding.value);
        if now.Failure? {
          CandidateFailureStays(document, ps, i + 1);
          return Failure(MissingPath);
        }
        if !PyEq(now.value, p.value) { changes := changes + [Change(p.binding.value, p.value)]; }
      }
    }
    assert ps[..|ps|] == ps;
    r := Success(changes);
  }

  lemma {:induction false} CandidateFailureStays(j: Json, ps: seq<Parameter>, i: nat)
    requires i <= |ps| && Candidates(j, ps[..i]).Failure?
    ensures Candidates(j, ps) == Candidates(j, ps[..i])
    decreases |ps|
  {
    if i == |ps| {
      assert ps[..i] == ps;
    } else {
      assert ps[..|ps| - 1][..i] == ps[..i];
      CandidateFailureStays(j, ps[..|ps| - 1], i);
    }
  }

  // ---- edits with unrelated bindings settle ----

  ghost predicate PathsApart(cs: seq<Change>) {
    forall i, k | 0 <= i < k < |cs| :: Apart(cs[i].path, cs[k].path)
  }

  ghost predicate BindingsApart(ps: seq<Parameter>) {
    forall i, k | 0 <= i < k < |ps| && Bound(ps[i]) && Bound(ps[k]) :: Apart(ps[i].binding.value, ps[k].binding.value)
  }

  /** Changes leave every path apart from theirs alone. */
  lemma {:induction false} EditedElsewhere(j: Json, cs: seq<Change>, q: seq<Component>)
    requires Edited(j, cs).Some? && forall c | c in cs :: Apart(c.path, q)
    ensures Get(Edited(j, cs).value, q) == Get(j, q)
  {
    if cs != [] {
      var n := |cs| - 1;
      EditedElsewhere(j, cs[..n], q);
      assert cs[n] in cs;
      PutElsewhere(Edited(j, cs[..n]).value, cs[n].path, cs[n].value, q);
    }
  }

  /** Changes at unrelated paths all succeed, and all stick. */
  lemma {:induction false} EditedApart(j: Json, cs: seq<Change>)
    requires PathsApart(cs) && forall c | c in cs :: Get(j, c.path).Some?
    ensures Edited(j, cs).Some?
    ensures forall i | 0 <= i < |cs| :: Get(Edited(j, cs).value, cs[i].path) == Some(cs[i].value)
  {
    if cs != [] {
      var n := |cs| - 1;
      var c := cs[n];
      EditedApart(j, cs[..n]);
      forall d | d in cs[..n] ensures Apart(d.path, c.path) {
        var i :| 0 <= i < n && cs[i] == d;
      }
      assert c in cs;
      EditedElsewhere(j, cs[..n], c.path);
      OneMoreSticks(Edited(j, cs[..n]).value, cs[..n], c);
    }
  }

  lemma OneMoreSticks(j: Json, cs: seq<Change>, c: Change)
    requires Get(j, c.path).Some? && forall d | d in cs :: Apart(d.path, c.path)
    requires forall i | 0 <= i < |cs| :: Get(j, cs[i].path) == Some(cs[i].value)
    ensures Get(Put(j, c.path, c.value), c.path) == Some(c.value)
    ensures forall i | 0 <= i < |cs| :: Get(Put(j, c.path, c.value), cs[i].path) == Some(cs[i].value)
  {
    PutThenGet(j, c.path, c.value);
    forall i | 0 <= i < |cs| ensures Get(Put(j, c.path, c.value), cs[i].path) == Some(cs[i].value) {
      assert cs[i] in cs;
      PutElsewhere(j, c.path, c.value, cs[i].path);
    }
  }

  ghost predicate Comes(c: Change, ps: seq<Parameter>, m: int) {
    0 <= m < |ps| && Bound(ps[m]) && c == Change(ps[m].binding.value, ps[m].value)
  }

  lemma {:induction false} CandidateFacts(j: Json, ps: seq<Parameter>)
    requires Candidates(j, ps).Success?
    ensures forall c | c in Candidates(j, ps).value :: Get(j, c.path).Some? && exists m :: Comes(c, ps, m)
    ensures forall m | 0 <= m < |ps| :: ps[m].known
    ensures forall m | 0 <= m < |ps| && Bound(ps[m]) ::
      Get(j, ps[m].binding.value).Some?
      && (PyEq(Get(j, ps[m].binding.value).value, ps[m].value)
          || Change(ps[m].binding.value, ps[m].value) in Candidates(j, ps).value)
  {
    if ps != [] {
      var n := |ps| - 1;
      CandidateFacts(j, ps[..n]);
      var before, after := Candidates(j, ps[..n]).value, Candidates(j, ps).value;
      assert forall m | 0 <= m < n :: ps[..n][m] == ps[m];
      forall c | c in after
        ensures Get(j, c.path).Some? && exists m :: Comes(c, ps, m)
      {
        if c in before {
          var m :| Comes(c, ps[..n], m);
          assert Comes(c, ps, m);
        } else {
          assert Comes(c, ps, n);
        }
      }
    }
  }

  lemma {:induction false} CandidatesApart(j: Json, ps: seq<Parameter>)
    requires Candidates(j, ps).Success? && BindingsApart(ps)
    ensures PathsApart(Candidates(j, ps).value)
  {
    if ps != [] {
      var n := |ps| - 1;
      var before, after := Candidates(j, ps[..n]).value, Candidates(j, ps).value;
      CandidatesApart(j, ps[..n]);
      CandidateFacts(j, ps[..n]);
      if |after| > |before| {
        forall i | 0 <= i < |before| ensures Apart(after[i].path, after[|before|].path) {
          assert before[i] in before;
          var m :| Comes(before[i], ps[..n], m);
        }
      }
    }
  }

  lemma {:induction false} NothingToChange(j: Json, ps: seq<Parameter>)
    requires forall m | 0 <= m < |ps| :: ps[m].known
    requires forall m | 0 <= m < |ps| && Bound(ps[m]) ::
      Get(j, ps[m].binding.value).Some? && PyEq(Get(j, ps[m].binding.value).value, ps[m].value)
    ensures Candidates(j, ps) == Success([])
  {
    if ps != [] {
      assert forall m | 0 <= m < |ps| - 1 :: ps[..|ps| - 1][m] == ps[m];
      NothingToChange(j, ps[..|ps| - 1]);
    }
  }

  /** Applying the candidate changes settles: for bindings none of which leads
      into another, every change succeeds, a second look finds nothing left to
      change, and every path apart from the changed ones keeps its value. */
  lemma CandidatesSettle(j: Json, ps: seq<Parameter>)
    requires BindingsApart(ps) && Candidates(j, ps).Success?
    ensures
      var cs := Candidates(j, ps).value;
      && Edited(j, cs).Some?
      && Candidates(Edited(j, cs).value, ps) == Success([])
      && (forall q | forall c | c in cs :: Apart(c.path, q) :: Get(Edited(j, cs).value, q) == Get(j, q))
  {
    var cs := Candidates(j, ps).value;
    CandidateFacts(j, ps);
    CandidatesApart(j, ps);
    EditedApart(j, cs);
    var k := Edited(j, cs).value;
    forall q | forall c | c in cs :: Apart(c.path, q) ensures Get(k, q) == Get(j, q) {
      EditedElsewhere(j, cs, q);
    }
    forall m | 0 <= m < |ps| && Bound(ps[m])
      ensures Get(k, ps[m].binding.value).Some? && PyEq(Get(k, ps[m].binding.value).value, ps[m].value)
    {
      var c := Change(ps[m].binding.value, ps[m].value);
      if c in cs {
        var i :| 0 <= i < |cs| && cs[i] == c;
        PyEqReflexive(c.value);
      } else {
        forall d | d in cs ensures Apart(d.path, c.path) {
          var i :| Comes(d, ps, i);
          assert i != m;
        }
      }
    }
    NothingToChange(k, ps);
  }

  // ---- and only those always do ----

  /** Applying the candidate changes leaves nothing to change. */
  predicate Settles(j: Json, ps: seq<Parameter>) {
    Candidates(j, ps).Success?
    && Edited(j, Candidates(j, ps).value).Some?
    && Candidates(Edited(j, Candidates(j, ps).value).value, ps) == Success([])
  }

  lemma {:induction false} GetSplits(j: Json, p: seq<Component>, q: seq<Component>)
    ensures Get(j, p + q) == match Get(j, p) case None => None case Some(k) => Get(k, q)
  {
    if p == [] {
      assert p + q == q;
    } else {
      assert (p + q)[0] == p[0] && (p + q)[1..] == p[1..] + q;
      if Child(j.node, p[0]).Some? { GetSplits(Child(j.node, p[0]).value, p[1..], q); }
    }
  }

  function Text(s: string): Json {
    Json(Scalar(Str(s)))
  }

  /** Two words, neither of which is the given value. */
  function OtherWords(x: Json): (Json, Json) {
    if x == Text("a") then (Text("b"), Text("c"))
    else if x == Text("b") then (Text("a"), Text("c"))
    else (Text("a"), Text("b"))
  }

  lemma PairEdited(j: Json, p: seq<Component>, v: Json, q: seq<Component>, w: Json)
    requires Get(j, p).Some? && Get(Put(j, p, v), q).Some?
    ensures Edited(j, [Change(p, v), Change(q, w)]) == Some(Put(Put(j, p, v), q, w))
  {
    var cs := [Change(p, v), Change(q, w)];
    assert cs[..1] == [cs[0]] && [cs[0]][..0] == [];
    assert Edited(j, [cs[0]]) == Some(Put(j, p, v));
  }

  /** Two values, both new, of which one is gone once both are written. */
  ghost predicate Clash(j: Json, p: seq<Component>, v: Json, q: seq<Component>, w: Json) {
    && Get(j, p).Some? && Get(j, q).Some? && Get(Put(j, p, v), q).Some?
    && !PyEq(Get(j, p).value, v) && !PyEq(Get(j, q).value, w)
    && var after := Put(Put(j, p, v), q, w);
       Get(after, p).Some? && Get(after, q).Some? && !(PyEq(Get(after, p).value, v) && PyEq(Get(after, q).value, w))
  }

  lemma DifferInside(a: Json, b: Json, path: seq<Component>)
    requires Get(a, path).Some? && Get(b, path).Some? && !PyEq(Get(a, path).value, Get(b, path).value)
    ensures !PyEq(a, b)
  {
    if PyEq(a, b) { PyEqInside(a, b, path); }
  }

  /** The outer value is written first, the inner one changes it. */
  lemma OuterFirstClashes(j: Json, p: seq<Component>, rest: seq<Component>) returns (v: Json, w: Json)
    requires Get(j, p).Some? && Get(j, p + rest).Some?
    ensures Clash(j, p, v, p + rest, w)
  {
    GetSplits(j, p, rest);
    var q := p + rest;
    var outer := Get(j, p).value;
    var (a, b) := OtherWords(Get(j, q).value);
    v, w := Put(outer, rest, a), b;
    PutThenGet(outer, rest, a);
    DifferInside(outer, v, rest);
    var half := Put(j, p, v);
    PutThenGet(j, p, v);
    GetSplits(half, p, rest);
    var after := Put(half, q, b);
    PutThenGet(half, q, b);
    GetSplits(after, p, rest);
    DifferInside(Get(after, p).value, v, rest);
  }

  /** The inner value is written first, the outer one replaces it. */
  lemma InnerFirstClashes(j: Json, q: seq<Component>, rest: seq<Component>) returns (v: Json, w: Json)
    requires Get(j, q).Some? && Get(j, q + rest).Some?
    ensures Clash(j, q + rest, v, q, w)
  {
    GetSplits(j, q, rest);
    var p := q + rest;
    var outer := Get(j, q).value;
    var (a, b) := OtherWords(Get(j, p).value);
    v, w := a, Put(outer, rest, b);
    PutThenGet(outer, rest, b);
    DifferInside(outer, w, rest);
    var half := Put(j, p, a);
    PutThenGet(j, p, a);
    GetSplits(half, q, rest);
    var after := Put(half, q, w);
    PutThenGet(half, q, w);
    GetSplits(after, q, rest);
  }

  /** Whenever one of two paths leads into the other some values clash. */
  lemma NestedPathsClash(j: Json, p: seq<Component>, q: seq<Component>) returns (v: Json, w: Json)
    requires Get(j, p).Some? && Get(j, q).Some? && !Apart(p, q)
    ensures Clash(j, p, v, q, w)
  {
    if IsPrefix(p, q) {
      assert q == p + q[|p|..];
      v, w := OuterFirstClashes(j, p, q[|p|..]);
    } else {
      assert p == q + p[|q|..];
      v, w := InnerFirstClashes(j, q, p[|q|..]);
    }
  }

  /** The same bindings with other values. */
  function WithValues(ps: seq<Parameter>, vs: seq<Json>): seq<Parameter>
    requires |ps| == |vs|
  {
    seq(|ps|, m requires 0 <= m < |ps| => ps[m].(value := vs[m]))
  }

  /** Every parameter is known, and every binding exists in the document. */
  ghost predicate Resolvable(j: Json, ps: seq<Parameter>) {
    forall m | 0 <= m < |ps| :: ps[m].known && (Bound(ps[m]) ==> Get(j, ps[m].binding.value).Some?)
  }

  lemma {:induction false} ResolvableSucceeds(j: Json, ps: seq<Parameter>)
    requires Resolvable(j, ps)
    ensures Candidates(j, ps).Success?
  {
    if ps != [] {
      assert forall m | 0 <= m < |ps| - 1 :: ps[..|ps| - 1][m] == ps[m];
      ResolvableSucceeds(j, ps[..|ps| - 1]);
    }
  }

  ghost predicate AlreadyThere(j: Json, p: Parameter) {
    p.known && (Bound(p) ==> Get(j, p.binding.value).Some? && PyEq(Get(j, p.binding.value).value, p.value))
  }

  function ChangeOf(p: Parameter): Change
    requires Bound(p)
  {
    Change(p.binding.value, p.value)
  }

  lemma OneMore(j: Json, ps: seq<Parameter>, i: nat)
    requires i < |ps| && Bound(ps[i]) && ps[i].known && Candidates(j, ps[..i]).Success?
    requires Get(j, ps[i].binding.value).Some? && !PyEq(Get(j, ps[i].binding.value).value, ps[i].value)
    ensures Candidates(j, ps[..i + 1]) == Success(Candidates(j, ps[..i]).value + [ChangeOf(ps[i])])
  {
    assert ps[..i + 1][..i] == ps[..i] && ps[..i + 1][i] == ps[i];
  }

  lemma {:induction false} NoneMore(j: Json, ps: seq<Parameter>, from: nat, to: nat)
    requires from <= to <= |ps| && forall m | from <= m < to :: AlreadyThere(j, ps[m])
    ensures Candidates(j, ps[..to]) == Candidates(j, ps[..from])
  {
    if from < to {
      NoneMore(j, ps, from, to - 1);
      assert ps[..to][..to - 1] == ps[..to - 1] && ps[..to][to - 1] == ps[to - 1];
    }
  }

  /** When all values but two are there already, just those two are candidates. */
  lemma OnlyTwoChange(j: Json, ps: seq<Parameter>, i: nat, k: nat)
    requires i < k < |ps| && Bound(ps[i]) && Bound(ps[k])
    requires Get(j, ps[i].binding.value).Some? && !PyEq(Get(j, ps[i].binding.value).value, ps[i].value)
    requires Get(j, ps[k].binding.value).Some? && !PyEq(Get(j, ps[k].binding.value).value, ps[k].value)
    requires forall m | 0 <= m < |ps| && m != i && m != k :: AlreadyThere(j, ps[m])
    ensures Candidates(j, ps) == Success([ChangeOf(ps[i]), ChangeOf(ps[k])])
  {
    assert ps[..0] == [] && ps[..|ps|] == ps;
    NoneMore(j, ps, 0, i);
    OneMore(j, ps, i);
    NoneMore(j, ps, i + 1, k);
    OneMore(j, ps, k);
    NoneMore(j, ps, k + 1, |ps|);
    assert [] + [ChangeOf(ps[i])] + [ChangeOf(ps[k])] == [ChangeOf(ps[i]), ChangeOf(ps[k])];
  }

  lemma NothingLeft(j: Json, ps: seq<Parameter>, m: nat)
    requires Candidates(j, ps) == Success([]) && m < |ps| && Bound(ps[m])
    ensures Get(j, ps[m].binding.value).Some? && PyEq(Get(j, ps[m].binding.value).value, ps[m].value)
  {
    CandidateFacts(j, ps);
  }

  /** Two clashing values among values that are there already do not settle. */
  lemma ClashUnsettles(j: Json, ps: seq<Parameter>, i: nat, k: nat)
    requires i < k < |ps| && Bound(ps[i]) && Bound(ps[k])
    requires Clash(j, ps[i].binding.value, ps[i].value, ps[k].binding.value, ps[k].value)
    requires forall m | 0 <= m < |ps| && m != i && m != k :: AlreadyThere(j, ps[m])
    ensures !Settles(j, ps)
  {
    var p, v, q, w := ps[i].binding.value, ps[i].value, ps[k].binding.value, ps[k].value;
    OnlyTwoChange(j, ps, i, k);
    PairEdited(j, p, v, q, w);
    var after := Put(Put(j, p, v), q, w);
    if Candidates(after, ps) == Success([]) {
      NothingLeft(after, ps, i);
      NothingLeft(after, ps, k);
    }
  }

  /** The values a document holds now. */
  ghost function CurrentValues(j: Json, ps: seq<Parameter>): seq<Json>
    requires Resolvable(j, ps)
  {
    seq(|ps|, m requires 0 <= m < |ps| => if Bound(ps[m]) then Get(j, ps[m].binding.value).value else ps[m].value)
  }

  /** Bindings settle whatever their values exactly when none of their paths leads
      into another: for nested or equal paths some values never settle. */
  lemma BindingsSettleExactly(j: Json, ps: seq<Parameter>)
    requires Resolvable(j, ps)
    ensures BindingsApart(ps) <==> forall vs | |vs| == |ps| :: Settles(j, WithValues(ps, vs))
  {
    if BindingsApart(ps) {
      forall vs | |vs| == |ps| ensures Settles(j, WithValues(ps, vs)) {
        ResolvableSucceeds(j, WithValues(ps, vs));
        assert BindingsApart(WithValues(ps, vs));
        CandidatesSettle(j, WithValues(ps, vs));
      }
    } else {
      var i, k :| 0 <= i < k < |ps| && Bound(ps[i]) && Bound(ps[k]) && !Apart(ps[i].binding.value, ps[k].binding.value);
      var v, w := NestedPathsClash(j, ps[i].binding.value, ps[k].binding.value);
      var vs := CurrentValues(j, ps)[i := v][k := w];
      var changed := WithValues(ps, vs);
      forall m | 0 <= m < |ps| && m != i && m != k ensures AlreadyThere(j, changed[m]) {
        PyEqReflexive(vs[m]);
      }
      ClashUnsettles(j, changed, i, k);
    }
  }
}
