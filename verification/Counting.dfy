/** Sums over sequences and the few laws the coverage accounting needs. */
module Counting {

  ghost function Sum<T(!new)>(xs: seq<T>, f: T -> int): int {
    if xs == [] then 0 else Sum(xs[..|xs| - 1], f) + f(xs[|xs| - 1])
  }

  lemma {:induction false} SumConcat<T(!new)>(a: seq<T>, b: seq<T>, f: T -> int)
    ensures Sum(a + b, f) == Sum(a, f) + Sum(b, f)
  {
    if b == [] {
      assert a + b == a;
    } else {
      assert (a + b)[..|a + b| - 1] == a + b[..|b| - 1];
      SumConcat(a, b[..|b| - 1], f);
    }
  }

  lemma {:induction false} SumEqual<T(!new)>(xs: seq<T>, f: T -> int, g: T -> int)
    requires forall x | x in xs :: f(x) == g(x)
    ensures Sum(xs, f) == Sum(xs, g)
  {
    if xs != [] {
      assert xs[|xs| - 1] in xs && forall x | x in xs[..|xs| - 1] :: x in xs;
      SumEqual(xs[..|xs| - 1], f, g);
    }
  }

  lemma {:induction false} SumPlus<T(!new)>(xs: seq<T>, f: T -> int, g: T -> int)
    ensures Sum(xs, x => f(x) + g(x)) == Sum(xs, f) + Sum(xs, g)
  {
    if xs != [] { SumPlus(xs[..|xs| - 1], f, g); }
  }

  lemma {:induction false} SumZero<T(!new)>(xs: seq<T>, f: T -> int)
    requires forall x | x in xs :: f(x) == 0
    ensures Sum(xs, f) == 0
  {
    if xs != [] {
      assert xs[|xs| - 1] in xs && forall x | x in xs[..|xs| - 1] :: x in xs;
      SumZero(xs[..|xs| - 1], f);
    }
  }

  lemma CancelOne<T(!new)>(a: multiset<T>, b: multiset<T>, x: T)
    requires a + multiset{x} == b + multiset{x}
    ensures a == b
  {
    forall y ensures a[y] == b[y] {
      assert (a + multiset{x})[y] == a[y] + multiset{x}[y];
      assert (b + multiset{x})[y] == b[y] + multiset{x}[y];
    }
  }

  /** A sum does not depend on the order of its terms. */
  lemma {:induction false} SumPermuted<T(!new)>(a: seq<T>, b: seq<T>, f: T -> int)
    requires multiset(a) == multiset(b)
    ensures Sum(a, f) == Sum(b, f)
  {
    if a == [] {
      assert |multiset(b)| == 0;
    } else {
      var last := a[|a| - 1];
      assert last in multiset(a);
      assert last in multiset(b);
      var i :| 0 <= i < |b| && b[i] == last;
      var rest := b[..i] + b[i + 1..];
      assert b == b[..i] + [last] + b[i + 1..];
      assert a == a[..|a| - 1] + [last];
      assert multiset(a) == multiset(a[..|a| - 1]) + multiset{last};
      assert multiset(b) == multiset(rest) + multiset{last};
      CancelOne(multiset(a[..|a| - 1]), multiset(rest), last);
      SumPermuted(a[..|a| - 1], rest, f);
      SumConcat(b[..i] + [last], b[i + 1..], f);
      SumConcat(b[..i], [last], f);
      SumConcat(b[..i], b[i + 1..], f);
      assert Sum([last], f) == f(last) by { assert [last][..0] == []; assert Sum<T>([], f) == 0; }
    }
  }

  // ---- positions of a round-robin ----

  /** Position k of a round-robin over `width` groups. */
  lemma TurnIndex(layer: nat, position: nat, width: nat)
    requires position < width
    ensures (layer * width + position) / width == layer && (layer * width + position) % width == position
  {
    var k := layer * width + position;
    var q, r := k / width, k % width;
    assert k == q * width + r;
    assert q < layer ==> (q + 1) * width <= layer * width;
    assert q > layer ==> (layer + 1) * width <= q * width;
  }

  /** How many of the first n positions belong to group i. */
  ghost function TurnsOf(i: nat, n: nat, width: nat): nat
    requires width > 0
  {
    if n == 0 then 0 else TurnsOf(i, n - 1, width) + (if (n - 1) % width == i then 1 else 0)
  }

  lemma {:induction false} TurnsAreBalanced(i: nat, n: nat, width: nat)
    requires i < width
    ensures TurnsOf(i, n, width) == n / width + (if i < n % width then 1 else 0)
  {
    if n > 0 {
      TurnsAreBalanced(i, n - 1, width);
      NextTurn(n - 1, width);
    }
  }

  lemma NextTurn(k: nat, width: nat)
    requires width > 0
    ensures if k % width == width - 1 then (k + 1) / width == k / width + 1 && (k + 1) % width == 0
            else (k + 1) / width == k / width && (k + 1) % width == k % width + 1
  {
    var q, r := k / width, k % width;
    assert k == q * width + r;
    if r == width - 1 {
      assert k + 1 == (q + 1) * width;
      TurnIndex(q + 1, 0, width);
    } else {
      TurnIndex(q, r + 1, width);
    }
  }

  // ---- summing a round-robin ----

  /** f(0) + ... + f(n - 1). */
  ghost function SumTo(n: nat, f: nat -> int): int {
    if n == 0 then 0 else SumTo(n - 1, f) + f(n - 1)
  }

  lemma {:induction false} SumToSeq<A(!new)>(xs: seq<A>, n: nat, v: A -> int, f: nat -> int)
    requires n <= |xs| && forall l: nat | l < n :: f(l) == v(xs[l])
    ensures SumTo(n, f) == Sum(xs[..n], v)
  {
    if n > 0 {
      SumToSeq(xs, n - 1, v, f);
      assert xs[..n][..n - 1] == xs[..n - 1];
    }
  }

  ghost function Layer<G(!new)>(value: (G, nat) -> int, layer: nat): G -> int {
    (g: G) => value(g, layer)
  }

  ghost function Layers<G(!new)>(value: (G, nat) -> int, layers: nat): G -> int {
    (g: G) => SumTo(layers, (l: nat) => value(g, l))
  }

  lemma {:induction false} LayerSum<C(!new), G(!new)>(xs: seq<C>, v: C -> int, groups: seq<G>, value: (G, nat) -> int,
                                                      start: nat, layer: nat, width: nat)
    requires width <= |groups| && start + width <= |xs|
    requires forall p | 0 <= p < width :: v(xs[start + p]) == value(groups[p], layer)
    ensures Sum(xs[start..start + width], v) == Sum(groups[..width], Layer(value, layer))
    decreases width
  {
    if width > 0 {
      LayerSum(xs, v, groups, value, start, layer, width - 1);
      var slice := xs[start..start + width];
      assert slice[..|slice| - 1] == xs[start..start + width - 1];
      assert slice[|slice| - 1] == xs[start + (width - 1)];
      assert groups[..width][..width - 1] == groups[..width - 1];
    }
  }

  lemma AddLayer<G(!new)>(groups: seq<G>, value: (G, nat) -> int, layer: nat)
    ensures Sum(groups, Layers(value, layer)) + Sum(groups, Layer(value, layer))
        == Sum(groups, Layers(value, layer + 1))
  {
    var f, h := Layers(value, layer), Layer(value, layer);
    SumPlus(groups, f, h);
    forall g | g in groups ensures f(g) + h(g) == Layers(value, layer + 1)(g) {
      SumToExtend(layer, (l: nat) => value(g, l), (l: nat) => value(g, l));
    }
    SumEqual(groups, x => f(x) + h(x), Layers(value, layer + 1));
  }

  lemma SumToExtend(n: nat, f: nat -> int, h: nat -> int)
    requires f == h
    ensures SumTo(n, f) + f(n) == SumTo(n + 1, h)
  {
  }

  /** Turn k of a round-robin shows group k % width in layer k / width. */
  ghost predicate TurnHolds<C(!new), G(!new)>(xs: seq<C>, v: C -> int, groups: seq<G>, value: (G, nat) -> int, k: nat) {
    k < |xs| && |groups| > 0 && v(xs[k]) == value(groups[k % |groups|], k / |groups|)
  }

  lemma TurnOfLayer<C(!new), G(!new)>(xs: seq<C>, v: C -> int, groups: seq<G>, value: (G, nat) -> int,
                                      layer: nat, p: nat, k: nat)
    requires p < |groups| && k == layer * |groups| + p && TurnHolds(xs, v, groups, value, k)
    ensures v(xs[k]) == value(groups[p], layer)
  {
    TurnIndex(layer, p, |groups|);
  }

  lemma TurnsOfLayer<C(!new), G(!new)>(xs: seq<C>, v: C -> int, groups: seq<G>, value: (G, nat) -> int,
                                       layer: nat, start: nat)
    requires start == layer * |groups| && start + |groups| <= |xs|
    requires forall k: nat | k < start + |groups| :: TurnHolds(xs, v, groups, value, k)
    ensures forall p: nat | p < |groups| :: v(xs[start + p]) == value(groups[p], layer)
  {
    forall p: nat | p < |groups| ensures v(xs[start + p]) == value(groups[p], layer) {
      TurnOfLayer(xs, v, groups, value, layer, p, start + p);
    }
  }

  /** Summing the turns is summing, group by group, the layers of each. */
  lemma {:induction false} RoundRobinSum<C(!new), G(!new)>(xs: seq<C>, v: C -> int, groups: seq<G>,
                                                           value: (G, nat) -> int, layers: nat, end: nat)
    requires end == layers * |groups| && end <= |xs|
    requires forall k: nat | k < end :: TurnHolds(xs, v, groups, value, k)
    ensures Sum(xs[..end], v) == Sum(groups, Layers(value, layers))
    decreases layers
  {
    if layers == 0 {
      SumZero(groups, Layers(value, 0));
    } else {
      var before := (layers - 1) * |groups|;
      assert end == before + |groups|;
      RoundRobinSum(xs, v, groups, value, layers - 1, before);
      TurnsOfLayer(xs, v, groups, value, layers - 1, before);
      LayerSum(xs, v, groups, value, before, layers - 1, |groups|);
      SplitSum(xs, v, before, end);
      assert groups[..|groups|] == groups;
      AddLayer(groups, value, layers - 1);
    }
  }

  lemma SplitSum<C(!new)>(xs: seq<C>, v: C -> int, before: nat, end: nat)
    requires before <= end <= |xs|
    ensures Sum(xs[..end], v) == Sum(xs[..before], v) + Sum(xs[before..end], v)
  {
    assert xs[..end] == xs[..before] + xs[before..end];
    SumConcat(xs[..before], xs[before..end], v);
  }
}
