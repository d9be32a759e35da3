/** Small shared vocabulary: optional values, results that carry an error, and
    the two sequence operations the planner takes from its host language
    (a stable sort by key and an ascending listing of a finite set). */
module Prelude {

  datatype Option<+T> = None | Some(value: T)

  datatype Result<+T, +E> = Success(value: T) | Failure(error: E)

  function Min(a: int, b: int): int {
    if a <= b then a else b
  }

  function Max(a: int, b: int): int {
    if a <= b then b else a
  }

  function Take<T>(s: seq<T>, limit: nat): (r: seq<T>)
    ensures |r| == Min(limit, |s|)
    ensures forall v | v in r :: v in s
  {
    s[..Min(limit, |s|)]
  }

  lemma ConcatIsAssociative<T>(a: seq<T>, b: seq<T>, c: seq<T>)
    ensures (a + b) + c == a + (b + c)
  {
  }

  ghost predicate Ascending(s: seq<int>) {
    forall i, j | 0 <= i < j < |s| :: s[i] < s[j]
  }

  function InsertAscending(s: seq<int>, v: int): (r: seq<int>)
    requires Ascending(s)
    ensures Ascending(r)
    ensures forall w :: w in r <==> w in s || w == v
  {
    if s == [] then [v]
    else if v < s[0] then [v] + s
    else if v == s[0] then s
    else
      assert s == [s[0]] + s[1..];
      var rest := InsertAscending(s[1..], v);
      assert forall i | 0 <= i < |rest| :: rest[i] in rest;
      [s[0]] + rest
  }

  /** `sorted(set(values))`: the distinct values, smallest first. */
  function SortedDistinct(values: seq<int>): (r: seq<int>)
    ensures Ascending(r)
    ensures forall v :: v in r <==> v in values
  {
    if values == [] then []
    else
      assert values == values[..|values| - 1] + [values[|values| - 1]];
      InsertAscending(SortedDistinct(values[..|values| - 1]), values[|values| - 1])
  }

  /** Two ascending listings of the same elements are the same sequence. */
  lemma {:induction false} AscendingUnique(a: seq<int>, b: seq<int>)
    requires Ascending(a) && Ascending(b)
    requires forall v :: v in a <==> v in b
    ensures a == b
  {
    if b == [] {
      assert forall i | 0 <= i < |a| :: a[i] in a;
    } else {
      assert b[0] in b;
      assert |a| > 0;
      assert a[0] in b;
      assert b[0] in a;
      assert a[0] == b[0];
      forall v ensures v in a[1..] <==> v in b[1..] {
        if v in a[1..] { assert v in b && v != a[0]; }
        if v in b[1..] { assert v in a && v != b[0]; }
      }
      AscendingUnique(a[1..], b[1..]);
      assert a == [a[0]] + a[1..] && b == [b[0]] + b[1..];
    }
  }

  /** Inserts after every element whose key is not greater, so equal keys keep
      their order. */
  function InsertByKey<T>(s: seq<T>, x: T, key: T -> int): (r: seq<T>)
    ensures multiset(r) == multiset(s) + multiset{x}
  {
    if s != [] && key(x) < key(s[|s| - 1]) then
      assert s == s[..|s| - 1] + [s[|s| - 1]];
      InsertByKey(s[..|s| - 1], x, key) + [s[|s| - 1]]
    else s + [x]
  }

  /** The stable sort by key of the host language. */
  function SortByKey<T>(s: seq<T>, key: T -> int): (r: seq<T>)
    ensures multiset(r) == multiset(s)
    ensures |r| == |s|
  {
    if s == [] then []
    else
      assert s == s[..|s| - 1] + [s[|s| - 1]];
      var r := InsertByKey(SortByKey(s[..|s| - 1], key), s[|s| - 1], key);
      assert |r| == |multiset(r)|;
      r
  }

  ghost predicate KeysInOrder<T(!new)>(s: seq<T>, key: T -> int) {
    forall i, j | 0 <= i < j < |s| :: key(s[i]) <= key(s[j])
  }

  lemma {:induction false} InsertKeepsOrder<T(!new)>(s: seq<T>, x: T, key: T -> int)
    requires KeysInOrder(s, key)
    ensures KeysInOrder(InsertByKey(s, x, key), key)
  {
    if s != [] && key(x) < key(s[|s| - 1]) {
      var rest := s[..|s| - 1];
      var r := InsertByKey(rest, x, key);
      InsertKeepsOrder(rest, x, key);
      forall i | 0 <= i < |r| ensures key(r[i]) <= key(s[|s| - 1]) {
        assert r[i] in multiset(r);
        assert r[i] in rest || r[i] == x;
      }
    }
  }

  lemma {:induction false} SortingOrdersKeys<T(!new)>(s: seq<T>, key: T -> int)
    ensures KeysInOrder(SortByKey(s, key), key)
  {
    if s != [] {
      SortingOrdersKeys(s[..|s| - 1], key);
      InsertKeepsOrder(SortByKey(s[..|s| - 1], key), s[|s| - 1], key);
    }
  }
}
