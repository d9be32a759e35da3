/** Experiment lineage (storage.py) and the ancestry a trace reports (tracing.py). */
module ExperimentLineages {
  import opened Prelude

  type ExperimentId = int

  const DERIVED_FROM := "derived_from"

  /** A lineage row as proposed with an experiment. */
  datatype Row = Row(child: ExperimentId, parent: ExperimentId, relationship: string)

  /** One complete experiment: its id, the experiments its artifacts name, its rows. */
  datatype Record = Record(id: ExperimentId, artifactOwners: seq<ExperimentId>, rows: seq<Row>)

  /** The lineage table, keyed by child and relationship. */
  type Lineage = map<(ExperimentId, string), ExperimentId>

  /** The database; `order` lists the experiments as they were inserted. */
  datatype State = State(order: seq<ExperimentId>, lineage: Lineage)

  const EMPTY := State([], map[])

  /** The table's primary key, CHECK and REFERENCES constraints. */
  predicate Insertable(m: Lineage, experiments: set<ExperimentId>, row: Row) {
    (row.child, row.relationship) !in m && row.child != row.parent && row.relationship != ""
    && row.child in experiments && row.parent in experiments
  }

  function Inserted(m: Lineage, experiments: set<ExperimentId>, rows: seq<Row>): Option<Lineage> {
    if rows == [] then Some(m)
    else
      var row := rows[|rows| - 1];
      match Inserted(m, experiments, rows[..|rows| - 1])
      case None => None
      case Some(n) =>
        if Insertable(n, experiments, row) then Some(n[(row.child, row.relationship) := row.parent]) else None
  }

  predicate Coherent(r: Record) {
    (forall owner | owner in r.artifactOwners :: owner == r.id) && (forall row | row in r.rows :: row.child == r.id)
  }

  function Elements(s: seq<ExperimentId>): set<ExperimentId> {
    set id | id in s
  }

  /** Saving one record; a record that breaks any rule leaves the store alone. */
  function Saved(s: State, r: Record): State {
    if !Coherent(r) || r.id in s.order then s
    else match Inserted(s.lineage, Elements(s.order + [r.id]), r.rows)
      case None => s
      case Some(m) => State(s.order + [r.id], m)
  }

  function Run(s: State, rs: seq<Record>): State {
    if rs == [] then s else Saved(Run(s, rs[..|rs| - 1]), rs[|rs| - 1])
  }

  // ---- no cycles ----

  /** Parents were inserted before their children. */
  ghost predicate Grown(s: State) {
    (forall i, j | 0 <= i < j < |s.order| :: s.order[i] != s.order[j])
    && forall key | key in s.lineage :: Before(s.order, s.lineage[key], key.0)
  }

  ghost predicate Before(order: seq<ExperimentId>, a: ExperimentId, b: ExperimentId) {
    exists i, j :: 0 <= i < j < |order| && order[i] == a && order[j] == b
  }

  lemma {:induction false} InsertedIsGrown(s: State, id: ExperimentId, rows: seq<Row>)
    requires Grown(s) && id !in s.order && forall row | row in rows :: row.child == id
    requires Inserted(s.lineage, Elements(s.order + [id]), rows).Some?
    ensures Grown(State(s.order + [id], Inserted(s.lineage, Elements(s.order + [id]), rows).value))
  {
    var order := s.order + [id];
    if rows == [] {
      forall key | key in s.lineage ensures Before(order, s.lineage[key], key.0) {
        var i, j :| 0 <= i < j < |s.order| && s.order[i] == s.lineage[key] && s.order[j] == key.0;
        assert order[i] == s.order[i] && order[j] == s.order[j];
      }
    } else {
      var row := rows[|rows| - 1];
      assert row in rows;
      InsertedIsGrown(s, id, rows[..|rows| - 1]);
      assert row.parent in s.order;
      var i :| 0 <= i < |s.order| && s.order[i] == row.parent;
      assert order[i] == row.parent && order[|s.order|] == id;
      assert Before(order, row.parent, id);
    }
  }

  lemma {:induction false} RunsAreGrown(rs: seq<Record>)
    ensures Grown(Run(EMPTY, rs))
  {
    if rs != [] {
      RunsAreGrown(rs[..|rs| - 1]);
      var s, r := Run(EMPTY, rs[..|rs| - 1]), rs[|rs| - 1];
      if Coherent(r) && r.id !in s.order && Inserted(s.lineage, Elements(s.order + [r.id]), r.rows).Some? {
        InsertedIsGrown(s, r.id, r.rows);
      }
    }
  }

  ghost predicate IsParent(m: Lineage, child: ExperimentId, parent: ExperimentId) {
    exists relationship :: (child, relationship) in m && m[(child, relationship)] == parent
  }

  /** Steps from child to parent, along any relationships. */
  ghost predicate IsWalk(m: Lineage, walk: seq<ExperimentId>) {
    forall k | 0 <= k < |walk| - 1 :: IsParent(m, walk[k], walk[k + 1])
  }

  lemma {:induction false} WalksGoBack(s: State, walk: seq<ExperimentId>)
    requires Grown(s) && IsWalk(s.lineage, walk) && |walk| >= 2
    ensures Before(s.order, walk[|walk| - 1], walk[0])
  {
    var n := |walk| - 1;
    assert IsParent(s.lineage, walk[n - 1], walk[n]);
    var relationship :| (walk[n - 1], relationship) in s.lineage && s.lineage[(walk[n - 1], relationship)] == walk[n];
    assert Before(s.order, walk[n], walk[n - 1]);
    if n > 1 {
      assert IsWalk(s.lineage, walk[..n]) by {
        forall k | 0 <= k < n - 1 ensures IsParent(s.lineage, walk[..n][k], walk[..n][k + 1]) {
          assert IsParent(s.lineage, walk[k], walk[k + 1]);
        }
      }
      WalksGoBack(s, walk[..n]);
      BeforeFurther(s.order, walk[n], walk[n - 1], walk[0]);
    }
  }

  lemma BeforeFurther(order: seq<ExperimentId>, a: ExperimentId, b: ExperimentId, c: ExperimentId)
    requires forall i, j | 0 <= i < j < |order| :: order[i] != order[j]
    requires Before(order, a, b) && Before(order, b, c)
    ensures Before(order, a, c)
  {
    var i, j :| 0 <= i < j < |order| && order[i] == a && order[j] == b;
    var k, l :| 0 <= k < l < |order| && order[k] == b && order[l] == c;
    assert j == k;
  }

  /** Every store that saving records can reach is acyclic: no walk from child to
      parent ever returns to where it began. */
  lemma LineageIsAcyclic(rs: seq<Record>, walk: seq<ExperimentId>)
    requires IsWalk(Run(EMPTY, rs).lineage, walk) && |walk| >= 2
    ensures walk[0] != walk[|walk| - 1]
  {
    RunsAreGrown(rs);
    WalksGoBack(Run(EMPTY, rs), walk);
  }

  // ---- the trace ----

  function ParentOf(m: Lineage, id: ExperimentId): Option<ExperimentId> {
    if (id, DERIVED_FROM) in m then Some(m[(id, DERIVED_FROM)]) else None
  }

  /** Each element is the recorded parent of the one before it. */
  predicate IsChain(m: Lineage, chain: seq<ExperimentId>) {
    forall k | 0 <= k < |chain| - 1 :: ParentOf(m, chain[k]) == Some(chain[k + 1])
  }

  predicate Distinct(s: seq<ExperimentId>) {
    forall i, j | 0 <= i < j < |s| :: s[i] != s[j]
  }

  class ExperimentStore {
    var experiments: set<ExperimentId>
    var lineage: Lineage
    ghost var order: seq<ExperimentId>

    ghost predicate Valid()
      reads this
    {
      experiments == Elements(order) && forall key | key in lineage :: lineage[key] in experiments
    }

    ghost function Now(): State
      reads this
    {
      State(order, lineage)
    }

    constructor ()
      ensures Valid() && Now() == EMPTY
    {
      experiments, lineage, order := {}, map[], [];
    }

    /** One transaction: rows go in one by one, and the first that breaks a
        constraint rolls everything back. */
    method SaveRecord(r: Record) returns (saved: bool)
      requires Valid()
      modifies this
      ensures Valid() && Now() == Saved(old(Now()), r)
      ensures saved <==> old(order) != order
    {
      if exists owner | owner in r.artifactOwners :: owner != r.id { return false; }
      if exists row | row in r.rows :: row.child != r.id { return false; }
      if r.id in experiments { return false; }
      var present := experiments + {r.id};
      ghost var after := order + [r.id];
      assert present == Elements(after);
      var table := lineage;
      for i := 0 to |r.rows|
        invariant Inserted(lineage, present, r.rows[..i]) == Some(table)
        invariant forall key | key in table :: table[key] in present
      {
        assert r.rows[..i + 1][..i] == r.rows[..i];
        var row := r.rows[i];
        if (row.child, row.relationship) in table || row.child == row.parent || row.relationship == ""
           || row.parent !in present {
          assert row in r.rows;
          RejectionStays(lineage, present, r.rows, i + 1);
          return false;
        }
        assert row in r.rows;
        table := table[(row.child, row.relationship) := row.parent];
      }
      assert r.rows[..|r.rows|] == r.rows;
      experiments, lineage, order := present, table, after;
      saved := true;
    }

    /** `trace_artifact` from the producing experiment: on any store whose parents
        exist the loop ends, follows recorded parents without repeating, and stops
        only at a root or in front of an experiment it has seen. */
    method TraceAncestry(producer: ExperimentId) returns (ancestry: seq<ExperimentId>)
      requires Valid() && producer in experiments
      ensures IsChain(lineage, [producer] + ancestry) && Distinct([producer] + ancestry)
      ensures
        var last := ([producer] + ancestry)[|ancestry|];
        ParentOf(lineage, last).None? || ParentOf(lineage, last).value in [producer] + ancestry
    {
      ancestry := [];
      var seen := {producer};
      var current := producer;
      while (current, DERIVED_FROM) in lineage
        invariant current == ([producer] + ancestry)[|ancestry|] && current in experiments
        invariant seen <= experiments && forall id :: id in seen <==> id in [producer] + ancestry
        invariant IsChain(lineage, [producer] + ancestry) && Distinct([producer] + ancestry)
        decreases experiments - seen
      {
        var parent := lineage[(current, DERIVED_FROM)];
        if parent in seen { break; }
        ghost var chain := [producer] + ancestry;
        ancestry := ancestry + [parent];
        assert [producer] + ancestry == chain + [parent];
        seen := seen + {parent};
        current := parent;
      }
    }
  }

  lemma {:induction false} RejectionStays(m: Lineage, experiments: set<ExperimentId>, rows: seq<Row>, i: nat)
    requires i <= |rows| && Inserted(m, experiments, rows[..i]).None?
    ensures Inserted(m, experiments, rows).None?
    decreases |rows|
  {
    if i == |rows| {
      assert rows[..i] == rows;
    } else {
      assert rows[..|rows| - 1][..i] == rows[..i];
      RejectionStays(m, experiments, rows[..|rows| - 1], i);
    }
  }

  /** On every reachable store what the trace returns ends at a root, its cycle
      exit being impossible, and is the whole ancestry: every chain of recorded
      parents from the producer is a beginning of it. */
  lemma TraceIsComplete(rs: seq<Record>, trace: seq<ExperimentId>, chain: seq<ExperimentId>)
    requires var m := Run(EMPTY, rs).lineage;
      && trace != [] && IsChain(m, trace)
      && (ParentOf(m, trace[|trace| - 1]).None? || ParentOf(m, trace[|trace| - 1]).value in trace)
      && chain != [] && chain[0] == trace[0] && IsChain(m, chain)
    ensures ParentOf(Run(EMPTY, rs).lineage, trace[|trace| - 1]).None?
    ensures chain <= trace
  {
    var m, last := Run(EMPTY, rs).lineage, |trace| - 1;
    if ParentOf(m, trace[last]).Some? {
      var k :| 0 <= k <= last && trace[k] == ParentOf(m, trace[last]).value;
      var loop := trace[k..] + [trace[k]];
      ChainsAreWalks(m, trace);
      assert IsParent(m, trace[last], trace[k]);
      assert IsWalk(m, loop) by {
        forall i | 0 <= i < |loop| - 1 ensures IsParent(m, loop[i], loop[i + 1]) {
          if i + 1 < |trace| - k { assert IsParent(m, trace[k + i], trace[k + i + 1]); }
        }
      }
      LineageIsAcyclic(rs, loop);
    }
    ChainsAgree(m, trace, chain);
  }

  lemma ChainsAreWalks(m: Lineage, chain: seq<ExperimentId>)
    requires IsChain(m, chain)
    ensures IsWalk(m, chain)
  {
    forall k | 0 <= k < |chain| - 1 ensures IsParent(m, chain[k], chain[k + 1]) {
      assert ParentOf(m, chain[k]) == Some(chain[k + 1]);
    }
  }

  lemma {:induction false} ChainsAgree(m: Lineage, trace: seq<ExperimentId>, chain: seq<ExperimentId>)
    requires trace != [] && chain != [] && trace[0] == chain[0] && IsChain(m, trace) && IsChain(m, chain)
    requires ParentOf(m, trace[|trace| - 1]).None?
    ensures chain <= trace
    decreases |chain|
  {
    if |chain| > 1 {
      var n := |chain| - 1;
      assert IsChain(m, chain[..n]);
      ChainsAgree(m, trace, chain[..n]);
      assert ParentOf(m, chain[n - 1]) == Some(chain[n]);
      assert trace[n - 1] == chain[n - 1];
      assert n < |trace|;
      assert ParentOf(m, trace[n - 1]) == Some(trace[n]);
    }
  }
}
