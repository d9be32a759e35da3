/** The controller's execution tables (workload_storage.py, site_storage.py):
    one row of everything per attempt, each method one transaction. */
module ExecutionStores {
  import opened Prelude
  import opened Schedulers
  import opened RemoteWorkers

  type AttemptId = int
  type PlanId = int
  type ExperimentId = int

  /** Names an event may carry. Most are also values of the state column. */
  datatype Name =
    | Planned | PreparedState | SubmittedState | Queued | Running | SchedulerTerminal | SchedulerUnobservable
    | SubmissionAmbiguous | FailedState | Completed | Interrupted | PreflightFailed | CollectionFailed
    | CancelledState | UnknownOutcome
    | IdentityObserved | SchedulerQueryError | CancellationRequested | CancellationRejected
    | CancellationFailed | RemoteReconciled

  /** Lifecycle evidence that never becomes a state. */
  predicate EvidenceOnly(n: Name) {
    n in {IdentityObserved, SchedulerQueryError, CancellationRequested, CancellationRejected,
          CancellationFailed, RemoteReconciled}
  }

  /** What a worker result may set the state to. */
  predicate ResultState(n: Name) {
    n in {Completed, FailedState, Interrupted, PreflightFailed, CollectionFailed, CancelledState, UnknownOutcome}
  }

  type ResultName = n: Name | ResultState(n) witness Completed

  datatype Event = Event(name: Name, occurredAt: int)

  /** The upserted mirror of remote truth; the scheduler evidence of its last
      write is all that waiting looks at. */
  datatype RemoteRecord = RemoteRecord(jobId: Option<JobId>, scheduler: Option<SchedulerState>)

  datatype Attempt = Attempt(
    plan: PlanId, family: Family, state: Name, createdAt: int, events: seq<Event>,
    job: Option<JobId>, experiment: Option<ExperimentId>, imported: bool, remote: Option<RemoteRecord>)

  datatype StoreError = NotFound | IntegrityError

  // ---- row transformations ----

  function Created(plan: PlanId, family: Family, at: int): Attempt {
    Attempt(plan, family, Planned, at, [Event(Planned, at)], None, None, false, None)
  }

  /** State column and event move together. */
  function Updated(a: Attempt, name: Name, at: int): Attempt {
    a.(state := name, events := a.events + [Event(name, at)])
  }

  /** Evidence is appended without touching the state column. */
  function Noted(a: Attempt, name: Name, at: int): Attempt {
    a.(events := a.events + [Event(name, at)])
  }

  function Imported(a: Attempt, experiment: Option<ExperimentId>, name: Name, at: int): Attempt {
    Updated(a, name, at).(experiment := if experiment.Some? then experiment else a.experiment, imported := true)
  }

  // ---- the event log refines the state column ----

  /** The last event that is not mere evidence, in append order. */
  function LastState(events: seq<Event>): Option<Name> {
    if events == [] then None
    else if EvidenceOnly(events[|events| - 1].name) then LastState(events[..|events| - 1])
    else Some(events[|events| - 1].name)
  }

  ghost predicate LogRefines(a: Attempt) {
    LastState(a.events) == Some(a.state)
  }

  lemma LastStateNext(events: seq<Event>, e: Event)
    ensures LastState(events + [e]) == if EvidenceOnly(e.name) then LastState(events) else Some(e.name)
  {
    assert (events + [e])[..|events + [e]| - 1] == events;
  }

  /** The store itself accepts any name: an update keeps the log and the column
      together exactly when the name is not evidence-only, ... */
  lemma UpdateRefinesExactly(a: Attempt, name: Name, at: int)
    requires LogRefines(a)
    ensures LogRefines(Updated(a, name, at)) <==> !EvidenceOnly(name)
  {
    LastStateNext(a.events, Event(name, at));
    LastStateIsState(a.events);
  }

  /** ... and a recorded event exactly when it is, or repeats the state. */
  lemma NoteRefinesExactly(a: Attempt, name: Name, at: int)
    requires LogRefines(a)
    ensures LogRefines(Noted(a, name, at)) <==> EvidenceOnly(name) || name == a.state
  {
    LastStateNext(a.events, Event(name, at));
  }

  lemma {:induction false} LastStateIsState(events: seq<Event>)
    ensures LastState(events).Some? ==> !EvidenceOnly(LastState(events).value)
  {
    if events != [] { LastStateIsState(events[..|events| - 1]); }
  }

  ghost predicate TimeOrdered(events: seq<Event>) {
    forall i, j | 0 <= i < j < |events| :: events[i].occurredAt <= events[j].occurredAt
  }

  /** A state event no other state event is later than. */
  ghost predicate IsNewestState(events: seq<Event>, e: Event) {
    e in events && !EvidenceOnly(e.name)
    && forall f | f in events && !EvidenceOnly(f.name) :: f.occurredAt <= e.occurredAt
  }

  /** Listed by time, the last state event is one of the newest. */
  lemma {:induction false} LastByTimeIsNewest(byTime: seq<Event>) returns (e: Event)
    requires TimeOrdered(byTime) && LastState(byTime).Some?
    ensures IsNewestState(byTime, e) && LastState(byTime) == Some(e.name)
  {
    var n := |byTime| - 1;
    assert byTime == byTime[..n] + [byTime[n]];
    if EvidenceOnly(byTime[n].name) {
      e := LastByTimeIsNewest(byTime[..n]);
    } else {
      e := byTime[n];
    }
  }

  /** A listing `events()` may return: all events by time, those stamped at the same
      instant in whatever order their random ids decide. */
  ghost predicate ListsByTime(byTime: seq<Event>, events: seq<Event>) {
    multiset(byTime) == multiset(events) && TimeOrdered(byTime)
  }

  /** Insertion by time, after the events of the same instant. */
  function Inserted(byTime: seq<Event>, e: Event): seq<Event> {
    var n := |byTime| - 1;
    if byTime == [] || byTime[n].occurredAt <= e.occurredAt then byTime + [e]
    else Inserted(byTime[..n], e) + [byTime[n]]
  }

  lemma {:induction false} InsertionAdds(byTime: seq<Event>, e: Event)
    ensures multiset(Inserted(byTime, e)) == multiset(byTime) + multiset{e}
  {
    var n := |byTime| - 1;
    if byTime != [] && byTime[n].occurredAt > e.occurredAt {
      InsertionAdds(byTime[..n], e);
      assert byTime == byTime[..n] + [byTime[n]];
    }
  }

  lemma {:induction false} InsertionOrders(byTime: seq<Event>, e: Event)
    requires TimeOrdered(byTime)
    ensures TimeOrdered(Inserted(byTime, e))
    ensures forall f | f in Inserted(byTime, e) :: f in byTime || f == e
  {
    var n := |byTime| - 1;
    if byTime != [] && byTime[n].occurredAt > e.occurredAt {
      InsertionOrders(byTime[..n], e);
      var shorter := Inserted(byTime[..n], e);
      forall i | 0 <= i < |shorter| ensures shorter[i].occurredAt <= byTime[n].occurredAt {
        assert shorter[i] in shorter;
      }
    }
  }

  /** Inserted last, a newest state event decides the last state. */
  lemma {:induction false} NewestDecides(byTime: seq<Event>, e: Event)
    requires !EvidenceOnly(e.name) && forall f | f in byTime && !EvidenceOnly(f.name) :: f.occurredAt <= e.occurredAt
    ensures LastState(Inserted(byTime, e)) == Some(e.name)
  {
    var n := |byTime| - 1;
    if byTime == [] || byTime[n].occurredAt <= e.occurredAt {
      LastStateNext(byTime, e);
    } else {
      NewestDecides(byTime[..n], e);
      LastStateNext(Inserted(byTime[..n], e), byTime[n]);
    }
  }

  lemma {:induction false} SomeListing(events: seq<Event>) returns (byTime: seq<Event>)
    ensures ListsByTime(byTime, events)
  {
    if events == [] {
      byTime := [];
    } else {
      var n := |events| - 1;
      var before := SomeListing(events[..n]);
      InsertionAdds(before, events[n]);
      InsertionOrders(before, events[n]);
      byTime := Inserted(before, events[n]);
      assert events == events[..n] + [events[n]];
    }
  }

  /** Every newest state event is the last state of some listing. */
  lemma NewestMayBeLast(events: seq<Event>, e: Event) returns (byTime: seq<Event>)
    requires IsNewestState(events, e)
    ensures ListsByTime(byTime, events) && LastState(byTime) == Some(e.name)
  {
    var k :| 0 <= k < |events| && events[k] == e;
    var others := events[..k] + events[k + 1..];
    assert events == events[..k] + [e] + events[k + 1..];
    var before := SomeListing(others);
    forall f | f in before && !EvidenceOnly(f.name) ensures f.occurredAt <= e.occurredAt {
      assert f in multiset(before) && f in multiset(events);
    }
    InsertionAdds(before, e);
    InsertionOrders(before, e);
    NewestDecides(before, e);
    byTime := Inserted(before, e);
  }

  /** Every listing by time gives the state if and only if every newest state event
      by time carries it, whatever its position in the log. */
  lemma TimeOrderRefinesExactly(a: Attempt)
    requires LogRefines(a)
    ensures (forall byTime | ListsByTime(byTime, a.events) :: LastState(byTime) == Some(a.state))
       <==> (forall e | IsNewestState(a.events, e) :: e.name == a.state)
  {
    StateEventExists(a.events);
    if forall e | IsNewestState(a.events, e) :: e.name == a.state {
      forall byTime | ListsByTime(byTime, a.events) ensures LastState(byTime) == Some(a.state) {
        SameEvents(byTime, a.events);
        var some :| some in a.events && !EvidenceOnly(some.name);
        StateEventCounts(byTime, some);
        var e := LastByTimeIsNewest(byTime);
        assert IsNewestState(a.events, e);
      }
    } else {
      var e :| IsNewestState(a.events, e) && e.name != a.state;
      var byTime := NewestMayBeLast(a.events, e);
    }
  }

  lemma SameEvents(s: seq<Event>, t: seq<Event>)
    requires multiset(s) == multiset(t)
    ensures forall e :: e in s <==> e in t
  {
    assert forall e :: e in s <==> e in multiset(s);
    assert forall e :: e in t <==> e in multiset(t);
  }

  lemma {:induction false} StateEventExists(events: seq<Event>)
    requires LastState(events).Some?
    ensures exists e :: e in events && !EvidenceOnly(e.name)
  {
    var n := |events| - 1;
    if EvidenceOnly(events[n].name) {
      StateEventExists(events[..n]);
      var e :| e in events[..n] && !EvidenceOnly(e.name);
      assert e in events;
    } else {
      assert events[n] in events;
    }
  }

  lemma {:induction false} StateEventCounts(events: seq<Event>, e: Event)
    requires e in events && !EvidenceOnly(e.name)
    ensures LastState(events).Some?
  {
    var n := |events| - 1;
    assert events == events[..n] + [events[n]];
    if EvidenceOnly(events[n].name) { StateEventCounts(events[..n], e); }
  }

  /** That fails: an imported result carries the compute node's clock. */
  lemma TimeOrderDoesNotRefine()
    ensures
      var a := Imported(Updated(Created(0, Slurm, 10), SchedulerTerminal, 30), None, PreflightFailed, 20);
      var byTime := [Event(Planned, 10), Event(PreflightFailed, 20), Event(SchedulerTerminal, 30)];
      LogRefines(a) && multiset(a.events) == multiset(byTime) && LastState(byTime) != Some(a.state)
  {
    var first, second, third := Event(Planned, 10), Event(SchedulerTerminal, 30), Event(PreflightFailed, 20);
    LastStateNext([first, second], third);
    LastStateNext([first, third], second);
    assert [first] + [second] + [third] == [first, second] + [third];
    assert [first, third] + [second] == [first, third, second];
  }

  // ---- the latest attempt of a plan ----

  /** `ORDER BY created_at DESC, id DESC`. */
  predicate Newer(createdAt: int, id: AttemptId, createdAt': int, id': AttemptId) {
    createdAt > createdAt' || (createdAt == createdAt' && id > id')
  }

  ghost predicate IsLatest(rows: map<AttemptId, Attempt>, plan: PlanId, id: AttemptId) {
    id in rows && rows[id].plan == plan
    && forall other | other in rows && rows[other].plan == plan && other != id ::
         Newer(rows[id].createdAt, id, rows[other].createdAt, other)
  }

  /** Another attempt of the same scheduler family already holds the job. */
  predicate JobTaken(rows: map<AttemptId, Attempt>, id: AttemptId, jobId: JobId)
    requires id in rows
  {
    exists other | other in rows ::
      other != id && rows[other].family == rows[id].family && rows[other].job == Some(jobId)
  }

  /** Changing an attempt's own row does not change who else holds a job. */
  lemma OwnRowIsIrrelevant(rows: map<AttemptId, Attempt>, id: AttemptId, a: Attempt, jobId: JobId)
    requires id in rows && a.family == rows[id].family
    ensures JobTaken(rows[id := a], id, jobId) <==> JobTaken(rows, id, jobId)
  {
    var changed := rows[id := a];
    if JobTaken(rows, id, jobId) {
      var other :|
        other in rows && other != id && rows[other].family == rows[id].family && rows[other].job == Some(jobId);
      assert other in changed && changed[other] == rows[other];
    }
    if JobTaken(changed, id, jobId) {
      var other :|
        other in changed && other != id && changed[other].family == a.family && changed[other].job == Some(jobId);
      assert other in rows && changed[other] == rows[other];
    }
  }

  /** The database. */
  class ExecutionStore {
    var rows: map<AttemptId, Attempt>
    var experiments: set<ExperimentId>

    constructor ()
      ensures rows == map[] && experiments == {}
    {
      rows, experiments := map[], {};
    }

    method CreateExecution(id: AttemptId, plan: PlanId, family: Family, at: int)
      returns (r: Result<bool, StoreError>)
      modifies this
      ensures experiments == old(experiments)
      ensures r.Failure? <==> id in old(rows)
      ensures rows == if r.Failure? then old(rows) else old(rows)[id := Created(plan, family, at)]
    {
      if id in rows { return Failure(IntegrityError); }
      rows := rows[id := Attempt(plan, family, Planned, at, [Event(Planned, at)], None, None, false, None)];
      r := Success(true);
    }

    method UpdateExecutionState(id: AttemptId, name: Name, at: int) returns (r: Result<bool, StoreError>)
      modifies this
      ensures experiments == old(experiments)
      ensures r.Failure? <==> id !in old(rows)
      ensures rows == if r.Failure? then old(rows) else old(rows)[id := Updated(old(rows)[id], name, at)]
    {
      if id !in rows { return Failure(NotFound); }
      var a := rows[id];
      rows := rows[id := a.(state := name)];
      rows := rows[id := rows[id].(events := a.events + [Event(name, at)])];
      r := Success(true);
    }

    method RecordExecutionEvent(id: AttemptId, name: Name, at: int) returns (r: Result<bool, StoreError>)
      modifies this
      ensures experiments == old(experiments)
      ensures r.Failure? <==> id !in old(rows)
      ensures rows == if r.Failure? then old(rows) else old(rows)[id := Noted(old(rows)[id], name, at)]
    {
      if id !in rows { return Failure(NotFound); }
      rows := rows[id := rows[id].(events := rows[id].events + [Event(name, at)])];
      r := Success(true);
    }

    /** One row per execution, one execution per (family, job). */
    method SaveSchedulerJob(id: AttemptId, jobId: JobId) returns (r: Result<bool, StoreError>)
      modifies this
      ensures experiments == old(experiments)
      ensures r.Success? <==> id in old(rows) && old(rows)[id].job.None? && !JobTaken(old(rows), id, jobId)
      ensures rows == if r.Failure? then old(rows) else old(rows)[id := old(rows)[id].(job := Some(jobId))]
    {
      if id !in rows { return Failure(NotFound); }
      if rows[id].job.Some? || JobTaken(rows, id, jobId) { return Failure(IntegrityError); }
      rows := rows[id := rows[id].(job := Some(jobId))];
      r := Success(true);
    }

    method SaveRemoteState(id: AttemptId, record: RemoteRecord) returns (r: Result<bool, StoreError>)
      modifies this
      ensures experiments == old(experiments)
      ensures r.Failure? <==> id !in old(rows)
      ensures rows == if r.Failure? then old(rows) else old(rows)[id := old(rows)[id].(remote := Some(record))]
    {
      if id !in rows { return Failure(IntegrityError); }
      rows := rows[id := rows[id].(remote := Some(record))];
      r := Success(true);
    }

    /** Experiment row, link row and state change commit together or not at all. */
    method ImportExperimentResult(id: AttemptId, experiment: ExperimentId, name: Name, at: int)
      returns (r: Result<bool, StoreError>)
      modifies this
      ensures r.Success? <==> id in old(rows) && experiment !in old(experiments) && old(rows)[id].experiment.None?
      ensures rows == if r.Failure? then old(rows)
                      else old(rows)[id := Imported(old(rows)[id], Some(experiment), name, at)]
      ensures experiments == if r.Failure? then old(experiments) else old(experiments) + {experiment}
    {
      if id !in rows { return Failure(NotFound); }
      if experiment in experiments { return Failure(IntegrityError); }
      if rows[id].experiment.Some? { return Failure(IntegrityError); }
      experiments := experiments + {experiment};
      var a := rows[id];
      rows := rows[id := a.(experiment := Some(experiment), imported := true, state := name,
                            events := a.events + [Event(name, at)])];
      r := Success(true);
    }

    /** `conflicts` stands for a clash of allocation or evidence identities. */
    method ImportWorkerFailure(id: AttemptId, conflicts: bool, name: Name, at: int)
      returns (r: Result<bool, StoreError>)
      modifies this
      ensures experiments == old(experiments)
      ensures r.Success? <==> id in old(rows) && !conflicts
      ensures rows == if r.Failure? then old(rows) else old(rows)[id := Imported(old(rows)[id], None, name, at)]
    {
      if id !in rows { return Failure(NotFound); }
      if conflicts { return Failure(IntegrityError); }
      var a := rows[id];
      rows := rows[id := a.(imported := true, state := name, events := a.events + [Event(name, at)])];
      r := Success(true);
    }

    /** `scan` is the order in which the database happens to visit the rows. */
    method LatestExecutionForPlan(plan: PlanId, scan: seq<AttemptId>) returns (latest: Option<AttemptId>)
      requires forall k | 0 <= k < |scan| :: scan[k] in rows
      requires forall id | id in rows :: id in scan
      ensures latest.None? ==> forall id | id in rows :: rows[id].plan != plan
      ensures latest.Some? ==> IsLatest(rows, plan, latest.value)
    {
      latest := None;
      for i := 0 to |scan|
        invariant latest.None? ==> forall k | 0 <= k < i :: rows[scan[k]].plan != plan
        invariant latest.Some? ==>
          latest.value in rows && rows[latest.value].plan == plan
          && forall k | 0 <= k < i && rows[scan[k]].plan == plan && scan[k] != latest.value ::
               Newer(rows[latest.value].createdAt, latest.value, rows[scan[k]].createdAt, scan[k])
      {
        var id := scan[i];
        assert id in rows;
        if rows[id].plan == plan
           && (latest.None? || Newer(rows[id].createdAt, id, rows[latest.value].createdAt, latest.value)) {
          latest := Some(id);
        }
      }
      forall other | other in rows && rows[other].plan == plan
        ensures latest.Some? && (other == latest.value
                || Newer(rows[latest.value].createdAt, latest.value, rows[other].createdAt, other))
      {
        var k :| 0 <= k < |scan| && scan[k] == other;
      }
    }
  }
}
