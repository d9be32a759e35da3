/** Submission to a scheduler on the same machine (backends.py): the controller
    itself calls sbatch, qsub or bsub, polls the queue and reads the result. */
module LocalSubmission {
  import opened Prelude
  import opened Schedulers
  import opened RemoteWorkers
  import opened ExecutionStores
  import opened RemoteSubmission

  // ---- execute ----

  /** What the environment decides while one attempt is executed: whether staging
      finishes, whether the submit command exists and can be started, its answer. */
  datatype LocalScript = LocalScript(staged: bool, executable: bool, launches: bool, answer: Answer, at: int)

  predicate Asks(s: LocalScript) {
    s.staged && s.executable && s.launches
  }

  /** Only LSF treats an accepted submission without a usable id as ambiguous. */
  function Unidentified(family: Family): Name {
    if family == Lsf then SubmissionAmbiguous else FailedState
  }

  /** The submit command's part, on a prepared attempt; true when it raises. */
  function LocalSubmitted(ready: Attempt, s: LocalScript, jobTaken: bool): (Attempt, bool) {
    if !s.executable then (Updated(ready, FailedState, s.at), true)
    else if !s.launches then (ready, true)
    else
      match s.answer
      case TimedOut(_) => (Updated(ready, SubmissionAmbiguous, s.at), true)
      case Rejected => (Updated(ready, FailedState, s.at), true)
      case AcceptedUnparsed => (Updated(ready, Unidentified(ready.family), s.at), true)
      case AcceptedAs(jobId) =>
        if ready.job.Some? || jobTaken then (ready, true)
        else (Updated(ready.(job := Some(jobId)), SubmittedState, s.at), false)
  }

  /** `SchedulerBackend.execute` on a newly created attempt. */
  function LocalExecuted(a: Attempt, s: LocalScript, jobTaken: bool): (Attempt, bool) {
    if !s.staged then (a, true) else LocalSubmitted(Updated(a, PreparedState, s.at), s, jobTaken)
  }

  /** An attempt after a durable step, and whether the submit command has been
      run by then. */
  datatype LocalMoment = LocalMoment(attempt: Attempt, asked: bool)

  function LocalSubmitMoments(ready: Attempt, s: LocalScript, jobTaken: bool): seq<LocalMoment> {
    if !s.executable then [LocalMoment(Updated(ready, FailedState, s.at), false)]
    else if !s.launches then []
    else
      [LocalMoment(ready, true)]
      + match s.answer
        case AcceptedAs(jobId) =>
          if ready.job.Some? || jobTaken then []
          else
            var b := ready.(job := Some(jobId));
            [LocalMoment(b, true), LocalMoment(Updated(b, SubmittedState, s.at), true)]
        case _ => [LocalMoment(LocalSubmitted(ready, s, jobTaken).0, true)]
  }

  /** The attempt after each durable step of `execute`. */
  function LocalExecuteMoments(a: Attempt, s: LocalScript, jobTaken: bool): seq<LocalMoment> {
    if !s.staged then []
    else
      var ready := Updated(a, PreparedState, s.at);
      [LocalMoment(ready, false)] + LocalSubmitMoments(ready, s, jobTaken)
  }

  // ---- collect ----

  /** A result file: `readable` when staging is recorded and the file parses,
      `hasAllocations` when allocations of this attempt are already stored. */
  datatype ResultRead = ResultRead(readable: bool, bundle: BundleContent, hasAllocations: bool)

  predicate Repeats(a: Attempt, c: ResultRead) {
    a.experiment.None? && c.bundle.experiment.None? && a.state == c.bundle.state && c.hasAllocations
  }

  function LocalCollected(a: Attempt, c: ResultRead, experimentTaken: bool): Attempt {
    if !c.readable || Repeats(a, c) then a else BundleCollected(a, c.bundle, experimentTaken)
  }

  /** A result is returned, refused with the backend's own error, or ends in some
      other exception. */
  function LocalResult(a: Attempt, c: ResultRead, experimentTaken: bool): CollectOutcome {
    if !c.readable || !c.bundle.acceptable then NotCollected
    else if Repeats(a, c) then Returned
    else BundleResult(a, c.bundle, experimentTaken)
  }

  function ImportMoments(a: Attempt, c: ResultRead, experimentTaken: bool): seq<LocalMoment> {
    if c.readable && !Repeats(a, c) && Imports(a, c.bundle, experimentTaken)
      then [LocalMoment(BundleCollected(a, c.bundle, experimentTaken), false)] else []
  }

  predicate Taken(c: ResultRead, experiments: set<ExperimentId>) {
    c.bundle.experiment.Some? && c.bundle.experiment.value in experiments
  }

  // ---- observe ----

  datatype Word = PendingWord | RunningWord | CancelledWord | UncertainWord | OtherWord

  datatype Observation = Observation(word: Word, observable: bool, terminal: bool)

  function ObservationName(o: Observation): Name {
    if !o.observable || o.word == UncertainWord then SchedulerUnobservable
    else if o.terminal then SchedulerTerminal
    else match o.word
      case PendingWord => Queued
      case RunningWord => Running
      case CancelledWord => CancelledState
      case _ => SubmittedState
  }

  /** One status query: `known` when the current identity submitted the job,
      `seen` is None when the query itself fails. */
  datatype Query = Query(known: bool, seen: Option<Observation>, at: int)

  predicate Answers(a: Attempt, q: Query) {
    a.job.Some? && q.known && q.seen.Some?
  }

  function LocalObserved(a: Attempt, q: Query): Attempt {
    if a.job.None? || !q.known then a
    else if q.seen.None? then Noted(a, SchedulerQueryError, q.at)
    else Updated(a, ObservationName(q.seen.value), q.at)
  }

  // ---- wait ----

  /** One turn of waiting: collect, observe, and once the job is over collect
      again. */
  datatype Poll = Poll(first: ResultRead, query: Query, second: ResultRead)

  predicate IsOver(family: Family, o: Observation) {
    o.terminal || (!o.observable && family != Lsf)
  }

  /** The attempt after one turn, and whether waiting ends with it; an exception
      other than the backend's own leaves at once, and so does a failed query. */
  function Polled(a: Attempt, poll: Poll, experiments: set<ExperimentId>): (Attempt, bool) {
    var first := LocalResult(a, poll.first, Taken(poll.first, experiments));
    if first != NotCollected then (LocalCollected(a, poll.first, Taken(poll.first, experiments)), true)
    else
      var observed := LocalObserved(a, poll.query);
      if !Answers(a, poll.query) then (observed, true)
      else if !IsOver(a.family, poll.query.seen.value) then (observed, false)
      else if LocalResult(observed, poll.second, Taken(poll.second, experiments)) != NotCollected then
        (LocalCollected(observed, poll.second, Taken(poll.second, experiments)), true)
      else (Updated(observed, CollectionFailed, poll.query.at), true)
  }

  function ObserveMoments(a: Attempt, q: Query): seq<LocalMoment> {
    if a.job.None? || !q.known then [] else [LocalMoment(LocalObserved(a, q), false)]
  }

  function LocalPollMoments(a: Attempt, poll: Poll, experiments: set<ExperimentId>): seq<LocalMoment> {
    var first := LocalResult(a, poll.first, Taken(poll.first, experiments));
    if first != NotCollected then ImportMoments(a, poll.first, Taken(poll.first, experiments))
    else
      var observed := LocalObserved(a, poll.query);
      var second := LocalResult(observed, poll.second, Taken(poll.second, experiments));
      ObserveMoments(a, poll.query)
      + if !Answers(a, poll.query) || !IsOver(a.family, poll.query.seen.value) then []
        else if second != NotCollected then ImportMoments(observed, poll.second, Taken(poll.second, experiments))
        else [LocalMoment(Updated(observed, CollectionFailed, poll.query.at), false)]
  }

  function LocalWaitMoments(a: Attempt, polls: seq<Poll>, experiments: set<ExperimentId>): seq<LocalMoment>
    decreases |polls|
  {
    if polls == [] then []
    else
      var (b, ends) := Polled(a, polls[0], experiments);
      LocalPollMoments(a, polls[0], experiments) + if ends then [] else LocalWaitMoments(b, polls[1..], experiments)
  }

  function LocalWaited(a: Attempt, polls: seq<Poll>, experiments: set<ExperimentId>): Attempt
    decreases |polls|
  {
    if polls == [] then a
    else
      var (b, ends) := Polled(a, polls[0], experiments);
      if ends then b else LocalWaited(b, polls[1..], experiments)
  }

  // ---- cancel ----

  /** Whether the current identity submitted the job, whether the cancel command
      exists and can be started, and whether it succeeds. */
  datatype LocalCancel = LocalCancel(known: bool, executable: bool, launches: bool, succeeds: bool, at: int)

  /** A command that cannot be started raises with only the request noted. */
  predicate Unstartable(a: Attempt, c: LocalCancel) {
    a.job.Some? && c.known && c.executable && !c.launches
  }

  function LocalCancelled(a: Attempt, c: LocalCancel): Attempt {
    var requested := Noted(a, CancellationRequested, c.at);
    if a.job.None? || !c.known then Noted(requested, CancellationRejected, c.at)
    else if Unstartable(a, c) then requested
    else if !c.executable || !c.succeeds then Noted(requested, CancellationFailed, c.at)
    else Updated(requested, CancelledState, c.at)
  }

  function LocalCancelMoments(a: Attempt, c: LocalCancel): seq<LocalMoment> {
    [LocalMoment(Noted(a, CancellationRequested, c.at), false)]
    + if Unstartable(a, c) then [] else [LocalMoment(LocalCancelled(a, c), false)]
  }

  /** A collect that raises leaves the attempt alone. */
  lemma RaisingChangesNothing(a: Attempt, c: ResultRead, experimentTaken: bool)
    ensures LocalResult(a, c, experimentTaken) != Returned ==> LocalCollected(a, c, experimentTaken) == a
    ensures !Imports(a, c.bundle, experimentTaken) ==> LocalCollected(a, c, experimentTaken) == a
  {
  }

  /** Once an experiment is linked, a bundle never changes the attempt, whether it
      repeats the experiment or conflicts with it. */
  lemma LinkedResultsAreFinal(a: Attempt, c: ResultRead, experimentTaken: bool)
    requires a.experiment.Some?
    ensures LocalCollected(a, c, experimentTaken) == a
    ensures LocalResult(a, c, experimentTaken)
         == if RepeatsLink(a, c) then Returned else NotCollected
  {
  }

  /** A readable, acceptable result naming the experiment already linked. */
  predicate RepeatsLink(a: Attempt, c: ResultRead) {
    c.readable && c.bundle.acceptable && c.bundle.experiment == a.experiment
  }

  /** Waiting is less careful with a linked attempt: one turn leaves it as it was
      exactly when the first result is a repeat, or its job cannot be queried. */
  lemma WaitLeavesLinkedExactly(a: Attempt, poll: Poll, experiments: set<ExperimentId>)
    requires a.experiment.Some?
    ensures Polled(a, poll, experiments).0 == a <==> RepeatsLink(a, poll.first) || a.job.None? || !poll.query.known
    ensures Polled(a, poll, experiments).0.experiment == a.experiment
  {
    assert Polled(a, poll, experiments).0 != a ==> |Polled(a, poll, experiments).0.events| > |a.events|;
  }

  /** It sets the state of a linked attempt to collection_failed exactly when its
      job is over and neither result is a repeat of the linked experiment. */
  lemma WaitOverwritesExactly(a: Attempt, poll: Poll, experiments: set<ExperimentId>)
    requires a.experiment.Some? && a.state != CollectionFailed
    ensures Polled(a, poll, experiments).0.state == CollectionFailed
       <==> !RepeatsLink(a, poll.first) && Answers(a, poll.query) && IsOver(a.family, poll.query.seen.value)
            && !RepeatsLink(a, poll.second)
  {
  }

  class SchedulerBackend {
    const store: ExecutionStore
    /** Answers of the submit command so far, per attempt that asked. */
    ghost var asked: map<AttemptId, seq<Answer>>
    /** What each durable step has left so far. */
    ghost var moments: seq<LocalMoment>

    constructor (store: ExecutionStore)
      ensures this.store == store && asked == map[] && moments == []
    {
      this.store, asked, moments := store, map[], [];
    }

    ghost method Submit(id: AttemptId, answer: Answer)
      modifies this`asked
      ensures asked == old(asked)[id := Asked(old(asked), id) + [answer]]
    {
      asked := asked[id := Asked(asked, id) + [answer]];
    }

    ghost method Mark(id: AttemptId, run: bool)
      requires id in store.rows
      modifies this`moments
      ensures moments == old(moments) + [LocalMoment(store.rows[id], run)]
    {
      moments := moments + [LocalMoment(store.rows[id], run)];
    }

    method Execute(id: AttemptId, s: LocalScript) returns (r: BackendOutcome)
      requires id in store.rows
      modifies store, this`asked, this`moments
      ensures store.experiments == old(store.experiments)
      ensures Asked(asked, id) == Asked(old(asked), id) + if Asks(s) then [s.answer] else []
      ensures
        var a := old(store.rows)[id];
        var taken := s.answer.AcceptedAs? && JobTaken(old(store.rows), id, s.answer.id);
        && store.rows == old(store.rows)[id := LocalExecuted(a, s, taken).0]
        && (r == Raised <==> LocalExecuted(a, s, taken).1)
        && moments == old(moments) + LocalExecuteMoments(a, s, taken)
    {
      ghost var rows0 := store.rows;
      assert rows0[id := rows0[id]] == rows0;
      if !s.staged { return Raised; }
      var _ := store.UpdateExecutionState(id, PreparedState, s.at);
      Mark(id, false);
      if s.answer.AcceptedAs? { OwnRowIsIrrelevant(rows0, id, store.rows[id], s.answer.id); }
      r := SubmitPrepared(id, s);
    }

    method SubmitPrepared(id: AttemptId, s: LocalScript) returns (r: BackendOutcome)
      requires id in store.rows
      modifies store, this`asked, this`moments
      ensures store.experiments == old(store.experiments)
      ensures Asked(asked, id) == Asked(old(asked), id) + if s.executable && s.launches then [s.answer] else []
      ensures
        var a := old(store.rows)[id];
        var taken := s.answer.AcceptedAs? && JobTaken(old(store.rows), id, s.answer.id);
        && store.rows == old(store.rows)[id := LocalSubmitted(a, s, taken).0]
        && (r == Raised <==> LocalSubmitted(a, s, taken).1)
        && moments == old(moments) + LocalSubmitMoments(a, s, taken)
    {
      ghost var rows0 := store.rows;
      assert rows0[id := rows0[id]] == rows0;
      if !s.executable {
        var _ := store.UpdateExecutionState(id, FailedState, s.at);
        Mark(id, false);
        return Raised;
      }
      if !s.launches { return Raised; }
      LocalSubmitUnfolds(moments, rows0[id], s, s.answer.AcceptedAs? && JobTaken(rows0, id, s.answer.id));
      Submit(id, s.answer);
      Mark(id, true);
      match s.answer {
        case TimedOut(_) =>
          var _ := store.UpdateExecutionState(id, SubmissionAmbiguous, s.at);
        case Rejected =>
          var _ := store.UpdateExecutionState(id, FailedState, s.at);
        case AcceptedUnparsed =>
          var _ := store.UpdateExecutionState(id, Unidentified(store.rows[id].family), s.at);
        case AcceptedAs(jobId) =>
          r := RecordJob(id, jobId, s.at);
          return;
      }
      Mark(id, true);
      r := Raised;
    }

    method RecordJob(id: AttemptId, jobId: JobId, at: int) returns (r: BackendOutcome)
      requires id in store.rows
      modifies store, this`moments
      ensures store.experiments == old(store.experiments)
      ensures
        var a := old(store.rows)[id];
        var b := a.(job := Some(jobId));
        if a.job.Some? || JobTaken(old(store.rows), id, jobId) then
          r == Raised && store.rows == old(store.rows) && moments == old(moments)
        else
          r == SubmittedAs(jobId) && store.rows == old(store.rows)[id := Updated(b, SubmittedState, at)]
          && moments == old(moments) + [LocalMoment(b, true), LocalMoment(Updated(b, SubmittedState, at), true)]
    {
      var saved := store.SaveSchedulerJob(id, jobId);
      if saved.Failure? { return Raised; }
      Mark(id, true);
      var _ := store.UpdateExecutionState(id, SubmittedState, at);
      Mark(id, true);
      r := SubmittedAs(jobId);
    }

    method Collect(id: AttemptId, c: ResultRead) returns (r: CollectOutcome)
      requires id in store.rows
      modifies store, this`moments
      ensures
        var a, taken := old(store.rows)[id], Taken(c, old(store.experiments));
        && store.rows == old(store.rows)[id := LocalCollected(a, c, taken)]
        && r == LocalResult(a, c, taken)
        && moments == old(moments) + ImportMoments(a, c, taken)
      ensures store.experiments == old(store.experiments)
           || (r == Returned && c.bundle.experiment.Some? && store.rows[id].experiment == c.bundle.experiment
               && store.experiments == old(store.experiments) + {c.bundle.experiment.value})
    {
      ghost var rows0 := store.rows;
      assert rows0[id := rows0[id]] == rows0;
      if !c.readable || !c.bundle.acceptable { return NotCollected; }
      var existing := store.rows[id].experiment;
      if existing.Some? {
        if c.bundle.experiment != existing { return NotCollected; }
        return Returned;
      }
      if c.bundle.experiment.None? && store.rows[id].state == c.bundle.state && c.hasAllocations { return Returned; }
      var imported;
      if c.bundle.experiment.Some? {
        imported := store.ImportExperimentResult(id, c.bundle.experiment.value, c.bundle.state, c.bundle.createdAt);
      } else {
        imported := store.ImportWorkerFailure(id, c.bundle.conflicts, c.bundle.state, c.bundle.createdAt);
      }
      if imported.Failure? { return Escaped; }
      Mark(id, false);
      r := Returned;
    }

    /** `status`, and the observing half of every poll. */
    method Observe(id: AttemptId, q: Query) returns (seen: Option<Observation>)
      requires id in store.rows
      modifies store, this`moments
      ensures store.experiments == old(store.experiments)
      ensures store.rows == old(store.rows)[id := LocalObserved(old(store.rows)[id], q)]
      ensures seen == if Answers(old(store.rows)[id], q) then q.seen else None
      ensures moments == old(moments) + ObserveMoments(old(store.rows)[id], q)
    {
      ghost var rows0 := store.rows;
      assert rows0[id := rows0[id]] == rows0;
      if store.rows[id].job.None? || !q.known { return None; }
      if q.seen.None? {
        var _ := store.RecordExecutionEvent(id, SchedulerQueryError, q.at);
      } else {
        var _ := store.UpdateExecutionState(id, ObservationName(q.seen.value), q.at);
      }
      Mark(id, false);
      seen := q.seen;
    }

    method Turn(id: AttemptId, poll: Poll) returns (r: CollectOutcome, ends: bool)
      requires id in store.rows
      modifies store, this`moments
      ensures
        var a := old(store.rows)[id];
        var after := Polled(a, poll, old(store.experiments));
        && store.rows == old(store.rows)[id := after.0] && ends == after.1
        && moments == old(moments) + LocalPollMoments(a, poll, old(store.experiments))
      ensures store.experiments == old(store.experiments)
           || (r == Returned && store.rows[id].experiment.Some?
               && store.experiments == old(store.experiments) + {store.rows[id].experiment.value})
      ensures !ends ==> r == NotCollected
    {
      RaisingChangesNothing(store.rows[id], poll.first, Taken(poll.first, store.experiments));
      r := Collect(id, poll.first);
      if r != NotCollected { return r, true; }
      var family := store.rows[id].family;
      var seen := Observe(id, poll.query);
      if seen.None? { return NotCollected, true; }
      if !IsOver(family, seen.value) { return NotCollected, false; }
      RaisingChangesNothing(store.rows[id], poll.second, Taken(poll.second, store.experiments));
      r := Collect(id, poll.second);
      if r == NotCollected {
        var _ := store.UpdateExecutionState(id, CollectionFailed, poll.query.at);
        Mark(id, false);
      }
      ends := true;
    }

    method Wait(id: AttemptId, pollSeconds: real, polls: seq<Poll>) returns (r: CollectOutcome, delay: real)
      requires id in store.rows
      modifies store, this`moments
      ensures
        var a := old(store.rows)[id];
        && store.rows == old(store.rows)[id := LocalWaited(a, polls, old(store.experiments))]
        && moments == old(moments) + LocalWaitMoments(a, polls, old(store.experiments))
      ensures store.experiments == old(store.experiments)
           || (r == Returned && store.rows[id].experiment.Some?
               && store.experiments == old(store.experiments) + {store.rows[id].experiment.value})
      ensures 0.05 <= delay <= 60.0
    {
      delay := if pollSeconds < 0.05 then 0.05 else pollSeconds;
      delay := if delay > 60.0 then 60.0 else delay;
      ghost var rows0, experiments0 := store.rows, store.experiments;
      ghost var expected := LocalWaited(rows0[id], polls, experiments0);
      ghost var trace := moments + LocalWaitMoments(rows0[id], polls, experiments0);
      assert polls[0..] == polls && rows0[id := rows0[id]] == rows0;
      for i := 0 to |polls|
        invariant id in store.rows && store.experiments == experiments0 && store.rows == rows0[id := store.rows[id]]
        invariant expected == LocalWaited(store.rows[id], polls[i..], experiments0)
        invariant trace == moments + LocalWaitMoments(store.rows[id], polls[i..], experiments0)
        invariant 0.05 <= delay <= 60.0
      {
        LocalWaitUnfolds(moments, store.rows[id], polls, i, experiments0);
        var ends;
        r, ends := Turn(id, polls[i]);
        if ends { return; }
        delay := if delay * 1.5 > 60.0 then 60.0 else delay * 1.5;
      }
      r := NotCollected;
    }

    method Cancel(id: AttemptId, c: LocalCancel) returns (established: bool)
      requires id in store.rows
      modifies store, this`moments
      ensures store.experiments == old(store.experiments)
      ensures store.rows == old(store.rows)[id := LocalCancelled(old(store.rows)[id], c)]
      ensures established <==> old(store.rows)[id].job.Some? && c.known && c.executable && c.launches && c.succeeds
      ensures moments == old(moments) + LocalCancelMoments(old(store.rows)[id], c)
    {
      var _ := store.RecordExecutionEvent(id, CancellationRequested, c.at);
      Mark(id, false);
      established := false;
      if store.rows[id].job.None? || !c.known {
        var _ := store.RecordExecutionEvent(id, CancellationRejected, c.at);
      } else if !c.executable {
        var _ := store.RecordExecutionEvent(id, CancellationFailed, c.at);
      } else if !c.launches {
        return;
      } else if !c.succeeds {
        var _ := store.RecordExecutionEvent(id, CancellationFailed, c.at);
      } else {
        var _ := store.UpdateExecutionState(id, CancelledState, c.at);
        established := true;
      }
      Mark(id, false);
    }
  }

  lemma LocalSubmitUnfolds(before: seq<LocalMoment>, ready: Attempt, s: LocalScript, taken: bool)
    requires s.executable && s.launches
    ensures
      var asked := before + [LocalMoment(ready, true)];
      before + LocalSubmitMoments(ready, s, taken)
      == if !s.answer.AcceptedAs? then asked + [LocalMoment(LocalSubmitted(ready, s, taken).0, true)]
         else if ready.job.Some? || taken then asked
         else
           var b := ready.(job := Some(s.answer.id));
           asked + [LocalMoment(b, true), LocalMoment(Updated(b, SubmittedState, s.at), true)]
  {
  }

  lemma LocalWaitUnfolds(before: seq<LocalMoment>, a: Attempt, polls: seq<Poll>, i: nat, experiments: set<ExperimentId>)
    requires i < |polls|
    ensures
      var (b, ends) := Polled(a, polls[i], experiments);
      && LocalWaited(a, polls[i..], experiments) == (if ends then b else LocalWaited(b, polls[i + 1..], experiments))
      && before + LocalWaitMoments(a, polls[i..], experiments)
         == before + LocalPollMoments(a, polls[i], experiments)
            + if ends then [] else LocalWaitMoments(b, polls[i + 1..], experiments)
  {
    assert polls[i..][1..] == polls[i + 1..];
  }

  function Asked(asked: map<AttemptId, seq<Answer>>, id: AttemptId): seq<Answer> {
    if id in asked then asked[id] else []
  }
}
