/** The controller's half of remote submission (remote_backend.py): one attempt,
    one remote worker, and a transport that may lose any request or reply. */
module RemoteSubmission {
  import opened Prelude
  import opened Schedulers
  import opened RemoteWorkers
  import opened ExecutionStores

  /** How one remote call fares: whether it reaches the worker, how many durable
      effects the worker lives through, whether its reply comes back. */
  datatype Delivery = Delivery(delivered: bool, survives: nat, replyArrives: bool)

  /** An attempt together with the remote machine that serves it. */
  datatype Site = Site(attempt: Attempt, world: World)

  function CallWorld(w: World, r: Request, d: Delivery): World {
    if d.delivered then After(w, r, d.survives) else w
  }

  /** None is the RemoteTransportError of a lost call, a dead worker or a worker
      that refused the request. */
  function CallReply(w: World, r: Request, d: Delivery): Option<Reply> {
    if d.delivered && Finishes(w, r, d.survives) && d.replyArrives && Plan(w, r).1.Reply?
      then Some(Plan(w, r).1) else None
  }

  /** The typed SSH client of one remote execution. */
  method CallPrepare(worker: RemoteWorker, intent: Intent, d: Delivery) returns (r: Option<Reply>)
    modifies worker
    ensures worker.Now() == CallWorld(old(worker.Now()), PrepareRequest(intent), d)
    ensures r == CallReply(old(worker.Now()), PrepareRequest(intent), d)
  {
    if !d.delivered { return None; }
    var outcome := worker.Prepare(intent, d.survives);
    r := Received(outcome, d);
  }

  method CallSubmit(worker: RemoteWorker, executable: bool, answer: Answer, d: Delivery) returns (r: Option<Reply>)
    modifies worker
    ensures worker.Now() == CallWorld(old(worker.Now()), SubmitRequest(executable, answer), d)
    ensures r == CallReply(old(worker.Now()), SubmitRequest(executable, answer), d)
  {
    if !d.delivered { return None; }
    var outcome := worker.Submit(executable, answer, d.survives);
    r := Received(outcome, d);
  }

  method CallReconcile(worker: RemoteWorker, scheduler: SchedulerState, result: ResultFile, d: Delivery)
    returns (r: Option<Reply>)
    modifies worker
    ensures worker.Now() == CallWorld(old(worker.Now()), ReconcileRequest(scheduler, result), d)
    ensures r == CallReply(old(worker.Now()), ReconcileRequest(scheduler, result), d)
  {
    if !d.delivered { return None; }
    var outcome := worker.Reconcile(scheduler, result, d.survives);
    r := Received(outcome, d);
  }

  method CallCancel(worker: RemoteWorker, executable: bool, succeeds: bool, d: Delivery) returns (r: Option<Reply>)
    modifies worker
    ensures worker.Now() == CallWorld(old(worker.Now()), CancelRequest(executable, succeeds), d)
    ensures r == CallReply(old(worker.Now()), CancelRequest(executable, succeeds), d)
  {
    if !d.delivered { return None; }
    var outcome := worker.Cancel(executable, succeeds, d.survives);
    r := Received(outcome, d);
  }

  function Received(o: Outcome, d: Delivery): Option<Reply> {
    if o.Replied? && o.reply.Reply? && d.replyArrives then Some(o.reply) else None
  }

  // ---- execute ----

  /** Everything the environment decides while one attempt is executed. */
  datatype ExecuteScript = ExecuteScript(
    reachesPrepare: bool, intent: Intent, prepare: Delivery,
    uploaded: map<string, Digest>, uploadedVariant: Option<Digest>, uploadsFinish: bool,
    submit: Delivery, executable: bool, answer: Answer,
    reconcile: Delivery, scheduler: SchedulerState, result: ResultFile, at: int)

  /** The submit reply or, if that call failed, the reply of one reconcile. */
  function SubmissionWorld(w: World, s: ExecuteScript): World {
    var submitted := CallWorld(w, SubmitRequest(s.executable, s.answer), s.submit);
    if CallReply(w, SubmitRequest(s.executable, s.answer), s.submit).Some? then submitted
    else CallWorld(submitted, ReconcileRequest(s.scheduler, s.result), s.reconcile)
  }

  function SubmissionReply(w: World, s: ExecuteScript): Option<Reply> {
    var first := CallReply(w, SubmitRequest(s.executable, s.answer), s.submit);
    if first.Some? then first
    else
      CallReply(CallWorld(w, SubmitRequest(s.executable, s.answer), s.submit),
                ReconcileRequest(s.scheduler, s.result), s.reconcile)
  }

  /** What a submission reply makes of the attempt; true when it raises. */
  function Concluded(a: Attempt, reply: Option<Reply>, jobTaken: bool, at: int): (Attempt, bool) {
    if reply.None? || reply.value.WorkerError? || reply.value.status in {AmbiguousStatus, UnknownStatus} then
      (Updated(a, SubmissionAmbiguous, at).(remote := Some(RemoteRecord(None, None))), true)
    else if reply.value.status != Ok || reply.value.state.jobId.None? then
      (Updated(a, FailedState, at), true)
    else if a.job.Some? || jobTaken then (a, true)
    else
      (Updated(a.(job := reply.value.state.jobId), SubmittedState, at)
         .(remote := Some(RemoteRecord(reply.value.state.jobId, reply.value.observed))), false)
  }

  /** An attempt whose remote staging is recorded. */
  function Ready(a: Attempt, at: int): Attempt {
    Updated(a, PreparedState, at).(remote := Some(RemoteRecord(None, None)))
  }

  /** `RemoteSchedulerBackend.execute` on a newly created attempt. */
  function Executed(a: Attempt, w: World, s: ExecuteScript, jobTaken: bool): (Site, bool) {
    if !s.reachesPrepare then (Site(a, w), true)
    else
      var prepared := CallWorld(w, PrepareRequest(s.intent), s.prepare);
      if CallReply(w, PrepareRequest(s.intent), s.prepare).None? then (Site(a, prepared), true)
      else
        var ready := Ready(a, s.at);
        var staged := prepared.(files := s.uploaded, variant := s.uploadedVariant);
        if !s.uploadsFinish then (Site(ready, staged), true)
        else
          var (concluded, raised) := Concluded(ready, SubmissionReply(staged, s), jobTaken, s.at);
          (Site(concluded, SubmissionWorld(staged, s)), raised)
  }

  /** The durable steps of recording a submission reply. */
  function ConcludeMoments(a: Attempt, w: World, reply: Option<Reply>, jobTaken: bool, at: int): seq<Site> {
    if reply.None? || reply.value.WorkerError? || reply.value.status in {AmbiguousStatus, UnknownStatus} then
      var b := Updated(a, SubmissionAmbiguous, at);
      [Site(b, w), Site(b.(remote := Some(RemoteRecord(None, None))), w)]
    else if reply.value.status != Ok || reply.value.state.jobId.None? then [Site(Updated(a, FailedState, at), w)]
    else if a.job.Some? || jobTaken then []
    else
      var b := a.(job := reply.value.state.jobId);
      var c := Updated(b, SubmittedState, at);
      [Site(b, w), Site(c, w), Site(c.(remote := Some(RemoteRecord(reply.value.state.jobId, reply.value.observed))), w)]
  }

  function SubmitMoments(a: Attempt, w: World, s: ExecuteScript, jobTaken: bool): seq<Site> {
    var submitted := CallWorld(w, SubmitRequest(s.executable, s.answer), s.submit);
    [Site(a, submitted)]
    + (if CallReply(w, SubmitRequest(s.executable, s.answer), s.submit).Some? then []
       else [Site(a, SubmissionWorld(w, s))])
    + ConcludeMoments(a, SubmissionWorld(w, s), SubmissionReply(w, s), jobTaken, s.at)
  }

  /** Attempt and machine after each durable step of `execute`; a controller that
      dies leaves one of these behind. */
  function ExecuteMoments(a: Attempt, w: World, s: ExecuteScript, jobTaken: bool): seq<Site> {
    if !s.reachesPrepare then []
    else
      var prepared := CallWorld(w, PrepareRequest(s.intent), s.prepare);
      if CallReply(w, PrepareRequest(s.intent), s.prepare).None? then [Site(a, prepared)]
      else
        var staged := prepared.(files := s.uploaded, variant := s.uploadedVariant);
        StageMoments(a, prepared, s)
        + if s.uploadsFinish then SubmitMoments(Ready(a, s.at), staged, s, jobTaken) else []
  }

  function StageMoments(a: Attempt, prepared: World, s: ExecuteScript): seq<Site> {
    var staged := prepared.(files := s.uploaded, variant := s.uploadedVariant);
    [Site(a, prepared), Site(Updated(a, PreparedState, s.at), prepared), Site(Ready(a, s.at), prepared),
     Site(Ready(a, s.at), staged)]
  }

  /** States `execute_plan` leaves alone when the backend raises. */
  predicate Settled(n: Name) {
    n in {FailedState, PreflightFailed, Completed, CancelledState, Interrupted, SubmissionAmbiguous}
  }

  function Mapped(a: Attempt, raised: bool, at: int): Attempt {
    if raised && !Settled(a.state) then Updated(a, FailedState, at) else a
  }

  // ---- collect, give up, cancel ----

  /** A returned bundle; `acceptable` when it passes every check on its path that
      raises the backend's error. */
  datatype BundleContent = BundleContent(
    acceptable: bool, experiment: Option<ExperimentId>, state: ResultName, createdAt: int, conflicts: bool)

  datatype CollectScript = CollectScript(
    call: Delivery, scheduler: SchedulerState, result: ResultFile, bundle: BundleContent, at: int)

  function ObservedName(s: SchedulerState): Name {
    match s
    case Unseen => SchedulerUnobservable
    case Waiting => Queued
    case Active => Running
    case _ => SchedulerTerminal
  }

  /** `_record_reconciliation`; false when storing a recovered job fails. */
  function Reconciled(a: Attempt, reply: Reply, jobTaken: bool, at: int): (Attempt, bool)
    requires reply.Reply?
  {
    var mirror := Some(RemoteRecord(reply.state.jobId, reply.observed));
    if reply.observed.Some? && reply.state.jobId.Some? then
      if a.job.None? && jobTaken then (a, false)
      else
        var known :=
          if a.job.None? then Updated(a.(job := reply.state.jobId), ObservedName(reply.observed.value), at) else a;
        (Noted(known, RemoteReconciled, at).(remote := mirror), true)
    else (a.(remote := mirror), true)
  }

  /** What a returned bundle makes of an attempt whose reply is recorded. */
  function BundleCollected(a: Attempt, b: BundleContent, experimentTaken: bool): Attempt {
    if !b.acceptable || a.experiment.Some? then a
    else if b.experiment.Some? then (if experimentTaken then a else Imported(a, b.experiment, b.state, b.createdAt))
    else if b.conflicts then a else Imported(a, None, b.state, b.createdAt)
  }

  function Collected(site: Site, c: CollectScript, jobTaken: bool, experimentTaken: bool): Site {
    if site.attempt.remote.None? then site
    else
      var request := ReconcileRequest(c.scheduler, c.result);
      var world := CallWorld(site.world, request, c.call);
      match CallReply(site.world, request, c.call)
      case None => Site(site.attempt, world)
      case Some(reply) =>
        var (recorded, stored) := Reconciled(site.attempt, reply, jobTaken, c.at);
        if !stored || reply.result != Bundle then Site(recorded, world)
        else Site(BundleCollected(recorded, c.bundle, experimentTaken), world)
  }

  /** A bundle is returned, refused with the backend's own error, or ends in some
      other exception. */
  datatype CollectOutcome = Returned | NotCollected | Escaped

  function BundleResult(a: Attempt, b: BundleContent, experimentTaken: bool): CollectOutcome {
    if !b.acceptable then NotCollected
    else if a.experiment.Some? then (if b.experiment == a.experiment then Returned else NotCollected)
    else if b.experiment.Some? then (if experimentTaken then Escaped else Returned)
    else if b.conflicts then Escaped else Returned
  }

  /** A lost call and a job that is already taken are not the backend's errors. */
  function CollectResult(site: Site, c: CollectScript, jobTaken: bool, experimentTaken: bool): CollectOutcome {
    if site.attempt.remote.None? then NotCollected
    else
      match CallReply(site.world, ReconcileRequest(c.scheduler, c.result), c.call)
      case None => Escaped
      case Some(reply) =>
        var (recorded, stored) := Reconciled(site.attempt, reply, jobTaken, c.at);
        if !stored then Escaped
        else if reply.result != Bundle then NotCollected
        else BundleResult(recorded, c.bundle, experimentTaken)
  }

  function ExperimentTaken(c: CollectScript, experiments: set<ExperimentId>): bool {
    c.bundle.experiment.Some? && c.bundle.experiment.value in experiments
  }

  predicate IsFinal(a: Attempt) {
    a.remote.Some? && a.remote.value.scheduler == Some(Over)
  }

  /** `wait` gives up when the last mirrored scheduler state is final. */
  function GivenUp(site: Site, at: int): Site {
    if IsFinal(site.attempt) then site.(attempt := Updated(site.attempt, CollectionFailed, at)) else site
  }

  /** One poll, and whether waiting ends with it; only the backend's own error
      lets it go on. */
  function PolledOnce(site: Site, c: CollectScript, id: AttemptId, rows: map<AttemptId, Attempt>,
                      experiments: set<ExperimentId>): (Site, bool)
    requires id in rows
  {
    var jobTaken, taken := HeldElsewhere(rows, id, site.world), ExperimentTaken(c, experiments);
    var next := Collected(site, c, jobTaken, taken);
    if CollectResult(site, c, jobTaken, taken) == NotCollected then (GivenUp(next, c.at), IsFinal(next.attempt))
    else (next, true)
  }

  /** Polling: collect until a bundle is returned, an exception escapes or the
      state is final. */
  function Waited(site: Site, id: AttemptId, polls: seq<CollectScript>, rows: map<AttemptId, Attempt>,
                  experiments: set<ExperimentId>): Site
    requires id in rows
    decreases |polls|
  {
    if polls == [] then site
    else
      var (next, ends) := PolledOnce(site, polls[0], id, rows, experiments);
      if ends then next else Waited(next, id, polls[1..], rows, experiments)
  }

  datatype CancelScript = CancelScript(call: Delivery, executable: bool, succeeds: bool, at: int)

  function CancelRequested(site: Site, c: CancelScript): Site {
    if site.attempt.remote.None? then site
    else
      var request := CancelRequest(c.executable, c.succeeds);
      var world := CallWorld(site.world, request, c.call);
      var reply := CallReply(site.world, request, c.call);
      if reply.None? || reply.value.WorkerError? || reply.value.status != Ok || site.attempt.job.None? then
        Site(site.attempt, world)
      else
        var mirror := Some(RemoteRecord(reply.value.state.jobId, None));
        Site(Updated(site.attempt, CancelledState, c.at).(remote := mirror), world)
  }

  // ---- what a controller that dies leaves behind ----

  /** The durable steps of recording a reconcile reply. */
  function RecordMoments(a: Attempt, w: World, reply: Reply, jobTaken: bool, at: int): seq<Site>
    requires reply.Reply?
  {
    var mirror := Some(RemoteRecord(reply.state.jobId, reply.observed));
    if reply.observed.Some? && reply.state.jobId.Some? then
      if a.job.None? && jobTaken then []
      else
        var b := a.(job := reply.state.jobId);
        var known := if a.job.None? then Updated(b, ObservedName(reply.observed.value), at) else a;
        var noted := Noted(known, RemoteReconciled, at);
        (if a.job.None? then [Site(b, w), Site(known, w)] else []) + [Site(noted, w), Site(noted.(remote := mirror), w)]
    else [Site(a.(remote := mirror), w)]
  }

  /** Whether a bundle is imported; the import is one transaction. */
  predicate Imports(a: Attempt, b: BundleContent, experimentTaken: bool) {
    a.experiment.None? && BundleResult(a, b, experimentTaken) == Returned
  }

  function CollectMoments(site: Site, c: CollectScript, jobTaken: bool, experimentTaken: bool): seq<Site> {
    if site.attempt.remote.None? then []
    else
      var request := ReconcileRequest(c.scheduler, c.result);
      var world := CallWorld(site.world, request, c.call);
      [Site(site.attempt, world)]
      + match CallReply(site.world, request, c.call)
        case None => []
        case Some(reply) =>
          var (recorded, stored) := Reconciled(site.attempt, reply, jobTaken, c.at);
          RecordMoments(site.attempt, world, reply, jobTaken, c.at)
          + (if stored && reply.result == Bundle && Imports(recorded, c.bundle, experimentTaken)
             then [Site(BundleCollected(recorded, c.bundle, experimentTaken), world)] else [])
  }

  function PollMoments(site: Site, c: CollectScript, id: AttemptId, rows: map<AttemptId, Attempt>,
                       experiments: set<ExperimentId>): seq<Site>
    requires id in rows
  {
    var jobTaken, taken := HeldElsewhere(rows, id, site.world), ExperimentTaken(c, experiments);
    var next := Collected(site, c, jobTaken, taken);
    CollectMoments(site, c, jobTaken, taken)
    + (if CollectResult(site, c, jobTaken, taken) == NotCollected && IsFinal(next.attempt) then [GivenUp(next, c.at)]
       else [])
  }

  function WaitMoments(site: Site, id: AttemptId, polls: seq<CollectScript>, rows: map<AttemptId, Attempt>,
                       experiments: set<ExperimentId>): seq<Site>
    requires id in rows
    decreases |polls|
  {
    if polls == [] then []
    else
      var (next, ends) := PolledOnce(site, polls[0], id, rows, experiments);
      PollMoments(site, polls[0], id, rows, experiments)
      + if ends then [] else WaitMoments(next, id, polls[1..], rows, experiments)
  }

  function CancelMoments(site: Site, c: CancelScript): seq<Site> {
    if site.attempt.remote.None? then []
    else
      var request := CancelRequest(c.executable, c.succeeds);
      var world := CallWorld(site.world, request, c.call);
      var reply := CallReply(site.world, request, c.call);
      [Site(site.attempt, world)]
      + if reply.None? || reply.value.WorkerError? || reply.value.status != Ok || site.attempt.job.None? then []
        else [Site(Updated(site.attempt, CancelledState, c.at), world), CancelRequested(site, c)]
  }

  // ---- the backend object ----

  datatype BackendOutcome = SubmittedAs(id: JobId) | Raised

  class RemoteSchedulerBackend {
    const store: ExecutionStore
    const worker: RemoteWorker
    /** What each durable step of executing has left so far. */
    ghost var moments: seq<Site>

    constructor (store: ExecutionStore, worker: RemoteWorker)
      ensures this.store == store && this.worker == worker && moments == []
    {
      this.store, this.worker, moments := store, worker, [];
    }

    ghost method Mark(id: AttemptId)
      requires id in store.rows
      modifies this`moments
      ensures moments == old(moments) + [Site(store.rows[id], worker.Now())]
    {
      moments := moments + [Site(store.rows[id], worker.Now())];
    }

    method Execute(id: AttemptId, s: ExecuteScript) returns (r: BackendOutcome)
      requires id in store.rows && store.rows[id].job.None? && worker.Now() == UNTOUCHED
      modifies store, worker, this`moments
      ensures store.experiments == old(store.experiments)
      ensures
        var a := old(store.rows)[id];
        var taken := s.answer.AcceptedAs? && JobTaken(old(store.rows), id, s.answer.id);
        var (site, raised) := Executed(a, UNTOUCHED, s, taken);
        && store.rows == old(store.rows)[id := site.attempt] && worker.Now() == site.world && (r == Raised <==> raised)
        && moments == old(moments) + ExecuteMoments(a, UNTOUCHED, s, taken)
    {
      ghost var rows0 := store.rows;
      assert rows0[id := rows0[id]] == rows0;
      if !s.reachesPrepare { return Raised; }
      ExecuteUnfolds(moments, rows0[id], s, s.answer.AcceptedAs? && JobTaken(rows0, id, s.answer.id));
      var staged := Stage(id, s);
      if !staged || !s.uploadsFinish { return Raised; }
      OwnReply(rows0, id, store.rows[id], s);
      r := SubmitAndConclude(id, s);
    }

    /** Prepare the remote execution, record that, and upload. */
    method Stage(id: AttemptId, s: ExecuteScript) returns (ok: bool)
      requires id in store.rows
      modifies store, worker, this`moments
      ensures store.experiments == old(store.experiments)
      ensures ok == CallReply(old(worker.Now()), PrepareRequest(s.intent), s.prepare).Some?
      ensures
        var a, w := old(store.rows)[id], old(worker.Now());
        var prepared := CallWorld(w, PrepareRequest(s.intent), s.prepare);
        && store.rows == old(store.rows)[id := if ok then Ready(a, s.at) else a]
        && worker.Now() == (if ok then prepared.(files := s.uploaded, variant := s.uploadedVariant) else prepared)
        && moments == old(moments) + if ok then StageMoments(a, prepared, s) else [Site(a, prepared)]
    {
      ghost var rows0 := store.rows;
      assert rows0[id := rows0[id]] == rows0;
      var prepared := CallPrepare(worker, s.intent, s.prepare);
      Mark(id);
      if prepared.None? { return false; }
      var _ := store.UpdateExecutionState(id, PreparedState, s.at);
      Mark(id);
      var _ := store.SaveRemoteState(id, RemoteRecord(None, None));
      Mark(id);
      worker.Upload(s.uploaded, s.uploadedVariant);
      Mark(id);
      ok := true;
    }

    /** Submit; if that call fails, reconcile once and never submit again. */
    method SubmitAndConclude(id: AttemptId, s: ExecuteScript) returns (r: BackendOutcome)
      requires id in store.rows
      modifies store, worker, this`moments
      ensures store.experiments == old(store.experiments)
      ensures worker.Now() == SubmissionWorld(old(worker.Now()), s)
      ensures
        var reply := SubmissionReply(old(worker.Now()), s);
        var taken := RecordedElsewhere(old(store.rows), id, reply);
        var (a, raised) := Concluded(old(store.rows)[id], reply, taken, s.at);
        && store.rows == old(store.rows)[id := a] && (r == Raised <==> raised)
        && moments == old(moments) + SubmitMoments(old(store.rows)[id], old(worker.Now()), s, taken)
    {
      SubmitUnfolds(moments, store.rows[id], worker.Now(), s,
                    RecordedElsewhere(store.rows, id, SubmissionReply(worker.Now(), s)));
      var reply := CallSubmit(worker, s.executable, s.answer, s.submit);
      Mark(id);
      if reply.None? {
        reply := CallReconcile(worker, s.scheduler, s.result, s.reconcile);
        Mark(id);
      }
      r := Conclude(id, reply, s.at);
    }

    method Conclude(id: AttemptId, reply: Option<Reply>, at: int) returns (r: BackendOutcome)
      requires id in store.rows
      modifies store, this`moments
      ensures store.experiments == old(store.experiments)
      ensures
        var taken := RecordedElsewhere(old(store.rows), id, reply);
        var (a, raised) := Concluded(old(store.rows)[id], reply, taken, at);
        && store.rows == old(store.rows)[id := a] && (r == Raised <==> raised)
        && moments == old(moments) + ConcludeMoments(old(store.rows)[id], worker.Now(), reply, taken, at)
    {
      ghost var rows0 := store.rows;
      assert rows0[id := rows0[id]] == rows0;
      if reply.None? || reply.value.WorkerError? || reply.value.status == AmbiguousStatus
         || reply.value.status == UnknownStatus {
        var _ := store.UpdateExecutionState(id, SubmissionAmbiguous, at);
        Mark(id);
        var _ := store.SaveRemoteState(id, RemoteRecord(None, None));
        Mark(id);
        return Raised;
      }
      var data := reply.value.state;
      if reply.value.status != Ok || data.jobId.None? {
        var _ := store.UpdateExecutionState(id, FailedState, at);
        Mark(id);
        return Raised;
      }
      var saved := store.SaveSchedulerJob(id, data.jobId.value);
      if saved.Failure? { return Raised; }
      Mark(id);
      var _ := store.UpdateExecutionState(id, SubmittedState, at);
      Mark(id);
      var _ := store.SaveRemoteState(id, RemoteRecord(data.jobId, reply.value.observed));
      Mark(id);
      r := SubmittedAs(data.jobId.value);
    }

    method Collect(id: AttemptId, c: CollectScript) returns (r: CollectOutcome)
      requires id in store.rows
      modifies store, worker, this`moments
      ensures
        var site := Site(old(store.rows)[id], old(worker.Now()));
        var jobTaken := HeldElsewhere(old(store.rows), id, old(worker.Now()));
        var experimentTaken := ExperimentTaken(c, old(store.experiments));
        && r == CollectResult(site, c, jobTaken, experimentTaken)
        && store.rows == old(store.rows)[id := Collected(site, c, jobTaken, experimentTaken).attempt]
        && worker.Now() == Collected(site, c, jobTaken, experimentTaken).world
        && moments == old(moments) + CollectMoments(site, c, jobTaken, experimentTaken)
      ensures store.experiments == old(store.experiments)
           || (r == Returned && c.bundle.experiment.Some? && store.rows[id].experiment == c.bundle.experiment
               && store.experiments == old(store.experiments) + {c.bundle.experiment.value})
    {
      ghost var rows0, w0 := store.rows, worker.Now();
      assert rows0[id := rows0[id]] == rows0;
      if store.rows[id].remote.None? { return NotCollected; }
      CollectUnfolds(moments, Site(store.rows[id], w0), c, HeldElsewhere(rows0, id, w0),
                     ExperimentTaken(c, store.experiments));
      var reply := CallReconcile(worker, c.scheduler, c.result, c.call);
      Mark(id);
      if reply.None? { return Escaped; }
      ReplyShowsWorld(w0, c.scheduler, c.result, c.call);
      var stored := RecordReconciliation(id, reply.value, c.at);
      if !stored { return Escaped; }
      if reply.value.result != Bundle { return NotCollected; }
      r := CollectBundle(id, c.bundle);
    }

    method RecordReconciliation(id: AttemptId, reply: Reply, at: int) returns (stored: bool)
      requires id in store.rows && reply.Reply?
      modifies store, this`moments
      ensures store.experiments == old(store.experiments)
      ensures
        var a := old(store.rows)[id];
        var taken := reply.state.jobId.Some? && JobTaken(old(store.rows), id, reply.state.jobId.value);
        && store.rows == old(store.rows)[id := Reconciled(a, reply, taken, at).0]
        && stored == Reconciled(a, reply, taken, at).1
        && moments == old(moments) + RecordMoments(a, worker.Now(), reply, taken, at)
    {
      ghost var rows0 := store.rows;
      assert rows0[id := rows0[id]] == rows0;
      if reply.observed.Some? && reply.state.jobId.Some? {
        if store.rows[id].job.None? {
          var saved := store.SaveSchedulerJob(id, reply.state.jobId.value);
          if saved.Failure? { return false; }
          Mark(id);
          var _ := store.UpdateExecutionState(id, ObservedName(reply.observed.value), at);
          Mark(id);
        }
        var _ := store.RecordExecutionEvent(id, RemoteReconciled, at);
        Mark(id);
      }
      var _ := store.SaveRemoteState(id, RemoteRecord(reply.state.jobId, reply.observed));
      Mark(id);
      stored := true;
    }

    method CollectBundle(id: AttemptId, b: BundleContent) returns (r: CollectOutcome)
      requires id in store.rows
      modifies store, this`moments
      ensures
        var a := old(store.rows)[id];
        var taken := b.experiment.Some? && b.experiment.value in old(store.experiments);
        && store.rows == old(store.rows)[id := BundleCollected(a, b, taken)]
        && r == BundleResult(a, b, taken)
        && moments == old(moments)
           + if Imports(a, b, taken) then [Site(BundleCollected(a, b, taken), worker.Now())] else []
      ensures store.experiments == old(store.experiments)
           || (r == Returned && b.experiment.Some? && store.rows[id].experiment == b.experiment
               && store.experiments == old(store.experiments) + {b.experiment.value})
    {
      ghost var rows0 := store.rows;
      assert rows0[id := rows0[id]] == rows0;
      if !b.acceptable { return NotCollected; }
      var existing := store.rows[id].experiment;
      if existing.Some? {
        if b.experiment != existing { return NotCollected; }
        return Returned;
      }
      var imported;
      if b.experiment.Some? {
        imported := store.ImportExperimentResult(id, b.experiment.value, b.state, b.createdAt);
      } else {
        imported := store.ImportWorkerFailure(id, b.conflicts, b.state, b.createdAt);
      }
      if imported.Failure? { return Escaped; }
      Mark(id);
      r := Returned;
    }

    /** One poll. A returned bundle and an escaping exception both leave at once. */
    method Turn(id: AttemptId, c: CollectScript) returns (r: CollectOutcome, ends: bool)
      requires id in store.rows
      modifies store, worker, this`moments
      ensures
        var site := Site(old(store.rows)[id], old(worker.Now()));
        var after := PolledOnce(site, c, id, old(store.rows), old(store.experiments));
        && store.rows == old(store.rows)[id := after.0.attempt] && worker.Now() == after.0.world && ends == after.1
        && moments == old(moments) + PollMoments(site, c, id, old(store.rows), old(store.experiments))
        && r == CollectResult(site, c, HeldElsewhere(old(store.rows), id, old(worker.Now())),
                              ExperimentTaken(c, old(store.experiments)))
      ensures store.rows[id].family == old(store.rows)[id].family
      ensures store.experiments == old(store.experiments)
           || (r == Returned && store.rows[id].experiment.Some?
               && store.experiments == old(store.experiments) + {store.rows[id].experiment.value})
    {
      CollectKeepsFamily(Site(store.rows[id], worker.Now()), c, HeldElsewhere(store.rows, id, worker.Now()),
                         ExperimentTaken(c, store.experiments));
      r := Collect(id, c);
      if r != NotCollected { return r, true; }
      ends := store.rows[id].remote.Some? && store.rows[id].remote.value.scheduler == Some(Over);
      if ends {
        var _ := store.UpdateExecutionState(id, CollectionFailed, c.at);
        Mark(id);
      }
    }

    /** Poll until a bundle is collected, an exception escapes, the scheduler state
        is final, or the polls run out; `delay` backs off by half up to a minute. */
    method Wait(id: AttemptId, pollSeconds: real, polls: seq<CollectScript>) returns (r: CollectOutcome, delay: real)
      requires id in store.rows
      modifies store, worker, this`moments
      ensures
        var site := Site(old(store.rows)[id], old(worker.Now()));
        var after := Waited(site, id, polls, old(store.rows), old(store.experiments));
        && store.rows == old(store.rows)[id := after.attempt] && worker.Now() == after.world
        && moments == old(moments) + WaitMoments(site, id, polls, old(store.rows), old(store.experiments))
      ensures store.experiments == old(store.experiments)
           || (r == Returned && store.rows[id].experiment.Some?
               && store.experiments == old(store.experiments) + {store.rows[id].experiment.value})
      ensures 0.05 <= delay <= 60.0
    {
      delay := if pollSeconds < 0.05 then 0.05 else if pollSeconds > 60.0 then 60.0 else pollSeconds;
      ghost var rows0, experiments0 := store.rows, store.experiments;
      ghost var expected := Waited(Site(rows0[id], worker.Now()), id, polls, rows0, experiments0);
      ghost var trace := moments + WaitMoments(Site(rows0[id], worker.Now()), id, polls, rows0, experiments0);
      assert polls[0..] == polls && rows0[id := rows0[id]] == rows0;
      for i := 0 to |polls|
        invariant id in store.rows && store.experiments == experiments0 && store.rows == rows0[id := store.rows[id]]
        invariant store.rows[id].family == rows0[id].family
        invariant expected == Waited(Site(store.rows[id], worker.Now()), id, polls[i..], rows0, experiments0)
        invariant trace
            == moments + WaitMoments(Site(store.rows[id], worker.Now()), id, polls[i..], rows0, experiments0)
        invariant 0.05 <= delay <= 60.0
      {
        ghost var site := Site(store.rows[id], worker.Now());
        WaitUnfolds(moments, site, id, polls, i, rows0, store.rows, experiments0);
        var ends;
        r, ends := Turn(id, polls[i]);
        assert store.rows == rows0[id := store.rows[id]];
        if ends { return; }
        delay := if delay * 1.5 > 60.0 then 60.0 else delay * 1.5;
      }
      r := NotCollected;
    }

    method Cancel(id: AttemptId, c: CancelScript) returns (established: bool)
      requires id in store.rows
      modifies store, worker, this`moments
      ensures store.experiments == old(store.experiments)
      ensures
        var site := Site(old(store.rows)[id], old(worker.Now()));
        && store.rows == old(store.rows)[id := CancelRequested(site, c).attempt]
        && worker.Now() == CancelRequested(site, c).world
        && moments == old(moments) + CancelMoments(site, c)
    {
      ghost var rows0 := store.rows;
      assert rows0[id := rows0[id]] == rows0;
      if store.rows[id].remote.None? { return false; }
      var reply := CallCancel(worker, c.executable, c.succeeds, c.call);
      Mark(id);
      if reply.None? || reply.value.WorkerError? || reply.value.status != Ok { return false; }
      if store.rows[id].job.None? { return false; }
      var _ := store.UpdateExecutionState(id, CancelledState, c.at);
      Mark(id);
      var _ := store.SaveRemoteState(id, RemoteRecord(reply.value.state.jobId, None));
      Mark(id);
      established := true;
    }
  }

  /** Whether the job a reply names is already another attempt's row. */
  predicate RecordedElsewhere(rows: map<AttemptId, Attempt>, id: AttemptId, reply: Option<Reply>)
    requires id in rows
  {
    reply.Some? && reply.value.Reply? && reply.value.state.jobId.Some?
    && JobTaken(rows, id, reply.value.state.jobId.value)
  }

  /** Whether the job of a remote machine is already another attempt's row. */
  predicate HeldElsewhere(rows: map<AttemptId, Attempt>, id: AttemptId, w: World)
    requires id in rows
  {
    w.state.Some? && w.state.value.jobId.Some? && JobTaken(rows, id, w.state.value.jobId.value)
  }

  /** Whose job it is depends on the other attempts only. */
  lemma SameHolders(rows: map<AttemptId, Attempt>, id: AttemptId, a: Attempt, w: World)
    requires id in rows && a.family == rows[id].family
    ensures HeldElsewhere(rows[id := a], id, w) <==> HeldElsewhere(rows, id, w)
  {
    if w.state.Some? && w.state.value.jobId.Some? { OwnRowIsIrrelevant(rows, id, a, w.state.value.jobId.value); }
  }

  lemma SamePoll(rows: map<AttemptId, Attempt>, id: AttemptId, site: Site, c: CollectScript,
                 experiments: set<ExperimentId>)
    requires id in rows && site.attempt.family == rows[id].family
    ensures PolledOnce(site, c, id, rows[id := site.attempt], experiments) == PolledOnce(site, c, id, rows, experiments)
    ensures PollMoments(site, c, id, rows[id := site.attempt], experiments)
        == PollMoments(site, c, id, rows, experiments)
  {
    SameHolders(rows, id, site.attempt, site.world);
  }

  lemma ExecuteUnfolds(before: seq<Site>, a: Attempt, s: ExecuteScript, taken: bool)
    requires s.reachesPrepare
    ensures
      var prepared := CallWorld(UNTOUCHED, PrepareRequest(s.intent), s.prepare);
      var staged := prepared.(files := s.uploaded, variant := s.uploadedVariant);
      before + ExecuteMoments(a, UNTOUCHED, s, taken)
      == if CallReply(UNTOUCHED, PrepareRequest(s.intent), s.prepare).None? then before + [Site(a, prepared)]
         else if !s.uploadsFinish then before + StageMoments(a, prepared, s)
         else before + StageMoments(a, prepared, s) + SubmitMoments(Ready(a, s.at), staged, s, taken)
  {
  }

  lemma SubmitUnfolds(before: seq<Site>, a: Attempt, w: World, s: ExecuteScript, taken: bool)
    ensures
      var submitted := CallWorld(w, SubmitRequest(s.executable, s.answer), s.submit);
      var conclude := ConcludeMoments(a, SubmissionWorld(w, s), SubmissionReply(w, s), taken, s.at);
      before + SubmitMoments(a, w, s, taken)
      == if CallReply(w, SubmitRequest(s.executable, s.answer), s.submit).Some?
         then before + [Site(a, submitted)] + conclude
         else before + [Site(a, submitted)] + [Site(a, SubmissionWorld(w, s))] + conclude
  {
  }

  lemma CollectUnfolds(before: seq<Site>, site: Site, c: CollectScript, jobTaken: bool, experimentTaken: bool)
    requires site.attempt.remote.Some?
    ensures
      var world := CallWorld(site.world, ReconcileRequest(c.scheduler, c.result), c.call);
      before + CollectMoments(site, c, jobTaken, experimentTaken)
      == match CallReply(site.world, ReconcileRequest(c.scheduler, c.result), c.call)
         case None => before + [Site(site.attempt, world)]
         case Some(reply) =>
           var (recorded, stored) := Reconciled(site.attempt, reply, jobTaken, c.at);
           before + [Site(site.attempt, world)] + RecordMoments(site.attempt, world, reply, jobTaken, c.at)
           + if stored && reply.result == Bundle && Imports(recorded, c.bundle, experimentTaken)
             then [Site(BundleCollected(recorded, c.bundle, experimentTaken), world)] else []
  {
  }

  lemma WaitUnfolds(before: seq<Site>, site: Site, id: AttemptId, polls: seq<CollectScript>, i: nat,
                    rows: map<AttemptId, Attempt>, now: map<AttemptId, Attempt>, experiments: set<ExperimentId>)
    requires id in rows && i < |polls| && now == rows[id := site.attempt] && site.attempt.family == rows[id].family
    ensures
      var (next, ends) := PolledOnce(site, polls[i], id, now, experiments);
      && Waited(site, id, polls[i..], rows, experiments)
         == (if ends then next else Waited(next, id, polls[i + 1..], rows, experiments))
      && before + WaitMoments(site, id, polls[i..], rows, experiments)
         == before + PollMoments(site, polls[i], id, now, experiments)
            + if ends then [] else WaitMoments(next, id, polls[i + 1..], rows, experiments)
  {
    SamePoll(rows, id, site, polls[i], experiments);
    var rest := polls[i..];
    assert rest != [] && rest[0] == polls[i] && rest[1..] == polls[i + 1..];
    var (next, ends) := PolledOnce(site, polls[i], id, rows, experiments);
    ConcatIsAssociative(before, PollMoments(site, polls[i], id, rows, experiments),
                        if ends then [] else WaitMoments(next, id, polls[i + 1..], rows, experiments));
  }

  /** Waiting sets the state of an attempt that already has its experiment to
      collection_failed exactly when a reply arrives, the job is over, and the reply
      does not bring a repeat of that experiment. */
  lemma RemoteWaitOverwritesExactly(site: Site, c: CollectScript, id: AttemptId, rows: map<AttemptId, Attempt>,
                                    experiments: set<ExperimentId>)
    requires id in rows && site.attempt.experiment.Some? && site.attempt.job.Some?
    requires site.attempt.state != CollectionFailed
    requires site.world.state.Some? && site.world.state.value.jobId == site.attempt.job
    ensures PolledOnce(site, c, id, rows, experiments).0.attempt.state == CollectionFailed
       <==> site.attempt.remote.Some? && c.call.delivered && c.call.replyArrives && c.scheduler == Over
            && !(c.result == Bundle && c.bundle.acceptable && c.bundle.experiment == site.attempt.experiment)
  {
    var reply := CallReply(site.world, ReconcileRequest(c.scheduler, c.result), c.call);
    assert reply.Some? <==> c.call.delivered && c.call.replyArrives;
    if site.attempt.remote.Some? && reply.Some? {
      assert reply.value.observed == Some(c.scheduler) && reply.value.result == c.result;
      var next := Reconciled(site.attempt, reply.value, HeldElsewhere(rows, id, site.world), c.at).0;
      assert next.experiment == site.attempt.experiment && next.state == site.attempt.state;
    }
  }

  lemma CollectKeepsFamily(site: Site, c: CollectScript, jobTaken: bool, experimentTaken: bool)
    ensures Collected(site, c, jobTaken, experimentTaken).attempt.family == site.attempt.family
  {
  }

  /** A reconcile reply carries the job identity of the state file. */
  lemma ReplyShowsWorld(w: World, scheduler: SchedulerState, result: ResultFile, d: Delivery)
    ensures
      var reply := CallReply(w, ReconcileRequest(scheduler, result), d);
      reply.Some? ==> w.state.Some? && reply.value.state.jobId == w.state.value.jobId
  {
  }

  /** A job identity in a submission reply is the one this attempt was given. */
  lemma OnlyOwnJob(w: World, s: ExecuteScript)
    requires w == UNTOUCHED
    ensures
      var prepared := CallWorld(w, PrepareRequest(s.intent), s.prepare);
      var staged := prepared.(files := s.uploaded, variant := s.uploadedVariant);
      var reply := SubmissionReply(staged, s);
      reply.Some? && reply.value.Reply? && reply.value.state.jobId.Some? ==>
        s.answer == AcceptedAs(reply.value.state.jobId.value)
  {
    var prepared := CallWorld(w, PrepareRequest(s.intent), s.prepare);
    Survivors(w, Plan(w, PrepareRequest(s.intent)).0, s.prepare.survives);
    var staged := prepared.(files := s.uploaded, variant := s.uploadedVariant);
    Survivors(staged, Plan(staged, SubmitRequest(s.executable, s.answer)).0, s.submit.survives);
  }

  /** So it is recorded elsewhere exactly when the scheduler's own answer is. */
  lemma OwnReply(rows: map<AttemptId, Attempt>, id: AttemptId, a: Attempt, s: ExecuteScript)
    requires id in rows && a.family == rows[id].family && a.job.None?
    ensures
      var staged := CallWorld(UNTOUCHED, PrepareRequest(s.intent), s.prepare)
        .(files := s.uploaded, variant := s.uploadedVariant);
      var reply := SubmissionReply(staged, s);
      var taken := s.answer.AcceptedAs? && JobTaken(rows, id, s.answer.id);
      Concluded(a, reply, RecordedElsewhere(rows[id := a], id, reply), s.at) == Concluded(a, reply, taken, s.at)
      && SubmitMoments(a, staged, s, RecordedElsewhere(rows[id := a], id, reply)) == SubmitMoments(a, staged, s, taken)
  {
    OnlyOwnJob(UNTOUCHED, s);
    if s.answer.AcceptedAs? { OwnRowIsIrrelevant(rows, id, a, s.answer.id); }
  }
}
