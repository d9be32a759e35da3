/** One execution from creation on (execution_service.py): `execute_plan` with its
    guard, and what every later operation on an attempt keeps. */
module ExecutionRuns {
  import opened Prelude
  import opened Schedulers
  import opened RemoteWorkers
  import opened ExecutionStores
  import opened RemoteSubmission
  import opened LocalSubmission

  /** Where an attempt was sent, with what its scheduler was asked. */
  datatype Place = Remote(world: World) | Local(answers: seq<Answer>)

  datatype How = Remotely(script: ExecuteScript) | Locally(local: LocalScript)

  /** What a controller that dies at some point leaves behind. */
  datatype Moment = Moment(attempt: Attempt, place: Place)

  /** An attempt as execute_plan hands it to a backend. */
  function Began(plan: PlanId, family: Family, at: int): Attempt {
    Noted(Created(plan, family, at), IdentityObserved, at)
  }

  /** The scheduler's answer is a job another attempt already holds. */
  predicate Clashes(rows: map<AttemptId, Attempt>, id: AttemptId, answer: Answer)
    requires id in rows
  {
    answer.AcceptedAs? && JobTaken(rows, id, answer.id)
  }

  /** What becomes of a new attempt, where, and whether the backend raises. */
  function Performed(rows: map<AttemptId, Attempt>, id: AttemptId, how: How): (Attempt, Place, bool)
    requires id in rows
  {
    match how
    case Remotely(s) =>
      var (site, raised) := Executed(rows[id], UNTOUCHED, s, Clashes(rows, id, s.answer));
      (Mapped(site.attempt, raised, s.at), Remote(site.world), raised)
    case Locally(s) =>
      var (a, raised) := LocalExecuted(rows[id], s, Clashes(rows, id, s.answer));
      (Mapped(a, raised, s.at), Local(if Asks(s) then [s.answer] else []), raised)
  }

  function StartPlace(how: How): Place {
    if how.Remotely? then Remote(UNTOUCHED) else Local([])
  }

  function FromSites(sites: seq<Site>): (r: seq<Moment>)
    ensures |r| == |sites| && forall k | 0 <= k < |r| :: r[k] == Moment(sites[k].attempt, Remote(sites[k].world))
  {
    seq(|sites|, k requires 0 <= k < |sites| => Moment(sites[k].attempt, Remote(sites[k].world)))
  }

  function FromLocal(ms: seq<LocalMoment>, answer: Answer): (r: seq<Moment>)
    ensures |r| == |ms|
    ensures forall k | 0 <= k < |r| :: r[k] == Moment(ms[k].attempt, Local(if ms[k].asked then [answer] else []))
  {
    seq(|ms|, k requires 0 <= k < |ms| => Moment(ms[k].attempt, Local(if ms[k].asked then [answer] else [])))
  }

  /** The attempt and its place after each durable step of the backend, ... */
  function BackendMoments(rows: map<AttemptId, Attempt>, id: AttemptId, how: How): seq<Moment>
    requires id in rows
  {
    match how
    case Remotely(s) => FromSites(ExecuteMoments(rows[id], UNTOUCHED, s, Clashes(rows, id, s.answer)))
    case Locally(s) => FromLocal(LocalExecuteMoments(rows[id], s, Clashes(rows, id, s.answer)), s.answer)
  }

  /** ... and of execute_plan: creating the row, noting the identity, the backend. */
  function PlanMoments(rows: map<AttemptId, Attempt>, id: AttemptId, plan: PlanId, family: Family, at: int, how: How)
    : seq<Moment>
  {
    [Moment(Created(plan, family, at), StartPlace(how)), Moment(Began(plan, family, at), StartPlace(how))]
    + BackendMoments(rows[id := Began(plan, family, at)], id, how)
  }

  /** The newest attempt of the plan has ambiguous submission truth. */
  ghost predicate Locked(rows: map<AttemptId, Attempt>, plan: PlanId) {
    exists id :: IsLatest(rows, plan, id) && rows[id].state == SubmissionAmbiguous
  }

  lemma OneLatest(rows: map<AttemptId, Attempt>, plan: PlanId, a: AttemptId, b: AttemptId)
    requires IsLatest(rows, plan, a) && IsLatest(rows, plan, b)
    ensures a == b
  {
  }

  datatype PlanOutcome = Refused | NotCreated | Launched | BackendRaised

  class ExecutionService {
    const store: ExecutionStore

    constructor (store: ExecutionStore)
      ensures this.store == store
    {
      this.store := store;
    }

    /** `execute_plan`; `scan` is the order in which the database visits rows. */
    method ExecutePlan(id: AttemptId, plan: PlanId, family: Family, at: int, how: How, scan: seq<AttemptId>)
      returns (r: PlanOutcome, ghost place: Place, ghost moments: seq<Moment>)
      requires forall k | 0 <= k < |scan| :: scan[k] in store.rows
      requires forall other | other in store.rows :: other in scan
      modifies store
      ensures store.experiments == old(store.experiments)
      ensures r == Refused <==> Locked(old(store.rows), plan)
      ensures r == NotCreated <==> !Locked(old(store.rows), plan) && id in old(store.rows)
      ensures r in {Refused, NotCreated} ==> store.rows == old(store.rows)
      ensures r in {Launched, BackendRaised} ==>
        var begun := old(store.rows)[id := Began(plan, family, at)];
        && store.rows == begun[id := Performed(begun, id, how).0]
        && place == Performed(begun, id, how).1
        && moments == PlanMoments(old(store.rows), id, plan, family, at, how)
        && (r == BackendRaised <==> Performed(begun, id, how).2)
    {
      place, moments := Local([]), [];
      var refused := IsLocked(plan, scan);
      if refused { return Refused, place, moments; }
      var created;
      created, moments := Begin(id, plan, family, at, how);
      if !created { return NotCreated, place, moments; }
      ghost var begun := store.rows;
      assert begun == old(store.rows)[id := Began(plan, family, at)];
      var raised;
      ghost var rest;
      raised, place, rest := Perform(id, how);
      moments := moments + rest;
      r := if raised then BackendRaised else Launched;
    }

    /** Create the attempt and note who submits. */
    method Begin(id: AttemptId, plan: PlanId, family: Family, at: int, ghost how: How)
      returns (created: bool, ghost moments: seq<Moment>)
      modifies store
      ensures store.experiments == old(store.experiments)
      ensures created <==> id !in old(store.rows)
      ensures store.rows == if created then old(store.rows)[id := Began(plan, family, at)] else old(store.rows)
      ensures created ==>
        moments == [Moment(Created(plan, family, at), StartPlace(how)),
                    Moment(Began(plan, family, at), StartPlace(how))]
    {
      moments := [];
      var result := store.CreateExecution(id, plan, family, at);
      if result.Failure? { return false, moments; }
      moments := [Moment(store.rows[id], StartPlace(how))];
      var _ := store.RecordExecutionEvent(id, IdentityObserved, at);
      moments := moments + [Moment(store.rows[id], StartPlace(how))];
      created := true;
    }

    /** The guard: the newest attempt of the plan has ambiguous submission truth. */
    method IsLocked(plan: PlanId, scan: seq<AttemptId>) returns (locked: bool)
      requires forall k | 0 <= k < |scan| :: scan[k] in store.rows
      requires forall other | other in store.rows :: other in scan
      ensures locked <==> Locked(store.rows, plan)
    {
      var previous := store.LatestExecutionForPlan(plan, scan);
      locked := previous.Some? && store.rows[previous.value].state == SubmissionAmbiguous;
      forall other | IsLatest(store.rows, plan, other)
        ensures previous == Some(other)
      {
        OneLatest(store.rows, plan, previous.value, other);
      }
    }

    /** The backend of the plan, and the state an exception leaves behind. */
    method Perform(id: AttemptId, how: How) returns (raised: bool, ghost place: Place, ghost moments: seq<Moment>)
      requires id in store.rows && store.rows[id].job.None?
      modifies store
      ensures store.experiments == old(store.experiments)
      ensures
        var (a, p, r) := Performed(old(store.rows), id, how);
        store.rows == old(store.rows)[id := a] && place == p && raised == r
        && moments == BackendMoments(old(store.rows), id, how)
    {
      var finished;
      match how {
        case Remotely(s) =>
          raised, place, moments := ExecuteRemotely(id, s);
          finished := s.at;
        case Locally(s) =>
          raised, place, moments := ExecuteLocally(id, s);
          finished := s.at;
      }
      if raised && !Settled(store.rows[id].state) {
        var _ := store.UpdateExecutionState(id, FailedState, finished);
      }
    }

    method ExecuteRemotely(id: AttemptId, s: ExecuteScript)
      returns (raised: bool, ghost place: Place, ghost moments: seq<Moment>)
      requires id in store.rows && store.rows[id].job.None?
      modifies store
      ensures store.experiments == old(store.experiments)
      ensures
        var a, taken := old(store.rows)[id], Clashes(old(store.rows), id, s.answer);
        && store.rows == old(store.rows)[id := Executed(a, UNTOUCHED, s, taken).0.attempt]
        && place == Remote(Executed(a, UNTOUCHED, s, taken).0.world) && raised == Executed(a, UNTOUCHED, s, taken).1
        && moments == FromSites(ExecuteMoments(a, UNTOUCHED, s, taken))
    {
      var worker := new RemoteWorker();
      var backend := new RemoteSchedulerBackend(store, worker);
      var outcome := backend.Execute(id, s);
      raised, place, moments := outcome == Raised, Remote(worker.Now()), FromSites(backend.moments);
    }

    method ExecuteLocally(id: AttemptId, s: LocalScript)
      returns (raised: bool, ghost place: Place, ghost moments: seq<Moment>)
      requires id in store.rows
      modifies store
      ensures store.experiments == old(store.experiments)
      ensures
        var a, taken := old(store.rows)[id], Clashes(old(store.rows), id, s.answer);
        && store.rows == old(store.rows)[id := LocalExecuted(a, s, taken).0]
        && place == Local(if Asks(s) then [s.answer] else []) && raised == LocalExecuted(a, s, taken).1
        && moments == FromLocal(LocalExecuteMoments(a, s, taken), s.answer)
    {
      var backend := new SchedulerBackend(store);
      var outcome := backend.Execute(id, s);
      raised, place := outcome == Raised, Local(Asked(backend.asked, id));
      moments := FromLocal(backend.moments, s.answer);
    }
  }

  // ---- what holds of one attempt and its place ----

  predicate Accepted(p: Place) {
    match p
    case Remote(w) => w.calls != [] && WasAccepted(w.calls[0].answer)
    case Local(answers) => answers != [] && WasAccepted(answers[0])
  }

  /** The job identity durably known at the place. */
  function JobAt(p: Place): Option<JobId> {
    match p
    case Remote(w) => if w.state.Some? then w.state.value.jobId else None
    case Local(answers) => if answers != [] && answers[0].AcceptedAs? then Some(answers[0].id) else None
  }

  ghost predicate SoundPlace(p: Place) {
    match p
    case Remote(w) => Consistent(w)
    case Local(answers) => |answers| <= 1
  }

  ghost predicate Sound(a: Attempt, p: Place) {
    && LogRefines(a)
    && SoundPlace(p)
    && (a.job.Some? ==> a.job == JobAt(p))
    && (a.state == SubmissionAmbiguous ==> !a.imported)
    && (a.experiment.Some? ==> a.imported)
    && (p.Remote? && a.imported ==> a.job.Some?)
    && (a.remote.Some? && a.remote.value.scheduler.Some? ==> a.job.Some?)
    && (p.Local? ==> a.remote.None?)
  }

  /** The scheduler owns a job for this attempt, and nothing in the store says so:
      no job, no result, and a state that lets the plan run again. */
  predicate Blind(a: Attempt, p: Place) {
    Accepted(p) && a.job.None? && !a.imported && a.state != SubmissionAmbiguous
  }

  /** What no operation after execute ever undoes. */
  ghost predicate Evolved(a: Attempt, p: Place, b: Attempt, q: Place) {
    && b.plan == a.plan && b.family == a.family && b.createdAt == a.createdAt
    && q.Remote? == p.Remote? && Accepted(q) == Accepted(p) && JobAt(q) == JobAt(p)
    && (a.job.Some? ==> b.job == a.job)
    && (a.experiment.Some? ==> b.experiment == a.experiment)
    && (a.imported ==> b.imported)
    && (b.state == SubmissionAmbiguous ==> a.state == SubmissionAmbiguous)
    && (p.Remote? && a.state == SubmissionAmbiguous && JobAt(p).None? ==> b.state == SubmissionAmbiguous)
    && (Blind(b, q) ==> Blind(a, p))
  }

  /** A newly recorded job or experiment belongs to nobody else. */
  ghost predicate Fresh(rows: map<AttemptId, Attempt>, experiments: set<ExperimentId>, id: AttemptId, a: Attempt,
                        b: Attempt)
    requires id in rows
  {
    && (a.job.None? && b.job.Some? ==> !JobTaken(rows, id, b.job.value))
    && (a.experiment.None? && b.experiment.Some? ==> b.experiment.value !in experiments)
  }

  lemma LogKept(a: Attempt, name: Name, at: int)
    requires LogRefines(a)
    ensures !EvidenceOnly(name) ==> LogRefines(Updated(a, name, at))
    ensures EvidenceOnly(name) ==> LogRefines(Noted(a, name, at))
  {
    LastStateNext(a.events, Event(name, at));
  }

  /** Reconcile and cancel never call the scheduler nor change the job. */
  lemma QuietCalls(w: World, r: Request, d: Delivery)
    requires Consistent(w) && (r.ReconcileRequest? || r.CancelRequest?)
    ensures Consistent(CallWorld(w, r, d)) && CallWorld(w, r, d).calls == w.calls
    ensures JobAt(Remote(CallWorld(w, r, d))) == JobAt(Remote(w))
  {
    Survivors(w, Plan(w, r).0, d.survives);
    StepKeepsConsistency(w, Operation(r, d.survives));
  }

  lemma ReconciledKeeps(a: Attempt, w: World, c: CollectScript, jobTaken: bool)
    requires Sound(a, Remote(w)) && CallReply(w, ReconcileRequest(c.scheduler, c.result), c.call).Some?
    ensures
      var reply := CallReply(w, ReconcileRequest(c.scheduler, c.result), c.call).value;
      var (b, stored) := Reconciled(a, reply, jobTaken, c.at);
      && Sound(b, Remote(w)) && Evolved(a, Remote(w), b, Remote(w))
      && b.imported == a.imported && b.experiment == a.experiment
      && (a.job.None? && b.job.Some? ==> !jobTaken)
      && (stored && reply.result == Bundle ==> b.job.Some?)
  {
    var reply := CallReply(w, ReconcileRequest(c.scheduler, c.result), c.call).value;
    if reply.observed.Some? && reply.state.jobId.Some? && (a.job.Some? || !jobTaken) {
      var named := a.(job := reply.state.jobId);
      LogKept(named, ObservedName(reply.observed.value), c.at);
      var known := if a.job.None? then Updated(named, ObservedName(reply.observed.value), c.at) else a;
      LogKept(known, RemoteReconciled, c.at);
    }
  }

  lemma BundleKeeps(a: Attempt, p: Place, b: BundleContent, taken: bool)
    requires Sound(a, p) && (p.Remote? ==> a.job.Some?)
    ensures Sound(BundleCollected(a, b, taken), p) && Evolved(a, p, BundleCollected(a, b, taken), p)
    ensures BundleCollected(a, b, taken).job == a.job
    ensures a.experiment.None? && BundleCollected(a, b, taken).experiment.Some? ==>
      !taken && BundleCollected(a, b, taken).experiment == b.experiment
  {
    LogKept(a, b.state, b.createdAt);
  }

  lemma CollectedKeeps(rows: map<AttemptId, Attempt>, experiments: set<ExperimentId>, id: AttemptId,
                       a: Attempt, w: World, c: CollectScript)
    requires id in rows && Sound(a, Remote(w))
    ensures
      var after := Collected(Site(a, w), c, HeldElsewhere(rows, id, w), ExperimentTaken(c, experiments));
      Sound(after.attempt, Remote(after.world)) && Evolved(a, Remote(w), after.attempt, Remote(after.world))
      && Fresh(rows, experiments, id, a, after.attempt)
  {
    var request := ReconcileRequest(c.scheduler, c.result);
    QuietCalls(w, request, c.call);
    var world := CallWorld(w, request, c.call);
    if a.remote.Some? && CallReply(w, request, c.call).Some? {
      var reply := CallReply(w, request, c.call).value;
      var jobTaken := HeldElsewhere(rows, id, w);
      ReconciledKeeps(a, w, c, jobTaken);
      var (recorded, stored) := Reconciled(a, reply, jobTaken, c.at);
      if stored && reply.result == Bundle {
        BundleKeeps(recorded, Remote(world), c.bundle, ExperimentTaken(c, experiments));
      }
    }
  }

  lemma GivenUpKeeps(a: Attempt, w: World, at: int)
    requires Sound(a, Remote(w))
    ensures
      var after := GivenUp(Site(a, w), at);
      after.world == w && Sound(after.attempt, Remote(w)) && Evolved(a, Remote(w), after.attempt, Remote(w))
      && after.attempt.job == a.job && after.attempt.experiment == a.experiment
  {
    LogKept(a, CollectionFailed, at);
  }

  lemma EvolvedFurther(a: Attempt, p: Place, b: Attempt, q: Place, c: Attempt, r: Place)
    requires Evolved(a, p, b, q) && Evolved(b, q, c, r)
    ensures Evolved(a, p, c, r)
  {
  }

  /** Waiting, however long, changes an attempt as its polls do. */
  lemma {:induction false} WaitedKeeps(rows: map<AttemptId, Attempt>, experiments: set<ExperimentId>, id: AttemptId,
                                       a: Attempt, w: World, polls: seq<CollectScript>)
    requires id in rows && Sound(a, Remote(w))
    ensures
      var after := Waited(Site(a, w), id, polls, rows, experiments);
      Sound(after.attempt, Remote(after.world)) && Evolved(a, Remote(w), after.attempt, Remote(after.world))
      && Fresh(rows, experiments, id, a, after.attempt)
    decreases |polls|
  {
    if polls != [] {
      var c := polls[0];
      var next := Collected(Site(a, w), c, HeldElsewhere(rows, id, w), ExperimentTaken(c, experiments));
      CollectedKeeps(rows, experiments, id, a, w, c);
      GivenUpKeeps(next.attempt, next.world, c.at);
      var (polled, ends) := PolledOnce(Site(a, w), c, id, rows, experiments);
      EvolvedFurther(a, Remote(w), next.attempt, Remote(next.world), polled.attempt, Remote(polled.world));
      if !ends {
        WaitedKeeps(rows, experiments, id, polled.attempt, polled.world, polls[1..]);
        var after := Waited(polled, id, polls[1..], rows, experiments);
        EvolvedFurther(a, Remote(w), polled.attempt, Remote(polled.world), after.attempt, Remote(after.world));
      }
    }
  }

  lemma CancelKeeps(a: Attempt, w: World, c: CancelScript)
    requires Sound(a, Remote(w))
    ensures
      var after := CancelRequested(Site(a, w), c);
      Sound(after.attempt, Remote(after.world)) && Evolved(a, Remote(w), after.attempt, Remote(after.world))
      && after.attempt.job == a.job && after.attempt.experiment == a.experiment
  {
    QuietCalls(w, CancelRequest(c.executable, c.succeeds), c.call);
    LogKept(a, CancelledState, c.at);
  }

  lemma LocalCollectKeeps(rows: map<AttemptId, Attempt>, experiments: set<ExperimentId>, id: AttemptId,
                          a: Attempt, p: Place, c: ResultRead)
    requires id in rows && Sound(a, p) && p.Local?
    ensures
      var b := LocalCollected(a, c, Taken(c, experiments));
      Sound(b, p) && Evolved(a, p, b, p) && Fresh(rows, experiments, id, a, b) && b.job == a.job
  {
    BundleKeeps(a, p, c.bundle, Taken(c, experiments));
  }

  lemma ObservedKeeps(a: Attempt, p: Place, q: Query)
    requires Sound(a, p) && p.Local?
    ensures
      var b := LocalObserved(a, q);
      Sound(b, p) && Evolved(a, p, b, p) && b.job == a.job && b.experiment == a.experiment
  {
    LogKept(a, SchedulerQueryError, q.at);
    if q.seen.Some? { LogKept(a, ObservationName(q.seen.value), q.at); }
  }

  lemma PolledKeeps(rows: map<AttemptId, Attempt>, experiments: set<ExperimentId>, id: AttemptId,
                    a: Attempt, p: Place, poll: Poll)
    requires id in rows && Sound(a, p) && p.Local?
    ensures
      var b := Polled(a, poll, experiments).0;
      Sound(b, p) && Evolved(a, p, b, p) && Fresh(rows, experiments, id, a, b) && b.job == a.job
    ensures !Polled(a, poll, experiments).1 ==> Polled(a, poll, experiments).0.experiment == a.experiment
  {
    LocalCollectKeeps(rows, experiments, id, a, p, poll.first);
    var observed := LocalObserved(a, poll.query);
    ObservedKeeps(a, p, poll.query);
    LocalCollectKeeps(rows, experiments, id, observed, p, poll.second);
    EvolvedFurther(a, p, observed, p, LocalCollected(observed, poll.second, Taken(poll.second, experiments)), p);
    LogKept(observed, CollectionFailed, poll.query.at);
  }

  lemma {:induction false} LocalWaitKeeps(rows: map<AttemptId, Attempt>, experiments: set<ExperimentId>, id: AttemptId,
                                          a: Attempt, p: Place, polls: seq<Poll>)
    requires id in rows && Sound(a, p) && p.Local?
    ensures
      var b := LocalWaited(a, polls, experiments);
      Sound(b, p) && Evolved(a, p, b, p) && Fresh(rows, experiments, id, a, b) && b.job == a.job
    decreases |polls|
  {
    if polls != [] {
      var (b, ends) := Polled(a, polls[0], experiments);
      PolledKeeps(rows, experiments, id, a, p, polls[0]);
      if !ends {
        LocalWaitKeeps(rows, experiments, id, b, p, polls[1..]);
        EvolvedFurther(a, p, b, p, LocalWaited(b, polls[1..], experiments), p);
      }
    }
  }

  lemma LocalCancelKeeps(a: Attempt, p: Place, c: LocalCancel)
    requires Sound(a, p) && p.Local?
    ensures
      var b := LocalCancelled(a, c);
      Sound(b, p) && Evolved(a, p, b, p) && b.job == a.job && b.experiment == a.experiment
  {
    LogKept(a, CancellationRequested, c.at);
    var requested := Noted(a, CancellationRequested, c.at);
    LogKept(requested, CancellationRejected, c.at);
    LogKept(requested, CancellationFailed, c.at);
    LogKept(requested, CancelledState, c.at);
  }

  // ---- what a controller that dies in the middle keeps ----

  ghost predicate Keeps(rows: map<AttemptId, Attempt>, experiments: set<ExperimentId>, id: AttemptId,
                        a: Attempt, p: Place, b: Attempt, q: Place)
    requires id in rows
  {
    Sound(b, q) && Evolved(a, p, b, q) && Fresh(rows, experiments, id, a, b)
  }

  ghost predicate SitesKeep(rows: map<AttemptId, Attempt>, experiments: set<ExperimentId>, id: AttemptId,
                            a: Attempt, p: Place, sites: seq<Site>)
    requires id in rows
  {
    forall k | 0 <= k < |sites| :: Keeps(rows, experiments, id, a, p, sites[k].attempt, Remote(sites[k].world))
  }

  ghost predicate LocalsKeep(rows: map<AttemptId, Attempt>, experiments: set<ExperimentId>, id: AttemptId,
                             a: Attempt, p: Place, ms: seq<LocalMoment>)
    requires id in rows
  {
    forall k | 0 <= k < |ms| :: Keeps(rows, experiments, id, a, p, ms[k].attempt, p)
  }

  lemma KeepsFurther(rows: map<AttemptId, Attempt>, experiments: set<ExperimentId>, id: AttemptId,
                     a: Attempt, p: Place, b: Attempt, q: Place, c: Attempt, r: Place)
    requires id in rows && Keeps(rows, experiments, id, a, p, b, q) && Keeps(rows, experiments, id, b, q, c, r)
    ensures Keeps(rows, experiments, id, a, p, c, r)
  {
    EvolvedFurther(a, p, b, q, c, r);
  }

  lemma RecordMomentsKeep(rows: map<AttemptId, Attempt>, experiments: set<ExperimentId>, id: AttemptId,
                          a: Attempt, p: Place, world: World, reply: Reply, at: int)
    requires id in rows && Sound(a, p) && p.Remote? && Consistent(world)
    requires Accepted(Remote(world)) == Accepted(p) && JobAt(Remote(world)) == JobAt(p)
    requires reply.Reply? && reply.state.jobId == JobAt(p) && (reply.observed.Some? <==> reply.state.jobId.Some?)
    ensures
      var jobTaken := reply.state.jobId.Some? && JobTaken(rows, id, reply.state.jobId.value);
      SitesKeep(rows, experiments, id, a, p, RecordMoments(a, world, reply, jobTaken, at))
  {
    var jobTaken := reply.state.jobId.Some? && JobTaken(rows, id, reply.state.jobId.value);
    if reply.observed.Some? && (a.job.Some? || !jobTaken) {
      RecordedKeeps(rows, experiments, id, a, p, world, reply, at);
    }
  }

  /** The attempt after each single step of recording a known job. */
  lemma RecordedKeeps(rows: map<AttemptId, Attempt>, experiments: set<ExperimentId>, id: AttemptId,
                      a: Attempt, p: Place, world: World, reply: Reply, at: int)
    requires id in rows && Sound(a, p) && p.Remote? && Consistent(world)
    requires Accepted(Remote(world)) == Accepted(p) && JobAt(Remote(world)) == JobAt(p)
    requires reply.Reply? && reply.state.jobId == JobAt(p) && reply.observed.Some? && reply.state.jobId.Some?
    requires a.job.Some? || !JobTaken(rows, id, reply.state.jobId.value)
    ensures
      var q, b := Remote(world), a.(job := reply.state.jobId);
      var known := if a.job.None? then Updated(b, ObservedName(reply.observed.value), at) else a;
      var noted := Noted(known, RemoteReconciled, at);
      && (a.job.None? ==> Keeps(rows, experiments, id, a, p, b, q)) && Keeps(rows, experiments, id, a, p, known, q)
      && Keeps(rows, experiments, id, a, p, noted, q)
      && Keeps(rows, experiments, id, a, p, noted.(remote := Some(RemoteRecord(reply.state.jobId, reply.observed))), q)
  {
    var q, b := Remote(world), a.(job := reply.state.jobId);
    var known := if a.job.None? then Updated(b, ObservedName(reply.observed.value), at) else a;
    LogKept(b, ObservedName(reply.observed.value), at);
    assert Keeps(rows, experiments, id, a, p, known, q);
    LogKept(known, RemoteReconciled, at);
    NotedKeeps(rows, experiments, id, known, q, at, Some(RemoteRecord(reply.state.jobId, reply.observed)));
    var noted := Noted(known, RemoteReconciled, at);
    KeepsFurther(rows, experiments, id, a, p, known, q, noted, q);
    KeepsFurther(rows, experiments, id, a, p, known, q,
                 noted.(remote := Some(RemoteRecord(reply.state.jobId, reply.observed))), q);
  }

  lemma NotedKeeps(rows: map<AttemptId, Attempt>, experiments: set<ExperimentId>, id: AttemptId,
                   a: Attempt, p: Place, at: int, mirror: Option<RemoteRecord>)
    requires id in rows && Sound(a, p) && p.Remote? && a.job.Some?
    ensures Keeps(rows, experiments, id, a, p, Noted(a, RemoteReconciled, at), p)
    ensures Keeps(rows, experiments, id, a, p, Noted(a, RemoteReconciled, at).(remote := mirror), p)
  {
    LogKept(a, RemoteReconciled, at);
  }

  /** A reconcile reply observes the job exactly when the worker knows one. */
  lemma ReplyObserves(w: World, c: CollectScript)
    requires CallReply(w, ReconcileRequest(c.scheduler, c.result), c.call).Some?
    ensures
      var reply := CallReply(w, ReconcileRequest(c.scheduler, c.result), c.call).value;
      reply.Reply? && reply.state.jobId == JobAt(Remote(w)) && (reply.observed.Some? <==> reply.state.jobId.Some?)
  {
  }

  lemma CollectMomentsKeep(rows: map<AttemptId, Attempt>, experiments: set<ExperimentId>, id: AttemptId,
                           a: Attempt, w: World, c: CollectScript)
    requires id in rows && Sound(a, Remote(w))
    ensures SitesKeep(rows, experiments, id, a, Remote(w),
                      CollectMoments(Site(a, w), c, HeldElsewhere(rows, id, w), ExperimentTaken(c, experiments)))
  {
    var request := ReconcileRequest(c.scheduler, c.result);
    QuietCalls(w, request, c.call);
    if CallReply(w, request, c.call).Some? {
      ReplyObserves(w, c);
      RecordMomentsKeep(rows, experiments, id, a, Remote(w), CallWorld(w, request, c.call),
                        CallReply(w, request, c.call).value, c.at);
    }
    CollectedKeeps(rows, experiments, id, a, w, c);
  }

  /** Whenever a controller dies while waiting, the attempt it leaves is sound and
      nothing was undone. */
  lemma {:induction false} WaitMomentsKeep(rows: map<AttemptId, Attempt>, experiments: set<ExperimentId>, id: AttemptId,
                                           a: Attempt, w: World, polls: seq<CollectScript>)
    requires id in rows && Sound(a, Remote(w))
    ensures SitesKeep(rows, experiments, id, a, Remote(w), WaitMoments(Site(a, w), id, polls, rows, experiments))
    decreases |polls|
  {
    if polls != [] {
      var c := polls[0];
      var (next, ends) := PolledOnce(Site(a, w), c, id, rows, experiments);
      CollectMomentsKeep(rows, experiments, id, a, w, c);
      WaitedKeeps(rows, experiments, id, a, w, [c]);
      OnePoll(Site(a, w), c, id, rows, experiments);
      assert Keeps(rows, experiments, id, a, Remote(w), next.attempt, Remote(next.world));
      if !ends {
        WaitMomentsKeep(rows, experiments, id, next.attempt, next.world, polls[1..]);
        var later := WaitMoments(next, id, polls[1..], rows, experiments);
        forall k | 0 <= k < |later|
          ensures Keeps(rows, experiments, id, a, Remote(w), later[k].attempt, Remote(later[k].world))
        {
          KeepsFurther(rows, experiments, id, a, Remote(w), next.attempt, Remote(next.world),
                       later[k].attempt, Remote(later[k].world));
        }
      }
    }
  }

  lemma OnePoll(site: Site, c: CollectScript, id: AttemptId, rows: map<AttemptId, Attempt>,
                experiments: set<ExperimentId>)
    requires id in rows
    ensures Waited(site, id, [c], rows, experiments) == PolledOnce(site, c, id, rows, experiments).0
  {
    var next := PolledOnce(site, c, id, rows, experiments).0;
    assert [c][1..] == [] && Waited(next, id, [], rows, experiments) == next;
  }

  lemma CancelMomentsKeep(rows: map<AttemptId, Attempt>, experiments: set<ExperimentId>, id: AttemptId,
                          a: Attempt, w: World, c: CancelScript)
    requires id in rows && Sound(a, Remote(w))
    ensures SitesKeep(rows, experiments, id, a, Remote(w), CancelMoments(Site(a, w), c))
  {
    QuietCalls(w, CancelRequest(c.executable, c.succeeds), c.call);
    LogKept(a, CancelledState, c.at);
    CancelKeeps(a, w, c);
  }

  lemma ImportMomentsKeep(rows: map<AttemptId, Attempt>, experiments: set<ExperimentId>, id: AttemptId,
                          a: Attempt, p: Place, b: Attempt, c: ResultRead)
    requires id in rows && p.Local? && Sound(b, p) && Keeps(rows, experiments, id, a, p, b, p)
    ensures LocalsKeep(rows, experiments, id, a, p, ImportMoments(b, c, Taken(c, experiments)))
  {
    LocalCollectKeeps(rows, experiments, id, b, p, c);
    KeepsFurther(rows, experiments, id, a, p, b, p, LocalCollected(b, c, Taken(c, experiments)), p);
  }

  lemma LocalPollMomentsKeep(rows: map<AttemptId, Attempt>, experiments: set<ExperimentId>, id: AttemptId,
                             a: Attempt, p: Place, poll: Poll)
    requires id in rows && Sound(a, p) && p.Local?
    ensures LocalsKeep(rows, experiments, id, a, p, LocalPollMoments(a, poll, experiments))
  {
    var observed := LocalObserved(a, poll.query);
    ObservedKeeps(a, p, poll.query);
    ImportMomentsKeep(rows, experiments, id, a, p, a, poll.first);
    ImportMomentsKeep(rows, experiments, id, a, p, observed, poll.second);
    LogKept(observed, CollectionFailed, poll.query.at);
  }

  /** The same for waiting on the local scheduler. */
  lemma {:induction false} LocalWaitMomentsKeep(rows: map<AttemptId, Attempt>, experiments: set<ExperimentId>,
                                                id: AttemptId, a: Attempt, p: Place, polls: seq<Poll>)
    requires id in rows && Sound(a, p) && p.Local?
    ensures LocalsKeep(rows, experiments, id, a, p, LocalWaitMoments(a, polls, experiments))
    decreases |polls|
  {
    if polls != [] {
      var (b, ends) := Polled(a, polls[0], experiments);
      PolledKeeps(rows, experiments, id, a, p, polls[0]);
      LocalPollMomentsKeep(rows, experiments, id, a, p, polls[0]);
      if !ends {
        LocalWaitMomentsKeep(rows, experiments, id, b, p, polls[1..]);
        var later := LocalWaitMoments(b, polls[1..], experiments);
        forall k | 0 <= k < |later| ensures Keeps(rows, experiments, id, a, p, later[k].attempt, p) {
          KeepsFurther(rows, experiments, id, a, p, b, p, later[k].attempt, p);
        }
      }
    }
  }

  lemma LocalCancelMomentsKeep(rows: map<AttemptId, Attempt>, experiments: set<ExperimentId>, id: AttemptId,
                               a: Attempt, p: Place, c: LocalCancel)
    requires id in rows && Sound(a, p) && p.Local?
    ensures LocalsKeep(rows, experiments, id, a, p, LocalCancelMoments(a, c))
  {
    LogKept(a, CancellationRequested, c.at);
    LocalCancelKeeps(a, p, c);
  }
}
