/** What holds after every history of executions, and exactly when an accepted
    submission escapes the store. Each remote machine serves one operation at a
    time; workers and controllers may die after any of their durable steps. */
module ExecutionHistories {
  import opened Prelude
  import opened Schedulers
  import opened RemoteWorkers
  import opened ExecutionStores
  import opened RemoteSubmission
  import opened LocalSubmission
  import opened ExecutionRuns

  datatype System = System(
    rows: map<AttemptId, Attempt>, places: map<AttemptId, Place>, experiments: set<ExperimentId>)

  const EMPTY := System(map[], map[], {})

  /** An operation, and after which of its durable steps the controller dies; one
      that dies later than the last step has finished. */
  datatype Op =
    | Execute(id: AttemptId, plan: PlanId, family: Family, at: int, how: How, dies: Option<nat>)
    | Collect(id: AttemptId, collect: CollectScript, dies: Option<nat>)
    | Wait(id: AttemptId, polls: seq<CollectScript>, dies: Option<nat>)
    | Cancel(id: AttemptId, cancel: CancelScript, dies: Option<nat>)
    | CollectLocally(id: AttemptId, read: ResultRead, dies: Option<nat>)
    | WaitLocally(id: AttemptId, localPolls: seq<Poll>, dies: Option<nat>)
    | ObserveLocally(id: AttemptId, query: Query, dies: Option<nat>)
    | CancelLocally(id: AttemptId, localCancel: LocalCancel, dies: Option<nat>)

  function Reached(moments: seq<Moment>, dies: Option<nat>, finished: Moment): Moment {
    if dies.Some? && dies.value < |moments| then moments[dies.value] else finished
  }

  ghost predicate Starts(sys: System, op: Op) {
    op.Execute? && op.id !in sys.rows && !Locked(sys.rows, op.plan)
  }

  function Begun(sys: System, op: Op): map<AttemptId, Attempt>
    requires op.Execute?
  {
    sys.rows[op.id := Began(op.plan, op.family, op.at)]
  }

  /** What an execution that starts leaves. */
  function Started(sys: System, op: Op): Moment
    requires op.Execute?
  {
    var (a, p, _) := Performed(Begun(sys, op), op.id, op.how);
    Reached(PlanMoments(sys.rows, op.id, op.plan, op.family, op.at, op.how), op.dies, Moment(a, p))
  }

  /** What an operation other than execute makes of its attempt and place when it
      finishes; one meant for the other kind of place changes nothing. */
  function Finished(sys: System, op: Op): Moment
    requires !op.Execute? && op.id in sys.rows && op.id in sys.places
  {
    var a, p := sys.rows[op.id], sys.places[op.id];
    match op
    case Collect(id, c, _) =>
      if p.Local? then Moment(a, p)
      else
        FromSite(Collected(Site(a, p.world), c, HeldElsewhere(sys.rows, id, p.world),
                           ExperimentTaken(c, sys.experiments)))
    case Wait(id, polls, _) =>
      if p.Local? then Moment(a, p) else FromSite(Waited(Site(a, p.world), id, polls, sys.rows, sys.experiments))
    case Cancel(_, c, _) => if p.Local? then Moment(a, p) else FromSite(CancelRequested(Site(a, p.world), c))
    case CollectLocally(_, c, _) =>
      Moment(if p.Remote? then a else LocalCollected(a, c, Taken(c, sys.experiments)), p)
    case WaitLocally(_, polls, _) => Moment(if p.Remote? then a else LocalWaited(a, polls, sys.experiments), p)
    case ObserveLocally(_, q, _) => Moment(if p.Remote? then a else LocalObserved(a, q), p)
    case CancelLocally(_, c, _) => Moment(if p.Remote? then a else LocalCancelled(a, c), p)
  }

  function FromSite(site: Site): Moment {
    Moment(site.attempt, Remote(site.world))
  }

  function AtPlace(ms: seq<LocalMoment>, p: Place): (r: seq<Moment>)
    ensures |r| == |ms| && forall k | 0 <= k < |r| :: r[k] == Moment(ms[k].attempt, p)
  {
    seq(|ms|, k requires 0 <= k < |ms| => Moment(ms[k].attempt, p))
  }

  /** What each of its durable steps leaves. */
  function Steps(sys: System, op: Op): seq<Moment>
    requires !op.Execute? && op.id in sys.rows && op.id in sys.places
  {
    var a, p := sys.rows[op.id], sys.places[op.id];
    match op
    case Collect(id, c, _) =>
      if p.Local? then []
      else
        FromSites(CollectMoments(Site(a, p.world), c, HeldElsewhere(sys.rows, id, p.world),
                                 ExperimentTaken(c, sys.experiments)))
    case Wait(id, polls, _) =>
      if p.Local? then [] else FromSites(WaitMoments(Site(a, p.world), id, polls, sys.rows, sys.experiments))
    case Cancel(_, c, _) => if p.Local? then [] else FromSites(CancelMoments(Site(a, p.world), c))
    case CollectLocally(_, c, _) =>
      if p.Remote? then [] else AtPlace(ImportMoments(a, c, Taken(c, sys.experiments)), p)
    case WaitLocally(_, polls, _) => if p.Remote? then [] else AtPlace(LocalWaitMoments(a, polls, sys.experiments), p)
    case ObserveLocally(_, q, _) => if p.Remote? then [] else AtPlace(ObserveMoments(a, q), p)
    case CancelLocally(_, c, _) => if p.Remote? then [] else AtPlace(LocalCancelMoments(a, c), p)
  }

  function Touched(sys: System, op: Op): Moment
    requires !op.Execute? && op.id in sys.rows && op.id in sys.places
  {
    Reached(Steps(sys, op), op.dies, Finished(sys, op))
  }

  function Linked(a: Attempt): set<ExperimentId> {
    if a.experiment.Some? then {a.experiment.value} else {}
  }

  function Put(sys: System, id: AttemptId, m: Moment): System {
    System(sys.rows[id := m.attempt], sys.places[id := m.place], sys.experiments + Linked(m.attempt))
  }

  ghost function Next(sys: System, op: Op): System {
    if Starts(sys, op) then Put(sys, op.id, Started(sys, op))
    else if !op.Execute? && op.id in sys.rows && op.id in sys.places then Put(sys, op.id, Touched(sys, op))
    else sys
  }

  ghost function Run(sys: System, ops: seq<Op>): System {
    if ops == [] then sys else Next(Run(sys, ops[..|ops| - 1]), ops[|ops| - 1])
  }

  // ---- invariants of all runs ----

  ghost predicate AllSound(sys: System) {
    && sys.rows.Keys == sys.places.Keys
    && forall id | id in sys.rows :: Sound(sys.rows[id], sys.places[id])
  }

  /** No job and no experiment belongs to two attempts. */
  ghost predicate JobsAreOwned(rows: map<AttemptId, Attempt>) {
    forall i, j | i in rows && j in rows && i != j && rows[i].family == rows[j].family && rows[i].job.Some? ::
      rows[i].job != rows[j].job
  }

  ghost predicate ExperimentsAreOwned(sys: System) {
    && (forall i | i in sys.rows && sys.rows[i].experiment.Some? :: sys.rows[i].experiment.value in sys.experiments)
    && (forall i, j | i in sys.rows && j in sys.rows && i != j && sys.rows[i].experiment.Some? ::
          sys.rows[i].experiment != sys.rows[j].experiment)
  }

  ghost predicate Inv(sys: System) {
    AllSound(sys) && JobsAreOwned(sys.rows) && ExperimentsAreOwned(sys)
  }

  lemma FinishedKeeps(sys: System, op: Op)
    requires AllSound(sys) && !op.Execute? && op.id in sys.rows
    ensures
      var m := Finished(sys, op);
      Keeps(sys.rows, sys.experiments, op.id, sys.rows[op.id], sys.places[op.id], m.attempt, m.place)
  {
    var a, p := sys.rows[op.id], sys.places[op.id];
    assert Sound(a, p);
    match op
    case Collect(id, c, _) => if p.Remote? { CollectedKeeps(sys.rows, sys.experiments, id, a, p.world, c); }
    case Wait(id, polls, _) => if p.Remote? { WaitedKeeps(sys.rows, sys.experiments, id, a, p.world, polls); }
    case Cancel(_, c, _) => if p.Remote? { CancelKeeps(a, p.world, c); }
    case CollectLocally(id, c, _) => if p.Local? { LocalCollectKeeps(sys.rows, sys.experiments, id, a, p, c); }
    case WaitLocally(id, polls, _) => if p.Local? { LocalWaitKeeps(sys.rows, sys.experiments, id, a, p, polls); }
    case ObserveLocally(_, q, _) => if p.Local? { ObservedKeeps(a, p, q); }
    case CancelLocally(_, c, _) => if p.Local? { LocalCancelKeeps(a, p, c); }
  }

  lemma StepsKeep(sys: System, op: Op, k: nat)
    requires AllSound(sys) && !op.Execute? && op.id in sys.rows && k < |Steps(sys, op)|
    ensures
      var m := Steps(sys, op)[k];
      Keeps(sys.rows, sys.experiments, op.id, sys.rows[op.id], sys.places[op.id], m.attempt, m.place)
  {
    var a, p := sys.rows[op.id], sys.places[op.id];
    assert Sound(a, p);
    match op
    case Collect(id, c, _) => CollectMomentsKeep(sys.rows, sys.experiments, id, a, p.world, c);
    case Wait(id, polls, _) => WaitMomentsKeep(sys.rows, sys.experiments, id, a, p.world, polls);
    case Cancel(id, c, _) => CancelMomentsKeep(sys.rows, sys.experiments, id, a, p.world, c);
    case CollectLocally(id, c, _) => LocalCollectKeeps(sys.rows, sys.experiments, id, a, p, c);
    case WaitLocally(id, polls, _) => LocalWaitMomentsKeep(sys.rows, sys.experiments, id, a, p, polls);
    case ObserveLocally(_, q, _) => ObservedKeeps(a, p, q);
    case CancelLocally(id, c, _) => LocalCancelMomentsKeep(sys.rows, sys.experiments, id, a, p, c);
  }

  /** Every operation on an attempt, finished or cut short, lets it evolve. */
  lemma TouchedKeeps(sys: System, op: Op)
    requires AllSound(sys) && !op.Execute? && op.id in sys.rows
    ensures
      var m := Touched(sys, op);
      Keeps(sys.rows, sys.experiments, op.id, sys.rows[op.id], sys.places[op.id], m.attempt, m.place)
  {
    if op.dies.Some? && op.dies.value < |Steps(sys, op)| {
      StepsKeep(sys, op, op.dies.value);
    } else {
      FinishedKeeps(sys, op);
    }
  }

  lemma PutKeepsInv(sys: System, id: AttemptId, m: Moment)
    requires Inv(sys) && Sound(m.attempt, m.place)
    requires id in sys.rows ==>
      m.attempt.family == sys.rows[id].family
      && (sys.rows[id].job.Some? ==> m.attempt.job == sys.rows[id].job)
      && (sys.rows[id].experiment.Some? ==> m.attempt.experiment == sys.rows[id].experiment)
    requires m.attempt.job.Some? && (id !in sys.rows || sys.rows[id].job.None?) ==>
      forall j | j in sys.rows && j != id && sys.rows[j].family == m.attempt.family :: sys.rows[j].job != m.attempt.job
    requires m.attempt.experiment.Some? && (id !in sys.rows || sys.rows[id].experiment.None?) ==>
      m.attempt.experiment.value !in sys.experiments
    ensures Inv(Put(sys, id, m))
  {
  }

  // ---- execute ----

  /** Whether the scheduler is invoked at all. */
  predicate Invoked(s: ExecuteScript) {
    && s.reachesPrepare && s.prepare.delivered && s.prepare.survives >= 2 && s.prepare.replyArrives && s.uploadsFinish
    && StagedAsExpected(UNTOUCHED.(files := s.uploaded, variant := s.uploadedVariant), s.intent)
    && s.executable && s.submit.delivered && s.submit.survives >= 2
  }

  /** The ways an accepted submission is lost: the worker durably knows the job,
      but its submit reply, or else its reconcile reply, is not recorded. A
      recovery reply is refused for a result file that is too large or corrupt;
      an established identity is refused when another attempt holds the job. */
  predicate Lost(s: ExecuteScript, taken: bool) {
    && s.answer.AcceptedAs? && s.submit.survives >= 3
    && if s.submit.replyArrives then taken
       else s.reconcile.delivered && s.reconcile.replyArrives
            && (s.result in {Oversized, Corrupt} || (taken && (s.result == Bundle || s.scheduler != Unseen)))
  }

  predicate LostLocally(family: Family, s: LocalScript, taken: bool) {
    (s.answer.AcceptedUnparsed? && family != Lsf) || (s.answer.AcceptedAs? && taken)
  }

  /** Steps 0 to 5 of executing remotely create the row, note the identity, prepare,
      record that, mirror it and upload; step 6 is the submit call. */
  const SUBMIT_STEP := 6

  /** The first step that records the reply; a lost reply costs a recovery call. */
  function RecordStep(s: ExecuteScript): nat {
    if s.submit.survives >= 3 && s.submit.replyArrives then SUBMIT_STEP + 1 else SUBMIT_STEP + 2
  }

  /** Locally, step 3 runs the submit command and step 4 records its answer. */
  const LOCAL_SUBMIT_STEP := 3

  predicate DiesBefore(dies: Option<nat>, step: nat) {
    dies.Some? && dies.value < step
  }

  /** An accepted submission escapes when the scheduler was asked and the controller
      died before recording the answer, or the acceptance was lost. */
  predicate Escapes(s: ExecuteScript, taken: bool, dies: Option<nat>) {
    Invoked(s) && WasAccepted(s.answer) && !DiesBefore(dies, SUBMIT_STEP)
    && (DiesBefore(dies, RecordStep(s)) || Lost(s, taken))
  }

  predicate EscapesLocally(family: Family, s: LocalScript, taken: bool, dies: Option<nat>) {
    Asks(s) && WasAccepted(s.answer) && !DiesBefore(dies, LOCAL_SUBMIT_STEP)
    && (DiesBefore(dies, LOCAL_SUBMIT_STEP + 1) || LostLocally(family, s, taken))
  }

  predicate Unsafe(sys: System, op: Op)
    requires op.Execute?
  {
    match op.how
    case Remotely(s) => Escapes(s, Clashes(Begun(sys, op), op.id, s.answer), op.dies)
    case Locally(s) => EscapesLocally(op.family, s, Clashes(Begun(sys, op), op.id, s.answer), op.dies)
  }

  /** A reply that leaves submission truth open, ... */
  predicate Unclear(reply: Option<Reply>) {
    reply.None? || reply.value.WorkerError? || reply.value.status in {AmbiguousStatus, UnknownStatus}
  }

  /** ... and one that denies it. */
  predicate Refused(reply: Option<Reply>) {
    !Unclear(reply) && (reply.value.status != Ok || reply.value.state.jobId.None?)
  }

  predicate UnclearLocally(family: Family, s: LocalScript) {
    Asks(s) && (s.answer.TimedOut? || (s.answer.AcceptedUnparsed? && family == Lsf))
  }

  predicate ReachesSubmit(s: ExecuteScript) {
    s.reachesPrepare && CallReply(UNTOUCHED, PrepareRequest(s.intent), s.prepare).Some? && s.uploadsFinish
  }

  /** The remote world as preparing and uploading leave it. */
  function Staged(s: ExecuteScript): World {
    CallWorld(UNTOUCHED, PrepareRequest(s.intent), s.prepare).(files := s.uploaded, variant := s.uploadedVariant)
  }

  lemma PreparedWorld(s: ExecuteScript)
    ensures
      var w := CallWorld(UNTOUCHED, PrepareRequest(s.intent), s.prepare);
      && w.calls == [] && w.files == map[] && w.variant == None
      && (w.state.Some? ==> w.state == Some(Durable(Prepared, s.intent, None)))
      && (CallReply(UNTOUCHED, PrepareRequest(s.intent), s.prepare).Some? <==>
            s.prepare.delivered && s.prepare.survives >= 2 && s.prepare.replyArrives)
      && (s.prepare.delivered && s.prepare.survives >= 2 ==> w.state.Some?)
  {
    Survivors(UNTOUCHED, Plan(UNTOUCHED, PrepareRequest(s.intent)).0, s.prepare.survives);
  }

  /** The world after submit, in terms of the answer. */
  lemma SubmittedWorld(w: World, s: ExecuteScript)
    requires w.state == Some(Durable(Prepared, s.intent, None)) && w.calls == []
    ensures
      var request := SubmitRequest(s.executable, s.answer);
      var after, reply := CallWorld(w, request, s.submit), CallReply(w, request, s.submit);
      var invoked := StagedAsExpected(w, s.intent) && s.executable && s.submit.delivered && s.submit.survives >= 2;
      && Consistent(after)
      && (after.calls != [] <==> invoked)
      && (invoked ==> after.calls[0].answer == s.answer)
      && (invoked ==> after.state == Some(if s.submit.survives >= 3 then Answered(w.state.value, s.answer)
                                          else w.state.value.(phase := Submitting)))
      && (!invoked ==> after.state.Some? && after.state.value.jobId.None?)
      && (invoked ==> reply == if s.submit.survives >= 3 && s.submit.replyArrives
                               then Some(Plain(AnswerStatus(s.answer), Answered(w.state.value, s.answer))) else None)
      && (!invoked && reply.Some? ==> reply.value.state.jobId.None? && reply.value.observed.None?)
  {
    var request := SubmitRequest(s.executable, s.answer);
    Survivors(w, Plan(w, request).0, s.submit.survives);
    StepKeepsConsistency(w, Operation(request, s.submit.survives));
  }

  /** What a concluded submission establishes, whatever the reply. */
  lemma ConcludedIsSound(a: Attempt, reply: Option<Reply>, taken: bool, at: int, p: Place)
    requires Sound(a, p) && a.job.None? && !a.imported && a.state == PreparedState && p.Remote?
    requires reply.Some? && reply.value.Reply? && reply.value.state.jobId.Some? ==> reply.value.state.jobId == JobAt(p)
    requires reply.Some? && reply.value.Reply? && reply.value.observed.Some? ==> reply.value.state.jobId.Some?
    ensures
      var (b, raised) := Concluded(a, reply, taken, at);
      && Sound(Mapped(b, raised, at), p)
      && b.experiment == a.experiment && !b.imported
      && (b.job.Some? ==> !taken)
      && (b.state == SubmissionAmbiguous <==>
            reply.None? || reply.value.WorkerError? || reply.value.status in {AmbiguousStatus, UnknownStatus})
  {
    if Unclear(reply) {
      LogKept(a, SubmissionAmbiguous, at);
    } else if Refused(reply) || taken {
      LogKept(a, FailedState, at);
    } else {
      LogKept(a.(job := reply.value.state.jobId), SubmittedState, at);
    }
  }

  /** Submission as a whole: the world it leaves and the reply the controller has
      in the end. */
  lemma SubmissionOutcome(w: World, s: ExecuteScript)
    requires w.state == Some(Durable(Prepared, s.intent, None)) && w.calls == []
    ensures
      var invoked := StagedAsExpected(w, s.intent) && s.executable && s.submit.delivered && s.submit.survives >= 2;
      var p, reply := Remote(SubmissionWorld(w, s)), SubmissionReply(w, s);
      && SoundPlace(p)
      && (Accepted(p) <==> invoked && WasAccepted(s.answer))
      && (reply.Some? && reply.value.Reply? && reply.value.state.jobId.Some? ==> reply.value.state.jobId == JobAt(p))
      && (reply.Some? && reply.value.Reply? && reply.value.observed.Some? ==> reply.value.state.jobId.Some?)
      && (invoked && (!s.answer.AcceptedAs? || s.submit.survives < 3) && WasAccepted(s.answer) ==>
            reply.None? || reply.value.status == AmbiguousStatus)
      && (invoked && s.answer.AcceptedAs? && s.submit.survives >= 3 ==> JobAt(p) == Some(s.answer.id))
      && (JobAt(p).Some? ==> s.answer == AcceptedAs(JobAt(p).value))
      && (invoked && s.answer.AcceptedAs? && s.submit.survives >= 3 && s.submit.replyArrives ==>
            reply == Some(Plain(Ok, Answered(w.state.value, s.answer))))
      && (invoked && s.answer.AcceptedAs? && s.submit.survives >= 3 && !s.submit.replyArrives ==>
            if s.reconcile.delivered && s.reconcile.replyArrives then
              reply.Some? && reply.value.Reply? && reply.value.state.jobId == Some(s.answer.id)
              && reply.value.status == match s.result
                   case Oversized => Unavailable
                   case Corrupt => FailedStatus
                   case Bundle => Ok
                   case Absent => if s.scheduler == Unseen then UnknownStatus else Ok
            else reply.None?)
  {
    SubmittedWorld(w, s);
    var after := CallWorld(w, SubmitRequest(s.executable, s.answer), s.submit);
    QuietCalls(after, ReconcileRequest(s.scheduler, s.result), s.reconcile);
    ReplyShowsWorld(after, s.scheduler, s.result, s.reconcile);
  }

  /** Submitting a prepared attempt leaves it sound, and blind exactly when the
      scheduler is invoked and its acceptance lost. */
  lemma SubmittedExecution(ready: Attempt, w: World, s: ExecuteScript, taken: bool)
    requires ready.state == PreparedState && ready.job.None? && !ready.imported && ready.experiment.None?
    requires ready.remote == Some(RemoteRecord(None, None)) && LogRefines(ready)
    requires w.state == Some(Durable(Prepared, s.intent, None)) && w.calls == []
    ensures
      var (b, raised) := Concluded(ready, SubmissionReply(w, s), taken, s.at);
      var a, p := Mapped(b, raised, s.at), Remote(SubmissionWorld(w, s));
      && Sound(a, p) && (a.plan, a.family, a.createdAt) == (ready.plan, ready.family, ready.createdAt)
      && a.experiment.None? && !a.imported
      && (a.job.Some? ==> !taken && s.answer == AcceptedAs(a.job.value))
      && (Blind(a, p) <==>
            StagedAsExpected(w, s.intent) && s.executable && s.submit.delivered && s.submit.survives >= 2
            && Lost(s, taken))
      && (a.state == SubmissionAmbiguous <==> Unclear(SubmissionReply(w, s)))
  {
    var reply, p := SubmissionReply(w, s), Remote(SubmissionWorld(w, s));
    SubmissionOutcome(w, s);
    ConcludedIsSound(ready, reply, taken, s.at, p);
  }

  /** A submission that stops short of submitting fails, and asks for nothing. */
  lemma AbandonedExecution(a: Attempt, w: World, at: int)
    requires Sound(a, Remote(w)) && w.calls == [] && a.job.None? && !a.imported
    requires a.state in {Planned, PreparedState}
    ensures Sound(Mapped(a, true, at), Remote(w)) && !Blind(Mapped(a, true, at), Remote(w))
  {
    LogKept(a, FailedState, at);
  }

  /** What the worker has once submitting is reached. */
  lemma StagedWorld(s: ExecuteScript)
    requires ReachesSubmit(s)
    ensures Staged(s).state == Some(Durable(Prepared, s.intent, None)) && Staged(s).calls == []
    ensures Invoked(s) <==>
      StagedAsExpected(Staged(s), s.intent) && s.executable && s.submit.delivered && s.submit.survives >= 2
  {
    PreparedWorld(s);
  }

  /** An execution that does not get as far as submitting. */
  lemma ShortExecution(plan: PlanId, family: Family, at: int, s: ExecuteScript, taken: bool)
    requires !ReachesSubmit(s)
    ensures
      var (site, raised) := Executed(Began(plan, family, at), UNTOUCHED, s, taken);
      var a, p := Mapped(site.attempt, raised, s.at), Remote(site.world);
      && Sound(a, p) && !Blind(a, p)
      && (site.attempt == Began(plan, family, at) || site.attempt == Ready(Began(plan, family, at), s.at))
      && raised && !Invoked(s)
  {
    var begun := Began(plan, family, at);
    BeganIsSound(plan, family, at, Remote(UNTOUCHED));
    PreparedWorld(s);
    StepKeepsConsistency(UNTOUCHED, Operation(PrepareRequest(s.intent), s.prepare.survives));
    if !s.reachesPrepare {
      AbandonedExecution(begun, UNTOUCHED, s.at);
    } else if CallReply(UNTOUCHED, PrepareRequest(s.intent), s.prepare).None? {
      AbandonedExecution(begun, CallWorld(UNTOUCHED, PrepareRequest(s.intent), s.prepare), s.at);
    } else {
      LogKept(begun, PreparedState, s.at);
      AbandonedExecution(Ready(begun, s.at), Staged(s), s.at);
    }
  }

  /** A remote execution leaves a sound attempt, and a blind one exactly when the
      accepted submission escapes. */
  lemma RemoteExecution(plan: PlanId, family: Family, at: int, s: ExecuteScript, taken: bool)
    ensures
      var (site, raised) := Executed(Began(plan, family, at), UNTOUCHED, s, taken);
      var a, p := Mapped(site.attempt, raised, s.at), Remote(site.world);
      && Sound(a, p) && (a.plan, a.family, a.createdAt) == (plan, family, at)
      && a.experiment.None? && !a.imported
      && (a.job.Some? ==> !taken && s.answer == AcceptedAs(a.job.value))
      && (Blind(a, p) <==> Escapes(s, taken, None))
      && (a.state == SubmissionAmbiguous <==> ReachesSubmit(s) && Unclear(SubmissionReply(Staged(s), s)))
  {
    if ReachesSubmit(s) {
      StagedWorld(s);
      ReadyIsPrepared(plan, family, at, s.at);
      SubmittedExecution(Ready(Began(plan, family, at), s.at), Staged(s), s, taken);
    } else {
      ShortExecution(plan, family, at, s, taken);
    }
  }

  lemma BeganIsSound(plan: PlanId, family: Family, at: int, p: Place)
    requires p == Remote(UNTOUCHED) || (p.Local? && |p.answers| <= 1)
    ensures Sound(Began(plan, family, at), p)
  {
    LastStateNext([], Event(Planned, at));
    assert [] + [Event(Planned, at)] == [Event(Planned, at)];
    LogKept(Created(plan, family, at), IdentityObserved, at);
  }

  lemma LocallySubmitted(ready: Attempt, s: LocalScript, taken: bool)
    requires s.staged && ready.state == PreparedState && ready.job.None? && !ready.imported && ready.experiment.None?
    requires ready.remote.None? && LogRefines(ready)
    ensures
      var (b, raised) := LocalSubmitted(ready, s, taken);
      var a, p := Mapped(b, raised, s.at), Local(if Asks(s) then [s.answer] else []);
      && Sound(a, p) && (a.plan, a.family, a.createdAt) == (ready.plan, ready.family, ready.createdAt)
      && a.experiment.None? && !a.imported
      && (a.job.Some? ==> !taken && s.answer == AcceptedAs(a.job.value))
      && (Blind(a, p) <==> EscapesLocally(ready.family, s, taken, None))
      && (a.state == SubmissionAmbiguous <==> UnclearLocally(ready.family, s))
  {
    LogKept(ready, FailedState, s.at);
    if Asks(s) {
      match s.answer {
        case TimedOut(_) => LogKept(ready, SubmissionAmbiguous, s.at);
        case Rejected =>
        case AcceptedUnparsed => LogKept(ready, Unidentified(ready.family), s.at);
        case AcceptedAs(jobId) => LogKept(ready.(job := Some(jobId)), SubmittedState, s.at);
      }
    }
  }

  /** The same for an execution through the local scheduler. */
  lemma LocalExecution(plan: PlanId, family: Family, at: int, s: LocalScript, taken: bool)
    ensures
      var (b, raised) := LocalExecuted(Began(plan, family, at), s, taken);
      var a, p := Mapped(b, raised, s.at), Local(if Asks(s) then [s.answer] else []);
      && Sound(a, p) && (a.plan, a.family, a.createdAt) == (plan, family, at)
      && a.experiment.None? && !a.imported
      && (a.job.Some? ==> !taken && s.answer == AcceptedAs(a.job.value))
      && (Blind(a, p) <==> EscapesLocally(family, s, taken, None))
      && (a.state == SubmissionAmbiguous <==> UnclearLocally(family, s))
  {
    var begun := Began(plan, family, at);
    BeganIsSound(plan, family, at, Local(if Asks(s) then [s.answer] else []));
    if s.staged {
      LogKept(begun, PreparedState, s.at);
      LocallySubmitted(Updated(begun, PreparedState, s.at), s, taken);
    } else {
      LogKept(begun, FailedState, s.at);
    }
  }

  // ---- executions cut short ----

  /** A new attempt at some moment: sound, and with the job the answer gave it. */
  ghost predicate Made(m: Moment, a: Attempt, answer: Answer, taken: bool) {
    && Sound(m.attempt, m.place)
    && (m.attempt.plan, m.attempt.family, m.attempt.createdAt) == (a.plan, a.family, a.createdAt)
    && m.attempt.experiment.None? && !m.attempt.imported
    && (m.attempt.job.Some? ==> !taken && answer == AcceptedAs(m.attempt.job.value))
  }

  /** Each step of recording a reply. */
  lemma ConcludeMoment(a: Attempt, w: World, reply: Option<Reply>, taken: bool, s: ExecuteScript, k: nat)
    requires a.state == PreparedState && a.job.None? && !a.imported && a.experiment.None? && LogRefines(a)
    requires a.remote == Some(RemoteRecord(None, None)) && Consistent(w)
    requires reply.Some? && reply.value.Reply? && reply.value.state.jobId.Some? ==>
      reply.value.state.jobId == JobAt(Remote(w))
    requires reply.Some? && reply.value.Reply? && reply.value.observed.Some? ==> reply.value.state.jobId.Some?
    requires JobAt(Remote(w)).Some? ==> s.answer == AcceptedAs(JobAt(Remote(w)).value)
    requires k < |ConcludeMoments(a, w, reply, taken, s.at)|
    ensures
      var site := ConcludeMoments(a, w, reply, taken, s.at)[k];
      && Made(Moment(site.attempt, Remote(site.world)), a, s.answer, taken) && site.world == w
      && (Blind(site.attempt, Remote(w)) <==> Accepted(Remote(w)) && Refused(reply))
      && (site.attempt.state == SubmissionAmbiguous <==> Unclear(reply))
      && (Refused(reply) || Unclear(reply) || !taken)
  {
    LogKept(a, SubmissionAmbiguous, s.at);
    LogKept(a, FailedState, s.at);
    if !Unclear(reply) && !Refused(reply) { LogKept(a.(job := reply.value.state.jobId), SubmittedState, s.at); }
  }

  /** Each step from the submit call on: i == 0 is that call. */
  lemma SubmitMoment(ready: Attempt, w: World, s: ExecuteScript, taken: bool, i: nat)
    requires ready.state == PreparedState && ready.job.None? && !ready.imported && ready.experiment.None?
    requires ready.remote == Some(RemoteRecord(None, None)) && LogRefines(ready)
    requires w.state == Some(Durable(Prepared, s.intent, None)) && w.calls == []
    requires i < |SubmitMoments(ready, w, s, taken)|
    ensures
      var site := SubmitMoments(ready, w, s, taken)[i];
      var invoked := StagedAsExpected(w, s.intent) && s.executable && s.submit.delivered && s.submit.survives >= 2;
      && Made(Moment(site.attempt, Remote(site.world)), ready, s.answer, taken)
      && (Blind(site.attempt, Remote(site.world)) <==>
            invoked && WasAccepted(s.answer) && (SUBMIT_STEP + i < RecordStep(s) || Lost(s, taken)))
      && (site.attempt.state == SubmissionAmbiguous <==> i >= ReplySteps(w, s) && Unclear(SubmissionReply(w, s)))
  {
    var n := ReplySteps(w, s);
    if i >= n {
      SubmissionOutcome(w, s);
      SubmittedWorld(w, s);
      assert SubmitMoments(ready, w, s, taken)[i]
          == ConcludeMoments(ready, SubmissionWorld(w, s), SubmissionReply(w, s), taken, s.at)[i - n];
      ConcludeMoment(ready, SubmissionWorld(w, s), SubmissionReply(w, s), taken, s, i - n);
    } else {
      CallMoment(ready, w, s, taken, i);
    }
  }

  /** While a reply is still missing the attempt stays as prepared. */
  lemma CallMoment(ready: Attempt, w: World, s: ExecuteScript, taken: bool, i: nat)
    requires ready.state == PreparedState && ready.job.None? && !ready.imported && ready.experiment.None?
    requires ready.remote == Some(RemoteRecord(None, None)) && LogRefines(ready)
    requires w.state == Some(Durable(Prepared, s.intent, None)) && w.calls == []
    requires i < ReplySteps(w, s)
    ensures
      var site := SubmitMoments(ready, w, s, taken)[i];
      var invoked := StagedAsExpected(w, s.intent) && s.executable && s.submit.delivered && s.submit.survives >= 2;
      && site.attempt == ready && Sound(ready, Remote(site.world))
      && (Accepted(Remote(site.world)) <==> invoked && WasAccepted(s.answer))
      && (invoked ==> SUBMIT_STEP + i < RecordStep(s))
  {
    SubmittedWorld(w, s);
    if i == 1 { SubmissionOutcome(w, s); }
  }

  /** How many calls it takes until there is a reply, or none for good. */
  function ReplySteps(w: World, s: ExecuteScript): nat {
    if CallReply(w, SubmitRequest(s.executable, s.answer), s.submit).Some? then 1 else 2
  }

  /** Each step of executing remotely, k counted from the creation of the row. */
  lemma RemoteMoment(plan: PlanId, family: Family, at: int, s: ExecuteScript, taken: bool, k: nat)
    requires 2 <= k < |ExecuteMoments(Began(plan, family, at), UNTOUCHED, s, taken)| + 2
    ensures
      var begun := Began(plan, family, at);
      var site := ExecuteMoments(begun, UNTOUCHED, s, taken)[k - 2];
      && Made(Moment(site.attempt, Remote(site.world)), begun, s.answer, taken)
      && (Blind(site.attempt, Remote(site.world)) <==> Escapes(s, taken, Some(k)))
      && (site.attempt.state == SubmissionAmbiguous <==>
            ReachesSubmit(s) && Unclear(SubmissionReply(Staged(s), s)) && k >= SUBMIT_STEP + ReplySteps(Staged(s), s))
  {
    if k < SUBMIT_STEP {
      PrepareMoment(plan, family, at, s, taken, k - 2);
    } else {
      LaterMoment(plan, family, at, s, taken, k - SUBMIT_STEP);
    }
  }

  lemma LaterMoment(plan: PlanId, family: Family, at: int, s: ExecuteScript, taken: bool, i: nat)
    requires 4 + i < |ExecuteMoments(Began(plan, family, at), UNTOUCHED, s, taken)|
    ensures
      var begun := Began(plan, family, at);
      var site := ExecuteMoments(begun, UNTOUCHED, s, taken)[4 + i];
      && Made(Moment(site.attempt, Remote(site.world)), begun, s.answer, taken)
      && (Blind(site.attempt, Remote(site.world)) <==> Escapes(s, taken, Some(SUBMIT_STEP + i)))
      && (site.attempt.state == SubmissionAmbiguous <==>
            ReachesSubmit(s) && Unclear(SubmissionReply(Staged(s), s)) && i >= ReplySteps(Staged(s), s))
  {
    LaterMoments(Began(plan, family, at), s, taken, i);
    StagedWorld(s);
    ReadyIsPrepared(plan, family, at, s.at);
    SubmitMoment(Ready(Began(plan, family, at), s.at), Staged(s), s, taken, i);
  }

  lemma ReadyIsPrepared(plan: PlanId, family: Family, at: int, readyAt: int)
    ensures
      var ready := Ready(Began(plan, family, at), readyAt);
      && (ready.plan, ready.family, ready.createdAt) == (plan, family, at)
      && ready.state == PreparedState && ready.job.None? && !ready.imported && ready.experiment.None?
      && ready.remote == Some(RemoteRecord(None, None)) && LogRefines(ready)
  {
    BeganIsSound(plan, family, at, Remote(UNTOUCHED));
    LogKept(Began(plan, family, at), PreparedState, readyAt);
  }

  /** The first four moments precede those of submitting. */
  lemma LaterMoments(begun: Attempt, s: ExecuteScript, taken: bool, i: nat)
    requires 4 + i < |ExecuteMoments(begun, UNTOUCHED, s, taken)|
    ensures ReachesSubmit(s) && i < |SubmitMoments(Ready(begun, s.at), Staged(s), s, taken)|
    ensures ExecuteMoments(begun, UNTOUCHED, s, taken)[4 + i]
        == SubmitMoments(Ready(begun, s.at), Staged(s), s, taken)[i]
  {
  }

  /** Before the submit call nothing was asked and nothing is ambiguous. */
  lemma PrepareMoment(plan: PlanId, family: Family, at: int, s: ExecuteScript, taken: bool, j: nat)
    requires j < 4 && j < |ExecuteMoments(Began(plan, family, at), UNTOUCHED, s, taken)|
    ensures
      var begun := Began(plan, family, at);
      var site := ExecuteMoments(begun, UNTOUCHED, s, taken)[j];
      && Made(Moment(site.attempt, Remote(site.world)), begun, s.answer, taken)
      && !Blind(site.attempt, Remote(site.world)) && site.attempt.state != SubmissionAmbiguous
  {
    var begun := Began(plan, family, at);
    PreparedWorld(s);
    var prepared := CallWorld(UNTOUCHED, PrepareRequest(s.intent), s.prepare);
    StepKeepsConsistency(UNTOUCHED, Operation(PrepareRequest(s.intent), s.prepare.survives));
    BeganIsSound(plan, family, at, Remote(UNTOUCHED));
    LogKept(begun, PreparedState, s.at);
    var ms := ExecuteMoments(begun, UNTOUCHED, s, taken);
    assert ms[0] == Site(begun, prepared);
    if j > 0 { assert ms[j] == StageMoments(begun, prepared, s)[j]; }
  }

  /** Each step from the submit command on. */
  lemma LocalSubmitMoment(ready: Attempt, s: LocalScript, taken: bool, i: nat)
    requires s.staged && ready.state == PreparedState && ready.job.None? && !ready.imported && ready.experiment.None?
    requires ready.remote.None? && LogRefines(ready) && i < |LocalSubmitMoments(ready, s, taken)|
    ensures
      var m := LocalSubmitMoments(ready, s, taken)[i];
      var p := Local(if m.asked then [s.answer] else []);
      && Made(Moment(m.attempt, p), ready, s.answer, taken)
      && (Blind(m.attempt, p) <==> EscapesLocally(ready.family, s, taken, Some(LOCAL_SUBMIT_STEP + i)))
      && (m.attempt.state == SubmissionAmbiguous <==> UnclearLocally(ready.family, s) && i >= 1)
  {
    if i == 0 {
      LogKept(ready, FailedState, s.at);
    } else {
      LocallySubmitted(ready, s, taken);
      if s.answer.AcceptedAs? { LogKept(ready.(job := Some(s.answer.id)), SubmittedState, s.at); }
    }
  }

  lemma LocalMomentIsMade(plan: PlanId, family: Family, at: int, s: LocalScript, taken: bool, k: nat)
    requires 2 <= k < |LocalExecuteMoments(Began(plan, family, at), s, taken)| + 2
    ensures
      var begun := Began(plan, family, at);
      var m := LocalExecuteMoments(begun, s, taken)[k - 2];
      var p := Local(if m.asked then [s.answer] else []);
      && Made(Moment(m.attempt, p), begun, s.answer, taken)
      && (Blind(m.attempt, p) <==> EscapesLocally(family, s, taken, Some(k)))
      && (m.attempt.state == SubmissionAmbiguous <==> UnclearLocally(family, s) && k >= LOCAL_SUBMIT_STEP + 1)
  {
    var begun := Began(plan, family, at);
    BeganIsSound(plan, family, at, Local([]));
    LogKept(begun, PreparedState, s.at);
    var ready := Updated(begun, PreparedState, s.at);
    if k >= LOCAL_SUBMIT_STEP {
      assert LocalExecuteMoments(begun, s, taken)[k - 2] == LocalSubmitMoments(ready, s, taken)[k - LOCAL_SUBMIT_STEP];
      LocalSubmitMoment(ready, s, taken, k - LOCAL_SUBMIT_STEP);
    }
  }

  /** Executing ends ambiguous: the reply leaves the truth open, and the controller
      lives to record that. */
  predicate EndsAmbiguous(op: Op)
    requires op.Execute?
  {
    match op.how
    case Remotely(s) =>
      ReachesSubmit(s) && Unclear(SubmissionReply(Staged(s), s))
      && !DiesBefore(op.dies, SUBMIT_STEP + ReplySteps(Staged(s), s))
    case Locally(s) => UnclearLocally(op.family, s) && !DiesBefore(op.dies, LOCAL_SUBMIT_STEP + 1)
  }

  function AnswerOf(how: How): Answer {
    match how case Remotely(s) => s.answer case Locally(s) => s.answer
  }

  /** Whether a new attempt is as it should be, and blind or ambiguous as said. */
  ghost predicate AsPredicted(m: Moment, op: Op, taken: bool)
    requires op.Execute?
  {
    Made(m, Began(op.plan, op.family, op.at), AnswerOf(op.how), taken)
    && (m.attempt.state == SubmissionAmbiguous <==> EndsAmbiguous(op))
    && (Blind(m.attempt, m.place) <==>
          match op.how
          case Remotely(s) => Escapes(s, taken, op.dies)
          case Locally(s) => EscapesLocally(op.family, s, taken, op.dies))
  }

  lemma RemoteStart(sys: System, op: Op, s: ExecuteScript)
    requires op.Execute? && op.how == Remotely(s)
    ensures AsPredicted(Started(sys, op), op, Clashes(Begun(sys, op), op.id, s.answer))
  {
    var taken := Clashes(Begun(sys, op), op.id, s.answer);
    var moments := PlanMoments(sys.rows, op.id, op.plan, op.family, op.at, op.how);
    if op.dies.Some? && op.dies.value < |moments| {
      var k := op.dies.value;
      assert Started(sys, op) == moments[k];
      if k < 2 {
        BeganIsSound(op.plan, op.family, op.at, Remote(UNTOUCHED));
      } else {
        var ms := ExecuteMoments(Began(op.plan, op.family, op.at), UNTOUCHED, s, taken);
        assert moments[k] == FromSites(ms)[k - 2] == FromSite(ms[k - 2]);
        RemoteMoment(op.plan, op.family, op.at, s, taken, k);
      }
    } else {
      RemoteFinish(sys, op, s);
    }
  }

  lemma RemoteFinish(sys: System, op: Op, s: ExecuteScript)
    requires op.Execute? && op.how == Remotely(s)
    requires op.dies.Some? ==> op.dies.value >= |PlanMoments(sys.rows, op.id, op.plan, op.family, op.at, op.how)|
    ensures AsPredicted(Started(sys, op), op, Clashes(Begun(sys, op), op.id, s.answer))
  {
    var taken := Clashes(Begun(sys, op), op.id, s.answer);
    RemoteExecution(op.plan, op.family, op.at, s, taken);
    LastSteps(Began(op.plan, op.family, op.at), s, taken);
  }

  /** A controller that outlives the last step has recorded what it could. */
  lemma LastSteps(begun: Attempt, s: ExecuteScript, taken: bool)
    ensures
      var n := |ExecuteMoments(begun, UNTOUCHED, s, taken)| + 2;
      (Invoked(s) ==> n >= RecordStep(s)) && (ReachesSubmit(s) ==> n >= SUBMIT_STEP + ReplySteps(Staged(s), s))
  {
    PreparedWorld(s);
    if ReachesSubmit(s) {
      assert |ExecuteMoments(begun, UNTOUCHED, s, taken)| >= 4 + ReplySteps(Staged(s), s);
      SubmittedWorld(Staged(s), s);
    }
  }

  lemma LocalStart(sys: System, op: Op, s: LocalScript)
    requires op.Execute? && op.how == Locally(s)
    ensures AsPredicted(Started(sys, op), op, Clashes(Begun(sys, op), op.id, s.answer))
  {
    var taken := Clashes(Begun(sys, op), op.id, s.answer);
    var moments := PlanMoments(sys.rows, op.id, op.plan, op.family, op.at, op.how);
    if op.dies.Some? && op.dies.value < |moments| {
      var k := op.dies.value;
      assert Started(sys, op) == moments[k];
      if k < 2 {
        BeganIsSound(op.plan, op.family, op.at, Local([]));
      } else {
        var ms := LocalExecuteMoments(Began(op.plan, op.family, op.at), s, taken);
        assert moments[k] == FromLocal(ms, s.answer)[k - 2];
        LocalMomentIsMade(op.plan, op.family, op.at, s, taken, k);
      }
    } else {
      LocalFinish(sys, op, s);
    }
  }

  lemma LocalFinish(sys: System, op: Op, s: LocalScript)
    requires op.Execute? && op.how == Locally(s)
    requires op.dies.Some? ==> op.dies.value >= |PlanMoments(sys.rows, op.id, op.plan, op.family, op.at, op.how)|
    ensures AsPredicted(Started(sys, op), op, Clashes(Begun(sys, op), op.id, s.answer))
  {
    LocalExecution(op.plan, op.family, op.at, s, Clashes(Begun(sys, op), op.id, s.answer));
  }

  /** Any execution that starts, finished or cut short after any step: sound, its
      job owned by nobody else, ambiguous exactly when it ends so, and blind exactly
      when its submission is unsafe. */
  lemma ExecutionIsExact(sys: System, op: Op)
    requires Starts(sys, op)
    ensures
      var m := Started(sys, op);
      && Sound(m.attempt, m.place)
      && (m.attempt.plan, m.attempt.family, m.attempt.createdAt) == (op.plan, op.family, op.at)
      && m.attempt.experiment.None? && !m.attempt.imported
      && (Blind(m.attempt, m.place) <==> Unsafe(sys, op))
      && (m.attempt.state == SubmissionAmbiguous <==> EndsAmbiguous(op))
      && (m.attempt.job.Some? ==>
            forall j | j in sys.rows && sys.rows[j].family == op.family :: sys.rows[j].job != m.attempt.job)
  {
    var begun, m := Begun(sys, op), Started(sys, op);
    match op.how {
      case Remotely(s) => RemoteStart(sys, op, s);
      case Locally(s) => LocalStart(sys, op, s);
    }
    if m.attempt.job.Some? {
      forall j | j in sys.rows && sys.rows[j].family == op.family
        ensures sys.rows[j].job != m.attempt.job
      {
        assert j in begun && begun[j] == sys.rows[j];
      }
    }
  }

  lemma NextKeepsInv(sys: System, op: Op)
    requires Inv(sys)
    ensures Inv(Next(sys, op))
  {
    if Starts(sys, op) {
      ExecutionIsExact(sys, op);
      PutKeepsInv(sys, op.id, Started(sys, op));
    } else if !op.Execute? && op.id in sys.rows {
      TouchedKeeps(sys, op);
      PutKeepsInv(sys, op.id, Touched(sys, op));
    }
  }

  /** Over every history: each attempt's event log gives its state, its job row
      carries the identity its place durably knows, jobs and experiments belong to
      one attempt only. */
  lemma {:induction false} RunsKeepInv(sys: System, ops: seq<Op>)
    requires Inv(sys)
    ensures Inv(Run(sys, ops))
  {
    if ops != [] {
      RunsKeepInv(sys, ops[..|ops| - 1]);
      NextKeepsInv(Run(sys, ops[..|ops| - 1]), ops[|ops| - 1]);
    }
  }

  lemma NextEvolves(sys: System, op: Op, id: AttemptId)
    requires Inv(sys) && id in sys.rows
    ensures id in Next(sys, op).rows && id in Next(sys, op).places
    ensures Evolved(sys.rows[id], sys.places[id], Next(sys, op).rows[id], Next(sys, op).places[id])
  {
    if !op.Execute? && op.id == id { TouchedKeeps(sys, op); }
  }

  /** Whatever happens later, an attempt keeps its job row, its linked experiment
      and what its scheduler was asked; it never becomes ambiguous or blind again;
      and while its worker knows no job, ambiguity never ends. */
  lemma {:induction false} RunsEvolve(sys: System, ops: seq<Op>, id: AttemptId)
    requires Inv(sys) && id in sys.rows
    ensures id in Run(sys, ops).rows && id in Run(sys, ops).places
    ensures Evolved(sys.rows[id], sys.places[id], Run(sys, ops).rows[id], Run(sys, ops).places[id])
  {
    if ops != [] {
      var before := Run(sys, ops[..|ops| - 1]);
      RunsEvolve(sys, ops[..|ops| - 1], id);
      RunsKeepInv(sys, ops[..|ops| - 1]);
      NextEvolves(before, ops[|ops| - 1], id);
      EvolvedFurther(sys.rows[id], sys.places[id], before.rows[id], before.places[id],
                     Run(sys, ops).rows[id], Run(sys, ops).places[id]);
    }
  }

  // ---- ambiguity locks a plan ----

  /** Some attempt of the plan counts as newer than the one being created. */
  ghost predicate Late(sys: System, op: Op)
    requires op.Execute?
  {
    exists id | id in sys.rows :: sys.rows[id].plan == op.plan && !Newer(op.at, op.id, sys.rows[id].createdAt, id)
  }

  ghost predicate AmbiguousIsLatest(rows: map<AttemptId, Attempt>) {
    forall id | id in rows && rows[id].state == SubmissionAmbiguous :: IsLatest(rows, rows[id].plan, id)
  }

  /** One operation breaks the lock exactly when it starts an attempt that ends
      ambiguous and is stamped no later than another attempt of its plan. */
  lemma NextLockExactly(sys: System, op: Op)
    requires Inv(sys) && AmbiguousIsLatest(sys.rows)
    ensures AmbiguousIsLatest(Next(sys, op).rows) <==> !(Starts(sys, op) && EndsAmbiguous(op) && Late(sys, op))
  {
    if Starts(sys, op) {
      StartLocksExactly(sys, op);
    } else if !op.Execute? && op.id in sys.rows {
      TouchKeepsLock(sys, op);
    }
  }

  lemma TouchKeepsLock(sys: System, op: Op)
    requires Inv(sys) && AmbiguousIsLatest(sys.rows) && !op.Execute? && op.id in sys.rows
    ensures AmbiguousIsLatest(Next(sys, op).rows)
  {
    TouchedKeeps(sys, op);
    var after := Next(sys, op).rows;
    forall id | id in after && after[id].state == SubmissionAmbiguous ensures IsLatest(after, after[id].plan, id) {
      assert IsLatest(sys.rows, sys.rows[id].plan, id);
    }
  }

  lemma StartLocksExactly(sys: System, op: Op)
    requires Inv(sys) && AmbiguousIsLatest(sys.rows) && Starts(sys, op)
    ensures AmbiguousIsLatest(Next(sys, op).rows) <==> !(EndsAmbiguous(op) && Late(sys, op))
  {
    var after := Next(sys, op).rows;
    ExecutionIsExact(sys, op);
    assert after[op.id] == Started(sys, op).attempt;
    assert IsLatest(after, op.plan, op.id) <==> !Late(sys, op) by {
      if Late(sys, op) {
        var id :| id in sys.rows && sys.rows[id].plan == op.plan && !Newer(op.at, op.id, sys.rows[id].createdAt, id);
        assert id in after && after[id] == sys.rows[id] && id != op.id;
      }
    }
    forall id | id in after && id != op.id && after[id].state == SubmissionAmbiguous
      ensures IsLatest(after, after[id].plan, id)
    {
      assert IsLatest(sys.rows, sys.rows[id].plan, id);
      assert sys.rows[id].plan != op.plan;
    }
  }

  /** The lock holds at every point of a history. */
  ghost predicate AlwaysLocks(ops: seq<Op>) {
    AmbiguousIsLatest(Run(EMPTY, ops).rows) && (ops != [] ==> AlwaysLocks(ops[..|ops| - 1]))
  }

  /** No execution that starts both ends ambiguous and is stamped too early. */
  ghost predicate Orderly(ops: seq<Op>) {
    ops != [] ==>
      var sys, op := Run(EMPTY, ops[..|ops| - 1]), ops[|ops| - 1];
      Orderly(ops[..|ops| - 1]) && !(Starts(sys, op) && EndsAmbiguous(op) && Late(sys, op))
  }

  /** At every point of a history each ambiguous attempt is the newest of its plan
      if and only if the history is orderly. */
  lemma {:induction false} LockHoldsExactly(ops: seq<Op>)
    ensures AlwaysLocks(ops) <==> Orderly(ops)
  {
    if ops != [] {
      var before := ops[..|ops| - 1];
      LockHoldsExactly(before);
      RunsKeepInv(EMPTY, before);
      if AmbiguousIsLatest(Run(EMPTY, before).rows) { NextLockExactly(Run(EMPTY, before), ops[|ops| - 1]); }
    }
  }

  /** The clock moves forward: a new attempt is newer than the plan's others. */
  ghost predicate Timely(sys: System, op: Op) {
    op.Execute? ==> !Late(sys, op)
  }

  ghost predicate TimelyRun(ops: seq<Op>) {
    ops != [] ==> TimelyRun(ops[..|ops| - 1]) && Timely(Run(EMPTY, ops[..|ops| - 1]), ops[|ops| - 1])
  }

  /** A forward clock makes any history orderly. */
  lemma {:induction false} TimelyIsOrderly(ops: seq<Op>)
    requires TimelyRun(ops)
    ensures Orderly(ops)
  {
    if ops != [] { TimelyIsOrderly(ops[..|ops| - 1]); }
  }

  /** Ambiguity locks a plan: after any orderly history an ambiguous attempt is the
      only one of its plan and the newest, and execute_plan does nothing for that
      plan. */
  lemma AmbiguityLocksPlan(ops: seq<Op>, id: AttemptId)
    requires Orderly(ops) && id in Run(EMPTY, ops).rows && Run(EMPTY, ops).rows[id].state == SubmissionAmbiguous
    ensures IsLatest(Run(EMPTY, ops).rows, Run(EMPTY, ops).rows[id].plan, id)
    ensures forall other | other in Run(EMPTY, ops).rows && other != id
                && Run(EMPTY, ops).rows[other].plan == Run(EMPTY, ops).rows[id].plan ::
              Run(EMPTY, ops).rows[other].state != SubmissionAmbiguous
    ensures forall op: Op | op.Execute? && op.plan == Run(EMPTY, ops).rows[id].plan ::
              Next(Run(EMPTY, ops), op) == Run(EMPTY, ops)
  {
    LockHoldsExactly(ops);
    var rows := Run(EMPTY, ops).rows;
    forall other | other in rows && other != id && rows[other].plan == rows[id].plan
      ensures rows[other].state != SubmissionAmbiguous
    {
      if rows[other].state == SubmissionAmbiguous { OneLatest(rows, rows[id].plan, id, other); }
    }
  }

  /** The lock is for ever when the worker never learned a job identity. */
  lemma LockIsPermanent(sys: System, ops: seq<Op>, id: AttemptId)
    requires Inv(sys) && id in sys.rows && sys.rows[id].state == SubmissionAmbiguous
    requires sys.places[id].Remote? && JobAt(sys.places[id]).None?
    ensures id in Run(sys, ops).rows && Run(sys, ops).rows[id].state == SubmissionAmbiguous
    ensures Run(sys, ops).rows[id].job.None? && Run(sys, ops).rows[id].experiment.None?
  {
    RunsEvolve(sys, ops, id);
    RunsKeepInv(sys, ops);
    assert Sound(Run(sys, ops).rows[id], Run(sys, ops).places[id]);
  }

  /** What it takes to end a remote ambiguity: the reply arrives and shows a job, and
      either no other attempt holds that job, or the attempt has it recorded already
      and the bundle is imported. */
  predicate EndsAmbiguity(a: Attempt, w: World, c: CollectScript, held: bool, taken: bool) {
    a.remote.Some? && c.call.delivered && c.call.replyArrives && JobAt(Remote(w)).Some?
    && if a.job.None? then !held else c.result == Bundle && Imports(a, c.bundle, taken)
  }

  /** The step of a collect that does it: setting the observed state, or importing. */
  function EndStep(a: Attempt): nat {
    if a.job.None? then 2 else 3
  }

  lemma CollectedEnds(a: Attempt, w: World, c: CollectScript, held: bool, taken: bool)
    requires Sound(a, Remote(w)) && a.state == SubmissionAmbiguous
    ensures Collected(Site(a, w), c, held, taken).attempt.state != SubmissionAmbiguous
       <==> EndsAmbiguity(a, w, c, held, taken)
  {
  }

  lemma CollectMomentEnds(a: Attempt, w: World, c: CollectScript, held: bool, taken: bool)
    requires Sound(a, Remote(w)) && a.state == SubmissionAmbiguous
    ensures
      var ms := CollectMoments(Site(a, w), c, held, taken);
      && (EndsAmbiguity(a, w, c, held, taken) ==> |ms| > EndStep(a))
      && forall k | 0 <= k < |ms| ::
           ms[k].attempt.state != SubmissionAmbiguous <==> EndsAmbiguity(a, w, c, held, taken) && k >= EndStep(a)
  {
  }

  /** One collect ends a remote ambiguity exactly under that condition, if its
      controller lives to take the step that does it. */
  lemma AmbiguityEndsExactly(sys: System, op: Op)
    requires Inv(sys) && op.Collect? && op.id in sys.rows && sys.places[op.id].Remote?
    requires sys.rows[op.id].state == SubmissionAmbiguous
    ensures
      var a, w, c := sys.rows[op.id], sys.places[op.id].world, op.collect;
      Next(sys, op).rows[op.id].state != SubmissionAmbiguous
      <==> EndsAmbiguity(a, w, c, HeldElsewhere(sys.rows, op.id, w), ExperimentTaken(c, sys.experiments))
           && !DiesBefore(op.dies, EndStep(a))
  {
    var a, w, c := sys.rows[op.id], sys.places[op.id].world, op.collect;
    assert Sound(a, sys.places[op.id]);
    var held, taken := HeldElsewhere(sys.rows, op.id, w), ExperimentTaken(c, sys.experiments);
    CollectMomentEnds(a, w, c, held, taken);
    if op.dies.Some? && op.dies.value < |Steps(sys, op)| {
      assert Steps(sys, op) == FromSites(CollectMoments(Site(a, w), c, held, taken));
    } else {
      CollectedEnds(a, w, c, held, taken);
    }
  }

  /** Locally one collect ends it exactly when a readable result is imported, which
      is a single step. */
  lemma LocalAmbiguityEndsExactly(sys: System, op: Op)
    requires Inv(sys) && op.CollectLocally? && op.id in sys.rows && sys.places[op.id].Local?
    requires sys.rows[op.id].state == SubmissionAmbiguous
    ensures Next(sys, op).rows[op.id].state != SubmissionAmbiguous
       <==> op.read.readable && Imports(sys.rows[op.id], op.read.bundle, Taken(op.read, sys.experiments))
  {
    var m := Touched(sys, op);
    assert Next(sys, op).rows[op.id] == m.attempt;
    assert m.attempt == LocalCollected(sys.rows[op.id], op.read, Taken(op.read, sys.experiments));
  }

  // ---- what every history guarantees ----

  /** In append order the last event that is not evidence-only is the state. */
  lemma EventLogRefinesState(ops: seq<Op>, id: AttemptId)
    requires id in Run(EMPTY, ops).rows
    ensures LastState(Run(EMPTY, ops).rows[id].events) == Some(Run(EMPTY, ops).rows[id].state)
  {
    RunsKeepInv(EMPTY, ops);
    assert Sound(Run(EMPTY, ops).rows[id], Run(EMPTY, ops).places[id]);
  }

  /** The job row is created at most once: it is the identity the place durably
      knows, no other attempt of the family has it, and no later history changes
      or contradicts it. Each attempt asked its scheduler at most once. */
  lemma ControllerAgreesWithScheduler(ops: seq<Op>, more: seq<Op>, id: AttemptId)
    requires id in Run(EMPTY, ops).rows
    ensures
      var now, later := Run(EMPTY, ops), Run(Run(EMPTY, ops), more);
      && id in later.rows && id in later.places && SoundPlace(later.places[id])
      && (now.rows[id].job.Some? ==>
            later.rows[id].job == now.rows[id].job && JobAt(later.places[id]) == now.rows[id].job
            && Accepted(later.places[id])
            && forall other | other in later.rows && other != id && later.rows[other].family == later.rows[id].family ::
                 later.rows[other].job != now.rows[id].job)
  {
    RunsKeepInv(EMPTY, ops);
    var now := Run(EMPTY, ops);
    RunsKeepInv(now, more);
    RunsEvolve(now, more, id);
    var later := Run(now, more);
    assert Sound(later.rows[id], later.places[id]);
  }

  /** One experiment per execution: a link, once made, never changes, and nobody
      else ever has that experiment. */
  lemma OneExperimentPerExecution(ops: seq<Op>, more: seq<Op>, id: AttemptId)
    requires id in Run(EMPTY, ops).rows && Run(EMPTY, ops).rows[id].experiment.Some?
    ensures
      var now, later := Run(EMPTY, ops), Run(Run(EMPTY, ops), more);
      && id in later.rows && later.rows[id].experiment == now.rows[id].experiment
      && now.rows[id].experiment.value in later.experiments
      && (forall other | other in later.rows && other != id :: later.rows[other].experiment != now.rows[id].experiment)
  {
    RunsKeepInv(EMPTY, ops);
    var now := Run(EMPTY, ops);
    RunsKeepInv(now, more);
    RunsEvolve(now, more, id);
  }

  /** Collecting again from a remote site records evidence only: neither a
      repeated nor a conflicting bundle changes state, job, link or experiments. */
  lemma CollectAgainChangesNothing(sys: System, op: Op)
    requires Inv(sys) && op.Collect? && op.id in sys.rows && sys.rows[op.id].experiment.Some?
    ensures
      var a, b := sys.rows[op.id], Next(sys, op).rows[op.id];
      && Next(sys, op).experiments == sys.experiments
      && (b.state, b.job, b.experiment, b.imported) == (a.state, a.job, a.experiment, a.imported)
      && (b.events == a.events
          || b.events == a.events + [Event(RemoteReconciled, op.collect.at)])
  {
    assert Sound(sys.rows[op.id], sys.places[op.id]);
  }

  // ---- no blind resubmission ----

  ghost predicate NoneBlind(sys: System) {
    sys.rows.Keys == sys.places.Keys && forall id | id in sys.rows :: !Blind(sys.rows[id], sys.places[id])
  }

  /** No execution that starts is unsafe. */
  ghost predicate SafeRun(ops: seq<Op>) {
    ops != [] ==>
      var sys, op := Run(EMPTY, ops[..|ops| - 1]), ops[|ops| - 1];
      SafeRun(ops[..|ops| - 1]) && (Starts(sys, op) ==> !Unsafe(sys, op))
  }

  /** No attempt is blind at any point of the history. */
  ghost predicate NeverBlind(ops: seq<Op>) {
    NoneBlind(Run(EMPTY, ops)) && (ops != [] ==> NeverBlind(ops[..|ops| - 1]))
  }

  lemma NextBlindExactly(sys: System, op: Op)
    requires Inv(sys) && NoneBlind(sys)
    ensures NoneBlind(Next(sys, op)) <==> !(Starts(sys, op) && Unsafe(sys, op))
  {
    if Starts(sys, op) {
      ExecutionIsExact(sys, op);
      PutBlindExactly(sys, op.id, Started(sys, op));
    } else if !op.Execute? && op.id in sys.rows {
      TouchedKeeps(sys, op);
      PutBlindExactly(sys, op.id, Touched(sys, op));
    }
  }

  lemma PutBlindExactly(sys: System, id: AttemptId, m: Moment)
    requires NoneBlind(sys)
    ensures NoneBlind(Put(sys, id, m)) <==> !Blind(m.attempt, m.place)
  {
    var after := Put(sys, id, m);
    assert after.rows[id] == m.attempt && after.places[id] == m.place;
  }

  /** No history ever shows a blind attempt, at any point, if and only if none of
      the executions that started was unsafe. */
  lemma {:induction false} NeverBlindExactly(ops: seq<Op>)
    ensures NeverBlind(ops) <==> SafeRun(ops)
  {
    if ops != [] {
      var before := ops[..|ops| - 1];
      NeverBlindExactly(before);
      RunsKeepInv(EMPTY, before);
      if NoneBlind(Run(EMPTY, before)) { NextBlindExactly(Run(EMPTY, before), ops[|ops| - 1]); }
    }
  }

  /** Never blind resubmission: in orderly histories of safe submissions, a new
      attempt starts only when every job the scheduler accepted for earlier
      attempts of the plan is identified in the store, by its job row or by its
      result. */
  lemma NewAttemptsKnowTheOld(ops: seq<Op>, op: Op, id: AttemptId)
    requires Orderly(ops) && SafeRun(ops) && Starts(Run(EMPTY, ops), op)
    requires id in Run(EMPTY, ops).rows && Run(EMPTY, ops).rows[id].plan == op.plan
    ensures id in Run(EMPTY, ops).places
    ensures Accepted(Run(EMPTY, ops).places[id]) ==>
      Run(EMPTY, ops).rows[id].job.Some? || Run(EMPTY, ops).rows[id].imported
  {
    NeverBlindExactly(ops);
    LockHoldsExactly(ops);
    var rows := Run(EMPTY, ops).rows;
    assert !Blind(rows[id], Run(EMPTY, ops).places[id]);
    assert !(IsLatest(rows, op.plan, id) && rows[id].state == SubmissionAmbiguous);
  }

  /** An unsafe submission reopens its plan at once: the scheduler has a job, the
      store does not, and the next execute_plan starts. */
  lemma UnsafeReopensPlan(sys: System, op: Op)
    requires Inv(sys) && Starts(sys, op) && Timely(sys, op) && Unsafe(sys, op)
    ensures Accepted(Next(sys, op).places[op.id]) && Next(sys, op).rows[op.id].job.None?
    ensures !Locked(Next(sys, op).rows, op.plan)
  {
    ExecutionIsExact(sys, op);
    var rows := Next(sys, op).rows;
    assert IsLatest(rows, op.plan, op.id);
    forall id | IsLatest(rows, op.plan, id) ensures id == op.id {
      OneLatest(rows, op.plan, id, op.id);
    }
  }

  /** Slurm on the same machine accepts a job and prints no usable id: the attempt
      is failed, and the plan submits a second time. */
  lemma UnparsedIdResubmits()
    ensures
      var ops := [Execute(1, 0, Slurm, 10, Locally(LocalScript(true, true, true, AcceptedUnparsed, 11)), None),
                  Execute(2, 0, Slurm, 20, Locally(LocalScript(true, true, true, AcceptedAs(7), 21)), None)];
      var sys := Run(EMPTY, ops);
      sys.rows.Keys == sys.places.Keys == {1, 2} && Accepted(sys.places[1]) && Accepted(sys.places[2])
      && sys.rows[1].state == FailedState && sys.rows[1].plan == sys.rows[2].plan
  {
    var first := Execute(1, 0, Slurm, 10, Locally(LocalScript(true, true, true, AcceptedUnparsed, 11)), None);
    var second := Execute(2, 0, Slurm, 20, Locally(LocalScript(true, true, true, AcceptedAs(7), 21)), None);
    RunTwo(first, second);
    UnsafeReopensPlan(EMPTY, first);
  }

  lemma RunTwo(first: Op, second: Op)
    ensures Run(EMPTY, [first, second]) == Next(Next(EMPTY, first), second)
  {
    assert [first, second][..1] == [first] && [first][..0] == [];
    assert Run(EMPTY, [first]) == Next(Run(EMPTY, []), first);
  }

  lemma LocalPlace(sys: System, op: Op, s: LocalScript)
    requires op.Execute? && op.how == Locally(s) && op.dies.None?
    ensures Started(sys, op).place == Local(if Asks(s) then [s.answer] else [])
  {
  }

  lemma OnlyAttempt(op: Op)
    requires op.Execute? && !EndsAmbiguous(op)
    ensures
      var one := Next(EMPTY, op);
      && Inv(one) && one.rows.Keys == one.places.Keys == {op.id} && IsLatest(one.rows, op.plan, op.id)
      && one.rows[op.id].state != SubmissionAmbiguous && one.rows[op.id].createdAt == op.at
  {
    assert Starts(EMPTY, op);
    ExecutionIsExact(EMPTY, op);
    NextKeepsInv(EMPTY, op);
  }

  /** An attempt stamped before one that is not ambiguous does not lock the plan. */
  lemma EarlierDoesNotLock(sys: System, op: Op, id: AttemptId)
    requires Inv(sys) && op.Execute? && op.id !in sys.rows && IsLatest(sys.rows, op.plan, id)
    requires sys.rows[id].state != SubmissionAmbiguous && Newer(sys.rows[id].createdAt, id, op.at, op.id)
    ensures Starts(sys, op) && !Locked(Next(sys, op).rows, op.plan)
  {
    forall other | IsLatest(sys.rows, op.plan, other) ensures other == id { OneLatest(sys.rows, op.plan, other, id); }
    ExecutionIsExact(sys, op);
    var after := Next(sys, op).rows;
    assert after == sys.rows[op.id := Started(sys, op).attempt];
    assert IsLatest(after, op.plan, id);
    forall other | IsLatest(after, op.plan, other) ensures other == id { OneLatest(after, op.plan, other, id); }
  }

  lemma BackwardStartUnlocks(first: Op, second: Op, s: LocalScript)
    requires first.Execute? && second.Execute? && first.id != second.id && first.plan == second.plan
    requires !EndsAmbiguous(first) && EndsAmbiguous(second) && second.at < first.at
    requires second.how == Locally(s) && Asks(s) && second.dies.None?
    ensures
      var sys := Run(EMPTY, [first, second]);
      && sys.rows.Keys == sys.places.Keys == {first.id, second.id} && sys.rows[second.id].state == SubmissionAmbiguous
      && sys.places[second.id] == Local([s.answer]) && !Locked(sys.rows, second.plan)
  {
    RunTwo(first, second);
    OnlyAttempt(first);
    var one := Next(EMPTY, first);
    EarlierDoesNotLock(one, second, first.id);
    ExecutionIsExact(one, second);
    LocalPlace(one, second, s);
  }

  /** A forward clock is needed: an ambiguous attempt stamped earlier than a failed
      one does not lock the plan. */
  lemma BackwardClockUnlocks(failed: Op, ambiguous: Op)
    requires failed == Execute(1, 0, Slurm, 10, Locally(LocalScript(true, true, true, Rejected, 11)), None)
    requires ambiguous == Execute(2, 0, Slurm, 5, Locally(LocalScript(true, true, true, TimedOut(true), 6)), None)
    ensures
      var sys := Run(EMPTY, [failed, ambiguous]);
      sys.rows.Keys == sys.places.Keys == {1, 2} && sys.rows[2].state == SubmissionAmbiguous
      && Accepted(sys.places[2]) && !Locked(sys.rows, 0)
  {
    BackwardStartUnlocks(failed, ambiguous, ambiguous.how.local);
  }

  /** A controller that dies between submitting and recording the reply leaves a
      blind attempt exactly when the scheduler was asked and accepted. */
  lemma ControllerCrashIsBlind(sys: System, op: Op, s: ExecuteScript)
    requires Starts(sys, op) && op.how == Remotely(s)
    requires !DiesBefore(op.dies, SUBMIT_STEP) && DiesBefore(op.dies, RecordStep(s))
    ensures Blind(Started(sys, op).attempt, Started(sys, op).place) <==> Invoked(s) && WasAccepted(s.answer)
  {
    ExecutionIsExact(sys, op);
  }
}
