/** The one-shot login-node worker and its durable submission state
    (remote_worker.py). Every operation is a list of durable effects computed
    from the state file it read; a crash keeps a prefix of that list. Operations
    on one execution are serialised. */
module RemoteWorkers {
  import opened Prelude
  import opened Schedulers

  /** Opaque identities: content digests and scheduler job numbers. */
  type Digest = int
  type JobId = int

  /** What the first prepare freezes: staged-file digests, and the path-less
      identity of an optional workload variant. */
  datatype Intent = Intent(family: Family, files: map<string, Digest>, variant: Option<Digest>)

  datatype Phase = Prepared | Submitting | Submitted | Ambiguous | SubmissionFailed | Cancelled

  /** `submission-state.json`. */
  datatype Durable = Durable(phase: Phase, intent: Intent, jobId: Option<JobId>)

  /** What sbatch, qsub or bsub did. A timed-out call may have been accepted. */
  datatype Answer = TimedOut(accepted: bool) | Rejected | AcceptedUnparsed | AcceptedAs(id: JobId)

  predicate WasAccepted(a: Answer) {
    a.AcceptedAs? || a.AcceptedUnparsed? || (a.TimedOut? && a.accepted)
  }

  /** One scheduler invocation, with what was staged at that moment. */
  datatype Call = Call(family: Family, files: map<string, Digest>, variant: Option<Digest>, answer: Answer)

  /** The remote machine as far as one execution is concerned. */
  datatype World = World(
    staging: bool, state: Option<Durable>, files: map<string, Digest>, variant: Option<Digest>, calls: seq<Call>)

  const UNTOUCHED := World(false, None, map[], None, [])

  datatype Effect = MakeStaging | WriteState(state: Durable) | InvokeScheduler(answer: Answer)

  datatype Status = Ok | Unavailable | FailedStatus | AmbiguousStatus | UnknownStatus

  /** Scheduler and result evidence a reconcile reports for a known job. */
  datatype ResultFile = Absent | Oversized | Corrupt | Bundle

  /** A normalised scheduler observation; `Unseen` is unobservable or uncertain. */
  datatype SchedulerState = Unseen | Waiting | Active | Over | OtherSeen

  datatype Reply =
    | Reply(status: Status, state: Durable, observed: Option<SchedulerState>, result: ResultFile)
    | WorkerError

  /** What the environment decides during an operation. */
  datatype Request =
    | PrepareRequest(intent: Intent)
    | SubmitRequest(executable: bool, answer: Answer)
    | ReconcileRequest(scheduler: SchedulerState, result: ResultFile)
    | CancelRequest(executable: bool, succeeds: bool)

  function Plain(status: Status, state: Durable): Reply {
    Reply(status, state, None, Absent)
  }

  predicate StagedAsExpected(w: World, intent: Intent) {
    (forall name | name in intent.files :: name in w.files && w.files[name] == intent.files[name])
    && (intent.variant.Some? ==> w.variant == intent.variant)
  }

  function AnswerPhase(a: Answer): Phase {
    match a
    case TimedOut(_) => Ambiguous
    case Rejected => SubmissionFailed
    case AcceptedUnparsed => Ambiguous
    case AcceptedAs(_) => Submitted
  }

  function AnswerStatus(a: Answer): Status {
    match a
    case TimedOut(_) => AmbiguousStatus
    case Rejected => FailedStatus
    case AcceptedUnparsed => AmbiguousStatus
    case AcceptedAs(_) => Ok
  }

  function Answered(d: Durable, a: Answer): Durable {
    d.(phase := AnswerPhase(a), jobId := if a.AcceptedAs? then Some(a.id) else d.jobId)
  }

  /** The durable effects of an operation and its reply if it finishes. */
  function Plan(w: World, r: Request): (seq<Effect>, Reply) {
    match r
    case PrepareRequest(intent) =>
      if w.state.Some? then
        ([], if w.state.value.intent == intent then Plain(Ok, w.state.value) else WorkerError)
      else if w.staging then ([], WorkerError)
      else
        var initial := Durable(Prepared, intent, None);
        ([MakeStaging, WriteState(initial)], Plain(Ok, initial))
    case SubmitRequest(executable, answer) =>
      if w.state.None? then ([], WorkerError)
      else
        var d := w.state.value;
        if d.phase == Submitted then ([], Plain(Ok, d))
        else if d.phase in {Submitting, Ambiguous} then
          ([WriteState(d.(phase := Ambiguous))], Plain(AmbiguousStatus, d.(phase := Ambiguous)))
        else if d.phase != Prepared || !StagedAsExpected(w, d.intent) then ([], Plain(FailedStatus, d))
        else if !executable then
          ([WriteState(d.(phase := SubmissionFailed))], Plain(Unavailable, d.(phase := SubmissionFailed)))
        else
          ([WriteState(d.(phase := Submitting)), InvokeScheduler(answer), WriteState(Answered(d, answer))],
           Plain(AnswerStatus(answer), Answered(d, answer)))
    case ReconcileRequest(scheduler, result) =>
      if w.state.None? then ([], WorkerError)
      else
        var d := w.state.value;
        if d.phase in {Submitting, Ambiguous} && d.jobId.None? then
          ([WriteState(d.(phase := Ambiguous))], Plain(AmbiguousStatus, d.(phase := Ambiguous)))
        else if d.jobId.None? then ([], Plain(UnknownStatus, d))
        else
          var status := match result
            case Oversized => Unavailable
            case Corrupt => FailedStatus
            case Bundle => Ok
            case Absent => if scheduler == Unseen then UnknownStatus else Ok;
          ([], Reply(status, d, Some(scheduler), result))
    case CancelRequest(executable, succeeds) =>
      if w.state.None? then ([], WorkerError)
      else
        var d := w.state.value;
        if d.jobId.None? then ([], Plain(UnknownStatus, d))
        else if !executable then ([], Plain(Unavailable, d))
        else if !succeeds then ([], Plain(FailedStatus, d))
        else ([WriteState(d.(phase := Cancelled))], Plain(Ok, d.(phase := Cancelled)))
  }

  function Apply(w: World, e: Effect): World {
    match e
    case MakeStaging => w.(staging := true)
    case WriteState(d) => w.(state := Some(d))
    case InvokeScheduler(answer) =>
      var family := if w.state.Some? then w.state.value.intent.family else Slurm;
      w.(calls := w.calls + [Call(family, w.files, w.variant, answer)])
  }

  function ApplyAll(w: World, es: seq<Effect>): World
    decreases |es|
  {
    if es == [] then w else ApplyAll(Apply(w, es[0]), es[1..])
  }

  /** The world after an operation of which only `survives` effects happened. */
  function After(w: World, r: Request, survives: nat): World {
    ApplyAll(w, Take(Plan(w, r).0, survives))
  }

  predicate Finishes(w: World, r: Request, survives: nat) {
    survives >= |Plan(w, r).0|
  }

  // ---- the worker itself ----

  datatype Outcome = Replied(reply: Reply) | Died

  /** One operation per process start; `survives` is how many durable effects
      the process lives through. */
  class RemoteWorker {
    var staging: bool
    var state: Option<Durable>
    var files: map<string, Digest>
    var variant: Option<Digest>
    ghost var calls: seq<Call>

    ghost function Now(): World
      reads this
    {
      World(staging, state, files, variant, calls)
    }

    constructor ()
      ensures Now() == UNTOUCHED
    {
      staging, state, files, variant := false, None, map[], None;
      calls := [];
    }

    /** Uploads replace staged content; what arrives may differ from what was
        meant. */
    method Upload(newFiles: map<string, Digest>, newVariant: Option<Digest>)
      modifies this
      ensures Now() == old(Now()).(files := newFiles, variant := newVariant)
    {
      files, variant := newFiles, newVariant;
    }

    /** The external command; nothing but the scheduler sees it. */
    ghost method Invoke(answer: Answer)
      requires state.Some?
      modifies this`calls
      ensures Now() == Apply(old(Now()), InvokeScheduler(answer))
    {
      calls := calls + [Call(state.value.intent.family, files, variant, answer)];
    }

    method Prepare(intent: Intent, survives: nat) returns (r: Outcome)
      modifies this
      ensures Now() == After(old(Now()), PrepareRequest(intent), survives)
      ensures r == if Finishes(old(Now()), PrepareRequest(intent), survives)
                   then Replied(Plan(old(Now()), PrepareRequest(intent)).1) else Died
    {
      Survivors(Now(), Plan(Now(), PrepareRequest(intent)).0, survives);
      if state.Some? {
        var current := state.value;
        if current.intent != intent { return Replied(WorkerError); }
        return Replied(Plain(Ok, current));
      }
      if staging { return Replied(WorkerError); }
      var initial := Durable(Prepared, intent, None);
      if survives == 0 { return Died; }
      staging := true;
      if survives == 1 { return Died; }
      state := Some(initial);
      r := Replied(Plain(Ok, initial));
    }

    method Submit(executable: bool, answer: Answer, survives: nat) returns (r: Outcome)
      modifies this
      ensures Now() == After(old(Now()), SubmitRequest(executable, answer), survives)
      ensures r == if Finishes(old(Now()), SubmitRequest(executable, answer), survives)
                   then Replied(Plan(old(Now()), SubmitRequest(executable, answer)).1) else Died
    {
      Survivors(Now(), Plan(Now(), SubmitRequest(executable, answer)).0, survives);
      if state.None? { return Replied(WorkerError); }
      var current := state.value;
      if current.phase == Submitted { return Replied(Plain(Ok, current)); }
      if current.phase == Submitting || current.phase == Ambiguous {
        current := current.(phase := Ambiguous);
        if survives == 0 { return Died; }
        state := Some(current);
        return Replied(Plain(AmbiguousStatus, current));
      }
      if current.phase != Prepared { return Replied(Plain(FailedStatus, current)); }
      if exists name | name in current.intent.files :: name !in files || files[name] != current.intent.files[name] {
        return Replied(Plain(FailedStatus, current));
      }
      if current.intent.variant.Some? && variant != current.intent.variant {
        return Replied(Plain(FailedStatus, current));
      }
      if !executable {
        current := current.(phase := SubmissionFailed);
        if survives == 0 { return Died; }
        state := Some(current);
        return Replied(Plain(Unavailable, current));
      }
      r := SubmitStaged(current, answer, survives);
    }

    /** Write ahead, call the scheduler, write what it said. */
    method SubmitStaged(current: Durable, answer: Answer, survives: nat) returns (r: Outcome)
      requires state == Some(current)
      modifies this
      ensures
        var effects :=
          [WriteState(current.(phase := Submitting)), InvokeScheduler(answer), WriteState(Answered(current, answer))];
        && Now() == ApplyAll(old(Now()), Take(effects, survives))
        && r == if survives >= 3 then Replied(Plain(AnswerStatus(answer), Answered(current, answer))) else Died
    {
      Survivors(Now(), [WriteState(current.(phase := Submitting)), InvokeScheduler(answer),
                        WriteState(Answered(current, answer))], survives);
      if survives == 0 { return Died; }
      state := Some(current.(phase := Submitting));
      if survives == 1 { return Died; }
      Invoke(answer);
      if survives == 2 { return Died; }
      var next := current;
      if answer.TimedOut? {
        next := next.(phase := Ambiguous);
        r := Replied(Plain(AmbiguousStatus, next));
      } else if answer.Rejected? {
        next := next.(phase := SubmissionFailed);
        r := Replied(Plain(FailedStatus, next));
      } else if answer.AcceptedUnparsed? {
        next := next.(phase := Ambiguous);
        r := Replied(Plain(AmbiguousStatus, next));
      } else {
        next := next.(phase := Submitted, jobId := Some(answer.id));
        r := Replied(Plain(Ok, next));
      }
      state := Some(next);
    }

    method Reconcile(scheduler: SchedulerState, result: ResultFile, survives: nat) returns (r: Outcome)
      modifies this
      ensures Now() == After(old(Now()), ReconcileRequest(scheduler, result), survives)
      ensures r == if Finishes(old(Now()), ReconcileRequest(scheduler, result), survives)
                   then Replied(Plan(old(Now()), ReconcileRequest(scheduler, result)).1) else Died
    {
      Survivors(Now(), Plan(Now(), ReconcileRequest(scheduler, result)).0, survives);
      if state.None? { return Replied(WorkerError); }
      var current := state.value;
      if (current.phase == Submitting || current.phase == Ambiguous) && current.jobId.None? {
        current := current.(phase := Ambiguous);
        if survives == 0 { return Died; }
        state := Some(current);
        return Replied(Plain(AmbiguousStatus, current));
      }
      if current.jobId.None? { return Replied(Plain(UnknownStatus, current)); }
      match result {
        case Oversized => return Replied(Reply(Unavailable, current, Some(scheduler), Oversized));
        case Corrupt => return Replied(Reply(FailedStatus, current, Some(scheduler), Corrupt));
        case Bundle => return Replied(Reply(Ok, current, Some(scheduler), Bundle));
        case Absent =>
          return Replied(Reply(if scheduler == Unseen then UnknownStatus else Ok, current, Some(scheduler), Absent));
      }
    }

    method Cancel(executable: bool, succeeds: bool, survives: nat) returns (r: Outcome)
      modifies this
      ensures Now() == After(old(Now()), CancelRequest(executable, succeeds), survives)
      ensures r == if Finishes(old(Now()), CancelRequest(executable, succeeds), survives)
                   then Replied(Plan(old(Now()), CancelRequest(executable, succeeds)).1) else Died
    {
      Survivors(Now(), Plan(Now(), CancelRequest(executable, succeeds)).0, survives);
      if state.None? { return Replied(WorkerError); }
      var current := state.value;
      if current.jobId.None? { return Replied(Plain(UnknownStatus, current)); }
      if !executable { return Replied(Plain(Unavailable, current)); }
      if !succeeds { return Replied(Plain(FailedStatus, current)); }
      current := current.(phase := Cancelled);
      if survives == 0 { return Died; }
      state := Some(current);
      r := Replied(Plain(Ok, current));
    }
  }

  /** The surviving prefix, effect by effect. */
  lemma Survivors(w: World, es: seq<Effect>, survives: nat)
    requires |es| <= 3
    ensures survives == 0 || es == [] ==> ApplyAll(w, Take(es, survives)) == w
    ensures Min(survives, |es|) == 1 ==> ApplyAll(w, Take(es, survives)) == Apply(w, es[0])
    ensures Min(survives, |es|) == 2 ==> ApplyAll(w, Take(es, survives)) == Apply(Apply(w, es[0]), es[1])
    ensures Min(survives, |es|) == 3 ==> ApplyAll(w, Take(es, survives)) == Apply(Apply(Apply(w, es[0]), es[1]), es[2])
  {
    var done := Take(es, survives);
    if |done| == 0 {
      assert done == [];
    } else if |done| == 1 {
      assert done[1..] == [];
    } else if |done| == 2 {
      var w1 := Apply(w, done[0]);
      assert ApplyAll(w1, done[1..]) == Apply(w1, es[1]) by { assert done[1..][1..] == []; }
    } else {
      var w1 := Apply(w, done[0]);
      var w2 := Apply(w1, done[1]);
      assert ApplyAll(w2, done[1..][1..]) == Apply(w2, es[2]) by { assert done[1..][1..][1..] == []; }
      assert ApplyAll(w1, done[1..]) == ApplyAll(w2, done[1..][1..]);
    }
  }

  // ---- runs ----

  /** One serialised step: an operation cut short anywhere, or new uploads. */
  datatype Step =
    | Operation(request: Request, survives: nat)
    | Uploads(files: map<string, Digest>, variant: Option<Digest>)

  function Next(w: World, s: Step): World {
    match s
    case Operation(r, survives) => After(w, r, survives)
    case Uploads(files, variant) => w.(files := files, variant := variant)
  }

  function Run(w: World, steps: seq<Step>): World {
    if steps == [] then w else Next(Run(w, steps[..|steps| - 1]), steps[|steps| - 1])
  }

  predicate HoldsJob(p: Phase) {
    p == Submitted || p == Cancelled
  }

  /** What every reachable state file and call record satisfy. */
  ghost predicate Consistent(w: World) {
    && |w.calls| <= 1
    && (w.state.None? ==> w.calls == [])
    && (w.state.Some? ==>
          var d := w.state.value;
          && (d.jobId.Some? <==> HoldsJob(d.phase))
          && (d.phase == Prepared ==> w.calls == [])
          && (HoldsJob(d.phase) ==> |w.calls| == 1 && w.calls[0].answer == AcceptedAs(d.jobId.value))
          && (d.phase == SubmissionFailed ==> w.calls == [] || w.calls[0].answer == Rejected)
          && (w.calls != [] ==> CallMatches(w.calls[0], d.intent)))
  }

  /** The call was made for the frozen intent, on exactly its content. */
  ghost predicate CallMatches(c: Call, intent: Intent) {
    c.family == intent.family
    && (forall name | name in intent.files :: name in c.files && c.files[name] == intent.files[name])
    && (intent.variant.Some? ==> c.variant == intent.variant)
  }

  /** Every prefix of every operation keeps the invariant. */
  lemma StepKeepsConsistency(w: World, s: Step)
    requires Consistent(w)
    ensures Consistent(Next(w, s))
  {
    if s.Operation? { Survivors(w, Plan(w, s.request).0, s.survives); }
  }

  lemma {:induction false} RunsAreConsistent(w: World, steps: seq<Step>)
    requires Consistent(w)
    ensures Consistent(Run(w, steps))
  {
    if steps != [] {
      RunsAreConsistent(w, steps[..|steps| - 1]);
      StepKeepsConsistency(Run(w, steps[..|steps| - 1]), steps[|steps| - 1]);
    }
  }

  /** At most once: over every serialised sequence of requests, crashes and
      uploads, the scheduler is invoked at most once, only on the frozen content,
      never while the state file still says prepared; and an accepted job is
      never recorded as failed. */
  lemma AtMostOneSubmission(steps: seq<Step>)
    ensures
      var w := Run(UNTOUCHED, steps);
      && |w.calls| <= 1
      && (w.calls != [] ==> w.state.Some? && w.state.value.phase != Prepared
                            && CallMatches(w.calls[0], w.state.value.intent))
      && (w.calls != [] && WasAccepted(w.calls[0].answer) ==> w.state.value.phase != SubmissionFailed)
      && (w.state.Some? ==> (w.state.value.jobId.Some? <==> HoldsJob(w.state.value.phase)))
      && (w.state.Some? && w.state.value.jobId.Some? ==>
            w.calls != [] && w.calls[0].answer == AcceptedAs(w.state.value.jobId.value))
  {
    RunsAreConsistent(UNTOUCHED, steps);
  }

  lemma StepKeepsTruth(w: World, s: Step)
    requires Consistent(w)
    ensures w.state.Some? ==> Next(w, s).state.Some? && Next(w, s).state.value.intent == w.state.value.intent
    ensures w.state.Some? && w.state.value.phase != Prepared ==>
      Next(w, s).state.value.phase != Prepared && Next(w, s).state.value.jobId == w.state.value.jobId
      && Next(w, s).calls == w.calls
  {
    if s.Operation? { Survivors(w, Plan(w, s.request).0, s.survives); }
  }

  /** The first prepare freezes the intent for good, and once the state file has
      left `prepared` neither its job identity nor the calls ever change again. */
  lemma {:induction false} TruthIsPermanent(w: World, steps: seq<Step>)
    requires Consistent(w) && w.state.Some?
    ensures Run(w, steps).state.Some? && Run(w, steps).state.value.intent == w.state.value.intent
    ensures w.state.value.phase != Prepared ==>
      Run(w, steps).state.value.phase != Prepared && Run(w, steps).state.value.jobId == w.state.value.jobId
      && Run(w, steps).calls == w.calls
  {
    if steps != [] {
      var rest := steps[..|steps| - 1];
      TruthIsPermanent(w, rest);
      RunsAreConsistent(w, rest);
      StepKeepsTruth(Run(w, rest), steps[|steps| - 1]);
    }
  }

  /** A staging directory without a state file: what a worker leaves that dies
      between creating the one and writing the other. */
  predicate Stranded(w: World) {
    w.staging && w.state.None?
  }

  /** Stranding is safe but for ever: no sequence of requests ever prepares or
      submits the execution, ... */
  lemma {:induction false} PrepareCrashStrands(w: World, steps: seq<Step>)
    requires Stranded(w)
    ensures Stranded(Run(w, steps)) && Run(w, steps).calls == w.calls
  {
    if steps != [] {
      PrepareCrashStrands(w, steps[..|steps| - 1]);
      var s := steps[|steps| - 1];
      if s.Operation? {
        Survivors(Run(w, steps[..|steps| - 1]), Plan(Run(w, steps[..|steps| - 1]), s.request).0, s.survives);
      }
    }
  }

  /** ... and nothing else is for ever: some sequence of requests gives a world a
      state file if and only if it is not stranded. */
  lemma PreparableExactly(w: World)
    ensures (exists steps :: Run(w, steps).state.Some?) <==> !Stranded(w)
  {
    if Stranded(w) {
      forall steps ensures Run(w, steps).state.None? { PrepareCrashStrands(w, steps); }
    } else if w.state.Some? {
      assert Run(w, []) == w;
    } else {
      var intent := Intent(Slurm, map[], None);
      var steps := [Operation(PrepareRequest(intent), 2)];
      assert Run(w, steps) == Next(w, steps[0]) by { assert steps[..0] == []; }
      Survivors(w, Plan(w, PrepareRequest(intent)).0, 2);
      assert Run(w, steps).state.Some?;
    }
  }

  /** A prepare that lives through at least one durable effect. */
  predicate Prepares(s: Step) {
    s.Operation? && s.request.PrepareRequest? && s.survives >= 1
  }

  predicate PreparesFirst(steps: seq<Step>, k: nat) {
    k < |steps| && Prepares(steps[k]) && forall j | 0 <= j < k :: !Prepares(steps[j])
  }

  lemma NextStaging(w: World, s: Step)
    requires w.state.Some? ==> w.staging
    ensures Next(w, s).state.Some? ==> Next(w, s).staging
    ensures Next(w, s).staging <==> w.staging || Prepares(s)
    ensures Stranded(Next(w, s)) <==> if w.staging then w.state.None? else Prepares(s) && s.survives == 1
  {
    if s.Operation? { Survivors(w, Plan(w, s.request).0, s.survives); }
  }

  /** Where a step prepares, one does so first. */
  lemma {:induction false} SomeoneFirst(steps: seq<Step>)
    ensures (exists k: nat :: PreparesFirst(steps, k)) <==> exists j | 0 <= j < |steps| :: Prepares(steps[j])
  {
    if steps != [] {
      var n := |steps| - 1;
      var before := steps[..n];
      SomeoneFirst(before);
      assert forall k: nat | k < n :: PreparesFirst(steps, k) <==> PreparesFirst(before, k);
      assert (forall j | 0 <= j < n :: !Prepares(before[j])) && Prepares(steps[n]) ==> PreparesFirst(steps, n);
    }
  }

  /** A history strands the execution if and only if the first prepare to leave
      anything behind leaves one effect, the directory. */
  lemma {:induction false} StrandedExactly(steps: seq<Step>)
    ensures Run(UNTOUCHED, steps).state.Some? ==> Run(UNTOUCHED, steps).staging
    ensures Run(UNTOUCHED, steps).staging <==> exists k: nat :: PreparesFirst(steps, k)
    ensures Stranded(Run(UNTOUCHED, steps)) <==> exists k: nat :: PreparesFirst(steps, k) && steps[k].survives == 1
  {
    if steps != [] {
      var n := |steps| - 1;
      var before := steps[..n];
      StrandedExactly(before);
      NextStaging(Run(UNTOUCHED, before), steps[n]);
      assert forall k: nat | k < n :: PreparesFirst(steps, k) <==> PreparesFirst(before, k);
      SomeoneFirst(before);
      assert PreparesFirst(steps, n) <==> Prepares(steps[n]) && forall j | 0 <= j < n :: !Prepares(before[j]);
    }
  }

  lemma PrepareCrashIsReachable(intent: Intent)
    ensures Stranded(Next(UNTOUCHED, Operation(PrepareRequest(intent), 1)))
  {
    Survivors(UNTOUCHED, Plan(UNTOUCHED, PrepareRequest(intent)).0, 1);
  }

  /** Serialisation is needed: two submits that both read `prepared` before
      either writes invoke the scheduler twice. */
  lemma OverlappingSubmitsCallTwice(w: World, a: Answer, b: Answer)
    requires w.state.Some? && w.state.value.phase == Prepared && StagedAsExpected(w, w.state.value.intent)
    ensures
      var first, second := Plan(w, SubmitRequest(true, a)).0, Plan(w, SubmitRequest(true, b)).0;
      |ApplyAll(ApplyAll(w, first), second).calls| == |w.calls| + 2
  {
    var first, second := Plan(w, SubmitRequest(true, a)).0, Plan(w, SubmitRequest(true, b)).0;
    Survivors(w, first, 3);
    Survivors(ApplyAll(w, first), second, 3);
    assert Take(first, 3) == first && Take(second, 3) == second;
  }

  /** So does a reconcile that read `submitting` and writes last: it overwrites
      the freshly recorded job identity. */
  lemma OverlappingReconcileForgetsJob(w: World, id: JobId, scheduler: SchedulerState, result: ResultFile)
    requires w.state.Some? && w.state.value.phase == Prepared && w.state.value.jobId.None?
    requires StagedAsExpected(w, w.state.value.intent)
    ensures
      var submit := Plan(w, SubmitRequest(true, AcceptedAs(id))).0;
      var during := ApplyAll(w, Take(submit, 2));
      var stale := Plan(during, ReconcileRequest(scheduler, result)).0;
      var after := ApplyAll(ApplyAll(during, submit[2..]), stale);
      var recorded := ApplyAll(during, submit[2..]);
      recorded.state.Some? && recorded.state.value.jobId == Some(id)
      && after.state.Some? && after.state.value.jobId.None?
  {
    var submit := Plan(w, SubmitRequest(true, AcceptedAs(id))).0;
    Survivors(w, submit, 2);
    var during := ApplyAll(w, Take(submit, 2));
    assert submit[2..] == [submit[2]] && Take(submit[2..], 1) == submit[2..];
    Survivors(during, submit[2..], 1);
    var stale := Plan(during, ReconcileRequest(scheduler, result)).0;
    assert Take(stale, 1) == stale;
    Survivors(ApplyAll(during, submit[2..]), stale, 1);
  }
}
