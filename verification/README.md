# Bourne: a verified model of planning and submission

Bourne plans a scientific workload for a computing site, submits it to Slurm,
PBS or LSF on this machine or over SSH, and keeps provenance of what ran. This
project models the parts of it where a mistake costs most, and proves what
they promise.

**Site-aware planning.** Constraint expressions are a datatype with an explicit
unknown (`ConstraintExpressions.dfy`); the provider evaluates constraints,
enumerates parameter assignments and derives resource hints
(`ConstraintProviders.dfy`). Shapes and hard site policy are in
`ResourceShapes.dfy` and `SitePolicy.dfy`; node widths by gcd, divisors and
ceilings in `NodeWidths.dfy`; the bounded shape generator and the interleaving of
targets in `ShapeGeneration.dfy`. `PlanningCandidates.dfy` judges one (shape,
environment, assignment) triple, prunes groups and ranks assignments;
`CandidateExploration.dfy` is the bounded round-robin with its counters, and
`CoverageTheorems.dfy` proves what the coverage report means against a naive
count over the full product (`Counting.dfy`). `SchedulerDirectives.dfy` renders a
shape for each scheduler and reads the directives back.

**Submission and reconciliation.** `RemoteWorkers.dfy` is the one-shot worker with
its write-ahead state file: every operation is a list of durable effects, and a
crash keeps any prefix of it. `ExecutionStores.dfy` is the controller's database,
one transaction per method. `RemoteSubmission.dfy` and `LocalSubmission.dfy` are
the two ways of submitting, collecting, waiting and cancelling; their methods
also say what every one of their durable steps leaves, which is what a controller
that dies there leaves behind. `ExecutionRuns.dfy` is `execute_plan` with its
guard and what every later operation, finished or cut short, keeps.
`ExecutionHistories.dfy` proves what holds after any history of operations on any
number of attempts, each operation cut after any of its steps.

**Small algorithms.** `ExperimentLineages.dfy` (experiment lineage and the
ancestry walk), `VariantDocuments.dfy` (in-place JSON edits) and `Ulids.dfy`
(public identifiers).

Code that changes things step by step is modelled by methods with loops and by
classes whose fields the methods update, each proved equal to a specification
function; the theorems are about those functions. `dafny verify dfyconfig.toml`
checks everything.

## What the proofs established

Most promises hold for all inputs. These do not hold everywhere; each is proved
with its exact condition, and most also with a concrete case:

- *Never blind resubmission* (README.md:138-139 of the repository) holds at every
  point of a history if and only if no execution that starts is unsafe
  (`NeverBlindExactly`, `ExecutionIsExact`). An execution is unsafe exactly when
  the scheduler accepted and one of these happened (`Unsafe`): the controller died
  after the submit call and before recording its reply; the submit reply was lost
  and the recovery reply reported an oversized or corrupt result file, so the
  attempt becomes `failed` although the worker knows the job; Slurm or PBS on this
  machine printed no usable job id; or the job id already belongs to another
  attempt. docs/WORKLOAD_EXECUTION.md:105-106 promises that a response without an
  exact id is ambiguous, for LSF; the code for Slurm and PBS
  (src/bourneprov/backends.py:503-507, 606-610) raises the plain error.
- *Ambiguity locks a plan* at every point of a history if and only if no execution
  both ends ambiguous and is stamped no later than another attempt of its plan
  (`LockHoldsExactly`); a clock that moves forward is enough (`TimelyIsOrderly`).
  The lock is permanent when the worker never learned a job identity
  (`LockIsPermanent`).
- A linked experiment never changes, but `wait` overwrites the state of such an
  attempt: with any answered observation on the local scheduler
  (`WaitLeavesLinkedExactly`), and with `collection_failed` exactly when the job is
  over and no repeat of the linked experiment is found (`WaitOverwritesExactly`,
  `RemoteWaitOverwritesExactly`).
- The event log refines the state column in append order. In the timestamp order
  `events()` uses, where random ids order the events of one instant, every listing
  does so if and only if every newest state event by time carries the state
  (`TimeOrderRefinesExactly`).
- An execution can be lost while it is prepared: a remote machine can still be
  prepared by some sequence of requests if and only if it has a state file or no
  staging directory (`PreparableExactly`), and a history leaves it stranded if and
  only if the first prepare that left anything behind left just the directory
  (`StrandedExactly`). Stranding is safe: nothing is ever submitted
  (`PrepareCrashStrands`).
- Shape generation divides by zero exactly when the target lists zero GPUs, the
  request mentions GPUs and no node count, no cap below one applies, and a
  combination without layout hints comes up before the limit is reached
  (`GeneratorFailsExactly`, `ZeroGpuTargetFails`).
- The hard node cap agrees with policy on every known node count
  (`HardCapIsPolicy`). A shape whose node count would stay unknown is lost to it
  exactly when the cap is below one (`CapDropsUnknownTopology`), although policy
  calls its node count unresolved (`DroppedTopologyIsUnresolved`).
- Resource hints miss a satisfied equality exactly when its peer is itself a
  boolean or contains a float (`HintsAreComplete`).
- LSF slots carry the CPUs of a shape exactly without ranks or with one CPU per
  rank (`LsfSlotsAreCpus`). Slurm and PBS keep the resources of every generated
  shape (`SlurmConserves`, `PbsConserves`). For every other shape the exact
  conditions are, for PBS, `PbsConserves`, and for Slurm, `SlurmKeepsExactly` (CPUs
  with ranks, GPUs, memory) and `UnrankedShapesKeepCpus` (CPUs without ranks).
- Variant edits settle whatever their values if and only if no binding path leads
  into another (`BindingsSettleExactly`).

## Model

| member | source | states |
|---|---|---|
| ConstraintExpressions.EvaluationIsMonotone | src/bourneprov/constraint_providers.py:428-450 | a value (or an escaping error) found with fewer known parameters is found unchanged with more, for every expression |
| ConstraintExpressions.EvaluationIsLocal | src/bourneprov/constraint_providers.py:464-485 | evaluation depends only on the parameters and resources the collectors name, so resource-free expressions ignore the shape |
| ConstraintExpressions.KindOfValue | src/bourneprov/constraint_providers.py:428-450 | a numeric value of a resource-free expression is a float exactly when a float occurs in it, and a boolean exactly when the expression is one |
| ConstraintProviders.EvaluateConstraints | src/bourneprov/constraint_providers.py:230-251 | one verdict per constraint, in order, with unknown operands and failing comparisons undetermined; it fails exactly when some operand raises |
| ConstraintProviders.ShapeOnlyViolationIsPermanent | src/bourneprov/constraint_providers.py:230-251 | a hard violation seen with no parameters is a hard violation under every assignment |
| ConstraintProviders.EveryChoiceIsReached | src/bourneprov/constraint_providers.py:218-228 | every choice of one value per parameter occurs in the product, at the index computed for it |
| ConstraintProviders.EveryIndexIsAChoice | src/bourneprov/constraint_providers.py:218-228 | every index of the product comes from a choice, so nothing is enumerated twice or out of range |
| ConstraintProviders.CountCombinations | src/bourneprov/constraint_providers.py:218-228 | the running product is the size of the cartesian product |
| ConstraintProviders.ParameterAssignments | src/bourneprov/constraint_providers.py:218-228 | a limit below one is refused; otherwise the first `limit` assignments of the product and the theoretical count |
| ConstraintProviders.Enumerate | src/bourneprov/constraint_providers.py:218-228 | the loop yields the assignments of the product in order, cut at the count |
| ConstraintProviders.EnumerationIsComplete | src/bourneprov/constraint_providers.py:218-228 | the enumeration holds assignments only, and all of them when the limit reaches the theoretical count |
| ConstraintProviders.AddHints | src/bourneprov/constraint_providers.py:259-292 | one orientation of an equality adds exactly the integer values its peer takes under some assignment, and fails exactly when the peer raises |
| ConstraintProviders.ResourceValueHints | src/bourneprov/constraint_providers.py:259-292 | ascending hints holding exactly the values some hard equality contributes under a bounded assignment; it fails exactly when such an equality raises or the limit is below one |
| ConstraintProviders.HintsAreSound | src/bourneprov/constraint_providers.py:259-292 | every hint is witnessed by a bounded assignment that satisfies a hard equality on every shape offering that value |
| ConstraintProviders.HintsAreComplete | src/bourneprov/constraint_providers.py:259-292 | a shape integer satisfying such an equality is hinted exactly when the peer is not itself a boolean and contains no float |
| ConstraintProviders.BooleanPeerHintsNothing | src/bourneprov/constraint_providers.py:259-292 | a boolean peer equal to the shape value satisfies the constraint and hints nothing |
| SitePolicy.ResourceRequirements | src/bourneprov/site_planning.py:888-918 | incompatible exactly when a requested resource is known to be short, unknown exactly when one is missing |
| SitePolicy.GroupClaims | src/bourneprov/site_planning.py:968-1031 | groups exactly the applicable hard claims of each policy property, in claim order, properties distinct |
| SitePolicy.JudgeProperty | src/bourneprov/site_planning.py:968-1031 | one property worsens the running state and gives reasons exactly as its own verdict says |
| SitePolicy.Policy | src/bourneprov/site_planning.py:968-1031 | the state is the worst verdict over all properties, whatever the claim order; exceeded and unknown reasons appear exactly when such a verdict does |
| NodeWidths.GcdAllDivisors | src/bourneprov/site_planning.py:285-328 | a number divides the gcd of the totals if and only if it divides each |
| NodeWidths.PositiveDivisors | src/bourneprov/site_planning.py:357-367 | trial division up to the integer square root returns, ascending, exactly the positive divisors |
| NodeWidths.HardCapIsPolicy | src/bourneprov/site_planning.py:370-396 | for a shape of the same class, node class and account, a node count exceeds the generator's cap if and only if `max_nodes` policy refuses it; floors versus real limits, conflicting claims and claim order included |
| NodeWidths.DivisorIsWidth | src/bourneprov/site_planning.py:299-328 | the ceiling minimum, divisibility by the gcd and the cap together say exactly that n divides every total, its shares fit capacity and the cap holds |
| NodeWidths.SelectWidths | src/bourneprov/site_planning.py:299-328 | the filter keeps exactly the feasible divisors, in order |
| NodeWidths.DerivedNodeValues | src/bourneprov/site_planning.py:272-328 | every branch: cap below one, requested, hinted, division by zero, unknown topology, and otherwise exactly the feasible widths of a naive search, cut at the limit |
| NodeWidths.AutomaticWidthsAreExact | src/bourneprov/site_planning.py:299-328 | automatic widths are ascending and feasible, and a feasible count is missing only if the limit was reached below it |
| NodeWidths.ZeroGpuTargetFails | src/bourneprov/site_planning.py:272-328 | the division fails exactly for zero GPUs per node and a request that mentions GPUs, when neither a node count, a layout hint nor a cap below one decides first |
| NodeWidths.CapDropsUnknownTopology | src/bourneprov/site_planning.py:272-298 | for any claims, demand and capacity, an unknown topology is lost to the cap exactly when the cap is below one and topology would have stayed unknown without it |
| NodeWidths.DroppedTopologyIsUnresolved | src/bourneprov/site_planning.py:968-1031 | policy calls the unknown node count of such a shape unresolved, never incompatible |
| NodeWidths.HalfANodeDropsTopology | src/bourneprov/site_planning.py:287-298 | a concrete claim that does it |
| ShapeGeneration.ProviderHintsArePositive | src/bourneprov/constraint_providers.py:278-292 | hints of everything but GPUs are positive |
| ShapeGeneration.LayoutNodesAreJustified | src/bourneprov/site_planning.py:331-354 | layout hints give exactly the positive node counts hinted directly or by exact per-node quotients, ascending |
| ShapeGeneration.EvenShapeIsWellFormed | src/bourneprov/planning_models.py:55-106 | a combination that passes the divisibility tests satisfies every product and positivity check, so construction never raises |
| ShapeGeneration.ExtendWithNodes | src/bourneprov/site_planning.py:189-269 | the innermost loop appends exactly the accepted shapes of a combination, in order, cut at the limit |
| ShapeGeneration.ExtendWithCombo | src/bourneprov/site_planning.py:170-269 | one combination extends the shapes found as the reference step does |
| ShapeGeneration.ExtendWithCpus | src/bourneprov/site_planning.py:169-269 | the middle loop accumulates combination after combination and stops at the limit or the first failure |
| ShapeGeneration.GenerateTargetShapes | src/bourneprov/site_planning.py:143-269 | the nested loops equal the reference enumeration of the target's shapes |
| ShapeGeneration.GeneratorIsFaithful | src/bourneprov/site_planning.py:143-269 | every generated shape is well formed, within observed capacity, equal to each explicit request and never short of it; at most `limit` of them; the only failure is the zero-GPU division |
| ShapeGeneration.GeneratorFailsExactly | src/bourneprov/site_planning.py:143-328 | generation fails exactly when zero GPUs meet a GPU request without a node count or a cap below one, and a combination without layout hints comes up before the limit |
| ShapeGeneration.UnhintedGeneratorFailsExactly | src/bourneprov/site_planning.py:143-328 | without layout hints the first combination decides: it fails exactly under the request, target and cap condition |
| ShapeGeneration.GeneratorIsComplete | src/bourneprov/site_planning.py:143-269 | below the limit every accepted shape of every combination is among the results |
| ShapeGeneration.InterleaveTargets | src/bourneprov/site_planning.py:113-124 | round-robin over targets: turns strictly advance, none is skipped, and only the limit cuts the rest |
| PlanningCandidates.ApplyConstraints | src/bourneprov/site_planning.py:835-854 | constraint results worsen the state and add reasons exactly as their verdicts say |
| PlanningCandidates.GroupReasons | src/bourneprov/site_planning.py:783-816 | reasons that do not depend on the assignment, each present exactly when its cause is |
| PlanningCandidates.JudgeGroup | src/bourneprov/site_planning.py:783-833 | the running state equals the worst of the group's verdicts and is explained by its reasons |
| PlanningCandidates.RequirementReasons | src/bourneprov/site_planning.py:790-803 | requested resources, plus memory and GPU requests LSF cannot map |
| PlanningCandidates.EvaluateCandidate | src/bourneprov/site_planning.py:772-865 | the state is the worst of all verdicts judged independently and the reasons justify it; it fails exactly when a constraint raises |
| PlanningCandidates.GroupIsHardInvalid | src/bourneprov/site_planning.py:743-769 | true exactly for denied, short, policy-refused or shape-violating groups; it fails exactly when nothing earlier refuses the group and a constraint raises |
| PlanningCandidates.PruningIsSound | src/bourneprov/site_planning.py:743-865 | a pruned group is hard-invalid or policy-incompatible under every assignment |
| PlanningCandidates.KeptGroupsFailOnlyOnParameters | src/bourneprov/site_planning.py:743-865 | a kept group is refused under an assignment exactly when parameters break a constraint the shape alone did not |
| PlanningCandidates.AssignmentsByFeasibility | src/bourneprov/site_planning.py:720-740 | a stable reordering by feasibility; it fails exactly when some evaluation raises |
| PlanningCandidates.BestComesFirst | src/bourneprov/site_planning.py:720-740 | the first assignment is at least as feasible as any other |
| CandidateExploration.PartitionGroups | src/bourneprov/site_planning.py:640-658 | every group is kept with its ranked assignments or discarded, as pruning says; it fails exactly when judging some group raises, or ranking some kept one |
| CandidateExploration.RankIfKept | src/bourneprov/site_planning.py:640-658 | one group: pruned, or its ranked assignments, with its exact failure |
| CandidateExploration.ExpandKept | src/bourneprov/site_planning.py:660-676 | candidate k shows kept group k mod width under its (k div width)-th best assignment, up to the limit |
| CandidateExploration.RepresentDiscarded | src/bourneprov/site_planning.py:678-689 | one representative per discarded group while there is room, appended in order; it fails exactly when one of those raises |
| CandidateExploration.CountStates | src/bourneprov/site_planning.py:691-694 | counts the candidates in the given states |
| CandidateExploration.CollectCandidates | src/bourneprov/site_planning.py:627-689 | the candidate list in closed form and exactly the explored group keys, with the exact failure |
| CandidateExploration.ExploreGroups | src/bourneprov/site_planning.py:627-717 | the whole report: candidates, counters, truncation and explored groups; it fails exactly when partitioning or a representative does |
| CandidateExploration.Explore | src/bourneprov/site_planning.py:605-717 | fails exactly for limits outside 1..64 or when partitioning or a representative raises; otherwise the report over the sorted product of shapes and environments |
| CoverageTheorems.CoverageIsAccounted | src/bourneprov/site_planning.py:691-717 | generated plus pruned never exceeds the product and equals it when not truncated; truncated exactly when the limit is below the unpruned combinations |
| CoverageTheorems.UntruncatedIsExact | src/bourneprov/site_planning.py:605-717 | when not truncated, the viable count equals the viable combinations of all groups under all assignments, each evaluated on its own |
| CoverageTheorems.ExplorationCountsTheProduct | src/bourneprov/site_planning.py:605-717 | the same over the shapes and environments the caller passed, and generated plus pruned equals the product size |
| CoverageTheorems.TurnsCountEverything | src/bourneprov/site_planning.py:660-676 | all turns of all layers count every assignment of every kept group once |
| CoverageTheorems.PrunedCountNothing | src/bourneprov/site_planning.py:743-769 | leaving pruned groups out does not change the naive viable count |
| CoverageTheorems.NoGroupStarves | src/bourneprov/site_planning.py:660-676 | with room for one candidate per kept group every such group gets one under its best assignment, and turn counts differ by at most one |
| CoverageTheorems.ViableGroupIsSeen | src/bourneprov/site_planning.py:720-740 | a group with a viable bounded assignment shows a viable candidate first |
| CoverageTheorems.NoneReportedMeansNone | src/bourneprov/site_planning.py:605-717 | with that room, zero viable means that no bounded combination of any group is viable |
| SchedulerDirectives.MebibytesRoundUp | src/bourneprov/backends.py:1254-1255 | rounding up to whole mebibytes never loses a byte and adds less than one mebibyte |
| SchedulerDirectives.WalltimeIsExact | src/bourneprov/backends.py:1248-1251 | hours, minutes and seconds multiply back to the limit, within their ranges |
| SchedulerDirectives.SlurmCpuDirectives | src/bourneprov/backends.py:838-874 | node, task and CPU directives read back as the shape's layout; it fails exactly when CPUs cannot be placed |
| SchedulerDirectives.SlurmDirectives | src/bourneprov/backends.py:838-885 | all directives read back as the shape's layout, GPUs and per-node memory; exact failure condition |
| SchedulerDirectives.SlurmConserves | src/bourneprov/backends.py:838-885 | for a complete layout nothing raises, nodes times tasks per node times CPUs per task is the CPU total, ranks and GPUs multiply back, memory is covered with less than a mebibyte per node to spare |
| SchedulerDirectives.SlurmKeepsExactly | src/bourneprov/backends.py:838-885 | for every shape that renders: ranks, and with ranks the CPUs, are asked for as they are; GPUs multiply back exactly when the node count is known, no per-node value is given, or it is the total; memory is covered with less than a mebibyte per node to spare exactly under that condition or when the one share rounds to the mebibytes of the total |
| SchedulerDirectives.UnrankedShapesKeepCpus | src/bourneprov/backends.py:838-874 | for every shape without ranks whose CPUs can be placed, exactly when Slurm is asked for its CPUs: with threads, with CPUs per node, with neither |
| SchedulerDirectives.ThreadsWithoutRanksLoseCpus | src/bourneprov/backends.py:838-874 | a well-formed shape of eight CPUs that Slurm is asked two for |
| SchedulerDirectives.PbsDirectives | src/bourneprov/backends.py:888-921 | every field of the chunk in terms of the shape; exact failure condition |
| SchedulerDirectives.PbsConserves | src/bourneprov/backends.py:888-921 | for every shape that renders, chunks multiply back to CPUs, GPUs and ranks exactly when the node count is known, the per-node value is derived, or it is the total; memory is covered with less than a mebibyte per chunk to spare exactly under that condition or when the one chunk rounds to the mebibytes of the total |
| SchedulerDirectives.LsfDirectives | src/bourneprov/backends.py:937-982 | slots, span and rounded wall time; it fails exactly for unmapped GPUs or memory, nodes without slots, or uneven hosts |
| SchedulerDirectives.LsfFillsHosts | src/bourneprov/backends.py:937-982 | a generated LSF shape is refused exactly for GPUs or memory, and slots are nodes times slots per host |
| SchedulerDirectives.LsfSlotsAreCpus | src/bourneprov/backends.py:937-982 | for every shape with CPUs, slots equal them exactly without ranks or with one CPU per rank, given or derived; otherwise, if the ranks share the CPUs evenly, slots are fewer |
| SchedulerDirectives.GeneratedShapesRender | src/bourneprov/backends.py:838-1008 | every shape generated for Slurm or PBS is a complete layout, so rendering never raises |
| RemoteWorkers.RemoteWorker.constructor | src/bourneprov/remote_worker.py:182-232 | nothing staged, no state file, no scheduler call |
| RemoteWorkers.RemoteWorker.Upload | src/bourneprov/remote_backend.py:151-156 | uploads replace staged content and touch nothing else |
| RemoteWorkers.RemoteWorker.Prepare | src/bourneprov/remote_worker.py:182-232 | exactly the surviving prefix of its durable effects, and its reply when it finishes; a retry with other content is refused |
| RemoteWorkers.RemoteWorker.Submit | src/bourneprov/remote_worker.py:235-300 | the same for submit: every persisted state, digest check, missing command and answer |
| RemoteWorkers.RemoteWorker.SubmitStaged | src/bourneprov/remote_worker.py:267-300 | write ahead, call the scheduler, write its answer, cut short anywhere |
| RemoteWorkers.RemoteWorker.Reconcile | src/bourneprov/remote_worker.py:303-336 | the same for reconcile: ambiguity is persisted, a known job is observed, results classified |
| RemoteWorkers.RemoteWorker.Cancel | src/bourneprov/remote_worker.py:339-355 | the same for cancel: only a successful command is persisted |
| RemoteWorkers.StepKeepsConsistency | src/bourneprov/remote_worker.py:182-355 | every prefix of every operation keeps state file and call record consistent |
| RemoteWorkers.AtMostOneSubmission | src/bourneprov/remote_worker.py:182-336 | over every serialised sequence with crashes anywhere: at most one scheduler call, only on the frozen content, never while still `prepared`; an accepted job is never recorded as failed; job id present iff submitted or cancelled, and it is the scheduler's |
| RemoteWorkers.TruthIsPermanent | src/bourneprov/remote_worker.py:182-355 | the first prepare freezes the intent; after `prepared` neither job id nor calls change |
| RemoteWorkers.PrepareCrashStrands | src/bourneprov/remote_worker.py:206-232 | a staging directory without a state file stays so for ever, and nothing is submitted |
| RemoteWorkers.PreparableExactly | src/bourneprov/remote_worker.py:206-232 | some sequence of requests gives a remote machine a state file if and only if it is not stranded |
| RemoteWorkers.StrandedExactly | src/bourneprov/remote_worker.py:206-232 | a history from an untouched machine strands it if and only if the first prepare to leave any effect leaves exactly one; a staging directory exists exactly when some prepare left an effect |
| RemoteWorkers.PrepareCrashIsReachable | src/bourneprov/remote_worker.py:218-232 | that crash point exists |
| RemoteWorkers.OverlappingSubmitsCallTwice | src/bourneprov/remote_worker.py:235-300 | two overlapping submits call the scheduler twice, so serialisation is needed |
| RemoteWorkers.OverlappingReconcileForgetsJob | src/bourneprov/remote_worker.py:303-312 | an overlapping reconcile overwrites a fresh job identity |
| ExecutionStores.UpdateRefinesExactly | src/bourneprov/workload_storage.py:463-486 | an update keeps log and state column together exactly when the name is not evidence-only |
| ExecutionStores.NoteRefinesExactly | src/bourneprov/workload_storage.py:488-507 | a recorded event does so exactly when it is evidence-only or repeats the state |
| ExecutionStores.TimeOrderRefinesExactly | src/bourneprov/workload_storage.py:551-561 | for any log, every listing by time gives the state if and only if every newest state event by time carries it; equal timestamps included |
| ExecutionStores.TimeOrderDoesNotRefine | src/bourneprov/workload_storage.py:551-561 | listing by timestamp loses the property |
| ExecutionStores.ExecutionStore.CreateExecution | src/bourneprov/workload_storage.py:359-383 | a planned row with its first event, or nothing if the id exists |
| ExecutionStores.ExecutionStore.UpdateExecutionState | src/bourneprov/workload_storage.py:463-486 | state and event change together in one row, or not found |
| ExecutionStores.ExecutionStore.RecordExecutionEvent | src/bourneprov/workload_storage.py:488-507 | an event is appended, the state untouched |
| ExecutionStores.ExecutionStore.SaveSchedulerJob | src/bourneprov/workload_storage.py:509-526 | succeeds exactly for an attempt without a job and a job no attempt of the family holds |
| ExecutionStores.ExecutionStore.SaveRemoteState | src/bourneprov/site_storage.py:191-223 | upserts the mirror of one execution |
| ExecutionStores.ExecutionStore.ImportExperimentResult | src/bourneprov/workload_storage.py:682-741 | experiment, link and state commit together, exactly when both the experiment and the link are new |
| ExecutionStores.ExecutionStore.ImportWorkerFailure | src/bourneprov/workload_storage.py:743-781 | a result without an experiment is imported unless its evidence conflicts |
| ExecutionStores.ExecutionStore.LatestExecutionForPlan | src/bourneprov/workload_storage.py:440-449 | the attempt of the plan newest by creation time, then id |
| RemoteSubmission.RemoteSchedulerBackend.Execute | src/bourneprov/remote_backend.py:53-192 | a new attempt and its worker end as the execution specification says, for every lost request, lost reply and crash, and each durable step leaves what it says |
| RemoteSubmission.RemoteSchedulerBackend.Stage | src/bourneprov/remote_backend.py:121-156 | prepare, record, mirror and upload, or stop after a prepare without a reply |
| RemoteSubmission.RemoteSchedulerBackend.SubmitAndConclude | src/bourneprov/remote_backend.py:158-192 | submit once; if the call fails, reconcile once and never submit again |
| RemoteSubmission.RemoteSchedulerBackend.Conclude | src/bourneprov/remote_backend.py:175-192 | no reply, ambiguous or unknown: ambiguous; not ok or no job id: failed; otherwise the job is recorded unless taken |
| RemoteSubmission.RemoteSchedulerBackend.Collect | src/bourneprov/remote_backend.py:194-219 | attempt, worker and durable steps of one collect, and whether it returns, raises the backend's error or lets another exception escape |
| RemoteSubmission.RemoteSchedulerBackend.RecordReconciliation | src/bourneprov/remote_backend.py:364-421 | a missing job row is recovered from the reply, evidence appended, the mirror upserted |
| RemoteSubmission.RemoteSchedulerBackend.CollectBundle | src/bourneprov/remote_backend.py:206-219 | imports at most once; a repeated bundle returns, a conflicting one is refused and changes nothing, a duplicate elsewhere escapes as another exception |
| RemoteSubmission.RemoteSchedulerBackend.Turn | src/bourneprov/remote_backend.py:231-280 | one poll: only the backend's own error lets waiting go on or give up; a lost call or an integrity error leaves at once with nothing more recorded |
| RemoteSubmission.RemoteSchedulerBackend.Wait | src/bourneprov/remote_backend.py:221-283 | waiting is polling until a bundle returns, an exception escapes or the mirrored scheduler state is final; the delay stays between 0.05 s and a minute |
| RemoteSubmission.RemoteSchedulerBackend.Cancel | src/bourneprov/remote_backend.py:285-305 | cancelled only when the worker confirms and a job row exists |
| RemoteSubmission.RemoteWaitOverwritesExactly | src/bourneprov/remote_backend.py:221-283 | waiting sets a linked attempt to `collection_failed` exactly when a reply arrives, the job is over and the reply brings no repeat of the linked experiment |
| RemoteSubmission.OnlyOwnJob | src/bourneprov/remote_backend.py:158-192 | a job id in a submission reply is the one this attempt was given |
| LocalSubmission.SchedulerBackend.Execute | src/bourneprov/backends.py:165-258 | the attempt ends as staging, command and answer dictate, each durable step leaves what it says, and the command is asked at most once |
| LocalSubmission.SchedulerBackend.SubmitPrepared | src/bourneprov/backends.py:199-258 | the submit command's part: missing command, failed start, and every answer |
| LocalSubmission.SchedulerBackend.RecordJob | src/bourneprov/backends.py:244-258 | job row, then state; a job that is taken changes nothing |
| LocalSubmission.SchedulerBackend.Collect | src/bourneprov/backends.py:299-322 | imports at most once; unreadable, unacceptable or conflicting results change nothing; integrity errors escape |
| LocalSubmission.SchedulerBackend.Observe | src/bourneprov/backends.py:260-297 | an observation sets the state, a failed query is only noted |
| LocalSubmission.SchedulerBackend.Turn | src/bourneprov/backends.py:336-384 | one poll: collect, observe, and once the job is over collect again or give up; exceptions other than the backend's own leave at once |
| LocalSubmission.SchedulerBackend.Wait | src/bourneprov/backends.py:324-387 | waiting is such polls until one ends it |
| LocalSubmission.SchedulerBackend.Cancel | src/bourneprov/backends.py:389-432 | requests, refusals and failures are noted, a command that cannot be started leaves only the request, and only a successful command changes the state |
| LocalSubmission.LinkedResultsAreFinal | src/bourneprov/backends.py:299-322 | collecting again returns exactly for the same experiment and never changes the attempt |
| LocalSubmission.WaitOverwritesExactly | src/bourneprov/backends.py:336-384 | a turn sets a linked attempt to `collection_failed` exactly when its job is over and neither result is a repeat of the linked experiment |
| LocalSubmission.WaitLeavesLinkedExactly | src/bourneprov/backends.py:336-384 | a turn leaves a linked attempt as it was exactly when the first result is a repeat or its job cannot be queried |
| ExecutionRuns.ExecutionService.ExecutePlan | src/bourneprov/execution_service.py:154-197 | refused exactly when the newest attempt of the plan is ambiguous; otherwise one new attempt, ending as its backend and the exception mapping say, each durable step leaving what it says |
| ExecutionRuns.ExecutionService.IsLocked | src/bourneprov/execution_service.py:165-171 | the guard holds exactly when the newest attempt of the plan is ambiguous |
| ExecutionRuns.ExecutionService.Begin | src/bourneprov/execution_service.py:171-182 | the row, then the noted identity |
| ExecutionRuns.ExecutionService.Perform | src/bourneprov/execution_service.py:181-197 | the backend's effect, then `failed` unless the state is already settled |
| ExecutionRuns.CollectedKeeps | src/bourneprov/remote_backend.py:194-219 | collecting keeps the attempt sound, undoes nothing, and records only jobs and experiments nobody else has |
| ExecutionRuns.WaitedKeeps | src/bourneprov/remote_backend.py:221-283 | so does waiting, for any number of polls |
| ExecutionRuns.CancelKeeps | src/bourneprov/remote_backend.py:285-305 | so does cancelling |
| ExecutionRuns.LocalCollectKeeps | src/bourneprov/backends.py:299-322 | the same for local collecting |
| ExecutionRuns.LocalWaitKeeps | src/bourneprov/backends.py:324-387 | the same for local waiting |
| ExecutionRuns.LocalCancelKeeps | src/bourneprov/backends.py:389-432 | the same for local cancelling |
| ExecutionRuns.CollectMomentsKeep | src/bourneprov/remote_backend.py:194-219 | so does a collect whose controller dies after any step |
| ExecutionRuns.WaitMomentsKeep | src/bourneprov/remote_backend.py:221-283 | so does a wait cut short anywhere |
| ExecutionRuns.CancelMomentsKeep | src/bourneprov/remote_backend.py:285-305 | so does a cancel cut short anywhere |
| ExecutionRuns.LocalWaitMomentsKeep | src/bourneprov/backends.py:324-387 | so does a local wait cut short anywhere |
| ExecutionHistories.SubmissionOutcome | src/bourneprov/remote_backend.py:158-192 | the world and the final reply of a submission for every loss and crash |
| ExecutionHistories.RemoteExecution | src/bourneprov/remote_backend.py:53-192 | a remote execution leaves a sound attempt, blind exactly when its acceptance escapes |
| ExecutionHistories.LocalExecution | src/bourneprov/backends.py:165-258 | the same for a local execution |
| ExecutionHistories.RemoteMoment | src/bourneprov/remote_backend.py:53-192 | each step of executing remotely leaves a sound attempt, blind or ambiguous exactly as predicted |
| ExecutionHistories.LocalMomentIsMade | src/bourneprov/backends.py:165-258 | each step of executing locally does |
| ExecutionHistories.ExecutionIsExact | src/bourneprov/execution_service.py:154-197 | any execution that starts, finished or cut after any step, is blind exactly when its submission is unsafe, ambiguous exactly when it ends so, and its job is nobody else's |
| ExecutionHistories.RunsKeepInv | src/bourneprov/execution_service.py:154-254 | after every history of operations cut anywhere: each attempt sound, jobs and experiments owned by one attempt |
| ExecutionHistories.RunsEvolve | src/bourneprov/execution_service.py:154-254 | later history never changes a job row, a link or what the scheduler was asked, and never creates ambiguity or blindness |
| ExecutionHistories.AmbiguityLocksPlan | src/bourneprov/execution_service.py:165-171 | after an orderly history an ambiguous attempt is its plan's newest and only one, and execute_plan does nothing for the plan |
| ExecutionHistories.NextLockExactly | src/bourneprov/workload_storage.py:440-449 | one operation breaks the lock exactly when it starts an attempt that ends ambiguous and is stamped no later than another of its plan |
| ExecutionHistories.LockHoldsExactly | src/bourneprov/execution_service.py:165-171 | ambiguous attempts are newest at every point of a history if and only if the history is orderly |
| ExecutionHistories.TimelyIsOrderly | src/bourneprov/execution_service.py:165-171 | a forward clock makes a history orderly |
| ExecutionHistories.LockIsPermanent | src/bourneprov/remote_backend.py:337-356 | without a job id at the worker a remote ambiguity never ends |
| ExecutionHistories.AmbiguityEndsExactly | src/bourneprov/remote_backend.py:364-421 | one remote collect, finished or cut short, ends it exactly when the reply arrives with a job, either no other attempt holds it, or it is recorded already and the bundle is imported, and the controller lives to take that step |
| ExecutionHistories.LocalAmbiguityEndsExactly | src/bourneprov/backends.py:299-322 | one local collect, finished or cut short, ends it exactly when a readable result is imported |
| ExecutionHistories.EventLogRefinesState | src/bourneprov/workload_storage.py:463-507 | after every history the last event that is not evidence-only is the stored state |
| ExecutionHistories.ControllerAgreesWithScheduler | src/bourneprov/remote_backend.py:307-335 | the job row is the identity the scheduler gave, created once, unique in its family, for ever |
| ExecutionHistories.OneExperimentPerExecution | src/bourneprov/workload_storage.py:682-741 | a link never changes and its experiment belongs to no other attempt |
| ExecutionHistories.CollectAgainChangesNothing | src/bourneprov/remote_backend.py:194-219 | collecting a linked attempt again, finished or cut short, records evidence only |
| ExecutionHistories.NeverBlindExactly | src/bourneprov/execution_service.py:154-197 | no attempt is blind at any point of a history, controllers and workers dying anywhere, if and only if no execution that started was unsafe |
| ExecutionHistories.NewAttemptsKnowTheOld | src/bourneprov/execution_service.py:165-171 | in orderly histories of safe submissions a new attempt starts only when every accepted job of the plan is identified in the store |
| ExecutionHistories.UnsafeReopensPlan | src/bourneprov/execution_service.py:165-197 | an unsafe submission leaves the scheduler with a job the store does not know, and the plan open |
| ExecutionHistories.UnparsedIdResubmits | src/bourneprov/backends.py:226-243 | local Slurm without a usable id: failed, then submitted a second time |
| ExecutionHistories.BackwardClockUnlocks | src/bourneprov/workload_storage.py:440-449 | a concrete disorderly history: an ambiguous attempt stamped before a failed one does not lock its plan |
| ExecutionHistories.ControllerCrashIsBlind | src/bourneprov/remote_backend.py:128-192 | dying between submitting and recording the reply leaves a blind attempt exactly when the scheduler was asked and accepted |
| ExperimentLineages.ExperimentStore.SaveRecord | src/bourneprov/storage.py:981-1043 | one transaction: all rows by the table's constraints, or nothing |
| ExperimentLineages.ExperimentStore.TraceAncestry | src/bourneprov/tracing.py:80-92 | on any store with existing parents the loop ends, follows recorded parents without repeating, and stops at a root or before an experiment it has seen |
| ExperimentLineages.LineageIsAcyclic | src/bourneprov/storage.py:101-108 | on every reachable store no walk from child to parent, along any relationships, returns |
| ExperimentLineages.TraceIsComplete | src/bourneprov/tracing.py:80-92 | on every reachable store the trace ends at a root, never by its cycle exit, and contains every chain of parents from the producer |
| VariantDocuments.PutThenGet | src/bourneprov/variants.py:140-157 | what is written is found; writing back what was there undoes it |
| VariantDocuments.PutElsewhere | src/bourneprov/variants.py:140-157 | paths apart from the edited one keep their values |
| VariantDocuments.UndoRestores | src/bourneprov/variants.py:51-77 | replaying recorded `before` values in reverse restores the document, whatever the paths |
| VariantDocuments.LoadedDocument.Descend | src/bourneprov/variants.py:128-137 | the moving cursor ends where the path leads, or reports a missing path |
| VariantDocuments.LoadedDocument.Replace | src/bourneprov/variants.py:140-157 | exactly one slot of one node is written, the old value returned; a missing path changes nothing |
| VariantDocuments.LoadedDocument.Materialize | src/bourneprov/variants.py:51-77 | the checks and writes of all changes in order, or the first refusal |
| VariantDocuments.WriteRefines | src/bourneprov/variants.py:140-157 | one write in memory is one replacement in the unshared tree, and touches no other node |
| VariantDocuments.MaterializedIsEdited | src/bourneprov/variants.py:51-77 | editing in place refines editing the value: same success, same document, same recorded `before` values |
| VariantDocuments.Lookup | src/bourneprov/variants.py:128-137 | the value at the path, or a missing path |
| VariantDocuments.CandidateVariantChanges | src/bourneprov/variants.py:102-125 | exactly the bound values that differ, in order; unknown parameters and missing paths fail |
| VariantDocuments.CandidatesSettle | src/bourneprov/variants.py:102-125 | for bindings none of which leads into another all changes succeed, a second look finds none, and other paths keep their values |
| VariantDocuments.BindingsSettleExactly | src/bourneprov/variants.py:102-125 | any number of bindings settle for all values if and only if no path leads into another |
| Ulids.NewUlid | src/bourneprov/ids.py:11-24 | a timestamp outside 48 bits is refused; otherwise 26 digits that decode to exactly time and random bits |
| Ulids.WriteDigits | src/bourneprov/ids.py:20-24 | the digit loop writes the whole number, no bit lost |
| Ulids.BelowIsSmaller | src/bourneprov/ids.py:20-24 | digit rows of one length compare as the numbers they stand for |
| Ulids.SpellingKeepsOrder | src/bourneprov/ids.py:8 | the alphabet ascends, so string order is digit order |
| Ulids.UlidsSortByTime | src/bourneprov/ids.py:11-24 | identifiers are equal exactly for equal time and random bits, and an earlier millisecond sorts first |

## Left out

Assumptions:

- operations on one remote execution are serialised; `OverlappingSubmitsCallTwice` and `OverlappingReconcileForgetsJob` show why that is needed
- a controller may die after any durable step of an operation; uploading counts as one step, which may leave any content
- database errors in the middle of recording a submission, other than a job identity that is already taken
- creation times are compared as numbers, standing for the timestamps the database compares as text

Not modelled:

- SSH and scp transport, process groups, file staging and fsync: a state file is written atomically and a command answers, is rejected or times out
- SQL text, JSON encoding and schema migrations; SHA-256 (a digest is an identity) and the sort keys built from it
- parsing of scheduler output, job ids, memory, GPU and duration strings: parsed values are inputs
- the DirectBackend, discovery, collectors, telemetry, verification outcomes, CLI, MCP and agent interfaces
- raw inventory shapes, `_shape_with_target_evidence` and the per-target identity sort in `generate_resource_shapes`
- directives rendered from requests without a resource shape
- `unresolved` messages and candidate digests
- rounding: finite floats are reals, and `math.ceil(total / per_node)` is the integer ceiling, as it is for totals below 2^53
- NaN, infinities, list and dictionary parameter values, and `%` formatting of string operands in `divisible_by`
- deletion of experiments, which no code path performs
- JSON nodes are references in an explicit heap; a replacement value is assumed to share no node with the document or with other replacements

Deliberately weaker:

- LocalSubmission.SchedulerBackend.Wait: a wait that runs out of polls stands for both the timeout and a caller that stops waiting
- RemoteSubmission.RemoteSchedulerBackend.Wait: the same
