/** Compiling a chosen shape to scheduler directives (backends.py), and reading
    the directives back as the allocation a scheduler would be asked for. */
module SchedulerDirectives {
  import opened Prelude
  import opened Schedulers
  import opened ResourceShapes
  import opened ShapeGeneration
  import opened NodeWidths
  import opened SitePolicy

  /** The ValueErrors of the renderers. */
  datatype RenderError =
    | IndivisibleAcrossRanks | IndivisibleAcrossNodes | MultiNodeNeedsLayout
    | NodesNeedSlots | UnevenHosts | GpuMappingUnresolved | MemoryMappingUnresolved

  const MEBIBYTE := 1048576

  function Mebibytes(bytes: int): int {
    Max(1, (bytes + MEBIBYTE - 1) / MEBIBYTE)
  }

  /** Rounded up to whole mebibytes: never less, never a whole one more. */
  lemma MebibytesRoundUp(bytes: int)
    requires bytes >= 1
    ensures bytes <= Mebibytes(bytes) * MEBIBYTE < bytes + MEBIBYTE
  {
  }

  /** Hours, minutes and seconds of a wall-time limit. */
  datatype Clock = Clock(hours: int, minutes: int, seconds: int)

  function Walltime(seconds: int): Clock {
    Clock(seconds / 3600, (seconds % 3600) / 60, (seconds % 3600) % 60)
  }

  lemma WalltimeIsExact(seconds: nat)
    ensures
      var c := Walltime(seconds);
      c.hours * 3600 + c.minutes * 60 + c.seconds == seconds
      && c.hours >= 0 && 0 <= c.minutes < 60 && 0 <= c.seconds < 60
  {
  }

  function ThreadsPerRank(s: ResourceShape): Result<Option<int>, RenderError>
    requires AtLeast(s.mpiRanks, 1)
  {
    if s.threadsPerRank.Some? then Success(s.threadsPerRank)
    else if s.totalCpus.None? || s.mpiRanks.None? then Success(None)
    else if !Splits(s.totalCpus, s.mpiRanks.value) then Failure(IndivisibleAcrossRanks)
    else Success(Some(s.totalCpus.value / s.mpiRanks.value))
  }

  function PerNode(total: Option<int>, perNode: Option<int>, nodes: Option<int>): Result<Option<int>, RenderError>
    requires AtLeast(nodes, 1)
  {
    if perNode.Some? then Success(perNode)
    else if total.None? then Success(None)
    else
      var effective := if nodes.Some? then nodes.value else 1;
      if !Splits(total, effective) then Failure(IndivisibleAcrossNodes)
      else Success(Some(total.value / effective))
  }

  // ---- totals and shares ----

  function OneIfAbsent(n: Option<int>): int {
    if n.Some? then n.value else 1
  }

  /** One chunk times their number is the total, exactly when the node count is
      known, or the chunk was not given on its own, or it is the total. */
  predicate ChunksMultiply(total: Option<int>, perNode: Option<int>, nodes: Option<int>) {
    nodes.Some? || perNode.None? || perNode == total
  }

  lemma ChunksMultiplyExactly(total: Option<int>, perNode: Option<int>, nodes: Option<int>)
    requires AtLeast(nodes, 1) && Multiplies(nodes, perNode, total) && total.Some?
    requires PerNode(total, perNode, nodes).Success?
    ensures PerNode(total, perNode, nodes).value.Some?
    ensures OneIfAbsent(nodes) * PerNode(total, perNode, nodes).value.value == total.value
       <==> ChunksMultiply(total, perNode, nodes)
  {
    if nodes.Some? && perNode.None? { ExactShare(total.value, nodes.value); }
  }

  lemma Scaled(factor: int, low: int, middle: int, gap: int)
    requires factor >= 1 && low <= middle < low + gap
    ensures factor * low <= factor * middle < factor * low + factor * gap
  {
    assert factor * (middle - low) >= 0 && factor * (low + gap - middle) > 0;
  }

  lemma MemoryRoundsUp(nodes: int, perNode: int)
    requires nodes >= 1 && perNode >= 1
    ensures nodes * perNode <= nodes * Mebibytes(perNode) * MEBIBYTE < nodes * perNode + nodes * MEBIBYTE
  {
    MebibytesRoundUp(perNode);
    assert nodes * Mebibytes(perNode) * MEBIBYTE == nodes * (Mebibytes(perNode) * MEBIBYTE);
    Scaled(nodes, perNode, Mebibytes(perNode) * MEBIBYTE, MEBIBYTE);
  }

  /** All chunks together get at least the memory asked for, and less than one
      mebibyte per chunk more. */
  predicate CoversMemory(total: int, chunks: int, mebibytes: int) {
    total <= chunks * mebibytes * MEBIBYTE < total + chunks * MEBIBYTE
  }

  /** Memory is covered exactly under the same condition, or when the share of the
      one chunk happens to round to as many mebibytes as the total. */
  predicate MemorySuffices(total: Option<int>, perNode: Option<int>, nodes: Option<int>) {
    ChunksMultiply(total, perNode, nodes)
    || (total.Some? && perNode.Some? && Mebibytes(perNode.value) == Mebibytes(total.value))
  }

  lemma MemoryCoveredExactly(total: Option<int>, perNode: Option<int>, nodes: Option<int>)
    requires AtLeast(nodes, 1) && AtLeast(perNode, 1) && AtLeast(total, 1) && Multiplies(nodes, perNode, total)
    requires total.Some? && PerNode(total, perNode, nodes).Success?
    ensures PerNode(total, perNode, nodes).value.Some?
    ensures CoversMemory(total.value, OneIfAbsent(nodes), Mebibytes(PerNode(total, perNode, nodes).value.value))
       <==> MemorySuffices(total, perNode, nodes)
  {
    ChunksMultiplyExactly(total, perNode, nodes);
    if ChunksMultiply(total, perNode, nodes) {
      if nodes.Some? && perNode.None? { ExactShare(total.value, nodes.value); }
      MemoryRoundsUp(OneIfAbsent(nodes), PerNode(total, perNode, nodes).value.value);
    } else {
      MebibytesRoundUp(total.value);
    }
  }

  // ---- Slurm ----

  datatype SlurmDirective =
    | JobName | PartitionName(name: string) | NodeCount(n: int) | TaskCount(n: int) | TasksPerNode(n: int)
    | CpusPerTask(n: int) | GpusOnEachNode(n: int) | GpuCount(n: int) | MemoryPerNode(mebibytes: int)
    | TimeLimit(limit: Clock)

  datatype SlurmRequest = SlurmRequest(
    nodes: Option<int>, tasks: Option<int>, tasksPerNode: Option<int>, cpusPerTask: Option<int>,
    gpusPerNode: Option<int>, gpus: Option<int>, memoryMebibytes: Option<int>)

  const NO_SLURM_REQUEST := SlurmRequest(None, None, None, None, None, None, None)

  /** A later directive overrides an earlier one of its kind. */
  function ReadSlurm(ds: seq<SlurmDirective>): SlurmRequest {
    if ds == [] then NO_SLURM_REQUEST
    else
      var q := ReadSlurm(ds[..|ds| - 1]);
      match ds[|ds| - 1]
      case NodeCount(n) => q.(nodes := Some(n))
      case TaskCount(n) => q.(tasks := Some(n))
      case TasksPerNode(n) => q.(tasksPerNode := Some(n))
      case CpusPerTask(n) => q.(cpusPerTask := Some(n))
      case GpusOnEachNode(n) => q.(gpusPerNode := Some(n))
      case GpuCount(n) => q.(gpus := Some(n))
      case MemoryPerNode(m) => q.(memoryMebibytes := Some(m))
      case _ => q
  }

  lemma ReadSlurmNext(ds: seq<SlurmDirective>, d: SlurmDirective)
    ensures ReadSlurm(ds + [d]) ==
      match d
      case NodeCount(n) => ReadSlurm(ds).(nodes := Some(n))
      case TaskCount(n) => ReadSlurm(ds).(tasks := Some(n))
      case TasksPerNode(n) => ReadSlurm(ds).(tasksPerNode := Some(n))
      case CpusPerTask(n) => ReadSlurm(ds).(cpusPerTask := Some(n))
      case GpusOnEachNode(n) => ReadSlurm(ds).(gpusPerNode := Some(n))
      case GpuCount(n) => ReadSlurm(ds).(gpus := Some(n))
      case MemoryPerNode(m) => ReadSlurm(ds).(memoryMebibytes := Some(m))
      case _ => ReadSlurm(ds)
  {
    assert (ds + [d])[..|ds + [d]| - 1] == ds;
  }

  method Append(ds: seq<SlurmDirective>, d: SlurmDirective) returns (r: seq<SlurmDirective>)
    ensures r == ds + [d]
    ensures ReadSlurm(r) ==
      match d
      case NodeCount(n) => ReadSlurm(ds).(nodes := Some(n))
      case TaskCount(n) => ReadSlurm(ds).(tasks := Some(n))
      case TasksPerNode(n) => ReadSlurm(ds).(tasksPerNode := Some(n))
      case CpusPerTask(n) => ReadSlurm(ds).(cpusPerTask := Some(n))
      case GpusOnEachNode(n) => ReadSlurm(ds).(gpusPerNode := Some(n))
      case GpuCount(n) => ReadSlurm(ds).(gpus := Some(n))
      case MemoryPerNode(m) => ReadSlurm(ds).(memoryMebibytes := Some(m))
      case _ => ReadSlurm(ds)
  {
    ReadSlurmNext(ds, d);
    r := ds + [d];
  }

  /** CPUs a request amounts to; absent counts default to one. */
  function SlurmCpus(q: SlurmRequest): int {
    var tasks := if q.tasks.Some? then q.tasks.value else OneIfAbsent(q.nodes) * OneIfAbsent(q.tasksPerNode);
    tasks * OneIfAbsent(q.cpusPerTask)
  }

  /** A multi-node shape whose CPUs Slurm cannot be told how to place. */
  predicate NeedsLayout(s: ResourceShape) {
    s.mpiRanks.None? && s.threadsPerRank.None? && s.cpusPerNode.None? && s.totalCpus.Some?
    && s.nodes.Some? && s.nodes.value != 1
  }

  /** CPUs per task of a shape without ranks: explicit threads win. */
  function UnrankedCpus(s: ResourceShape): Option<int> {
    if s.threadsPerRank.Some? then s.threadsPerRank
    else if s.cpusPerNode.Some? then s.cpusPerNode else s.totalCpus
  }

  /** One task per node when the CPUs of a node are what is asked for. */
  function UnrankedTasks(s: ResourceShape): Option<int> {
    if s.threadsPerRank.None? && s.cpusPerNode.Some? then Some(1) else s.ranksPerNode
  }

  method SlurmCpuDirectives(s: ResourceShape, before: seq<SlurmDirective>)
    returns (r: Result<seq<SlurmDirective>, RenderError>)
    requires WellFormed(s) && ReadSlurm(before) == NO_SLURM_REQUEST
    ensures r.Failure? <==> ThreadsPerRank(s).Failure? || NeedsLayout(s)
    ensures r.Success? ==>
      var q := ReadSlurm(r.value);
      && q.nodes == s.nodes && q.tasks == s.mpiRanks
      && q.gpusPerNode.None? && q.gpus.None? && q.memoryMebibytes.None?
      && (s.mpiRanks.Some? ==> q.tasksPerNode == s.ranksPerNode && q.cpusPerTask == ThreadsPerRank(s).value)
      && (s.mpiRanks.None? ==> q.cpusPerTask == UnrankedCpus(s) && q.tasksPerNode == UnrankedTasks(s))
  {
    var values := before;
    if s.nodes.Some? { values := Append(values, NodeCount(s.nodes.value)); }
    if s.mpiRanks.Some? { values := Append(values, TaskCount(s.mpiRanks.value)); }
    if s.ranksPerNode.Some? { values := Append(values, TasksPerNode(s.ranksPerNode.value)); }
    var threads := ThreadsPerRank(s);
    if threads.Failure? { return Failure(threads.error); }
    if threads.value.Some? {
      values := Append(values, CpusPerTask(threads.value.value));
    } else if s.mpiRanks.None? {
      if s.cpusPerNode.Some? {
        values := Append(values, TasksPerNode(1));
        values := Append(values, CpusPerTask(s.cpusPerNode.value));
      } else if s.totalCpus.Some? && (s.nodes.None? || s.nodes.value == 1) {
        values := Append(values, CpusPerTask(s.totalCpus.value));
      } else if s.totalCpus.Some? {
        return Failure(MultiNodeNeedsLayout);
      }
    }
    r := Success(values);
  }

  method SlurmDirectives(s: ResourceShape, targetName: Option<string>)
    returns (r: Result<seq<SlurmDirective>, RenderError>)
    requires WellFormed(s)
    ensures r.Failure? <==>
      ThreadsPerRank(s).Failure? || NeedsLayout(s) || PerNode(s.memoryBytes, s.memoryPerNodeBytes, s.nodes).Failure?
    ensures r.Success? ==> SlurmMeans(s, ReadSlurm(r.value))
  {
    var values := Append([], JobName);
    if targetName.Some? && targetName.value != "" { values := Append(values, PartitionName(targetName.value)); }
    var cpus := SlurmCpuDirectives(s, values);
    if cpus.Failure? { return Failure(cpus.error); }
    values := cpus.value;
    if s.gpusPerNode.Some? {
      values := Append(values, GpusOnEachNode(s.gpusPerNode.value));
    } else if s.gpus.Some? {
      values := Append(values, GpuCount(s.gpus.value));
    }
    var memory := PerNode(s.memoryBytes, s.memoryPerNodeBytes, s.nodes);
    if memory.Failure? { return Failure(memory.error); }
    if memory.value.Some? { values := Append(values, MemoryPerNode(Mebibytes(memory.value.value))); }
    if s.walltimeSeconds.Some? { values := Append(values, TimeLimit(Walltime(s.walltimeSeconds.value))); }
    r := Success(values);
  }

  /** What the rendered directives say about a well-formed shape. */
  ghost predicate SlurmMeans(s: ResourceShape, q: SlurmRequest)
    requires WellFormed(s)
  {
    var memory := PerNode(s.memoryBytes, s.memoryPerNodeBytes, s.nodes);
    && q.nodes == s.nodes && q.tasks == s.mpiRanks && q.gpusPerNode == s.gpusPerNode
    && (s.gpusPerNode.None? ==> q.gpus == s.gpus)
    && (s.mpiRanks.Some? ==> q.tasksPerNode == s.ranksPerNode && ThreadsPerRank(s).Success?
                             && q.cpusPerTask == ThreadsPerRank(s).value)
    && (s.mpiRanks.None? ==> q.cpusPerTask == UnrankedCpus(s) && q.tasksPerNode == UnrankedTasks(s))
    && memory.Success?
    && (if memory.value.Some? then q.memoryMebibytes == Some(Mebibytes(memory.value.value))
        else q.memoryMebibytes.None?)
  }

  /** Slurm conserves resources: a generated shape always renders, and what is
      asked multiplies back to its CPUs, ranks and GPUs. */
  lemma SlurmConserves(s: ResourceShape, q: SlurmRequest)
    requires WellFormed(s) && CompleteLayout(s) && SlurmMeans(s, q)
    ensures !ThreadsPerRank(s).Failure? && !NeedsLayout(s)
    ensures SlurmCpus(q) == s.totalCpus.value
    ensures q.tasksPerNode.Some? && q.cpusPerTask.Some?
    ensures q.nodes.value * q.tasksPerNode.value * q.cpusPerTask.value == s.totalCpus.value
    ensures s.mpiRanks.Some? ==> q.tasks == s.mpiRanks && q.nodes.value * q.tasksPerNode.value == s.mpiRanks.value
    ensures s.gpus.Some? ==> q.gpusPerNode.Some? && q.nodes.value * q.gpusPerNode.value == s.gpus.value
    ensures s.memoryBytes.Some? <==> q.memoryMebibytes.Some?
    ensures s.memoryBytes.Some? ==> CoversMemory(s.memoryBytes.value, q.nodes.value, q.memoryMebibytes.value)
  {
    if s.memoryBytes.Some? { MemoryRoundsUp(s.nodes.value, s.memoryPerNodeBytes.value); }
  }

  lemma RanksShareCpus(s: ResourceShape)
    requires WellFormed(s) && s.totalCpus.Some? && s.mpiRanks.Some?
    ensures ThreadsPerRank(s).Success? ==>
      AtLeast(ThreadsPerRank(s).value, 1) && ThreadsPerRank(s).value.Some?
      && s.mpiRanks.value * ThreadsPerRank(s).value.value == s.totalCpus.value
    ensures ThreadsPerRank(s).Failure? ==> s.mpiRanks != s.totalCpus
  {
    if s.threadsPerRank.None? && Splits(s.totalCpus, s.mpiRanks.value) {
      ExactShare(s.totalCpus.value, s.mpiRanks.value);
    }
  }

  /** GPUs a request amounts to, if it mentions any. */
  function SlurmGpus(q: SlurmRequest): Option<int> {
    if q.gpusPerNode.Some? then Some(OneIfAbsent(q.nodes) * q.gpusPerNode.value) else q.gpus
  }

  /** Whatever shape renders, ranks are asked for as they are, and with ranks so are
      the CPUs; its GPUs are asked for exactly when the node count is known or the
      share of a node was not given on its own; and its memory is covered exactly
      when that suffices. */
  lemma SlurmKeepsExactly(s: ResourceShape, q: SlurmRequest)
    requires WellFormed(s) && SlurmMeans(s, q)
    ensures q.tasks == s.mpiRanks && (s.mpiRanks.Some? && s.totalCpus.Some? ==> SlurmCpus(q) == s.totalCpus.value)
    ensures s.gpus.Some? ==> (SlurmGpus(q) == s.gpus <==> ChunksMultiply(s.gpus, s.gpusPerNode, s.nodes))
    ensures s.memoryBytes.Some? ==> q.memoryMebibytes.Some?
    ensures s.memoryBytes.Some? ==>
      (CoversMemory(s.memoryBytes.value, OneIfAbsent(q.nodes), q.memoryMebibytes.value)
       <==> MemorySuffices(s.memoryBytes, s.memoryPerNodeBytes, s.nodes))
  {
    if s.mpiRanks.Some? && s.totalCpus.Some? { RanksShareCpus(s); }
    if s.memoryBytes.Some? { MemoryCoveredExactly(s.memoryBytes, s.memoryPerNodeBytes, s.nodes); }
  }

  /** Rendering a complete layout cannot raise. */
  lemma CompleteLayoutRenders(s: ResourceShape)
    requires WellFormed(s) && CompleteLayout(s)
    ensures ThreadsPerRank(s).Success? && !NeedsLayout(s)
    ensures PerNode(s.totalCpus, s.cpusPerNode, s.nodes).Success?
    ensures PerNode(s.mpiRanks, s.ranksPerNode, s.nodes).Success?
    ensures PerNode(s.gpus, s.gpusPerNode, s.nodes).Success?
    ensures PerNode(s.memoryBytes, s.memoryPerNodeBytes, s.nodes).Success?
  {
  }

  /** Without ranks, conservation rests on the generator. A shape keeps its CPUs
      exactly when explicit threads multiply out to them; or, without threads, when
      the CPUs of a node are given and the node count is too or there is but one
      node's worth; or else when ranks per node do not multiply them. */
  lemma UnrankedShapesKeepCpus(s: ResourceShape, q: SlurmRequest)
    requires WellFormed(s) && SlurmMeans(s, q) && s.totalCpus.Some? && s.mpiRanks.None? && !NeedsLayout(s)
    ensures SlurmCpus(q) == s.totalCpus.value <==>
      if s.threadsPerRank.Some? then
        OneIfAbsent(s.nodes) * OneIfAbsent(s.ranksPerNode) * s.threadsPerRank.value == s.totalCpus.value
      else if s.cpusPerNode.Some? then s.nodes.Some? || s.cpusPerNode == s.totalCpus
      else OneIfAbsent(s.ranksPerNode) == 1
  {
    if s.threadsPerRank.None? && s.cpusPerNode.None? {
      assert s.nodes.None? || s.nodes.value == 1;
      KeepsOnlyOnce(OneIfAbsent(s.ranksPerNode), s.totalCpus.value);
    }
  }

  lemma KeepsOnlyOnce(factor: int, total: int)
    requires factor >= 1 && total >= 1
    ensures factor * total == total <==> factor == 1
    ensures factor * total >= total
  {
    assert factor >= 2 ==> factor * total >= 2 * total;
  }

  /** Such a shape: well formed, rendered, and asking for two CPUs of its eight. */
  lemma ThreadsWithoutRanksLoseCpus(s: ResourceShape, q: SlurmRequest)
    requires s.nodes == Some(1) && s.totalCpus == Some(8) && s.threadsPerRank == Some(2)
    requires s.mpiRanks.None? && s.ranksPerNode.None?
    requires WellFormed(s) && SlurmMeans(s, q)
    ensures ThreadsPerRank(s).Success? && !NeedsLayout(s) && SlurmCpus(q) == 2
  {
  }

  // ---- PBS ----

  /** The chunk of `-l select=...`. */
  datatype PbsRequest = PbsRequest(
    select: int, ncpus: Option<int>, ngpus: Option<int>, memoryMebibytes: Option<int>,
    mpiprocs: Option<int>, ompthreads: Option<int>, walltime: Option<Clock>)

  method PbsDirectives(s: ResourceShape) returns (r: Result<PbsRequest, RenderError>)
    requires WellFormed(s)
    ensures r.Failure? <==>
      PerNode(s.totalCpus, s.cpusPerNode, s.nodes).Failure? || PerNode(s.gpus, s.gpusPerNode, s.nodes).Failure?
      || PerNode(s.memoryBytes, s.memoryPerNodeBytes, s.nodes).Failure?
      || PerNode(s.mpiRanks, s.ranksPerNode, s.nodes).Failure?
    ensures r.Success? ==> PbsMeans(s, r.value)
  {
    var chunk := PbsRequest(if s.nodes.Some? then s.nodes.value else 1, None, None, None, None, None, None);
    var cpus := PerNode(s.totalCpus, s.cpusPerNode, s.nodes);
    if cpus.Failure? { return Failure(cpus.error); }
    if cpus.value.Some? { chunk := chunk.(ncpus := cpus.value); }
    var gpus := PerNode(s.gpus, s.gpusPerNode, s.nodes);
    if gpus.Failure? { return Failure(gpus.error); }
    if gpus.value.Some? { chunk := chunk.(ngpus := gpus.value); }
    var memory := PerNode(s.memoryBytes, s.memoryPerNodeBytes, s.nodes);
    if memory.Failure? { return Failure(memory.error); }
    if memory.value.Some? { chunk := chunk.(memoryMebibytes := Some(Mebibytes(memory.value.value))); }
    var ranks := PerNode(s.mpiRanks, s.ranksPerNode, s.nodes);
    if ranks.Failure? { return Failure(ranks.error); }
    if ranks.value.Some? { chunk := chunk.(mpiprocs := ranks.value); }
    if s.threadsPerRank.Some? { chunk := chunk.(ompthreads := s.threadsPerRank); }
    if s.walltimeSeconds.Some? { chunk := chunk.(walltime := Some(Walltime(s.walltimeSeconds.value))); }
    r := Success(chunk);
  }

  /** What the rendered chunk says about any well-formed shape. */
  ghost predicate PbsMeans(s: ResourceShape, q: PbsRequest)
    requires WellFormed(s)
  {
    var memory := PerNode(s.memoryBytes, s.memoryPerNodeBytes, s.nodes);
    && q.select == OneIfAbsent(s.nodes)
    && PerNode(s.totalCpus, s.cpusPerNode, s.nodes) == Success(q.ncpus)
    && PerNode(s.gpus, s.gpusPerNode, s.nodes) == Success(q.ngpus)
    && PerNode(s.mpiRanks, s.ranksPerNode, s.nodes) == Success(q.mpiprocs)
    && memory.Success?
    && (if memory.value.Some? then q.memoryMebibytes == Some(Mebibytes(memory.value.value))
        else q.memoryMebibytes.None?)
    && q.ompthreads == s.threadsPerRank
    && (if s.walltimeSeconds.Some? then q.walltime == Some(Walltime(s.walltimeSeconds.value)) else q.walltime.None?)
  }

  /** PBS conserves resources: whatever shape renders, its chunks multiply back to
      its CPUs, GPUs and ranks exactly under that condition, and cover its memory with
      less than a mebibyte per chunk to spare exactly when that suffices. */
  lemma PbsConserves(s: ResourceShape, q: PbsRequest)
    requires WellFormed(s) && PbsMeans(s, q)
    ensures s.totalCpus.Some? ==> q.ncpus.Some?
    ensures s.totalCpus.Some? ==>
      (q.select * q.ncpus.value == s.totalCpus.value <==> ChunksMultiply(s.totalCpus, s.cpusPerNode, s.nodes))
    ensures s.gpus.Some? ==> q.ngpus.Some?
    ensures s.gpus.Some? ==>
      (q.select * q.ngpus.value == s.gpus.value <==> ChunksMultiply(s.gpus, s.gpusPerNode, s.nodes))
    ensures s.mpiRanks.Some? ==> q.mpiprocs.Some?
    ensures s.mpiRanks.Some? ==>
      (q.select * q.mpiprocs.value == s.mpiRanks.value <==> ChunksMultiply(s.mpiRanks, s.ranksPerNode, s.nodes))
    ensures s.memoryBytes.Some? ==> q.memoryMebibytes.Some?
    ensures s.memoryBytes.Some? ==>
      (CoversMemory(s.memoryBytes.value, q.select, q.memoryMebibytes.value)
       <==> MemorySuffices(s.memoryBytes, s.memoryPerNodeBytes, s.nodes))
  {
    if s.totalCpus.Some? { ChunksMultiplyExactly(s.totalCpus, s.cpusPerNode, s.nodes); }
    if s.gpus.Some? { ChunksMultiplyExactly(s.gpus, s.gpusPerNode, s.nodes); }
    if s.mpiRanks.Some? { ChunksMultiplyExactly(s.mpiRanks, s.ranksPerNode, s.nodes); }
    if s.memoryBytes.Some? { MemoryCoveredExactly(s.memoryBytes, s.memoryPerNodeBytes, s.nodes); }
  }

  // ---- LSF ----

  datatype Span = AnyHosts | OneHost | PerHost(slots: int)

  datatype LsfRequest = LsfRequest(slots: Option<int>, span: Span, walltimeMinutes: Option<int>)

  function Slots(s: ResourceShape): Option<int> {
    if s.mpiRanks.Some? then s.mpiRanks else s.totalCpus
  }

  function SlotsPerHost(s: ResourceShape): Option<int> {
    if s.mpiRanks.Some? then s.ranksPerNode else s.cpusPerNode
  }

  predicate LsfEven(s: ResourceShape) {
    s.nodes.Some? && Slots(s).Some? && SlotsPerHost(s).Some?
    && Slots(s).value == s.nodes.value * SlotsPerHost(s).value
  }

  /** The resources Bourne refuses to map for LSF. */
  predicate LsfRefused(s: ResourceShape) {
    s.gpus !in {None, Some(0)} || s.memoryBytes.Some?
  }

  method LsfDirectives(s: ResourceShape) returns (r: Result<LsfRequest, RenderError>)
    requires WellFormed(s)
    ensures r.Failure? <==>
      LsfRefused(s) || (s.nodes.Some? && (Slots(s).None? || (!LsfEven(s) && s.nodes.value != 1)))
    ensures r.Success? ==> r.value.slots == Slots(s)
    ensures r.Success? && s.nodes.Some? ==>
      r.value.span == (if LsfEven(s) then PerHost(SlotsPerHost(s).value) else OneHost)
    ensures r.Success? && s.walltimeSeconds.Some? ==>
      r.value.walltimeMinutes.Some?
      && s.walltimeSeconds.value <= r.value.walltimeMinutes.value * 60 < s.walltimeSeconds.value + 60
  {
    var request := LsfRequest(Slots(s), AnyHosts, None);
    var perHost := SlotsPerHost(s);
    if s.nodes.Some? {
      if request.slots.None? { return Failure(NodesNeedSlots); }
      if perHost.Some? && request.slots.value == s.nodes.value * perHost.value {
        request := request.(span := PerHost(perHost.value));
      } else if s.nodes.value == 1 {
        request := request.(span := OneHost);
      } else {
        return Failure(UnevenHosts);
      }
    } else if perHost.Some? {
      request := request.(span := PerHost(perHost.value));
    }
    if s.gpus !in {None, Some(0)} { return Failure(GpuMappingUnresolved); }
    if s.memoryBytes.Some? { return Failure(MemoryMappingUnresolved); }
    if s.walltimeSeconds.Some? {
      request := request.(walltimeMinutes := Some(Max(1, (s.walltimeSeconds.value + 59) / 60)));
    }
    r := Success(request);
  }

  /** A generated LSF shape renders unless it asks for GPUs or memory, and then
      slots fill the hosts exactly. */
  lemma LsfFillsHosts(t: Target, r: Requirements, s: ResourceShape)
    requires t.scheduler == Lsf && FaithfulShape(t, r, s)
    ensures s.nodes.Some? ==> LsfEven(s)
    ensures LsfRefused(s) || (s.nodes.Some? && (Slots(s).None? || (!LsfEven(s) && s.nodes.value != 1)))
       <==> r.gpus !in {None, Some(0)} || r.memoryBytes.Some?
  {
  }

  /** Slots carry the CPUs of a shape exactly when it has no ranks or one CPU per
      rank, given or derived; otherwise, when its ranks share the CPUs evenly, LSF is
      asked for fewer CPUs than the shape holds. */
  lemma LsfSlotsAreCpus(s: ResourceShape)
    requires WellFormed(s) && s.totalCpus.Some?
    ensures Slots(s) == s.totalCpus <==> s.mpiRanks.None? || ThreadsPerRank(s) == Success(Some(1))
    ensures Slots(s) != s.totalCpus && ThreadsPerRank(s).Success? ==> Slots(s).value < s.totalCpus.value
  {
    if s.mpiRanks.Some? {
      RanksShareCpus(s);
      if ThreadsPerRank(s).Success? { KeepsOnlyOnce(ThreadsPerRank(s).value.value, s.mpiRanks.value); }
    }
  }

  /** Every shape generated for Slurm or PBS is a complete layout, so both
      renderers succeed on it. */
  lemma GeneratedShapesRender(t: Target, r: Requirements, s: ResourceShape)
    requires t.scheduler != Lsf && FaithfulShape(t, r, s)
    ensures WellFormed(s) && CompleteLayout(s)
    ensures ThreadsPerRank(s).Success? && !NeedsLayout(s)
    ensures PerNode(s.memoryBytes, s.memoryPerNodeBytes, s.nodes).Success?
  {
    CompleteLayoutRenders(s);
  }
}
