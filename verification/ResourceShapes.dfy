/** Resource shapes, requested resources and the typed evidence they carry
    (planning_models.py, workload_models.py). */
module ResourceShapes {
  import opened Prelude
  import Expressions = ConstraintExpressions

  datatype Placement = Placement(targetId: Option<string>, scheduler: Option<string>, account: Option<string>)

  datatype Evidence = Evidence(kind: string, authorization: Option<string>)

  datatype ResourceShape = ResourceShape(
    nodes: Option<int>, cpusPerNode: Option<int>, totalCpus: Option<int>,
    mpiRanks: Option<int>, ranksPerNode: Option<int>, threadsPerRank: Option<int>,
    gpus: Option<int>, gpusPerNode: Option<int>,
    memoryBytes: Option<int>, memoryPerNodeBytes: Option<int>,
    architecture: Option<string>, nodeClass: Option<string>,
    walltimeSeconds: Option<int>, schedulerClass: Option<string>,
    placement: Placement, evidence: seq<Evidence>)

  datatype Requirements = Requirements(
    cpus: Option<int>, gpus: Option<int>, nodes: Option<int>, mpiRanks: Option<int>,
    memoryBytes: Option<int>, walltimeSeconds: Option<int>)

  predicate AtLeast(value: Option<int>, least: int) {
    value.Some? ==> value.value >= least
  }

  /** Three known quantities of which one is the product of the others. */
  predicate Multiplies(count: Option<int>, each: Option<int>, total: Option<int>) {
    count.Some? && each.Some? && total.Some? ==> count.value * each.value == total.value
  }

  /** What `ResourceShape.__post_init__` demands; a shape that fails it is a
      ValueError. */
  predicate WellFormed(s: ResourceShape) {
    AtLeast(s.nodes, 1) && AtLeast(s.cpusPerNode, 1) && AtLeast(s.totalCpus, 1)
    && AtLeast(s.mpiRanks, 1) && AtLeast(s.ranksPerNode, 1) && AtLeast(s.threadsPerRank, 1)
    && AtLeast(s.memoryBytes, 1) && AtLeast(s.memoryPerNodeBytes, 1) && AtLeast(s.walltimeSeconds, 1)
    && AtLeast(s.gpus, 0) && AtLeast(s.gpusPerNode, 0)
    && Multiplies(s.nodes, s.cpusPerNode, s.totalCpus)
    && Multiplies(s.nodes, s.ranksPerNode, s.mpiRanks)
    && Multiplies(s.nodes, s.gpusPerNode, s.gpus)
    && Multiplies(s.nodes, s.memoryPerNodeBytes, s.memoryBytes)
    && Multiplies(s.mpiRanks, s.threadsPerRank, s.totalCpus)
  }

  /** What `ResourceRequirements.__post_init__` demands. */
  predicate WellFormedRequest(r: Requirements) {
    AtLeast(r.cpus, 1) && AtLeast(r.nodes, 1) && AtLeast(r.mpiRanks, 1)
    && AtLeast(r.memoryBytes, 1) && AtLeast(r.walltimeSeconds, 1) && AtLeast(r.gpus, 0)
  }

  function OfInt(v: Option<int>): Expressions.Value {
    if v.Some? then Expressions.Int(v.value) else Expressions.Null
  }

  function OfString(v: Option<string>): Expressions.Value {
    if v.Some? then Expressions.Str(v.value) else Expressions.Null
  }

  /** `ResourceShape.value`: what an expression sees of a shape. */
  function ResourcesOf(s: ResourceShape): Expressions.Resources {
    map[Expressions.Nodes := OfInt(s.nodes),
        Expressions.CpusPerNode := OfInt(s.cpusPerNode),
        Expressions.TotalCpus := OfInt(s.totalCpus),
        Expressions.MpiRanks := OfInt(s.mpiRanks),
        Expressions.RanksPerNode := OfInt(s.ranksPerNode),
        Expressions.ThreadsPerRank := OfInt(s.threadsPerRank),
        Expressions.Gpus := OfInt(s.gpus),
        Expressions.GpusPerNode := OfInt(s.gpusPerNode),
        Expressions.MemoryBytes := OfInt(s.memoryBytes),
        Expressions.MemoryPerNodeBytes := OfInt(s.memoryPerNodeBytes),
        Expressions.Architecture := OfString(s.architecture),
        Expressions.NodeClass := OfString(s.nodeClass),
        Expressions.WalltimeSeconds := OfInt(s.walltimeSeconds),
        Expressions.SchedulerClass := OfString(s.schedulerClass)]
  }
}
