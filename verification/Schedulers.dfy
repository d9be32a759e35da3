/** The scheduler families Bourne renders for and submits to. */
module Schedulers {
  datatype Family = Slurm | Pbs | Lsf
}
