/** The states of a job, as its manifest names them. */
module JobStates {
  datatype JobState = Pending | Running | Succeeded | Failed | Cancelled

  /** How long a Pending manifest may stay without a pid, in seconds. */
  const PENDING_ORPHAN_GRACE := 300.0
}
