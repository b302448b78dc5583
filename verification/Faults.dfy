/** What a caller of a remote operation sees, and whether the operation took effect. */
module Faults {
  datatype Outcome = Outcome(ok: bool, applied: bool)
}
