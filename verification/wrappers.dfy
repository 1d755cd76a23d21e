/** The optional-value datatype used wherever the dashboard may have nothing
    to show: an unbounded next threshold, a missing `logs` field, a day
    lookup that finds no report. */
module Wrappers {

  datatype Option<+T> = None | Some(value: T) {

    /** Returns the value in Some, or the given default for None. */
    function GetOr(default: T): T {
      match this
      case Some(v) => v
      case None => default
    }
  }
}
