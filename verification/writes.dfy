/** How a write to the database can go. */
module Writes {
  /** A write that reports an error may or may not have reached the database. */
  datatype WriteOutcome = Succeeded | FailedUnwritten | FailedWritten

  predicate Reached(o: WriteOutcome) {
    o != FailedUnwritten
  }
}
