/** Image statuses and the two groups of them that the code tests for. */
module Statuses {

  datatype Option<+T> = None | Some(value: T)

  datatype Status =
    | ConnectionError | PushError | Error | ParentError
    | Built | Building | Unmatched | Matched | Unprocessed | Skipped | Unbuildable

  /** The members of `STATUS_ERRORS`. */
  predicate IsError(s: Status) {
    s.ConnectionError? || s.PushError? || s.Error? || s.ParentError?
  }

  /** Statuses for which no build task is ever created. */
  predicate Excluded(s: Status) {
    s.Unmatched? || s.Skipped? || s.Unbuildable?
  }
}
