/** How a handler's result is classified for its consumer. */
module Errors {
  /** Handled; to be tried again, which is also what an error nobody classified means; or of no use to
      try again. */
  datatype Verdict = Done | Transient(cause: string) | Fatal(cause: string)
}
