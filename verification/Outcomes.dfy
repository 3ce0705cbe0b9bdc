/** The two result shapes used throughout: a value that may be absent, and a
    computation that may be refused. */
module Outcomes {
  datatype Option<+T> = None | Some(value: T)

  /** `Refused` stands for every `BootstrapError` or `ValueError` of the program. */
  datatype Attempt<+T> = Granted(value: T) | Refused
}
