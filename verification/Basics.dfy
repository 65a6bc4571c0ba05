/** Vocabulary shared by every component. */
module Basics {

  datatype Option<+T> = None | Some(value: T)

  /** Instants on a single time line; only their order matters. */
  type Time = int

  /** The outcome of one SQLite transaction: it commits new contents and a value,
      or it raises and every table keeps the contents it had. */
  datatype Outcome<+S, +V, +E> =
    | Done(state: S, value: V)
    | Refused(error: E)
}
