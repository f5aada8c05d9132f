/** The Option datatype used throughout: None stands for JavaScript's
    `undefined`/`null`, or for a value that cannot be produced (NaN, a
    parse error). */
module Wrappers {

  datatype Option<+T> = None | Some(value: T)
}
