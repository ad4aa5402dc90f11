/** JavaScript's `null`/`undefined` and the resolved/rejected outcome of an async thunk. */
module Wrappers {

  /** `None` stands for `null` or `undefined`. */
  datatype Option<+T> = None | Some(value: T)

  /** The outcome of an async thunk: `Ok` is the fulfilled payload, `Err` the value
      passed to `rejectWithValue`. */
  datatype Result<+T, +E> = Ok(value: T) | Err(error: E)
}
