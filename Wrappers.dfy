/** The optional-value type used across the model for Go's nil pointers,
    `sql.Null*` columns and `(value, ok)` results. */
module Wrappers {

  datatype Option<+T> = None | Some(value: T)
}
