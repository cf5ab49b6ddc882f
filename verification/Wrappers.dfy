// The two result shapes the rest of the model uses: a nullable column, and an
// operation that either succeeds with a value or reports why it did not.
module Wrappers {
  datatype Option<+T> = None | Some(value: T) {
    // COALESCE(this, fallback)
    function GetOr(fallback: T): T {
      if Some? then value else fallback
    }
  }

  datatype Result<+T, +E> = Ok(value: T) | Err(error: E) {
    function GetOr(fallback: T): T {
      if Ok? then value else fallback
    }
  }
}
