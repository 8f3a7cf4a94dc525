/** Option and Result values used by every hook model. */
module Basics {

  /** A value that may be missing (Python's `None`). */
  datatype Option<+T> = None | Some(value: T)

  /**
   * A member of a JSON object as the hooks see it: left out, given as `null`, or given a value.
   * `d.get(k, default)` yields the default only for `Absent`; `k in d` holds for `Null` too.
   */
  datatype Field<+T> = Absent | Null | Present(value: T)

  /** The outcome of an operation that can raise a recoverable error. */
  datatype Result<+T, +E> = Ok(value: T) | Err(error: E)

  function Min(a: int, b: int): int { if a <= b then a else b }

  function Max(a: int, b: int): int { if a >= b then a else b }

  /** Some element of a non-empty set, in whatever order the system enumerates it. */
  method AnyOf<T>(s: set<T>) returns (x: T)
    requires s != {}
    ensures x in s
  {
    x :| x in s;
  }
}
