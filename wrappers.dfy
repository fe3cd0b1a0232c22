/** Optional values, in the two flavours the TypeScript sources use. */
module Wrappers {

  /** A value that may be absent (`T | null`, or an optional field). */
  datatype Option<+T> = None | Some(value: T) {

    predicate IsFailure() {
      None?
    }

    function PropagateFailure<U>(): Option<U>
      requires None?
    {
      None
    }

    function Extract(): T
      requires Some?
    {
      value
    }

    /** The value, or `default` when absent (a parameter default `x = d`). */
    function GetOr(default: T): T {
      match this
      case Some(v) => v
      case None => default
    }
  }

  /** An optional parameter of type `T | null`: it may be omitted (`undefined`),
      passed as `null`, or carry a value. JavaScript tells the first two apart. */
  datatype Nullable<+T> = Undefined | Null | Defined(value: T)
}
