/** Optional values, results with an error, and the "one item or an array" argument shape. */
module Wrappers {

  /** `None` stands for JavaScript's `undefined` (a missing field or a failed lookup). */
  datatype Option<+T> = None | Some(value: T)
  {
    function GetOr(default: T): T
    {
      match this
      case Some(v) => v
      case None => default
    }
  }

  /** An operation that either returns a value or throws the error `error`. */
  datatype Result<+T, +E> = Ok(value: T) | Err(error: E)

  /** An argument that may be a single item or an array of items. */
  datatype OneOrMany<+T> = One(item: T) | Many(items: seq<T>)
  {
    /** The items, with a single item wrapped in a one-element array. */
    function AsSeq(): seq<T>
    {
      match this
      case One(x) => [x]
      case Many(xs) => xs
    }
  }
}
