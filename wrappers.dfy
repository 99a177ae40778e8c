/** Optional values: the model's stand-in for a nullable column, a missing
    field or a query that returned no data. */
module Wrappers {

  datatype Option<+T> = None | Some(value: T)

  /** The TypeScript idiom `x || 0` on a nullable count: null and undefined
      read as zero. */
  function OrZero(o: Option<nat>): nat
  {
    match o
    case Some(n) => n
    case None => 0
  }
}
