/** Optional values, standing in for Swift's `Optional` and its `?.` and `??` operators. */
module Wrappers {

  datatype Option<+T> = None | Some(value: T)

  /** Optional chaining `o?.f()`: applies `f` to a present value, and stays absent otherwise. */
  function Map<T, U>(o: Option<T>, f: T -> U): (r: Option<U>)
    ensures r.Some? <==> o.Some?
    ensures o.Some? ==> r.value == f(o.value)
  {
    match o
    case None => None
    case Some(v) => Some(f(v))
  }

  /** Nil-coalescing `a ?? b`: the first value when it is present, the second otherwise. */
  function OrElse<T>(a: Option<T>, b: Option<T>): Option<T>
  {
    if a.Some? then a else b
  }
}
