/** Computations that may throw. Kotlin code either returns a value or raises a `Throwable`;
    the model makes that explicit: a computation yields an `Outcome`. The JVM's throwable
    hierarchy and its messages are not modelled: an error is an opaque `Err`. */
module Outcomes {

  /** A raised `Throwable`, carried unexamined. */
  type Err(==)

  /** What running a computation produced: a normal return or a raised error. */
  datatype Outcome<+T> = Returns(v: T) | Raises(e: Err)

  /** Running `o`'s computation and then, if it returned, `f` on its value: a raise
      from either step escapes, and `f` runs only after a normal return. */
  function Then<T, U>(o: Outcome<T>, f: T -> Outcome<U>): (r: Outcome<U>)
    ensures o.Raises? ==> r == Raises(o.e)
    ensures o.Returns? ==> r == f(o.v)
  {
    match o
    case Returns(v) => f(v)
    case Raises(e) => Raises(e)
  }
}
