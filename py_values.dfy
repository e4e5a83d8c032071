/** The few Python values and exceptions the trial scheduler depends on.

    The protocol methods pass either a bare number or a list where the
    scheduler expects a list, and index the per-segment labels with the
    selected segment. Both steps raise in Python when handed the wrong
    kind of value; this module gives those failures a name.
 */
module PyValues {

  /** An argument that is either a bare number (`10`) or a list (`[5, 5]`). */
  datatype Arg<T> = Scalar(value: T) | List(items: seq<T>)

  /** The exceptions the core can raise. */
  datatype PyError =
    | TypeError   // iterating over, or subscripting, a bare number
    | IndexError  // subscripting a list past its end

  /** A call that either returns a value or raises. */
  datatype Result<T> = Success(value: T) | Failure(error: PyError)

  /** Python's `a[i]` for a non-negative index `i`. */
  function Subscript<T>(a: Arg<T>, i: nat): Result<T> {
    match a
    case Scalar(_) => Failure(TypeError)
    case List(items) => if i < |items| then Success(items[i]) else Failure(IndexError)
  }
}
