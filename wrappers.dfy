/** Optional values and exception-carrying results shared by every module. */
module Wrappers {

  datatype Option<+T> = None | Some(value: T) {
    function GetOr(default: T): T {
      match this
      case Some(v) => v
      case None => default
    }
  }

  /** The exceptions the modelled code can raise. */
  datatype Error =
    | NoSuchElement       // Map.getValue, Iterable.first, List.first on a missing element
    | NullPointer         // `!!` on null
    | IndexOutOfBounds    // array or list index outside its bounds
    | EndOfStream         // reading past the end of an input stream
    | ExternalFailure     // an exception raised by a collaborator the model does not see
    | IllegalArgument     // a requested count below zero
    | Malformed           // the stream holds a different kind of value at the cursor
    | DuplicateKey        // Collectors.toMap meeting two entries with the same key
    | IllegalMonitorState // unlocking a ReentrantLock the thread does not hold

  datatype Result<+T> = Success(value: T) | Failure(error: Error) {
    /** The members that let `:-` stop at the first failure, as a thrown exception does. */
    predicate IsFailure() {
      Failure?
    }

    function PropagateFailure<U>(): Result<U>
      requires Failure?
    {
      Failure(error)
    }

    function Extract(): T
      requires Success?
    {
      value
    }
  }
}

/** Fixed-width integers of the JVM. */
module Ints {
  const INT32_MIN: int := -0x8000_0000
  const INT32_MAX: int := 0x7FFF_FFFF

  /** Kotlin's Int. */
  newtype int32 = x: int | INT32_MIN <= x <= INT32_MAX

  /** Two's-complement wrap-around of a mathematical integer into an Int. */
  function Wrap32(x: int): (r: int32)
    ensures (r as int - x) % 0x1_0000_0000 == 0
    ensures INT32_MIN <= x <= INT32_MAX ==> r as int == x
  {
    var m := (x - INT32_MIN) % 0x1_0000_0000;
    (m + INT32_MIN) as int32
  }
}
