/** Shared helpers of the interpreter: the failure outcome that stands for a
    thrown error, and `clamp` (src/utils.ts). */
module Utils {

  /** The kinds of fatal error the interpreter raises. `error(...)` in the
      source logs a message and throws; here every such call becomes an `Err`
      carrying the kind named at the head of its message. */
  datatype ErrorKind =
    | TypeError          // "TypeError: ..." raised by the interpreter itself
    | ReferenceError     // reading a name no scope binds
    | RangeError         // an index past the end of a list
    | SyntaxError        // malformed input or left-hand side
    | RuntimeError       // "RuntimeError: ..." (length mismatch, missing method)
    | ConstantError      // assigning to a constant
    | ArityError         // calling a function with the wrong number of arguments
    | LoopLimit          // a loop ran more than 5000 iterations
    | InternalError      // "XperBug: ..." (a node kind the interpreter does not handle)
    | UnknownCharacter   // the lexer met a character it has no rule for
    | HostTypeError      // the host raised a TypeError (property of undefined, call of undefined)
    | Unrepresentable    // a Number result that is not an integer (see README)
    | Diverges           // the source would loop forever here
    | OutOfFuel          // the model's recursion bound ran out

  /** Success with a value, or the failure an `error(...)` call produces. */
  datatype Result<+T> = Ok(value: T) | Err(error: ErrorKind) {
    predicate IsFailure() {
      Err?
    }

    function PropagateFailure<U>(): Result<U>
      requires Err?
    {
      Err(error)
    }

    function Extract(): T
      requires Ok?
    {
      value
    }
  }

  /** Success with nothing, or a failure; used by statements evaluated only
      for their effect. */
  datatype Outcome = Pass | Fail(error: ErrorKind) {
    predicate IsFailure() {
      Fail?
    }

    function PropagateFailure<U>(): Result<U>
      requires Fail?
    {
      Err(error)
    }
  }

  datatype Option<+T> = None | Some(value: T)

  function Min(a: int, b: int): int {
    if a <= b then a else b
  }

  function Max(a: int, b: int): int {
    if a >= b then a else b
  }

  /** `clamp(num, min, max) = Math.min(max, Math.max(num, min))`. */
  function Clamp(num: int, min: int, max: int): (r: int)
    ensures r <= max
    ensures min <= max ==> min <= r
    ensures min <= num <= max ==> r == num
    ensures num < min <= max ==> r == min
    ensures min <= max < num ==> r == max
  {
    Min(max, Max(num, min))
  }
}
