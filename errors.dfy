/** The exceptions of the .NET runtime that the modelled code can raise.
    A C# `throw` becomes a `Throws` result; a caller that lets the exception
    propagate returns it unchanged. */
module Errors {

  datatype Exception =
    | ArgumentOutOfRange   // System.Random called with an empty or inverted range
    | Argument             // ArgumentException
    | InvalidOperation     // InvalidOperationException (also LINQ First() on an empty sequence)
    | NotImplemented       // NotImplementedException
    | DivideByZero         // integer `%` by zero
    | IndexOutOfRange      // IndexOutOfRangeException
    | NullReference        // NullReferenceException
    | Overflow             // OverflowException (also an array allocated with a negative length)

  /** The value of a C# expression that either yields a value or throws. */
  datatype Result<+T> = Ok(value: T) | Throws(error: Exception)

  /** The outcome of a C# statement that either completes or throws. */
  datatype Outcome = Done | Thrown(error: Exception)
}
