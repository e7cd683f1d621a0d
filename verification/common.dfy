/**
 * Shared failure-carrying types for the graphics core model.
 *
 * Every exception the C# code throws is one `Error` value; an operation that
 * can throw returns `Result<T>`.  When the source throws before it touches
 * any state, `Err` is all the caller sees and it keeps its previous state.
 */
module Common {

  datatype Option<+T> = None | Some(value: T)

  /** One constructor per distinct exception site of the modelled core. */
  datatype Error =
    // command encoder state machine (InvalidOperationException)
    | AlreadyRecording
    | NotRecording
    | PassAlreadyActive
    | NoActivePass
    | NoPassForDraw
    | ClearWhileRecording
    // null reference arguments (ArgumentNullException)
    | NullArgument
    // buffer pool
    | UnknownBufferUsage        // ArgumentOutOfRangeException in CreateNewBuffer
    | MissingBufferInfo         // KeyNotFoundException on the info lookup
    // vertex layout derivation
    | NotVertexData             // ArgumentException
    | UnsupportedFieldType      // NotSupportedException
    | FormatWithoutSize         // ArgumentOutOfRangeException in GetSizeInBytes
    // name parsing (Enum.Parse on null or an unknown name)
    | UnknownName
    // memory manager
    | UnsupportedIndexType
    | UniformCount
    | UnknownUsage
    | GenericConstraintViolated // ArgumentException from MakeGenericMethod
    // array allocation with a negative length, and a write past an array's end
    | NegativeLength
    | IndexOutOfRange
    // an exception raised by the backend during dispatch
    | DeviceFailure

  datatype Result<+T> = Ok(value: T) | Err(error: Error) {

    predicate IsFailure() {
      Err?
    }

    function PropagateFailure<U>(): Result<U>
      requires Err?
    {
      Err(error)
    }

    function Extract(): T
      requires Ok?
    {
      value
    }
  }

  function Max(a: int, b: int): int {
    if a >= b then a else b
  }
}
