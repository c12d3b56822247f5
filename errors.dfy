/** The exceptions the modelled C# code throws, and the result types that carry them.
    A C# method that returns `T` or throws becomes a member returning `Result<T>`;
    a `void` method that may throw returns an `Outcome`. */
module Errors {

  /** The exception kinds of the program and of the .NET calls it makes. */
  datatype Error =
    | ArgumentException            // System.ArgumentException
    | ArgumentOutOfRange           // System.ArgumentOutOfRangeException (List, ElementAt, Random)
    | IndexOutOfRange              // System.IndexOutOfRangeException (array and string indexing)
    | NullReference                // System.NullReferenceException
    | InvalidCast                  // System.InvalidCastException
    | FormatException              // System.FormatException from int.Parse, bool.Parse, ...
    | OverflowException            // System.OverflowException from int.Parse, uint.Parse, ...
    | KeyNotFound                  // System.Collections.Generic.KeyNotFoundException
    | NotImplemented               // System.NotImplementedException
    | SettingsArgumentException
    | SettingsBuilderException
    | ContextException
    | RegistryCouldNotAdd
    | RegistryItemNotFound
    | RegistryInvalidType
    | DuplicateId
    | InvalidType                  // the settings builder's InvalidTypeException
    | InvalidLayer(errorId: int)   // 0: unknown layer, 1: not enough layers

  datatype Result<+T> = Ok(value: T) | Err(error: Error) {
    predicate IsFailure() { Err? }
    function PropagateFailure<U>(): Result<U>
      requires Err?
    {
      Err(error)
    }
    function Extract(): T
      requires Ok?
    {
      value
    }
  }

  datatype Outcome = Pass | Fail(error: Error) {
    predicate IsFailure() { Fail? }
    function PropagateFailure(): Outcome
      requires Fail?
    {
      this
    }
  }

  datatype Option<+T> = None | Some(value: T)
}
