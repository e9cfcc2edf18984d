/** The .NET exceptions that the modelled code can raise, as values. A
    member that can throw returns an Outcome instead of a value. */
module Exceptions {

  datatype Fault =
    | ArgumentOutOfRange  // List<T> indexer out of range, Substring, or Marshal.Copy with a length outside the managed array
    | InvalidOperation    // Queue<T>.Dequeue or Peek on an empty queue
    | NullReference       // reading the payload of an event that carries none
    | KeyNotFound         // a connection handle missing from a peer's dictionary
    | Overflow            // allocating a byte array of negative length
    | NotImplemented      // the entry points the mock backend leaves unimplemented

  /** What a call produced: a value, or the exception it threw. */
  datatype Outcome<+T> = Ok(value: T) | Throws(fault: Fault)
}
