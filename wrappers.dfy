/** Small failure-carrying datatypes shared by every module of the model. */
module Wrappers {

  /** A value that may be absent (Python's `None`). */
  datatype Option<+T> = None | Some(value: T)

  /** Whether a key is present in a provider dictionary (`'k' in d`).
      Reading a `Missing` key with `d['k']` raises `KeyError`. */
  datatype Field<+T> = Missing | Present(value: T)

  /** The Python exceptions that the modelled code can raise. */
  datatype Fault =
    | NameError         // a name that is not bound in scope
    | IndexError        // `s[-1]` on an empty string, `xs[-2]` on a short list, `parts[4]`
    | KeyError          // `d['k']` on a dictionary without key `k`
    | TypeError         // `False['entries']`
    | IntegrityError    // sqlite: a duplicate primary key on INSERT
    | OperationalError  // sqlite: a missing table or malformed SQL text

  /** The outcome of a Python computation: a value, or an exception that escapes. */
  datatype Py<+T> = Ok(value: T) | Raise(fault: Fault)
}
