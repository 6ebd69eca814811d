/**
  The small part of Python's runtime vocabulary the collectors rely on:
  optional values, the exceptions their code paths can raise, and a
  result type that is either a returned value or a raised exception.
 */
module Py {

  datatype Option<+T> = None | Some(value: T)

  /** The exceptions the modelled code paths can raise. */
  datatype PyError =
    | KeyError(key: string)                 // dict lookup of a missing key
    | IndexError                            // list index out of range
    | AttributeError                        // attribute missing on the value (e.g. None.split)
    | StopIteration                         // next() on an exhausted iterator
    | NotADict                              // TypeError: a string key applied to a non-dict value
    | NotAPath                              // TypeError: os.path.join given None
    | UnexpectedKeyword(name: string)       // TypeError: keyword the callee does not accept
    | RepeatedKeyword(name: string)         // TypeError: the same keyword passed twice
    | MissingArguments(names: seq<string>)  // TypeError: required parameters left unbound

  /** What a Python call does: return a value or raise. */
  datatype Result<+T> = Ok(value: T) | Err(error: PyError) {
    predicate IsFailure() {
      Err?
    }

    function PropagateFailure<U>(): Result<U>
      requires Err?
    {
      Err(error)
    }

    function Extract(): T
      requires Ok?
    {
      value
    }
  }
}
