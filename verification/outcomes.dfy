/** Failure-carrying datatypes shared by the model.

    A Python call either returns a value or raises an exception whose text is
    what `str(e)` produces; `Result` records exactly that: the value, or the
    exception's message. */
module Outcomes {
  import opened Text

  datatype Option<+T> = None | Some(value: T)

  datatype Result<+T> = Ok(value: T) | Err(message: string) {

    /** Replaces the message of a failure by `prefix + message`, the shape of
        `raise Exception(f"{prefix}{str(e)}")` inside an `except` block. */
    function Wrap(prefix: string): (r: Result<T>)
      ensures r.Ok? <==> Ok?
      ensures Ok? ==> r == this
      ensures Err? ==> StartsWith(r.message, prefix) && r.message[|prefix|..] == message
    {
      match this
      case Ok(v) => Ok(v)
      case Err(m) => Err(prefix + m)
    }
  }
}
