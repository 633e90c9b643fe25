/** Failure-carrying values shared by every module of the model.

    The game is written in Python, where a failed dictionary lookup raises
    `KeyError` and `random.sample` raises `ValueError`; an uncaught exception
    ends the request.  `Result` makes that explicit: either the operation
    returned a value, or it raised. */
module Wrappers {

  /** The usual Some/None datatype; stands for `dict.get` and for oracles
      that may fail to produce a value. */
  datatype Option<+T> = None | Some(value: T) {
    function GetOr(default: T): T {
      match this
      case Some(v) => v
      case None => default
    }
  }

  /** The Python exceptions the modelled code can raise. */
  datatype PyError =
    | KeyError(key: string)
    | ValueError(message: string)

  /** Outcome of a Python call: a returned value, or a raised exception. */
  datatype Result<+T> = Ok(value: T) | Raised(error: PyError)

  /** An index drawn by `random.choice` from a four-element list. */
  type Choice4 = n: nat | n < 4
}
