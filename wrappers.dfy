// Option and Result values standing in for Python's None and raised exceptions.
module Wrappers {

  datatype Option<T> = None | Some(value: T)
  {
    function GetOr(default: T): T
    {
      match this
      case None => default
      case Some(v) => v
    }
  }

  /** The Python exception classes the modelled code raises or catches. */
  datatype Error =
    | ValueError(message: string)
    | RuntimeError(message: string)
    | FileNotFoundError(message: string)
    | FileExistsError(message: string)
    | CalledProcessError(returnCode: int)
    | NotFound(status: int)
    | TypeError(message: string)
    | AttributeError(message: string)
    | HttpException(status: int, detail: string)
    | IntegrityError(message: string)
    | IsADirectoryError(message: string)
    | KeyError(message: string)

  datatype Result<T> = Ok(value: T) | Err(error: Error)
  {
    predicate IsFailure() { Err? }

    function PropagateFailure<U>(): Result<U>
      requires Err?
    {
      Err(error)
    }
  }
}
