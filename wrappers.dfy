/**
 * Option and Result types shared by every module of the model.
 *
 * The modelled Python code signals failure by raising exceptions
 * (`FatalError`, `ValueError`, `TypeError`, `KeyError`, `IndexError`,
 * `FileNotFoundError`, `AttributeError`, `AssertionError`,
 * `NotImplementedError`) or by
 * calling `sys.exit`; the C++ passes call `exit(1)` or abort in an `assert`.
 * Each of these becomes an `Error` value carried by `Result.Err`.
 */
module Wrappers {

  datatype Option<T> = None | Some(value: T)

  datatype Error =
    | FatalError(msg: string)
    | ValueError(msg: string)
    | TypeError(msg: string)
    | KeyError(msg: string)
    | IndexError(msg: string)
    | FileNotFoundError(msg: string)
    | UnicodeDecodeError(msg: string)
    | AttributeError(msg: string)
    | AssertionError
    | NotImplementedError
    | Exit(code: int)

  datatype Result<T> = Ok(value: T) | Err(error: Error)
}
