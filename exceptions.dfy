/**
 * The exceptions the bot's functions raise, with the text each one carries.
 * The first three are the bot's own classes, `KeyError`, `TypeError` and
 * `AttributeError` are Python's built-ins, and the last two stand for what
 * the HTTP client raises when there is no answer or no JSON body.
 */
module Exceptions {

  datatype Error =
    | Not200ApiAnswer(msg: string)
    | ResponseNotType(msg: string)
    | ResponseIsEmpty(msg: string)
    | KeyError(msg: string)
    | TypeError(msg: string)
    | AttributeError(msg: string)
    | RequestException
    | JsonDecodeError

  /** A value, or the exception raised instead of returning one. */
  datatype Result<T> = Ok(value: T) | Err(error: Error)
}
