/** Optional values and results with an error, used where the bot's Python code
    returns None or raises. */
module Outcomes {

  datatype Option<T> = None | Some(value: T)

  datatype Result<T, E> = Ok(value: T) | Err(error: E)
}
