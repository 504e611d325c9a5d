/** Option for PHP's null, Result for a value or a raised LocalizedException message. */
module Wrappers {

  datatype Option<+T> = None | Some(value: T)

  datatype Result<+T> = Ok(value: T) | Err(message: string)
}
