/** The usual optional-value and result datatypes. `None` stands for the
    source's `null` (and for an absent optional member); `Err` carries the message of an `Error`
    that an observable fails with. */
module Wrappers {

  datatype Option<+T> = None | Some(value: T)

  datatype Result<+T> = Ok(value: T) | Err(message: string)
}
