// Success-or-error values. The program raises an exception that carries a code; a
// failing operation here returns that code.
module Wrappers {

  datatype Option<+T> = None | Some(value: T)

  datatype Result<+T> = Ok(value: T) | Err(code: string)
}
