/** Small value wrappers shared by the other modules. */
module Wrappers {

  /** A value that may be absent (`null` / `undefined` in the application). */
  datatype Option<+T> = None | Some(value: T)

  /** A computation that succeeds with a value or fails with an error kind. */
  datatype Result<+R, +E> = Ok(value: R) | Err(error: E)

  /** What a call into the wallet or the blockchain client gives back: a value, or a thrown error. */
  datatype Call<+T> = Returned(value: T) | Threw
}
