/** Failure and absence values shared by every module. */
module Common {

  datatype Option<+T> = None | Some(value: T)

  /** `Err` stands for a raised exception: the caller sees no value. */
  datatype Result<+T> = Ok(value: T) | Err(reason: string)
}
