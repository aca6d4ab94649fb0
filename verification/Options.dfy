/** Stock option and result types shared by the other modules. */
module Options {
  datatype Option<+T> = None | Some(value: T)

  datatype Result<+T> = Ok(value: T) | Err(msg: string)
}
