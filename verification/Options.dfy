/** Values that may be missing, and answers that may get lost. */
module Options {

  datatype Option<+T> = None | Some(value: T)

  /** Answer to a request that changes something elsewhere: done, refused, or done with the answer lost. */
  datatype Reply = Done | Refused | Lost
}
