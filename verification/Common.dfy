// Datatypes shared by the modules of the model.
module Common {
  datatype Option<+T> = None | Some(value: T)

  datatype Result<+T, +E> = Ok(value: T) | Err(error: E)

  // A NetSuite internal id. NetSuite numbers records itself; the in-memory gateway prints
  // the pair as `ns_<account>_<num>`.
  datatype InternalId = InternalId(account: string, num: nat)
}
