/** A value that may be missing: an unset field, a failed lookup or a refused operation. */
module Options {

  datatype Option<T> = None | Some(value: T)
}
