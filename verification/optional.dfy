/** The usual optional value, for lookups and decodings that may find nothing. */
module Optional {
  datatype Option<T> = None | Some(value: T)
}
