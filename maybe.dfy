/** PHP's nullable return values (`string|null`), as an option type. */
module Maybe {

  datatype Option<T> = None | Some(value: T)
}
