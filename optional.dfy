/** A value that may be absent: an optional property of a JavaScript object,
    or a `string | null` parameter. */
module Optional {

  datatype Option<+T> = None | Some(value: T)
}
