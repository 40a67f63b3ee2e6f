/** JavaScript's `null` beside a value: the absent event, the absent pixel snapshot,
    the absent current drawing. */
module Optional {

  datatype Option<T> = None | Some(value: T)
}
