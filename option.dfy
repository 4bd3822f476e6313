/** A value that may be absent: a buffer that was never allocated, or a
    read that would run past the end of a buffer. */
module Maybe {
  datatype Option<T> = None | Some(value: T)
}
