/** The optional value used for session fields that may hold None and for
    metrics that a left merge may leave missing. */
module Options {
  datatype Option<+T> = None | Some(value: T)
}
