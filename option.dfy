/** The optional value used wherever the source returns a nil-able result
    or probes a capability that a value may not have. */
module Options {

  datatype Option<+T> = None | Some(value: T)
}
