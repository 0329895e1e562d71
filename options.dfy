/** The optional value used for Swift's `Double?` fields. */
module Options {

  datatype Option<T> = None | Some(value: T) {

    /** The value if present, otherwise `default` (Swift's `??`). */
    function GetOr(default: T): T {
      match this
      case Some(v) => v
      case None => default
    }
  }
}
