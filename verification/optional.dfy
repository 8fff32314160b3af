/** Swift's optional values: `nil` or a wrapped value. */
module Optional {

  datatype Option<T> = None | Some(value: T) {

    /** `self ?? default`: the wrapped value, or `default` when there is none. */
    function GetOr(default: T): T {
      match this
      case Some(v) => v
      case None => default
    }
  }
}
