/** Kotlin's nullable values: `null` is `None`. */
module Optional {

  datatype Option<+T> = None | Some(value: T) {

    /** The `?:` (elvis) operator: the value, or `default` when it is null. */
    function GetOr(default: T): T
    {
      match this
      case Some(v) => v
      case None => default
    }
  }
}
