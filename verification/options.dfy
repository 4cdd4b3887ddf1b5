/** Kotlin's nullable values (`T?`) as an explicit option type. */
module Options {

  /** `None` stands for Kotlin's `null`, `Some(v)` for a non-null `v`. */
  datatype Option<+T> = None | Some(value: T) {

    /** Kotlin's Elvis operator `x ?: default`. */
    function GetOr(default: T): (r: T)
    {
      match this
      case Some(v) => v
      case None => default
    }
  }
}
