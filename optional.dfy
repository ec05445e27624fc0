/** A value that may be absent (Kotlin `T?`, JavaScript `null`/`undefined`). */
module Optional {
  datatype Option<+T> = None | Some(value: T)
  {
    /** The value, or `default` when absent (`?:`, `??`, a default prop). */
    function GetOr(default: T): T {
      match this
      case Some(v) => v
      case None => default
    }
  }
}
