/// The Option type used for Python's `None`: the last grade of an empty shot
/// log, an unknown score letter, the attacker of an outcome that has none.
module Optional {

  datatype Option<+T> = None | Some(value: T) {

    /** The value, or `default` when there is none. */
    function GetOr(default: T): T {
      match this
      case Some(v) => v
      case None => default
    }
  }
}
