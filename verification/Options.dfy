/** The Some/None type shared by every module of the model. */
module Options {

  datatype Option<+T> = None | Some(value: T) {

    /** The value inside, or a default. */
    function GetOr(default: T): T {
      match this
      case Some(v) => v
      case None => default
    }

    /** The first of two alternatives that holds a value. */
    function OrElse(other: Option<T>): Option<T> {
      if Some? then this else other
    }
  }
}
