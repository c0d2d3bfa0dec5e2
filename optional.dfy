/** The conventional Some/None wrapper, standing for Python's `None` in nullable record fields. */
module Optional {

  datatype Option<T> = None | Some(value: T) {

    /** `d.get(key, default)`: the wrapped value, or `default` when absent. */
    function GetOr(default: T): (v: T)
      ensures Some? ==> v == value
      ensures None? ==> v == default
    {
      match this
      case Some(x) => x
      case None => default
    }
  }
}
