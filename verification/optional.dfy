/** Optional values. They stand for the record fields the quotation form
    declares with `?` (absent means `undefined`) and for the result of
    `parseInt`, where `None` is NaN. */
module Optional {

  datatype Option<+T> = None | Some(value: T) {

    /** The wrapped value, or `default` when absent. */
    function GetOr(default: T): T {
      match this
      case Some(v) => v
      case None => default
    }
  }

  /** JavaScript's `x || d` on a number that may be undefined or NaN: every
      falsy value, that is absence and zero, is replaced by the fallback. */
  function OrElse(x: Option<int>, d: int): (r: int)
    ensures x.Some? && x.value != 0 ==> r == x.value
    ensures x.None? || x.value == 0 ==> r == d
  {
    if x.Some? && x.value != 0 then x.value else d
  }
}
