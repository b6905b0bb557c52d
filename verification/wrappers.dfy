/** Optional values, standing for the nullable columns and the optional request fields of the system. */
module Wrappers {

  datatype Option<+T> = None | Some(value: T) {

    /** The value, or `default` when there is none. */
    function GetOr(default: T): (r: T)
      ensures Some? ==> r == value
      ensures None? ==> r == default
    {
      match this
      case Some(v) => v
      case None => default
    }
  }

  /** `x || 0` on a nullable amount: an absent amount counts as zero. */
  function OrZero(o: Option<int>): (r: int)
    ensures o.None? ==> r == 0
    ensures o.Some? ==> r == o.value
  {
    o.GetOr(0)
  }

  /** `a || b` on JavaScript numbers: `a` unless it is absent or zero. */
  function OrElse(a: Option<int>, b: Option<int>): (r: Option<int>)
    ensures a.Some? && a.value != 0 ==> r == a
    ensures (a.None? || a.value == 0) ==> r == b
  {
    if a.Some? && a.value != 0 then a else b
  }
}
