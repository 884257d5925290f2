/** What every component shares: the optional value, the ways one publication of a file ends, and
    the size of a subset. */
module Wrappers {
  datatype Option<+T> = None | Some(value: T)

  /** `Lost` fails before anything is visible; `Torn` fails after the file is in place, because the
      directory sync comes last. */
  datatype Fate = Done | Lost | Torn

  lemma {:induction false} CardinalityMonotone<T>(small: set<T>, large: set<T>)
    requires small <= large
    ensures |small| <= |large|
    decreases small
  {
    if small != {} {
      var x :| x in small;
      CardinalityMonotone(small - {x}, large - {x});
    }
  }
}
