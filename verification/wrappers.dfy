/** The optional value the source expresses with `null`. */
module Wrappers {

  datatype Option<T> = None | Some(value: T)

  /** `o ?? fallback`: the value when there is one, the fallback otherwise. */
  function UnwrapOr<T>(o: Option<T>, fallback: T): T
  {
    match o
    case Some(v) => v
    case None => fallback
  }
}
