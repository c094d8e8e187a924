/** Optional values: a TypeScript optional property (`x?: T`) that is either
    left out or holds a value. Passing `undefined` explicitly is the same as
    leaving the property out once it has been destructured, so both are `None`. */
module Wrappers {

  datatype Option<+T> = None | Some(value: T) {

    /** `x ?? fallback`: the value when there is one, the fallback otherwise. */
    function GetOr(fallback: T): (r: T)
      ensures this.Some? ==> r == this.value
      ensures this.None? ==> r == fallback
    {
      match this
      case Some(v) => v
      case None => fallback
    }
  }
}
