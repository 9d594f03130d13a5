/** Optional values: a JavaScript property that is `undefined`/`null` is `None`. */
module Wrappers {

  datatype Option<+T> = None | Some(value: T) {

    /** The value, or `default` when absent (Mongoose schema defaults, `a || b`). */
    function GetOr(default: T): (r: T)
      ensures this.Some? ==> r == this.value
      ensures this.None? ==> r == default
    {
      match this
      case Some(v) => v
      case None => default
    }

    /** This option when present, otherwise `stored`: how `{ ...stored, ...body }`
        treats a field that is itself optional. */
    function Or(stored: Option<T>): (r: Option<T>)
      ensures this.Some? ==> r == this
      ensures this.None? ==> r == stored
    {
      if this.Some? then this else stored
    }
  }

  /** An update of one field: a supplied value replaces the stored one, an
      absent one keeps it. */
  predicate Overwrites<T(==)>(supplied: Option<T>, stored: T, result: T) {
    if supplied.Some? then result == supplied.value else result == stored
  }

  /** The same for a field that is itself optional in the document. */
  predicate OverwritesOptional<T(==)>(supplied: Option<T>, stored: Option<T>, result: Option<T>) {
    if supplied.Some? then result == supplied else result == stored
  }
}
