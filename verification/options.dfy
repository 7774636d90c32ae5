/**
 The optional-value datatype the rest of the model uses for lookups that may
 miss (`platforms.find(...)`, `platformDomains[platform]`) and for operations
 that may fail without raising (`new URL(...)` inside `try`).
 */
module Options {

  datatype Option<+T> = None | Some(value: T) {

    /** Applies `f` to the carried value, if any. */
    function Map<U>(f: T -> U): (r: Option<U>)
      ensures r.Some? <==> Some?
      ensures Some? ==> r.value == f(value)
    {
      match this
      case None => None
      case Some(v) => Some(f(v))
    }
  }
}
