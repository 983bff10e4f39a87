/** Optional values and failure-carrying results shared by every module. */
module Wrappers {

  datatype Option<T> = None | Some(value: T)
  {
    function GetOr(default: T): T
    {
      if Some? then value else default
    }
  }

  datatype Result<T, E> = Ok(value: T) | Err(error: E)

  /**
   * JavaScript truthiness of an optional string: `undefined` and the empty
   * string are both falsy (`if (this.parentId)`, `a || b`).
   */
  predicate Given(o: Option<string>)
  {
    o.Some? && o.value != ""
  }

  /** JavaScript `a || b` over optional strings. */
  function OrElse(a: Option<string>, b: Option<string>): Option<string>
  {
    if Given(a) then a else b
  }
}
