/** Small datatypes for the shapes a loosely typed Python value can take. */
module Wrappers {

  /** A value that may be `None`. */
  datatype Option<T> = None | Some(value: T) {

    /** `x if x is not None else d` */
    function GetOr(default: T): T {
      if Some? then value else default
    }
  }

  /** A member of a JSON object as `obj.get(key, default)` sees it: the key is
      missing, present with value null, or present with a value. */
  datatype Field<T> = Absent | Null | Present(value: T) {

    /** `obj.get(key, default) or default`, the null-tolerant reading. */
    function OrDefault(default: T): T {
      if Present? then value else default
    }

    /** `obj.get(key, default)` on a field that is not null. */
    function GetOr(default: T): T
      requires !Null?
    {
      if Present? then value else default
    }
  }

  /** The effect of evaluating a Python expression: a value, or an exception
      described by its `str()`. */
  datatype Outcome<T> = Ok(value: T) | Raised(error: string)

  /** The `str()` of the exceptions CPython raises when a lookup meets `None`. */
  const NoneGet := "'NoneType' object has no attribute 'get'"
  const NoneSubscript := "'NoneType' object is not subscriptable"
  const NoneItems := "'NoneType' object has no attribute 'items'"
  const NoneIter := "'NoneType' object is not iterable"
}
