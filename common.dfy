/**
 * Values shared by every part of the tournament model: optional values
 * (JavaScript's null and undefined, which the source never tells apart in
 * the logic modelled here), team identifiers, and JavaScript truthiness of
 * an optional string.
 */
module Common {

  datatype Option<+T> = None | Some(value: T)

  /** A team or match identifier: a document id of the store. */
  type Id = string

  /**
   * `if (x)` on an optional string in JavaScript: null, undefined and the
   * empty string are falsy, every other string is truthy.
   */
  predicate Truthy(o: Option<string>)
  {
    o.Some? && o.value != ""
  }

  /** `x || null` on an optional string: a falsy value becomes null. */
  function OrNull(o: Option<string>): (r: Option<string>)
    ensures Truthy(r) == Truthy(o)
    ensures r.Some? ==> r == o
    ensures Truthy(o) ==> r == o
    ensures !Truthy(o) ==> r.None?
  {
    if Truthy(o) then o else None
  }

  /** `x ?? d`: the default replaces null or undefined only. */
  function OrElse<T>(o: Option<T>, d: T): (r: T)
    ensures o.Some? ==> r == o.value
    ensures o.None? ==> r == d
  {
    match o
    case Some(v) => v
    case None => d
  }

  /** `x ?? y` on two optional values: `y` only when `x` is null or undefined. */
  function Coalesce<T>(x: Option<T>, y: Option<T>): (r: Option<T>)
    ensures x.Some? ==> r == x
    ensures x.None? ==> r == y
  {
    if x.Some? then x else y
  }
}
