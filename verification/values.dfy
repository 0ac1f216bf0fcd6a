/** Optional values and the parts of Python truthiness the integration relies on.
    A JSON field the integration reads is either absent (`None`) or a string;
    the empty string is the only falsy string. */
module Values {

  datatype Option<+T> = None | Some(value: T)

  /** An ISO-8601 time as produced by `isoformat()`; the clock is a parameter. */
  type IsoTime = string

  /** `bool(x)` for an optional string: absent and "" are falsy. */
  predicate Truthy(o: Option<string>)
  {
    o.Some? && o.value != ""
  }

  /** Python's `a or b` on optional strings. */
  function Or(a: Option<string>, b: Option<string>): Option<string>
  {
    if Truthy(a) then a else b
  }

  /** `str(x or default)` for an optional string `x`. */
  function StrOr(x: Option<string>, default: string): string
  {
    if Truthy(x) then x.value else default
  }

  /** `mapping.get(key, default)` for an optional boolean setting. */
  function BoolOr(x: Option<bool>, default: bool): bool
  {
    if x.Some? then x.value else default
  }
}
