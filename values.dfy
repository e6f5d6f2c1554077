/** Scalar values as the two PHP components see them, and lookups with PHP's
    "missing key reads as null" behaviour. */
module Values {

  datatype Option<+T> = None | Some(value: T)

  /** A request or option value: PHP null or a string. */
  datatype Value = Null | Str(s: string)

  /** `$arr[$key]` on a string array such as `$_GET` or `$_POST`: an absent key reads as null. */
  function Lookup(m: map<string, string>, key: string): Value
  {
    if key in m then Str(m[key]) else Null
  }

  /** `Arr::get($arr, $key)` / `option($key)` with a null default on a store of values. */
  function Get(m: map<string, Value>, key: string): Value
  {
    if key in m then m[key] else Null
  }

  /** PHP truthiness of null or a string: null, "" and "0" are false, every other string true. */
  predicate Truthy(v: Value)
  {
    v.Str? && v.s != "" && v.s != "0"
  }
}
