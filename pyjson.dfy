/**
 * Decoded JSON as the Python side of the pipeline sees it (the value of
 * `response.json()`), together with the two Python operations the transform
 * applies to such values: `dict.get` and subscripting with `[0]`.
 */
module PyJson {
  import opened Wrappers

  /** A decoded JSON value. `Null` is Python's `None`; numbers are opaque,
      since nothing is computed on them. */
  datatype Value =
    | Null
    | Bool(b: bool)
    | Num(n: real)
    | Str(s: string)
    | Arr(items: seq<Value>)
    | Obj(fields: map<string, Value>)

  /** The Python exceptions that the transform can raise. */
  datatype Exception =
    | AttributeError  // `.get` called on something that is not a dict
    | IndexError      // `[0]` on an empty list or an empty string
    | KeyError        // `[0]` on a dict: JSON keys are strings, never the int 0
    | TypeError       // `[0]` on a number, a bool or None

  type PyResult<T> = Result<T, Exception>

  /** The value has key `k`. */
  predicate Has(v: Value, k: string) {
    v.Obj? && k in v.fields
  }

  /** Python `v.get(k, default)`: the value under `k` if present, `default` if
      absent, and an AttributeError when `v` is not a dict. */
  function GetOr(v: Value, k: string, default: Value): (r: PyResult<Value>)
    ensures r.Ok? <==> v.Obj?
    ensures r.Err? ==> r.error == AttributeError
    ensures Has(v, k) ==> r == Ok(v.fields[k])
    ensures v.Obj? && !Has(v, k) ==> r == Ok(default)
  {
    match v
    case Obj(fields) => Ok(if k in fields then fields[k] else default)
    case _ => Err(AttributeError)
  }

  /** Python `v.get(k)`: the default is `None`. */
  function Get(v: Value, k: string): (r: PyResult<Value>)
    ensures r.Ok? <==> v.Obj?
    ensures r.Err? ==> r.error == AttributeError
    ensures Has(v, k) ==> r == Ok(v.fields[k])
    ensures v.Obj? && !Has(v, k) ==> r == Ok(Null)
  {
    GetOr(v, k, Null)
  }

  /** Python `v[0]`. A list gives its first element and a string its first
      character (as a string); both raise IndexError when empty. A dict raises
      KeyError and every other value TypeError. */
  function First(v: Value): (r: PyResult<Value>)
    ensures r.Ok? <==> (v.Arr? && |v.items| > 0) || (v.Str? && |v.s| > 0)
    ensures v.Arr? && |v.items| > 0 ==> r == Ok(v.items[0])
    ensures v.Str? && |v.s| > 0 ==> r.Ok? && r.value.Str? && |r.value.s| == 1 && r.value.s[0] == v.s[0]
    ensures r.Err? ==> r.error == (if v.Arr? || v.Str? then IndexError else if v.Obj? then KeyError else TypeError)
  {
    match v
    case Arr(items) => if |items| == 0 then Err(IndexError) else Ok(items[0])
    case Str(s) => if |s| == 0 then Err(IndexError) else Ok(Str([s[0]]))
    case Obj(_) => Err(KeyError)
    case _ => Err(TypeError)
  }
}
