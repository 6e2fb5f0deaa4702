/** The JSON shapes the handlers of api/app.py read and write. */
module Http {
  import opened Wrappers

  /** A reply `{success, message}` together with its HTTP status code
      (Flask answers 200 when a handler gives no code). */
  datatype Response = Response(success: bool, status: int, message: string)

  /** A decoded JSON request body; every field is a string or is absent. */
  type Payload = map<string, string>

  /** `data.get(key)`: the field's value, or `None` when it is absent. */
  function Get(p: Payload, key: string): Option<string> {
    if key in p then Some(p[key]) else None
  }

  /** Python truthiness of a string-or-`None` value: `None` and the empty
      string are falsy, every other string is truthy. */
  predicate Truthy(v: Option<string>) {
    match v
    case None => false
    case Some(s) => s != ""
  }

  /** The field `key` read with `data.get` is truthy. */
  predicate Filled(p: Payload, key: string)
    ensures Filled(p, key) <==> key in p && p[key] != ""
  {
    Truthy(Get(p, key))
  }
}
