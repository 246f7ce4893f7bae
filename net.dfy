/**
 * The values the client receives from the remote API, as the components see them.
 *
 * A network call is not run here: each handler receives its outcome as an input.
 * `Ok` is a 2xx response with its decoded body, `HttpError` a non-2xx response
 * carrying the `detail` field of its JSON body, and `NetworkError` a `fetch` (or
 * JSON decoding) that threw.
 */
module Net {

  datatype Option<T> = None | Some(value: T)

  /** A JavaScript value read from a JSON field that is meant to be a string. */
  datatype JsValue = Undefined | Null | Str(s: string)

  datatype Response<T> = Ok(payload: T) | HttpError(detail: JsValue) | NetworkError

  /** JavaScript truthiness of such a value: `undefined`, `null` and `''` are falsy. */
  predicate Truthy(v: JsValue) {
    v.Str? && v.s != ""
  }

  /** The text a template literal `${v}` (or `String(v)`) gives for the value. */
  function Interpolate(v: JsValue): string {
    match v
    case Undefined => "undefined"
    case Null => "null"
    case Str(s) => s
  }

  /** `v || fallback`: the value itself when it is truthy, otherwise the fallback. */
  function OrElse(v: JsValue, fallback: string): string {
    if Truthy(v) then v.s else fallback
  }
}
