/** What a route handler sees of a request (query strings and form fields)
    and the error responses it can produce. */
module Http {
  import opened Wrappers

  /** Query-string parameters or form fields by name; `get` returns the
      first value, which is the one the map keeps. */
  type Params = map<string, string>

  /** `searchParams.get(key)` / `formData.get(key)`: `None` when absent. */
  function Lookup(params: Params, key: string): (v: Option<string>)
  {
    if key in params then Some(params[key]) else None
  }

  /** JavaScript truthiness of a `string | null`: neither `null` nor `''`. */
  predicate Truthy(v: Option<string>)
  {
    v.Some? && v.value != ""
  }

  /** `v || fallback` on a `string | null`. */
  function OrDefault(v: Option<string>, fallback: string): (r: string)
  {
    if Truthy(v) then v.value else fallback
  }

  /** An HTTP error raised with SvelteKit's `error(status, message)`; `cause`
      stands for the serialized upstream error appended to the message. */
  datatype HttpError = HttpError(status: nat, message: string, cause: Option<string>)

  /** A handler's answer: a payload, or an HTTP error. */
  datatype Response<+P> = Respond(payload: P) | Refuse(error: HttpError)
}
