/**
 * Requests the client sends and the replies it may get. A call to `fetch` is
 * modelled by the request the client builds and a reply supplied from outside.
 */
module Http {
  import opened Wrappers
  import opened Records

  datatype Verb = Get | Post

  /** A request, by path below the backend's `/api` base. */
  datatype Request = Request(verb: Verb, path: string, authorization: Option<string>, body: Option<Object>)

  /** How an error body parses: not JSON, the JSON `null`, or JSON with or without a `message`. */
  datatype ErrorJson = NotJson | JsonNull | Json(message: Option<string>)

  /**
   * The outcome of one `fetch`: a 2xx reply whose body parses to `T`, a
   * non-2xx reply with its body text, or a failure to reach the backend.
   */
  datatype Reply<T> = Ok(value: T) | NotOk(text: string, json: ErrorJson) | NetworkError

  /** The `Authorization` header `Bearer ${token}` for whatever token is stored (null included). */
  function Bearer(stored: Option<string>): (h: string)
    ensures |h| >= 7 && h[..7] == "Bearer "
    ensures stored.Some? ==> h[7..] == stored.value
    ensures stored.None? ==> h[7..] == "null"
  {
    "Bearer " + stored.GetOr("null")
  }
}
