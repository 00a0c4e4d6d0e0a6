/** What the handlers and hooks exchange with the outside world: the reply an
    HTTP `fetch` produces, the response a handler sends, and the effects an
    invocation performs (so that "no upstream call" and "no cache write" can be
    stated about a run). */
module Http {
  import opened Wrappers
  import Json

  /** The body of an answered `fetch`, after the caller's JSON parse: either it
      failed with the parser's message, or it produced a value of type `T`. */
  datatype Parsed<+T> = Unparseable(parseError: string) | Parsed(value: T)

  /** What a `fetch` gives: a rejected promise (network failure, with the
      error's message) or a response with a status line and a body. */
  datatype Reply<+T> =
    | FetchFailed(message: string)
    | Answered(status: int, statusText: string, body: Parsed<T>)

  /** `response.ok`: a status in the range 200-299. */
  predicate IsOk(status: int) {
    200 <= status <= 299
  }

  /** A JSON object body, as `res.json({...})` sends it, or no body at all for
      `res.end()`. */
  datatype Body = NoBody | Object(fields: map<string, Json.Json>)

  datatype Response = Response(status: int, body: Body)

  /** An error response `{error: ..., message: ...}` or, without message, `{error: ...}`. */
  function ErrorBody(error: string, message: Option<string>): (b: Body)
    ensures b.Object? && "error" in b.fields && b.fields["error"] == Json.JStr(error)
    ensures ("message" in b.fields) == message.Some?
  {
    match message
    case None => Object(map["error" := Json.JStr(error)])
    case Some(m) => Object(map["error" := Json.JStr(error), "message" := Json.JStr(m)])
  }

  /** The observable effects of one handler invocation, in order. */
  datatype Effect =
    | Fetch(url: string)
    | CacheRead(key: string)
    | CacheTtl(key: string)
    | CacheWrite(key: string, ttl: int)

  /** The message V8 gives the TypeError thrown by reading `property` of `null`. */
  function NullPropertyError(property: string): string {
    "Cannot read properties of null (reading '" + property + "')"
  }
}
