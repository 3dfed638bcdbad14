/** The requests the client sends and the replies it reads, as plain values. The network
    itself is outside the model: a reply is an input. */
module Http {
  import opened Common
  import opened JsValues

  /** A file the user picked. */
  datatype File = File(name: string)

  /** A request body: none, `JSON.stringify(value)` (recorded as the value), or a
      `FormData` holding named files. */
  datatype Body = NoBody | JsonBody(value: JsValue) | FormBody(fields: seq<(string, File)>)

  /** A request as passed to `fetch`: method, absolute URL, header object and body. */
  datatype Request = Request(httpMethod: string, url: string, headers: map<string, string>, body: Body)

  /** A response: its status, its status text and, when the body is JSON, its parsed
      value (`None` when `response.json()` rejects). */
  datatype Response = Response(status: int, statusText: string, json: Option<JsValue>)
  {
    /** `response.ok`. */
    predicate Ok() {
      200 <= status <= 299
    }
  }

  /** What a `fetch` promise settles to: rejected (network failure) or a response. */
  datatype Reply = NetworkFailure | Answered(response: Response)

  /** The `options` argument of an authenticated request; an absent `headers` object is
      the empty map and an absent `method` is `"GET"`. */
  datatype FetchOptions = FetchOptions(httpMethod: string, headers: map<string, string>, body: Body)

  /** The reply is a response with an ok status. */
  predicate Succeeded(reply: Reply) {
    reply.Answered? && reply.response.Ok()
  }
}
