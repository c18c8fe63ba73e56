/** The request/response shapes shared by the route handlers and the client. */
module Http {
  import opened Js
  import opened Wrappers

  /**
   * What an awaited `fetch` comes back with: a rejected promise, or a response
   * with its `ok` flag and the outcome of `res.json()` (None when that rejects).
   */
  datatype Upstream = Rejected | Answered(ok: bool, json: Option<JsValue>)

  /** The object a handler passes to `NextResponse.json`: `{ error }` or its payload. */
  datatype Body<+T> = ErrorBody(message: string) | Payload(value: T)

  /** What a handler produces: a JSON response with its status, or an exception it lets escape. */
  datatype Reply<+T> = Json(status: nat, body: Body<T>) | Uncaught

  /** One run of a handler: the request it sent upstream, if it sent one, and its reply. */
  datatype Exchange<+R, +T> = Exchange(sent: Option<R>, reply: Reply<T>)
}
