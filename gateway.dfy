/**
 * The shapes both edge functions share: chat messages posted to the AI
 * gateway, what the gateway call can yield, and the HTTP response a function
 * returns.  The network itself is outside the model; a handler receives the
 * gateway's outcome as an input value.
 */
module Gateway {
  import opened Wrappers
  import opened JsStrings

  datatype Role = System | User | Assistant

  /** One chat turn, `{ role, content }`. */
  datatype Message = Message(role: Role, content: string)

  /** The part of the gateway's JSON reply the functions read: `choices[0].message`. */
  datatype Completion = Completion(
    toolArguments: Option<string>,  // tool_calls[0].function.arguments
    content: Option<string>         // content
  )

  /** The outcome of the `fetch` to the gateway. */
  datatype Upstream =
    | Unreachable(message: string)                          // fetch rejected (network failure)
    | Responded(status: int, data: Result<Completion, string>)  // the status, and the body read as JSON or the parser's error message

  /** `response.ok`: a status in 200..299. */
  predicate IsOk(status: int) {
    200 <= status <= 299
  }

  /** A response body: `{ error }`, a success payload serialised as JSON, or `{ reply }`. */
  datatype Body = ErrorBody(error: string) | JsonBody(json: string) | ReplyBody(reply: string)

  datatype HttpResponse = HttpResponse(status: int, body: Body)

  /** The catch-all of both functions: a thrown error becomes a 500 carrying its message. */
  function ServerError(message: string): (r: HttpResponse)
    ensures r.status == 500 && r.body == ErrorBody(message)
  {
    HttpResponse(500, ErrorBody(message))
  }

  /** A missing or empty `LOVABLE_API_KEY` is falsy. */
  predicate HasKey(apiKey: Option<string>) {
    apiKey.Some? && apiKey.value != ""
  }

  const MissingKeyMessage := "LOVABLE_API_KEY is not configured"

  const RateLimitMessage := "Rate limit exceeded. Please try again in a moment."

  /** The message thrown for a non-OK status the function does not pass through. */
  function GatewayErrorMessage(status: int): string {
    "AI gateway error: " + IntToString(status)
  }
}
