/**
 * The chat transport: the endpoint a turn is posted to, and the text of
 * the assistant message that ends the turn, as a function of how the
 * remote call ended. The call itself (`fetch`, `res.json()`) is not
 * modelled; its possible endings are the values of `Outcome`.
 */
module Transport {
  import opened Wrappers

  const DefaultBackend: string := "http://localhost:8000"
  const ChatPath: string := "/api/chat"
  const ErrorPrefix: string := "Error: "
  const FallbackDetail: string := "Failed"

  /** What `res.json()` made of the response body. */
  datatype Body =
    | Json(reply: string, detail: Option<string>)  // parsed; the two fields read
    | Malformed(message: string)                    // rejected, with the parser's message

  /** How the remote call of one turn ended. */
  datatype Outcome =
    | NetworkFailure(message: string)       // `fetch` rejected
    | Responded(ok: bool, body: Body)       // a response arrived; `ok` is `res.ok`

  /** The request a submitted turn sends: its URL and the `message` field of its JSON body. */
  datatype Request = Request(url: string, message: string)

  /** JavaScript's `v || fallback` for a value that is a string or undefined:
      both `undefined` and the empty string are falsy. */
  function OrDefault(v: Option<string>, fallback: string): (r: string)
    ensures v.Some? && v.value != "" ==> r == v.value
    ensures v.None? || v.value == "" ==> r == fallback
    ensures r == "" ==> fallback == ""
  {
    if v.Some? && v.value != "" then v.value else fallback
  }

  /** The backend base URL: the configured value, unless it is unset or empty. */
  function Backend(configured: Option<string>): (r: string)
    ensures configured.Some? && configured.value != "" ==> r == configured.value
    ensures configured.None? || configured.value == "" ==> r == DefaultBackend
    ensures r == DefaultBackend || (configured.Some? && r == configured.value)
  {
    OrDefault(configured, DefaultBackend)
  }

  /** The URL every turn is posted to. */
  function ChatEndpoint(configured: Option<string>): (r: string)
    ensures |r| > |ChatPath| && r[|r| - |ChatPath|..] == ChatPath
    ensures r[..|r| - |ChatPath|] == Backend(configured)
  {
    Backend(configured) + ChatPath
  }

  /** Where the `try` block of a turn ends: it returns the reply, or throws
      an error whose message is given. The body is parsed before the status
      is looked at, so a malformed body throws the parser's error whatever
      the status; a parsed body with a failing status throws
      `detail || 'Failed'`. */
  function Settle(o: Outcome): (r: Result<string, string>)
    ensures r.Success? <==> o.Responded? && o.ok && o.body.Json?
    ensures r.Success? ==> r.value == o.body.reply
    ensures o.Responded? && !o.ok && o.body.Json? ==> r.Failure? && r.error != ""
  {
    match o
    case NetworkFailure(m) => Failure(m)
    case Responded(ok, Malformed(m)) => Failure(m)
    case Responded(ok, Json(reply, detail)) =>
      if !ok then Failure(OrDefault(detail, FallbackDetail)) else Success(reply)
  }

  /** The content of the assistant message that ends the turn: the reply
      itself, or the thrown message behind the `Error: ` prefix. */
  function TerminalContent(o: Outcome): (r: string)
    ensures o.Responded? && o.ok && o.body.Json? ==> r == o.body.reply
    ensures o.Responded? && !o.ok && o.body.Json? ==> r == ErrorPrefix + OrDefault(o.body.detail, FallbackDetail)
    ensures o.Responded? && o.body.Malformed? ==> r == ErrorPrefix + o.body.message
    ensures o.NetworkFailure? ==> r == ErrorPrefix + o.message
  {
    match Settle(o)
    case Success(reply) => reply
    case Failure(message) => ErrorPrefix + message
  }

  /** A mocked backend that answers with status 200 and reply "X": the turn shows "X". */
  lemma EchoedReplyExample()
    ensures TerminalContent(Responded(true, Json("X", None))) == "X"
  {
  }

  /** A mocked backend that answers with status 500 and detail "rate
      limited" shows "Error: rate limited", whatever the reply field holds;
      an empty or missing detail shows "Error: Failed". */
  lemma RateLimitedExample(reply: string)
    ensures TerminalContent(Responded(false, Json(reply, Some("rate limited")))) == "Error: rate limited"
    ensures TerminalContent(Responded(false, Json(reply, Some("")))) == "Error: Failed"
    ensures TerminalContent(Responded(false, Json(reply, None))) == "Error: Failed"
  {
  }

  /** An HTML error page instead of JSON: the parser's message is shown,
      with status 500 as with status 200, because the body is parsed before
      the status is looked at. */
  lemma MalformedBodyExample()
    ensures TerminalContent(Responded(false, Malformed("Unexpected token"))) == "Error: Unexpected token"
    ensures TerminalContent(Responded(true, Malformed("Unexpected token"))) == "Error: Unexpected token"
  {
  }

  /** Every failing turn's text is the thrown message behind the `Error: `
      prefix, so the message can be read back from the text. */
  lemma FailureTextCarriesMessage(o: Outcome)
    requires Settle(o).Failure?
    ensures |TerminalContent(o)| >= |ErrorPrefix|
    ensures TerminalContent(o)[..|ErrorPrefix|] == ErrorPrefix
    ensures TerminalContent(o)[|ErrorPrefix|..] == Settle(o).error
  {
  }
}
