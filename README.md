# Chat-session controller — a verified Dafny model

This project models the conversation controller of a single-page chat client
(the `App` component of `src/App.jsx`). The controller keeps three pieces of
state: the transcript `messages`, seeded with one assistant welcome message;
the draft `input`; and the `loading` flag. A submit trims the draft. If the
trimmed text is empty, the submit does nothing. Otherwise it clears the draft,
appends the user's message, sets `loading` and posts the text to
`<backend>/api/chat`. When the call ends, the submit appends exactly one
assistant message (the reply, or `Error: <message>`) and clears `loading`.

Modules:

- `Wrappers` (`wrappers.dfy`): `Option` (a value that may be `undefined`) and `Result` (returned or thrown).
- `Text` (`text.dfy`): `trim()` over an explicit white-space predicate. That predicate is the ECMAScript WhiteSpace and LineTerminator sets.
- `Transport` (`transport.dfy`):
  - the backend default and the endpoint;
  - JavaScript's `||` on an optional string;
  - the `Outcome` of a remote call, which is a network failure or a response with `res.ok` and a body that parsed or did not;
  - the text of the terminal message.
- `Conversation` (`conversation.dfy`):
  - the session state as a `Snapshot` value;
  - its transitions as functions, and the lemmas about whole runs of events;
  - the `Session` class, whose fields the methods update in place and whose methods are proved to follow those functions.

`Snapshot.inFlight` (a ghost field in `Session`) counts the `sendMessage`
calls suspended at their `await`. The source has no such variable. It stands
for the pending continuations, so only an outstanding turn can complete.
`BeginSubmit` does not look at `loading`, as in the source. A second turn may
therefore be submitted while the first is still out. `OverlapClearsLoadingEarly`
shows the consequence: the first completion switches `loading` off while the
other request is still outstanding.

## Model

| member | source | states |
|---|---|---|
| `Text.IsWhitespace` | src/App.jsx:25 | the characters `trim()` removes all lie in the Basic Multilingual Plane |
| `Text.AsciiWhitespace` | src/App.jsx:25 | among ASCII characters, `trim()` removes exactly tab, line feed, vertical tab, form feed, carriage return and space |
| `Text.SkipForward` | src/App.jsx:25 | the forward scan passes over white space only, and stops at the end or at a character that is not white space |
| `Text.SkipBackward` | src/App.jsx:25 | the backward scan passes over white space only, and stops at its lower bound or just after a character that is not white space |
| `Text.SkipForwardStops` | src/App.jsx:25 | the forward scan stops exactly at the first character that is not white space |
| `Text.SkipBackwardStops` | src/App.jsx:25 | the backward scan stops exactly after the last character that is not white space |
| `Text.Trim` | src/App.jsx:25 | the trimmed draft is the draft with white space cut from its two ends, neither end of it is white space, and it is empty exactly when the draft is all white space |
| `Text.TrimOfPadded` | src/App.jsx:25 | trimming undoes any white-space padding of an unpadded string, so the contract of `Trim` determines its result |
| `Text.TrimIdempotent` | src/App.jsx:25 | trimming twice gives the same text as trimming once |
| `Transport.OrDefault` | src/App.jsx:37 | `v \|\| fallback` keeps a non-empty string, replaces an absent or empty one with the fallback, and is never empty when the fallback is not (`Backend` uses it for line 14 too) |
| `Transport.Backend` | src/App.jsx:14 | the base URL is the configured value when it is set and non-empty, and `http://localhost:8000` when it is unset or empty |
| `Transport.ChatEndpoint` | src/App.jsx:31 | the request URL is the base URL followed by `/api/chat` |
| `Transport.Settle` | src/App.jsx:31-37 | a turn succeeds exactly when a response arrived with `res.ok` and a parsed body, and the success value is `reply`; a parsed body with a failing status always throws a non-empty message |
| `Transport.TerminalContent` | src/App.jsx:36-40 | for every outcome, the final assistant text: `reply` for an ok status with a parsed body; `Error: ` + (`detail \|\| 'Failed'`) for a failing status with a parsed body; `Error: ` + the parser's message for a body that does not parse, whatever the status; `Error: ` + the failure's message for a network failure |
| `Transport.EchoedReplyExample` | src/App.jsx:36-38 | a backend answering status 200 with reply "X" makes the turn show "X" |
| `Transport.RateLimitedExample` | src/App.jsx:37-40 | status 500 with detail "rate limited" shows "Error: rate limited" whatever the reply field holds; an empty or missing detail shows "Error: Failed" |
| `Transport.MalformedBodyExample` | src/App.jsx:36-40 | a body that does not parse shows "Error: " + the parser's message with status 500 exactly as with status 200, because parsing comes before the status check |
| `Transport.FailureTextCarriesMessage` | src/App.jsx:39-40 | every failure text starts with `Error: ` and the rest of it is exactly the thrown message |
| `Conversation.Outgoing` | src/App.jsx:25-26 | a submit sends nothing exactly when the draft is all white space; otherwise it sends the non-empty trimmed draft |
| `Conversation.Edited` | src/App.jsx:116 | editing sets the draft to the field's value and leaves the transcript, loading and the outstanding turns unchanged |
| `Conversation.Submitted` | src/App.jsx:25-29 | an all-white-space draft changes nothing; otherwise the draft becomes empty, exactly the user message with the trimmed text is appended at the end, loading is set, and one more turn is outstanding |
| `Conversation.Completed` | src/App.jsx:36-42 | a completion appends exactly one assistant message holding the terminal text of the outcome, clears loading, and leaves the draft alone |
| `Conversation.InitialInvariant` | src/App.jsx:7-11 | the initial session holds only the assistant welcome message, with an empty draft and loading false, and satisfies the invariant |
| `Conversation.SubmittedPreservesInvariant` | src/App.jsx:25-29 | a submit keeps the session invariant and adds no assistant message |
| `Conversation.CompletedPreservesInvariant` | src/App.jsx:36-42 | a completion keeps the session invariant and adds exactly one assistant message |
| `Conversation.StepPreservesInvariant` | src/App.jsx:24-44 | editing, submitting and completing keep the invariant: welcome message first, replies = 1 + user messages − outstanding turns, loading only while a turn is out, no reply before its request; each step only appends at the end, at most one message, an assistant message exactly on completion, and a user message exactly on a submit that sends something |
| `Conversation.RunPreservesInvariant` | src/App.jsx:24-44 | along any run of events the invariant holds, earlier messages and their order are unchanged, the replies added are exactly one per completion, and the user messages added are exactly one per submit whose trimmed draft is non-empty |
| `Conversation.Reachable` | src/App.jsx:7-44 | every reachable state keeps the welcome message first; when no turn is outstanding, loading is off, there is exactly one reply per user message, and the transcript holds the welcome message plus two messages per turn |
| `Conversation.TurnRoundTrip` | src/App.jsx:25-42 | a submit followed by its completion leaves the transcript ending in the user message and its terminal reply, with the draft empty, loading off and no change in outstanding turns |
| `Conversation.SingleFlightLoading` | src/App.jsx:24-44 | when no submit sends while a turn is outstanding, every state reached has at most one call out, and loading is true exactly while one is |
| `Conversation.EchoRoundTripExample` | src/App.jsx:7-42 | from the initial session, submitting "hi" to a backend that replies "X" leaves the welcome message, the user's "hi" and the assistant's "X", with the draft empty and loading off |
| `Conversation.OnlySendRaisesLoading` | src/App.jsx:27-42 | loading goes from false to true only on a submit whose draft is not all white space |
| `Conversation.OverlapClearsLoadingEarly` | src/App.jsx:24-44 | with two turns submitted, the first completion switches loading off while the second is still outstanding |
| `Conversation.Session.constructor` | src/App.jsx:7-11 | a new session is the initial state, and its endpoint is resolved once from the configured base URL |
| `Conversation.Session.SetDraft` | src/App.jsx:116 | the draft becomes the given text and nothing else changes |
| `Conversation.Session.BeginSubmit` | src/App.jsx:24-34 | the fields follow `Submitted`, and the method returns no request exactly for an all-white-space draft, else the request `(endpoint, trimmed draft)` |
| `Conversation.Session.Complete` | src/App.jsx:36-43 | the fields follow `Completed`: one terminal assistant message is appended, loading is cleared, and the invariant is kept |

## Left out

- Rendering, the Spline background, the feature grid, the footer and the Upload and Settings buttons (src/App.jsx:46-134) are presentation only. The two buttons have no handlers.
- The theme toggle and its `document.documentElement` effect, and the scroll-into-view effect, are DOM side effects with no core state.
- `fetch`, the request headers, `JSON.stringify` and `res.json()` are network I/O and library calls. Their possible endings are the `Outcome` datatype, and the request is the `Request` value that `BeginSubmit` returns.
- Reading `import.meta.env` is replaced by an `Option<string>` parameter of the constructor.
- Non-string `reply` or `detail` values are not modelled: a missing `reply` would make the message content `undefined`, and a `null` body would throw a `TypeError`. Both fields are strings in the model, and `detail` may also be absent.
- The order in which overlapping completions arrive is not modelled. React schedules the state updates. Each completion is one atomic step, any outstanding turn may complete next, and the outcome does not record which request it answers.
- White space is a fixed character set: the ECMAScript WhiteSpace and LineTerminator characters, with the Unicode space separators (category Zs) as listed from Unicode 6.3 through Unicode 16.0 (seventeen characters). A later change to category Zs is not tracked.
- JavaScript strings are sequences of UTF-16 code units, while a Dafny `string` holds Unicode scalar values. A draft, reply or message containing a lone surrogate therefore cannot be represented. Trimming is unaffected, because every white-space character lies in the Basic Multilingual Plane (`Text.IsWhitespace` states this).
