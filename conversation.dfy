/**
 * The conversation store: the transcript, the draft and the loading flag,
 * and the three things that change them — editing the draft, submitting
 * it, and the completion of a submitted turn.
 *
 * The transitions are first given as functions on a `Snapshot`, where the
 * properties of whole sessions are proved; the `Session` class at the end
 * keeps the same state in fields and is proved to follow those functions.
 */
module Conversation {
  import opened Wrappers
  import opened Text
  import opened Transport

  datatype Role = User | Assistant

  datatype Message = Message(role: Role, content: string)

  const WelcomeText: string := "Welcome! I am your responsible AI assistant. Ask me anything."

  const WelcomeMessage: Message := Message(Assistant, WelcomeText)

  /** The session's state. `inFlight` counts the turns whose remote call has
      not ended yet: submits suspended at their `await`. */
  datatype Snapshot = Snapshot(messages: seq<Message>, input: string, loading: bool, inFlight: nat)

  /** The state when the view mounts. */
  const Initial: Snapshot := Snapshot([WelcomeMessage], "", false, 0)

  /** The number of messages of the given role. */
  function CountRole(msgs: seq<Message>, role: Role): nat
  {
    if msgs == [] then 0
    else CountRole(msgs[..|msgs| - 1], role) + (if msgs[|msgs| - 1].role == role then 1 else 0)
  }

  lemma CountRoleAppend(msgs: seq<Message>, m: Message, role: Role)
    ensures CountRole(msgs + [m], role) == CountRole(msgs, role) + (if m.role == role then 1 else 0)
  {
    assert (msgs + [m])[..|msgs|] == msgs;
  }

  /** Every message is a user message or an assistant message. */
  lemma {:induction false} CountRolesPartition(msgs: seq<Message>)
    ensures CountRole(msgs, User) + CountRole(msgs, Assistant) == |msgs|
  {
    if msgs != [] {
      CountRolesPartition(msgs[..|msgs| - 1]);
    }
  }

  /** No prefix of the transcript holds more replies than the welcome
      message plus its user messages: no assistant message is appended
      before the user message of its turn. */
  ghost predicate RepliesFollowRequests(msgs: seq<Message>) {
    forall k :: 0 <= k <= |msgs| ==> CountRole(msgs[..k], Assistant) <= 1 + CountRole(msgs[..k], User)
  }

  /** What holds of every state a session reaches. */
  ghost predicate Invariant(s: Snapshot) {
    |s.messages| >= 1 && s.messages[0] == WelcomeMessage &&
    // one terminal message per turn: each completed turn added one reply
    CountRole(s.messages, Assistant) + s.inFlight == 1 + CountRole(s.messages, User) &&
    (s.loading ==> s.inFlight > 0) &&
    RepliesFollowRequests(s.messages)
  }

  /** The text a submit sends: the trimmed draft, or nothing when that is empty. */
  function Outgoing(draft: string): (r: Option<string>)
    ensures r.None? <==> AllWhitespace(draft)
    ensures r.Some? ==> Unpadded(r.value) && WhitespaceMargins(draft, r.value) && r.value != ""
  {
    var text := Trim(draft);
    if text == "" then None else Some(text)
  }

  /** The `onChange` handler: the draft becomes the field's value. */
  function Edited(s: Snapshot, text: string): (r: Snapshot)
    ensures r.input == text
    ensures r.messages == s.messages && r.loading == s.loading && r.inFlight == s.inFlight
  {
    s.(input := text)
  }

  /** The synchronous part of `sendMessage`: a draft of white space only
      changes nothing; otherwise the draft is cleared, the trimmed text is
      appended as a user message and loading is set. No check of `loading`:
      a turn may be submitted while another is outstanding. */
  function Submitted(s: Snapshot): (r: Snapshot)
    ensures AllWhitespace(s.input) ==> r == s
    ensures !AllWhitespace(s.input) ==>
      r.messages == s.messages + [Message(User, Trim(s.input))] &&
      r.input == "" && r.loading && r.inFlight == s.inFlight + 1
  {
    match Outgoing(s.input)
    case None => s
    case Some(text) => Snapshot(s.messages + [Message(User, text)], "", true, s.inFlight + 1)
  }

  /** The continuation of `sendMessage` once its remote call has ended:
      one assistant message is appended and loading is cleared, whatever
      the outcome. Only an outstanding turn can complete. */
  function Completed(s: Snapshot, o: Outcome): (r: Snapshot)
    requires s.inFlight > 0
    ensures r.messages == s.messages + [Message(Assistant, TerminalContent(o))]
    ensures !r.loading && r.input == s.input && r.inFlight == s.inFlight - 1
  {
    Snapshot(s.messages + [Message(Assistant, TerminalContent(o))], s.input, false, s.inFlight - 1)
  }

  /** What can happen to a session. */
  datatype Event =
    | Type(text: string)       // the draft field changed
    | Send                     // Enter or the Send button
    | Arrive(outcome: Outcome) // the remote call of an outstanding turn ended

  predicate Enabled(s: Snapshot, e: Event) {
    e.Arrive? ==> s.inFlight > 0
  }

  function Step(s: Snapshot, e: Event): (r: Snapshot)
    requires Enabled(s, e)
  {
    match e
    case Type(text) => Edited(s, text)
    case Send => Submitted(s)
    case Arrive(o) => Completed(s, o)
  }

  /** The state after a sequence of events, or None if one of them is a
      completion with no turn outstanding. */
  function Run(s: Snapshot, events: seq<Event>): Option<Snapshot>
    decreases |events|
  {
    if events == [] then Some(s)
    else if !Enabled(s, events[0]) then None
    else Run(Step(s, events[0]), events[1..])
  }

  /** The number of completions among the events. */
  function Arrivals(events: seq<Event>): nat {
    if events == [] then 0 else (if events[0].Arrive? then 1 else 0) + Arrivals(events[1..])
  }

  /** The event is a submit whose draft is not all white space. */
  predicate SendsSomething(s: Snapshot, e: Event) {
    e.Send? && !AllWhitespace(s.input)
  }

  /** The number of submits along a run that send something. */
  function Sends(s: Snapshot, events: seq<Event>): nat
    decreases |events|
  {
    if events == [] || !Enabled(s, events[0]) then 0
    else (if SendsSomething(s, events[0]) then 1 else 0) + Sends(Step(s, events[0]), events[1..])
  }

  /** Every event of the run is enabled, and every submit that sends
      something comes while no turn is outstanding: the way the view is
      used when nobody submits again before the reply arrives. */
  predicate SingleFlightFrom(s: Snapshot, events: seq<Event>)
    decreases |events|
  {
    events == [] ||
    (Enabled(s, events[0]) &&
     (SendsSomething(s, events[0]) ==> s.inFlight == 0) &&
     SingleFlightFrom(Step(s, events[0]), events[1..]))
  }

  lemma InitialInvariant()
    ensures Invariant(Initial)
    ensures |Initial.messages| == 1 && Initial.messages[0].role == Assistant
    ensures Initial.input == "" && !Initial.loading
  {
    assert Initial.messages[..0] == [];
    assert Initial.messages[..1] == Initial.messages;
  }

  /** Appending a message keeps every earlier prefix, so only the whole
      new transcript has to be checked. */
  lemma AppendKeepsRepliesFollowRequests(msgs: seq<Message>, m: Message)
    requires RepliesFollowRequests(msgs)
    requires CountRole(msgs + [m], Assistant) <= 1 + CountRole(msgs + [m], User)
    ensures RepliesFollowRequests(msgs + [m])
  {
    var t := msgs + [m];
    forall k | 0 <= k <= |t|
      ensures CountRole(t[..k], Assistant) <= 1 + CountRole(t[..k], User)
    {
      if k <= |msgs| {
        assert t[..k] == msgs[..k];
      } else {
        assert t[..k] == t;
      }
    }
  }

  /** A submit keeps the invariant and adds no assistant message. */
  lemma SubmittedPreservesInvariant(s: Snapshot)
    requires Invariant(s)
    ensures Invariant(Submitted(s))
    ensures CountRole(Submitted(s).messages, Assistant) == CountRole(s.messages, Assistant)
  {
    if !AllWhitespace(s.input) {
      var m := Message(User, Trim(s.input));
      CountRoleAppend(s.messages, m, Assistant);
      CountRoleAppend(s.messages, m, User);
      AppendKeepsRepliesFollowRequests(s.messages, m);
    }
  }

  /** A completion keeps the invariant and adds exactly one assistant message. */
  lemma CompletedPreservesInvariant(s: Snapshot, o: Outcome)
    requires Invariant(s) && s.inFlight > 0
    ensures Invariant(Completed(s, o))
    ensures CountRole(Completed(s, o).messages, Assistant) == CountRole(s.messages, Assistant) + 1
  {
    var m := Message(Assistant, TerminalContent(o));
    CountRoleAppend(s.messages, m, Assistant);
    CountRoleAppend(s.messages, m, User);
    AppendKeepsRepliesFollowRequests(s.messages, m);
  }

  /** One step keeps the invariant, only appends to the transcript, appends
      at most one message, and adds an assistant message exactly when a
      turn completes. */
  lemma StepPreservesInvariant(s: Snapshot, e: Event)
    requires Invariant(s) && Enabled(s, e)
    ensures var t := Step(s, e);
      Invariant(t) && s.messages <= t.messages && |t.messages| <= |s.messages| + 1 &&
      CountRole(t.messages, Assistant) == CountRole(s.messages, Assistant) + (if e.Arrive? then 1 else 0) &&
      CountRole(t.messages, User) == CountRole(s.messages, User) + (if SendsSomething(s, e) then 1 else 0)
  {
    match e
    case Type(_) =>
    case Send =>
      SubmittedPreservesInvariant(s);
      if !AllWhitespace(s.input) {
        CountRoleAppend(s.messages, Message(User, Trim(s.input)), User);
      }
    case Arrive(o) =>
      CompletedPreservesInvariant(s, o);
      CountRoleAppend(s.messages, Message(Assistant, TerminalContent(o)), User);
  }

  /** Along any run: the invariant holds, the transcript only grows at its
      end, the replies added are exactly one per completion, and the user
      messages added are exactly one per submit that sends something. */
  lemma {:induction false} RunPreservesInvariant(s: Snapshot, events: seq<Event>)
    requires Invariant(s) && Run(s, events).Some?
    ensures var t := Run(s, events).value;
      Invariant(t) && s.messages <= t.messages && |t.messages| <= |s.messages| + |events| &&
      CountRole(t.messages, Assistant) == CountRole(s.messages, Assistant) + Arrivals(events) &&
      CountRole(t.messages, User) == CountRole(s.messages, User) + Sends(s, events)
    decreases |events|
  {
    if events != [] {
      StepPreservesInvariant(s, events[0]);
      RunPreservesInvariant(Step(s, events[0]), events[1..]);
    }
  }

  /** Every reachable state keeps the welcome message first and balances
      replies against turns; once no turn is outstanding, loading is off,
      there is exactly one reply per user message, and the transcript is
      the welcome message followed by two messages per turn. */
  lemma Reachable(events: seq<Event>)
    requires Run(Initial, events).Some?
    ensures var t := Run(Initial, events).value;
      Invariant(t) && t.messages[0] == WelcomeMessage &&
      (t.inFlight == 0 ==> !t.loading && CountRole(t.messages, Assistant) == 1 + CountRole(t.messages, User) &&
                           |t.messages| == 1 + 2 * CountRole(t.messages, User))
  {
    InitialInvariant();
    RunPreservesInvariant(Initial, events);
    CountRolesPartition(Run(Initial, events).value.messages);
  }

  /** Without overlapping turns, loading means exactly that a call is
      outstanding, and at most one is. */
  lemma {:induction false} SingleFlightLoading(s: Snapshot, events: seq<Event>)
    requires Invariant(s) && s.inFlight <= 1 && (s.loading <==> s.inFlight > 0)
    requires SingleFlightFrom(s, events)
    ensures Run(s, events).Some?
    ensures var t := Run(s, events).value;
      Invariant(t) && t.inFlight <= 1 && (t.loading <==> t.inFlight > 0)
    decreases |events|
  {
    if events != [] {
      StepPreservesInvariant(s, events[0]);
      SingleFlightLoading(Step(s, events[0]), events[1..]);
    }
  }

  /** The echo turn: submitting "hi" to a backend that replies "X" leaves
      the transcript ending in the user's "hi" and the assistant's "X". */
  lemma EchoRoundTripExample()
    ensures Submitted(Edited(Initial, "hi")).inFlight > 0
    ensures var t := Completed(Submitted(Edited(Initial, "hi")), Responded(true, Json("X", None)));
      t.messages == [WelcomeMessage, Message(User, "hi"), Message(Assistant, "X")] && !t.loading && t.input == ""
  {
    HiIsTrimmed();
    assert Submitted(Edited(Initial, "hi")).messages == [WelcomeMessage, Message(User, "hi")];
  }

  lemma HiIsTrimmed()
    ensures !AllWhitespace("hi") && Trim("hi") == "hi"
  {
    assert "hi"[0] == 'h' && !IsWhitespace('h');
    TrimOfPadded([], "hi", []);
    assert [] + "hi" + [] == "hi";
  }

  /** A whole turn with nothing in between: the transcript ends in the user
      message and its reply, the draft is empty and loading is off. */
  lemma TurnRoundTrip(s: Snapshot, o: Outcome)
    requires !AllWhitespace(s.input)
    ensures Submitted(s).inFlight > 0
    ensures var t := Completed(Submitted(s), o);
      t.messages == s.messages + [Message(User, Trim(s.input)), Message(Assistant, TerminalContent(o))] &&
      t.input == "" && !t.loading && t.inFlight == s.inFlight
  {
  }

  /** Loading is switched on only by a submit that sends something. */
  lemma OnlySendRaisesLoading(s: Snapshot, e: Event)
    requires Enabled(s, e)
    ensures Step(s, e).loading && !s.loading ==> e.Send? && !AllWhitespace(s.input)
  {
  }

  /** With two turns outstanding, the first completion clears the loading
      flag while the second request is still out: the flag is not "a call is
      outstanding". */
  lemma OverlapClearsLoadingEarly(s: Snapshot, second: string, o: Outcome)
    requires Invariant(s) && !AllWhitespace(s.input) && !AllWhitespace(second)
    ensures Submitted(Edited(Submitted(s), second)).inFlight > 0
    ensures var t := Completed(Submitted(Edited(Submitted(s), second)), o);
      !t.loading && t.inFlight == s.inFlight + 1 && t.inFlight > 0 && Invariant(t)
  {
    SubmittedPreservesInvariant(s);
    var s2 := Edited(Submitted(s), second);
    SubmittedPreservesInvariant(s2);
    CompletedPreservesInvariant(Submitted(s2), o);
  }

  /** The component's session state, updated in place. `inFlight` is ghost:
      it stands for the suspended `sendMessage` calls. */
  class Session {
    const endpoint: string
    var messages: seq<Message>
    var input: string
    var loading: bool
    ghost var inFlight: nat

    ghost function State(): Snapshot
      reads this
    {
      Snapshot(messages, input, loading, inFlight)
    }

    ghost predicate Valid()
      reads this
    {
      Invariant(State())
    }

    /** Mounting the view: the welcome message, an empty draft, not loading;
        the endpoint is resolved once from the configured base URL. */
    constructor (configured: Option<string>)
      ensures Valid() && State() == Initial
      ensures endpoint == ChatEndpoint(configured)
    {
      endpoint := ChatEndpoint(configured);
      messages := [WelcomeMessage];
      input := "";
      loading := false;
      inFlight := 0;
      InitialInvariant();
    }

    /** `onChange`: the draft becomes `text`; nothing else changes. */
    method SetDraft(text: string)
      requires Valid()
      modifies this
      ensures Valid() && State() == Edited(old(State()), text)
      ensures messages == old(messages) && loading == old(loading) && input == text
    {
      input := text;
    }

    /** `sendMessage` up to its `await`: returns the request to post, or
        None when the draft trims to nothing (and then changes nothing). */
    method BeginSubmit() returns (request: Option<Request>)
      requires Valid()
      modifies this
      ensures Valid() && State() == Submitted(old(State()))
      ensures request.None? <==> AllWhitespace(old(input))
      ensures request.Some? ==> request.value == Request(endpoint, Trim(old(input)))
    {
      ghost var before := State();
      var outgoing := Outgoing(input);
      if outgoing.None? {
        return None;
      }
      var text := outgoing.value;
      input := "";
      messages := messages + [Message(User, text)];
      loading := true;
      inFlight := inFlight + 1;
      request := Some(Request(endpoint, text));
      SubmittedPreservesInvariant(before);
    }

    /** `sendMessage` after its `await`: appends the one terminal message of
        the turn and clears loading. */
    method Complete(o: Outcome)
      requires Valid() && inFlight > 0
      modifies this
      ensures Valid() && State() == Completed(old(State()), o)
      ensures messages == old(messages) + [Message(Assistant, TerminalContent(o))]
      ensures !loading && input == old(input)
    {
      ghost var before := State();
      messages := messages + [Message(Assistant, TerminalContent(o))];
      loading := false;
      inFlight := inFlight - 1;
      CompletedPreservesInvariant(before, o);
    }
  }
}
