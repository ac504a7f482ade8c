/**
 * The chat panel (src/components/Chat.jsx): the transcript, the loading flag and
 * the turn handler `handleSend`. The backend call is not made here: the request
 * the panel would post is returned, and what came back is passed in as an
 * `Outcome`.
 */
module ChatPanel {
  import opened Js
  import InputBar
  import MessageView

  /** One entry of the transcript. User entries hold the typed string; bot entries
      hold whatever value the reply handling picked, which need not be a string. */
  datatype Message = Message(text: Value, isBot: bool)

  const WelcomeText: string :=
    "Hi! I'm Alex Hormozi's AI assistant. I've analyzed his content across YouTube, Twitter, Instagram, Threads, TikTok, and podcasts. Ask me anything about business growth, marketing, or entrepreneurship!"

  const Welcome: Message := Message(Str(WelcomeText), true)

  const FallbackText: string :=
    "I apologize, but I couldn't process that request properly. Please try again."

  const GenericErrorText: string := "An unexpected error occurred"
  const ErrorPrefix: string := "I'm sorry, I encountered an error: "
  const ErrorSuffix: string := ". Please try again later."

  /** The body of the POST to `/api/agent/chat`. */
  datatype Request = Request(query: string, context: string)

  /** A thrown error as the `catch` block sees it: `error.response` (the HTTP
      response, `Undefined` when there is none) and `error.message`. */
  datatype ErrorValue = ErrorValue(response: Value, message: Value)

  /** How the awaited POST ended: with `response.data`, or by throwing. */
  datatype Outcome = Delivered(data: Value) | Rejected(error: ErrorValue)

  /** What the `try` block does with `response.data`: picks a reply value, or
      throws while reading `choices[0].message.content`. */
  datatype Normalized = Reply(text: Value) | Thrown(error: ErrorValue)

  /** The TypeError a browser (V8 wording) raises for `v.key` when `v` is null or undefined. */
  function TypeErrorReading(v: Value, key: string): ErrorValue {
    ErrorValue(Undefined, Str("Cannot read properties of " + (if v.Null? then "null" else "undefined") + " (reading '" + key + "')"))
  }

  // ---------------------------------------------------------------------------
  // The reply chain: first match wins

  /** `response.data && response.data.result` */
  predicate HasResult(data: Value) {
    Truthy(data) && Truthy(Prop(data, "result"))
  }

  /** `response.data && response.data.choices && response.data.choices[0]` */
  predicate HasChoice(data: Value) {
    Truthy(data) && Truthy(Prop(data, "choices")) && Truthy(Index0(Prop(data, "choices")))
  }

  /** `response.data && response.data.content` */
  predicate HasContent(data: Value) {
    Truthy(data) && Truthy(Prop(data, "content"))
  }

  /** The `if / else if` chain that turns `response.data` into the reply text. Only
      reading `choices[0].message.content` can throw, and only with a TypeError of
      its own; the reply is falsy only for an empty string body or when it was read
      from a first choice, since every other rule picks a truthy value. */
  function Normalize(data: Value): (r: Normalized)
    ensures r.Thrown? ==> HasChoice(data) && !HasResult(data) && r.error.response == Undefined
    ensures r.Reply? && !Truthy(r.text) ==> data == Str("") || (HasChoice(data) && !HasResult(data))
  {
    if HasResult(data) then Reply(Prop(data, "result"))
    else if HasChoice(data) then
      var message := Prop(Index0(Prop(data, "choices")), "message");
      if IsNullish(message) then Thrown(TypeErrorReading(message, "content"))
      else Reply(Prop(message, "content"))
    else if HasContent(data) then Reply(Prop(data, "content"))
    else if data.Str? then Reply(data)
    else Reply(Str(FallbackText))
  }

  /** A truthy `result` wins over every other field the payload may carry. */
  lemma ResultWins(fields: map<string, Value>, result: Value)
    requires Truthy(result)
    ensures Normalize(Obj(fields["result" := result])) == Reply(result)
  {
  }

  /** A falsy `result` (such as "" or 0) is as good as no `result` at all. */
  lemma FalsyResultFallsThrough(fields: map<string, Value>, result: Value)
    requires !Truthy(result)
    ensures Normalize(Obj(fields["result" := result])) == Normalize(Obj(fields - {"result"}))
  {
  }

  /** Without a truthy `result`, a first choice wins over `content`; its reply is
      `choices[0].message.content`, and a first choice without a `message` throws. */
  lemma ChoiceWinsOverContent(fields: map<string, Value>, first: Value, rest: seq<Value>, content: Value)
    requires "result" !in fields && Truthy(first)
    ensures var data := Obj(fields["choices" := Arr([first] + rest)]["content" := content]);
      && (first.Obj? && "message" in first.fields && !IsNullish(first.fields["message"]) ==>
            Normalize(data) == Reply(Prop(first.fields["message"], "content")))
      && (first.Obj? && "message" !in first.fields ==>
            Normalize(data) == Thrown(TypeErrorReading(Undefined, "content")))
  {
  }

  /** Without a truthy `result` or a truthy first choice (no `choices`, an empty
      array, or a falsy `choices[0]`), a truthy `content` is the reply. */
  lemma ContentWhenNoChoice(fields: map<string, Value>, content: Value)
    requires "result" !in fields && !HasChoice(Obj(fields)) && Truthy(content)
    ensures Normalize(Obj(fields["content" := content])) == Reply(content)
  {
  }

  /** A string body is the reply verbatim, the empty string included. */
  lemma StringReplyVerbatim(s: string)
    ensures Normalize(Str(s)) == Reply(Str(s))
  {
  }

  /** Bodies that match no rule get the fixed apology: null, booleans, numbers,
      arrays, and objects with no truthy `result`, `choices[0]` or `content`. */
  lemma UnrecognizedGetsFallback(data: Value)
    requires !data.Str? && !HasResult(data) && !HasChoice(data) && !HasContent(data)
    ensures Normalize(data) == Reply(Str(FallbackText))
  {
  }

  /** The only way reading the reply throws: a first choice whose `message` is null
      or undefined. */
  lemma NormalizeThrowsOnlyOnMissingMessage(data: Value)
    ensures Normalize(data).Thrown? <==>
      !HasResult(data) && HasChoice(data) && IsNullish(Prop(Index0(Prop(data, "choices")), "message"))
  {
  }

  // ---------------------------------------------------------------------------
  // The catch block

  /** `error.response?.data?.error`: defined only when the response carries a body
      that is an object with an `error` field. */
  function ServerError(e: ErrorValue): (r: Value)
    ensures r != Undefined ==>
      && e.response.Obj? && "data" in e.response.fields
      && var data := e.response.fields["data"];
      && data.Obj? && "error" in data.fields && r == data.fields["error"]
    ensures (e.response.Obj? && "data" in e.response.fields && e.response.fields["data"].Obj?
             && "error" in e.response.fields["data"].fields)
      ==> r == e.response.fields["data"].fields["error"]
  {
    if IsNullish(e.response) then Undefined
    else
      var data := Prop(e.response, "data");
      if IsNullish(data) then Undefined else Prop(data, "error")
  }

  /** `error.response?.data?.error || error.message || "An unexpected error occurred"`:
      the first truthy candidate, so the result is always truthy. */
  function ErrorDetail(e: ErrorValue): (d: Value)
    ensures Truthy(d)
    ensures Truthy(ServerError(e)) ==> d == ServerError(e)
    ensures !Truthy(ServerError(e)) && Truthy(e.message) ==> d == e.message
    ensures !Truthy(ServerError(e)) && !Truthy(e.message) ==> d == Str(GenericErrorText)
  {
    if Truthy(ServerError(e)) then ServerError(e)
    else if Truthy(e.message) then e.message
    else Str(GenericErrorText)
  }

  /** The apology shown when the send fails: the fixed opening and closing around
      the detail as a string. It is never empty, so the bot message is truthy. */
  function Apology(e: ErrorValue): (r: string)
    ensures StartsWith(r, ErrorPrefix) && EndsWith(r, ErrorSuffix)
    ensures |r| >= |ErrorPrefix| + |ErrorSuffix|
    ensures ErrorDetail(e).Str? ==> r[|ErrorPrefix|..|r| - |ErrorSuffix|] == ErrorDetail(e).s
  {
    ErrorPrefix + ToString(ErrorDetail(e)) + ErrorSuffix
  }

  /** A server-supplied `{ "error": m }` body is quoted in the apology, whatever the
      transport message says. */
  lemma ApologyQuotesServerError(response: map<string, Value>, body: map<string, Value>, m: string, message: Value)
    requires m != ""
    ensures Apology(ErrorValue(Obj(response["data" := Obj(body["error" := Str(m)])]), message))
         == ErrorPrefix + m + ErrorSuffix
  {
  }

  /** With no response at all (a network error), the transport message is quoted,
      or the generic phrase when it is empty. */
  lemma ApologyWithoutResponse(message: string)
    ensures Apology(ErrorValue(Undefined, Str(message)))
         == ErrorPrefix + (if message == "" then GenericErrorText else message) + ErrorSuffix
  {
  }

  /** The text of the one bot message a send appends: the normalised reply, or the
      apology when the POST failed or reading the reply threw. A falsy bot message
      can only come from a delivered body: an empty string, or a first choice. */
  function BotText(outcome: Outcome): (r: Value)
    ensures outcome.Rejected? ==> r == Str(Apology(outcome.error))
    ensures outcome.Delivered? && HasResult(outcome.data) ==> r == Prop(outcome.data, "result")
    ensures !Truthy(r) ==>
      outcome.Delivered? && (outcome.data == Str("") || (HasChoice(outcome.data) && !HasResult(outcome.data)))
  {
    match outcome
    case Delivered(data) =>
      (match Normalize(data)
       case Reply(v) => v
       case Thrown(e) => Str(Apology(e)))
    case Rejected(e) => Str(Apology(e))
  }

  // ---------------------------------------------------------------------------
  // Context

  /** The texts of the transcript as `Array.prototype.join` renders them. */
  function TextStrings(messages: seq<Message>): (r: seq<string>)
    ensures |r| == |messages|
    ensures forall i :: 0 <= i < |messages| ==> r[i] == ElementString(messages[i].text)
  {
    seq(|messages|, i requires 0 <= i < |messages| => ElementString(messages[i].text))
  }

  /** `messages.map(m => m.text).join('\n')`: it opens with the first message's text
      (the welcome, once mounted) and closes with the latest message's. */
  function Context(messages: seq<Message>): (r: string)
    ensures messages == [] ==> r == ""
    ensures messages != [] ==> StartsWith(r, ElementString(messages[0].text))
    ensures messages != [] ==> EndsWith(r, ElementString(messages[|messages| - 1].text))
  {
    JoinEnds(TextStrings(messages), "\n");
    Join(TextStrings(messages), "\n")
  }

  /** The context right after mounting is the welcome text alone. */
  lemma ContextOfWelcome()
    ensures Context([Welcome]) == WelcomeText
  {
  }

  /** Each new message extends the context by a newline and its text, so the
      context keeps growing with the whole history. */
  lemma {:induction false} ContextExtends(messages: seq<Message>, m: Message)
    requires |messages| > 0
    ensures Context(messages + [m]) == Context(messages) + "\n" + ElementString(m.text)
  {
    assert TextStrings(messages + [m]) == TextStrings(messages) + [ElementString(m.text)];
    JoinSnoc(TextStrings(messages), ElementString(m.text), "\n");
  }

  /** When every text is a string without a newline, the backend can split the
      context back into exactly the transcript's texts, in order. */
  lemma ContextRecoversTexts(messages: seq<Message>)
    requires |messages| > 0
    requires forall i :: 0 <= i < |messages| ==> messages[i].text.Str? && '\n' !in messages[i].text.s
    ensures var texts := Split(Context(messages), '\n');
      |texts| == |messages| && forall i :: 0 <= i < |messages| ==> texts[i] == messages[i].text.s
  {
    SplitJoin(TextStrings(messages), '\n');
  }

  // ---------------------------------------------------------------------------
  // The component state

  predicate IsWelcome(m: Message) {
    m == Welcome
  }

  /** A user message holds the string typed, which is never blank. */
  predicate IsTypedText(v: Value) {
    v.Str? && !IsBlank(v.s)
  }

  /** The message at `i` is by the other party than the one before it. */
  predicate TurnChanges(messages: seq<Message>, i: nat)
    requires 1 <= i < |messages|
  {
    messages[i].isBot != messages[i - 1].isBot
  }

  /** The transcript after mount: the welcome message first, then user and bot
      messages alternating; every user message is non-blank; and the flag is up
      exactly while the last message is a user message waiting for its answer. */
  ghost predicate WellFormed(messages: seq<Message>, isLoading: bool) {
    && |messages| > 0
    && IsWelcome(messages[0])
    && (forall i :: 1 <= i < |messages| ==> TurnChanges(messages, i))
    && (forall i {:trigger IsTypedText(messages[i].text)} ::
          0 <= i < |messages| && !messages[i].isBot ==> IsTypedText(messages[i].text))
    && (isLoading <==> !messages[|messages| - 1].isBot)
  }

  /** Appending a non-blank user message to an idle transcript keeps it well formed,
      now with a request in flight. */
  lemma UserTurnKeepsWellFormed(messages: seq<Message>, text: string)
    requires WellFormed(messages, false) && !IsBlank(text)
    ensures WellFormed(messages + [Message(Str(text), false)], true)
  {
    var ms, n := messages + [Message(Str(text), false)], |messages|;
    forall i | 0 <= i < |ms|
      ensures i > 0 ==> TurnChanges(ms, i)
      ensures !ms[i].isBot ==> IsTypedText(ms[i].text)
    {
      if i < n {
        assert ms[i] == messages[i];
        if i > 0 { assert TurnChanges(messages, i); }
      } else {
        assert ms[i].text == Str(text);
      }
    }
  }

  /** Appending the bot answer to a transcript that waits for one keeps it well
      formed, now idle. */
  lemma BotTurnKeepsWellFormed(messages: seq<Message>, text: Value)
    requires WellFormed(messages, true)
    ensures WellFormed(messages + [Message(text, true)], false)
  {
    var ms, n := messages + [Message(text, true)], |messages|;
    forall i | 0 <= i < |ms|
      ensures i > 0 ==> TurnChanges(ms, i)
      ensures !ms[i].isBot ==> IsTypedText(ms[i].text)
    {
      if i < n {
        assert ms[i] == messages[i];
        if i > 0 { assert TurnChanges(messages, i); }
      }
    }
  }

  /** Alternation from a bot welcome message puts bot messages at the even
      positions and user messages at the odd ones. */
  lemma {:induction false} ParityAt(messages: seq<Message>, isLoading: bool, k: nat)
    requires WellFormed(messages, isLoading) && k < |messages|
    ensures messages[k].isBot <==> k % 2 == 0
    decreases k
  {
    if k > 0 {
      ParityAt(messages, isLoading, k - 1);
      assert TurnChanges(messages, k);
    }
  }

  /** The flag is up exactly when the transcript has even length. */
  lemma LoadingIffEvenLength(messages: seq<Message>, isLoading: bool)
    requires WellFormed(messages, isLoading)
    ensures isLoading <==> |messages| % 2 == 0
  {
    ParityAt(messages, isLoading, |messages| - 1);
  }

  /** On screen, the welcome message sits on the left and then user messages on
      the right alternate with bot messages on the left. */
  lemma TranscriptAlignment(messages: seq<Message>, isLoading: bool)
    requires WellFormed(messages, isLoading)
    ensures forall i :: 0 <= i < |messages| ==>
      (MessageView.Align(messages[i].isBot) == MessageView.FlexEnd <==> i % 2 == 1)
  {
    forall i | 0 <= i < |messages|
      ensures MessageView.Align(messages[i].isBot) == MessageView.FlexEnd <==> i % 2 == 1
    {
      ParityAt(messages, isLoading, i);
    }
  }

  class ChatState {
    /** `const [messages, setMessages] = useState([])` */
    var messages: seq<Message>
    /** `const [isLoading, setIsLoading] = useState(false)` */
    var isLoading: bool

    ghost predicate Valid()
      reads this
    {
      WellFormed(messages, isLoading)
    }

    /** The first render: an empty transcript and no request in flight. */
    constructor ()
      ensures messages == [] && !isLoading
    {
      messages := [];
      isLoading := false;
    }

    /** The mount effect: the transcript becomes the welcome message alone. */
    method Mount()
      modifies this
      ensures messages == [Welcome] && isLoading == old(isLoading)
      ensures !isLoading ==> Valid()
    {
      messages := [Welcome];
    }

    /** `handleSend` up to the awaited POST: ignore blank input; otherwise append the
        user message, raise the flag, and return the request built from the
        transcript as it was before the send. */
    method Submit(message: string) returns (request: Option<Request>)
      modifies this
      ensures IsBlank(message) ==> request == None && messages == old(messages) && isLoading == old(isLoading)
      ensures !IsBlank(message) ==>
        && request == Some(Request(message, Context(old(messages))))
        && messages == old(messages) + [Message(Str(message), false)]
        && isLoading
      ensures old(Valid()) && !old(isLoading) ==> Valid()
    {
      if IsBlank(message) {
        return None;
      }
      ghost var wasIdle := Valid() && !isLoading;
      var context := Context(messages);
      messages := messages + [Message(Str(message), false)];
      isLoading := true;
      request := Some(Request(message, context));
      if wasIdle {
        UserTurnKeepsWellFormed(old(messages), message);
      }
    }

    /** `handleSend` after the POST settles: append exactly one bot message (the
        normalised reply, or the apology) and lower the flag in `finally`. */
    method Settle(outcome: Outcome)
      modifies this
      ensures messages == old(messages) + [Message(BotText(outcome), true)]
      ensures !isLoading
      ensures old(Valid()) && old(isLoading) ==> Valid()
    {
      ghost var wasWaiting := Valid() && isLoading;
      var text: Value;
      match outcome {
        case Delivered(data) =>
          match Normalize(data) {
            case Reply(v) => text := v;
            case Thrown(e) => text := Str(Apology(e));
          }
        case Rejected(e) => text := Str(Apology(e));
      }
      messages := messages + [Message(text, true)];
      isLoading := false;
      if wasWaiting {
        BotTurnKeepsWellFormed(old(messages), text);
      }
    }

    /** The whole of `handleSend`, with the backend's answer given up front. */
    method Send(message: string, outcome: Outcome) returns (request: Option<Request>)
      modifies this
      ensures IsBlank(message) ==> request == None && messages == old(messages) && isLoading == old(isLoading)
      ensures !IsBlank(message) ==>
        && request == Some(Request(message, Context(old(messages))))
        && messages == old(messages) + [Message(Str(message), false), Message(BotText(outcome), true)]
        && !isLoading
      ensures old(Valid()) && !old(isLoading) ==> Valid()
    {
      ghost var before, wasLoading := messages, isLoading;
      request := Submit(message);
      if request.Some? {
        ghost var submitted, bot := messages, Message(BotText(outcome), true);
        Settle(outcome);
        assert messages == submitted + [bot];
        assert submitted + [bot] == before + [Message(Str(message), false), bot];
      } else {
        assert messages == before && isLoading == wasLoading;
      }
    }

    /** The send button or Enter in the input box, wired as the panel wires it:
        `onSend={handleSend}` and `disabled={isLoading}`. While a request is in
        flight nothing happens, so two requests never overlap. */
    method SubmitFromInput(input: InputBar.ChatInput) returns (request: Option<Request>)
      modifies this, input
      ensures old(isLoading) ==>
        request == None && messages == old(messages) && isLoading && input.message == old(input.message)
      ensures !old(isLoading) && !IsBlank(old(input.message)) ==>
        && request == Some(Request(old(input.message), Context(old(messages))))
        && messages == old(messages) + [Message(Str(old(input.message)), false)]
        && isLoading && input.message == ""
      ensures !old(isLoading) && IsBlank(old(input.message)) ==>
        request == None && messages == old(messages) && !isLoading && input.message == old(input.message)
      ensures old(Valid()) ==> Valid()
    {
      var sent := input.HandleSubmit(isLoading);
      request := None;
      if sent.Some? {
        request := Submit(sent.value);
      }
    }
  }

  /** A short session: a blank send, a send answered with `{ "result": "Hello" }`,
      and a send the server refuses with `{ "error": "rate limited" }`. */
  method Conversation() {
    var chat := new ChatState();
    chat.Mount();
    BlankIgnored(chat);
    Greeted(chat);
    RateLimited(chat);
  }

  /** Spaces alone send nothing. */
  method BlankIgnored(chat: ChatState)
    requires chat.messages == [Welcome] && !chat.isLoading
    modifies chat
    ensures chat.messages == [Welcome] && !chat.isLoading
  {
    assert forall i :: 0 <= i < |"   "| ==> IsWhiteSpace("   "[i]);
    var r := chat.Send("   ", Delivered(Null));
    assert r == None;
  }

  /** "Hi" goes out with the welcome text as context; `{ "result": "Hello" }` is the answer. */
  method Greeted(chat: ChatState)
    requires chat.messages == [Welcome] && !chat.isLoading
    modifies chat
    ensures chat.messages == [Welcome, Message(Str("Hi"), false), Message(Str("Hello"), true)]
  {
    var hello := Obj(map["result" := Str("Hello")]);
    ResultWins(map[], Str("Hello"));
    assert map[]["result" := Str("Hello")] == map["result" := Str("Hello")];
    assert BotText(Delivered(hello)) == Str("Hello");
    assert !IsWhiteSpace("Hi"[0]);
    ContextOfWelcome();
    var r := chat.Send("Hi", Delivered(hello));
    assert r == Some(Request("Hi", WelcomeText));
  }

  /** "Again" goes out with the whole history as context; the server's error is quoted. */
  method RateLimited(chat: ChatState)
    requires chat.messages == [Welcome, Message(Str("Hi"), false), Message(Str("Hello"), true)]
    modifies chat
    ensures chat.messages == old(chat.messages)
      + [Message(Str("Again"), false), Message(Str(ErrorPrefix + "rate limited" + ErrorSuffix), true)]
    ensures !chat.isLoading
  {
    var two := chat.messages;
    var status: map<string, Value> := map["status" := Num(429)];
    var body: map<string, Value> := map[];
    var refused := ErrorValue(Obj(status["data" := Obj(body["error" := Str("rate limited")])]),
                              Str("Request failed with status code 429"));
    ApologyQuotesServerError(status, body, "rate limited", Str("Request failed with status code 429"));
    assert BotText(Rejected(refused)) == Str(ErrorPrefix + "rate limited" + ErrorSuffix);
    ContextOfWelcome();
    ContextExtends([Welcome], Message(Str("Hi"), false));
    assert [Welcome] + [Message(Str("Hi"), false)] == two[..2];
    ContextExtends(two[..2], Message(Str("Hello"), true));
    assert two[..2] + [Message(Str("Hello"), true)] == two;
    assert Context(two[..2]) == WelcomeText + "\n" + "Hi";
    assert Context(two) == WelcomeText + "\n" + "Hi" + "\n" + "Hello";
    assert !IsWhiteSpace("Again"[0]);
    var r := chat.Send("Again", Rejected(refused));
    assert r == Some(Request("Again", WelcomeText + "\n" + "Hi" + "\n" + "Hello"));
  }
}
