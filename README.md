# Chat turn handling, modelled in Dafny

This project models the logic of a browser chat client that talks to a
text-generation backend. It has three React components:

- **The chat panel** (`Chat.jsx`) holds two pieces of state. One is a transcript of
  `{text, isBot}` messages that only ever grows; the other is an `isLoading` flag. On
  mount the transcript becomes one bot welcome message. A send goes through these steps:
  1. It ignores blank input.
  2. It appends the user message and raises the flag.
  3. It builds the context from the transcript as it stood before the send: the texts
     joined with newlines.
  4. It posts `{query, context}` once.
  5. It turns the reply body into one bot message through a first-match-wins chain:
     `result`, then `choices[0].message.content`, then `content`, then a bare string,
     then a fixed apology. If the request fails, the bot message is an apology that
     quotes the best error detail instead.
  6. It lowers the flag in `finally`.
- **The message view** (`Message.jsx`) aligns user messages right and bot messages
  left. Its `code` renderer highlights a span only when the span is not inline and its
  class matches `/language-(\w+)/`. It strips one final newline from highlighted code.
- **The input box** (`ChatInput.jsx`) keeps a draft. Submit hands the untrimmed draft
  to `onSend` and clears it, but only when the trimmed draft is non-empty and the box
  is not disabled. Enter without Shift submits. The send button is disabled exactly
  when a submit would do nothing.

## Layout

- `js.dfy`, module `Js`: the JavaScript semantics the components rely on.
  - `Value` covers the values a JSON body can hold, plus `undefined`.
  - Truthiness, property access and `v[0]`.
  - `String(v)` and `Array.prototype.join`.
  - `String.prototype.trim`, with ECMAScript's white-space set.
  - A one-character `split`. The components do not call it; it is here only to show
    that the joined context can be split back into the texts.
- `chat.dfy`, module `ChatPanel`: the reply chain `Normalize`, the `catch` block
  (`ErrorDetail`, `Apology`), the context, and the class `ChatState`.
  - `ChatState` has the fields `messages` and `isLoading`.
  - `Submit` covers the send up to the awaited POST and returns the request.
  - `Settle` covers the send after the POST settles, given its `Outcome`.
  - `Send` is the whole send.
  - `SubmitFromInput` wires the input box in as the panel does.
- `message.dfy`, module `MessageView`: alignment, the language regex, the code renderer.
- `chat_input.dfy`, module `InputBar`: the class `ChatInput` with its draft, and the
  button predicate.

The backend call is not made. `Submit` returns the request that would be posted.
`Settle` receives what came back as a parameter: `Delivered(data)` or
`Rejected(error)`, where the error carries `response` and `message`. A thrown
`TypeError` from `choices[0].message.content` is modelled as the `Thrown` case of
`Normalize` and goes through the same `catch` path.

Behaviour worth noting:
- The welcome message is part of the context.
- The fallback text is "I apologize, but I couldn't process that request properly.
  Please try again."
- `result` wins whenever it is truthy, not only when it is a string. The value picked
  is stored as the bot text whatever its type.
- A body of unrecognised shape is not an error. It produces the fallback reply
  directly.

## Model

| member | source | states |
|---|---|---|
| `Js.Trim` | src/components/Chat.jsx:35 | `trim()` yields "" exactly when every character is ECMAScript white space; otherwise the result neither starts nor ends with white space |
| `Js.TrimIsSlice` | src/components/Chat.jsx:35 | what `trim()` keeps is one contiguous slice of the input |
| `Js.Truthy` | src/components/Chat.jsx:57-64 | null and undefined are falsy, and every array or object is truthy, even an empty one |
| `Js.Prop` | src/components/Chat.jsx:57-63 | `v.key` is the object's own field when it has one, and undefined otherwise |
| `Js.JoinEnds` | src/components/Chat.jsx:45-47 | `join` gives "" for no elements and otherwise starts with the first element and ends with the last |
| `Js.ToString` | src/components/Chat.jsx:80 | `String(v)` / `${v}`: a string is itself, a plain object is "[object Object]" |
| `Js.Index0` | src/components/Chat.jsx:60 | `v[0]`: the first element of a non-empty array, the one-character string of the first character for a non-empty string, the field "0" of an object, undefined for numbers and booleans |
| `Js.JoinSnoc` | src/components/Chat.jsx:45-47 | joining one more element appends the separator and that element |
| `Js.SplitJoin` | src/components/Chat.jsx:45-47 | a non-empty list joined with a character none of its elements contains is recovered exactly by splitting on that character |
| `ChatPanel.Normalize` | src/components/Chat.jsx:56-69 | only reading `choices[0].message.content` can throw, with a TypeError and no response; the reply is falsy only for an empty string body or a reply read from a first choice |
| `ChatPanel.ResultWins` | src/components/Chat.jsx:57-59 | a truthy `result` is the reply, whatever `choices` or `content` the body also carries |
| `ChatPanel.FalsyResultFallsThrough` | src/components/Chat.jsx:57-63 | a falsy `result` ("" or 0, say) gives the same outcome as no `result` at all |
| `ChatPanel.ChoiceWinsOverContent` | src/components/Chat.jsx:60-63 | without `result`, a truthy first choice wins over `content`, however many choices follow it; its reply is `message.content`, and a first choice lacking `message` throws the TypeError the catch path handles |
| `ChatPanel.StringReplyVerbatim` | src/components/Chat.jsx:64-65 | a string body, "" included, is the reply unchanged |
| `ChatPanel.ContentWhenNoChoice` | src/components/Chat.jsx:60-63 | without a truthy `result` and without a truthy first choice (no `choices`, an empty array or a falsy `choices[0]`), a truthy `content` is the reply |
| `ChatPanel.UnrecognizedGetsFallback` | src/components/Chat.jsx:66-69 | a non-string body with no truthy `result`, first choice or `content` gets the fixed apology text |
| `ChatPanel.NormalizeThrowsOnlyOnMissingMessage` | src/components/Chat.jsx:60-61 | reading the reply throws exactly when `result` is not truthy, a first choice is, and its `message` is null or undefined |
| `ChatPanel.ServerError` | src/components/Chat.jsx:76 | `error.response?.data?.error` is the body's `error` field exactly when the response body is an object with one, and undefined otherwise |
| `ChatPanel.ErrorDetail` | src/components/Chat.jsx:76 | the detail is `response.data.error` if truthy, else `error.message` if truthy, else "An unexpected error occurred"; always truthy |
| `ChatPanel.Apology` | src/components/Chat.jsx:80 | the apology is the fixed opening, then the detail (verbatim when it is a string), then the fixed closing |
| `ChatPanel.BotText` | src/components/Chat.jsx:56-83 | a failed POST gives the apology for its error and a truthy `result` is the reply; a falsy bot message can only come from a delivered empty string or a first choice |
| `ChatPanel.ApologyQuotesServerError` | src/components/Chat.jsx:76-80 | a response of any other fields whose body holds `"error": m`, m non-empty, gives exactly "I'm sorry, I encountered an error: " + m + ". Please try again later.", whatever `error.message` says |
| `ChatPanel.ApologyWithoutResponse` | src/components/Chat.jsx:76-80 | with no response, the apology quotes `error.message`, or the generic phrase when that is empty |
| `ChatPanel.Context` | src/components/Chat.jsx:45-47 | the context of no messages is ""; otherwise it opens with the first message's text and closes with the latest one's |
| `ChatPanel.ContextOfWelcome` | src/components/Chat.jsx:45-47 | the context of the freshly mounted transcript is the welcome text alone |
| `ChatPanel.ContextExtends` | src/components/Chat.jsx:45-47 | one more message extends the context by a newline and that message's text, so the context is the whole history |
| `ChatPanel.ContextRecoversTexts` | src/components/Chat.jsx:45-47 | when the texts are strings without newlines, splitting the context on newlines gives back exactly the transcript's texts, in order |
| `ChatPanel.UserTurnKeepsWellFormed` | src/components/Chat.jsx:38-39 | appending a non-blank user message to an idle well-formed transcript keeps it well formed with the flag raised |
| `ChatPanel.BotTurnKeepsWellFormed` | src/components/Chat.jsx:71-86 | appending the bot message to a waiting transcript keeps it well formed with the flag lowered |
| `ChatPanel.ParityAt` | src/components/Chat.jsx:38-83 | in a well-formed transcript the messages at even positions (the welcome first) are bot messages and those at odd positions user messages |
| `ChatPanel.LoadingIffEvenLength` | src/components/Chat.jsx:39-86 | in a well-formed transcript the flag is up exactly when the transcript has even length, i.e. a user message awaits its answer |
| `ChatPanel.TranscriptAlignment` | src/components/Message.jsx:10-21 | in a well-formed transcript a message is right-aligned exactly at the odd positions, so the welcome and every bot answer sit left and every user message right |
| `ChatPanel.ChatState.constructor` | src/components/Chat.jsx:12-13 | initial state: empty transcript, flag down |
| `ChatPanel.ChatState.Mount` | src/components/Chat.jsx:24-32 | after the mount effect the transcript is exactly the one bot welcome message |
| `ChatPanel.ChatState.Submit` | src/components/Chat.jsx:34-52 | blank input changes nothing and posts nothing; otherwise the untrimmed user message is appended, the flag is up, and the request carries the query and the context of the transcript before the send; well-formedness is kept |
| `ChatPanel.ChatState.Settle` | src/components/Chat.jsx:54-86 | exactly one bot message (the normalised reply or the apology) is appended after the earlier ones, and the flag is down on both paths |
| `ChatPanel.ChatState.Send` | src/components/Chat.jsx:34-87 | a non-blank send extends the transcript by exactly the user message and then one bot message and ends with the flag down; a blank one changes nothing |
| `ChatPanel.ChatState.SubmitFromInput` | src/components/Chat.jsx:153 | with `disabled={isLoading}`, nothing is sent and nothing changes while a request is in flight, so requests never overlap |
| `ChatPanel.BlankIgnored` | src/components/Chat.jsx:35 | three spaces leave the welcome-only transcript and the flag as they were |
| `ChatPanel.Greeted` | src/components/Chat.jsx:38-71 | "Hi" answered with `{ "result": "Hello" }` yields the transcript welcome, "Hi", "Hello" |
| `ChatPanel.RateLimited` | src/components/Chat.jsx:76-83 | a 429 refusal with body `{ "error": "rate limited" }` appends "Again" and an apology quoting "rate limited" |
| `MessageView.Align` | src/components/Message.jsx:10-21 | right alignment exactly for user messages, left exactly for bot messages |
| `MessageView.ClassText` | src/components/Message.jsx:53 | a missing or empty class is searched as "", a class string as itself |
| `MessageView.Language` | src/components/Message.jsx:53 | no match exactly when "language-" followed by a word character occurs nowhere; otherwise the language is the maximal word run after the leftmost such occurrence |
| `MessageView.StripFinalNewline` | src/components/Message.jsx:61 | a string ending in a newline loses exactly that one newline; any other string is unchanged |
| `MessageView.StripUndoesNewline` | src/components/Message.jsx:61 | stripping undoes appending one newline, and "a\n\n" keeps one newline |
| `MessageView.RenderCode` | src/components/Message.jsx:52-68 | highlighted exactly when not inline and the class matches, with the matched language and the children's text less its final newline when it has one; otherwise the original class and children pass through |
| `MessageView.NoClassIsPlain` | src/components/Message.jsx:53 | a span without a class is treated as "" and is never highlighted |
| `MessageView.PythonBlockExample` | src/components/Message.jsx:52-62 | a block tagged `language-python` holding "print(1)\n" is highlighted as python with content "print(1)" |
| `InputBar.SendButtonDisabled` | src/components/ChatInput.jsx:65 | the button is disabled exactly when the box is, or when every character of the draft is white space |
| `InputBar.SubmitGuard` | src/components/ChatInput.jsx:11 | a submit goes ahead exactly when the box is enabled and the draft has a character that is not white space |
| `InputBar.SubmitsOnKey` | src/components/ChatInput.jsx:18 | Enter without Shift; its effect is stated by `InputBar.ChatInput.HandleKeyPress` |
| `InputBar.ButtonEnabledIffSubmitSends` | src/components/ChatInput.jsx:65 | the button is disabled exactly when the draft is all white space or the box is disabled, which is exactly when submit would not send |
| `InputBar.ChatInput.constructor` | src/components/ChatInput.jsx:7 | the draft starts empty |
| `InputBar.ChatInput.OnChange` | src/components/ChatInput.jsx:50 | the draft becomes the field's value |
| `InputBar.ChatInput.HandleSubmit` | src/components/ChatInput.jsx:9-15 | `onSend` receives the untrimmed draft, once, exactly when the trimmed draft is non-empty and the box is enabled, and the draft is then ""; otherwise nothing is sent and the draft is unchanged |
| `InputBar.ChatInput.HandleKeyPress` | src/components/ChatInput.jsx:17-22 | Enter without Shift behaves as submit; any other key, Shift+Enter included, sends nothing and leaves the draft |

## Left out

- The POST itself and the base URL taken from the environment (`Chat.jsx` lines 9 and 49-52). The request is returned, and the outcome is a parameter.
- Logging, `scrollToBottom` and the scroll effect. These have no behaviour to state.
- Markdown parsing, GFM and syntax colouring. These are done by libraries whose code is not part of this model. Only the classification and the newline strip around them are modelled. The `node` and spread `props` of the `code` renderer are ignored.
- `Home.jsx`, all styling, animation, and the "Alex is thinking..." indicator. These are presentational only.
- React scheduling. A send is modelled as `Submit` followed by `Settle`, with nothing in between. This matches the source because the box is disabled while loading.
- Numbers in a body are integers. Fractions, NaN, -0, exponent formatting in `String(n)` and the loss of precision above 2^53 are not modelled.
- Js.ToString: always gives "[object Object]" for an object. A JSON object with its own `toString` field makes `String(v)`, `${v}` and `join` throw a TypeError instead. The model therefore misses two failures. An error body like `{ "error": { "toString": 1 } }` makes the template literal at `Chat.jsx` line 80 throw inside `catch`, so no bot message is appended. A bot text like that makes the next send's `join` throw before the POST.
- Strings are sequences of Unicode scalar values, not UTF-16 code units. `v[0]` on a string with an astral first character therefore differs.
- Property access (`Js.Prop`) is modelled only for the six names the code reads. Those names are not found on the prototypes of JSON values.
- The `TypeError` text for reading `content` of a missing `message` follows V8's wording. Other engines word it differently.
- Sequence numbers are the transcript indices. They are not stored.
- The `disabled` state of the text field itself is not modelled. Only the submit paths are.
