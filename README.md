# AI chat transcript and chat route, modelled in Dafny

This project models the two pieces of the chat application that carry logic:

- the **AI chat page** (`src/app/pages/ai-chat/index.jsx`). It holds the transcript, an ordered
  sequence of messages, in component state and mirrors it into the browser's local storage under
  `"chatHistory"`. It restores the transcript on mount or seeds a greeting, saves it after every
  change unless it is empty, and resets it on "New chat". Its send cycle is: the blank guard; the
  user message and a "Thinking..." placeholder; the `{role, content}` history; the HTTP outcome
  reduced to a reply or an error text; then every loading message removed and the reply (or an
  `isError` message) appended;
- the **chat route** (`src/app/api/chat/route.js`), whose `POST` handler is a function from the
  parsed request body, the environment and the upstream outcome to an HTTP status and a JSON body.
  It rejects a bad body with 400, answers with a mock reply when no API key is set, classifies
  upstream errors as quota or generic, turns every later failure into a 500 and shapes a
  successful reply.

Files:

- `wrappers.dfy`: `Option` (an absent or `undefined` value) and `Result` (a value or a thrown error's message).
- `text.dfy`: JavaScript's `trim`, `includes` and decimal number rendering, each with a reference definition and a lemma that joins the two.
- `chat_api.dfy`: the wire values shared by page and route (`Turn`, `ReplyJson`, message ids, JavaScript truthiness).
- `chat_route.dfy`: module `ChatRoute`, the route as the pure function `Post`, with lemmas for each branch.
- `chat_page.dfy`: module `ChatPage`, the pure helpers (serialise, revive, history, filter, outcome
  reduction, the appended answer) and the class `AiChatPage`. The class has two fields,
  `messages` (the React state) and `storage` (the local-storage entry), and one method per effect
  and handler.
- `end_to_end.dfy`: the page's request through the route and back into the transcript.

Foreign calls are inputs. Each `fetch` is an outcome datatype: for the page, `HttpOutcome`, with the
body as `JSON.parse` sees it; for the route, `Upstream`. `JSON.parse` of the storage entry is the
`Entry` datatype. `Date.now()` is a `Clock` argument, `Math.random()` the index `pick < 3`, and
`new Date(x)` / `JSON.stringify(date)` a `DateCodec` of two function values. `process.env` is
`Env`, and the engine-made texts (a TypeError's message, an error's `stack`) are carried by the inputs.

### Behaviour of the code worth knowing

- the reply is written into the transcript in one step, and nothing stops a second send while a
  first is still out;
- the loading placeholder is persisted. The save effect runs after the render that shows it, and
  loading does not filter it, so a reload while a request is out restores it. See
  `EndToEnd.ReloadDuringRequest`;
- "New chat" removes the stored entry. The save effect that follows the reseeded render writes the
  greeting back straight away (`EndToEnd.NewChatThenReload`);
- a stored `"[]"` restores an empty transcript rather than the greeting. Only a missing,
  empty-string or unrevivable entry gives the greeting;
- message ids are not unique: `Date.now() + 1` can collide, and nothing here claims otherwise;
- a 2xx reply without `content` gives an AI message whose text is undefined (`None`).

## Model

| member | source | states |
|---|---|---|
| `Text.IsBlank` | src/app/pages/ai-chat/index.jsx:66 | `!message.trim()` holds exactly when every character is JavaScript white space |
| `Text.Trim` | src/app/pages/ai-chat/index.jsx:66 | `trim` returns the part of the input between its leading and its trailing white space: a slice that neither starts nor ends with white space and outside of which every character is white space |
| `Text.TrimStart` | src/app/pages/ai-chat/index.jsx:66 | the result is a suffix of the input, all removed characters are white space, and it does not start with white space |
| `Text.TrimEnd` | src/app/pages/ai-chat/index.jsx:66 | the result is a prefix of the input, all removed characters are white space, and it does not end with white space |
| `Text.Contains` | src/app/api/chat/route.js:82-83 | `includes` tries each start position from the left: it holds at once when the string starts with the needle, and never for a needle longer than the string |
| `Text.ContainsIffOccurs` | src/app/api/chat/route.js:82-83 | the left-to-right `includes` scan succeeds exactly when the needle occurs at some index |
| `Text.ContainsInfix` | src/app/pages/ai-chat/index.jsx:162-166 | a string built as `a + m + b` includes `m` |
| `Text.ContainsTransitive` | src/app/pages/ai-chat/index.jsx:162-166 | a string that includes `b` includes everything `b` includes |
| `Text.NatToDecimal` | src/app/pages/ai-chat/index.jsx:133 | `${n}` for an integer below 10^21 is a non-empty string of digits with no leading zero |
| `Text.DecimalRoundTrip` | src/app/pages/ai-chat/index.jsx:133 | reading back the digits written for `n` gives `n` |
| `ChatRoute.MockReply` | src/app/api/chat/route.js:40-54 | the mock reply has an id starting "mock-", one of the three mock texts as content, role "assistant" and no error |
| `ChatRoute.Completion` | src/app/api/chat/route.js:59-72 | the upstream request goes to the completions URL with model "gpt-3.5-turbo", temperature 0.7, at most 1000 tokens, the validated messages unchanged and an `Authorization` header of "Bearer " followed by the key |
| `ChatRoute.IsQuotaError` | src/app/api/chat/route.js:80-84 | the quota test fails when the upstream sent no error and holds when its code is "insufficient_quota"; `ChatRoute.QuotaIff` gives the whole condition |
| `ChatRoute.Validate` | src/app/api/chat/route.js:14-21 | the body is accepted exactly when it is an object whose `messages` is an array; the array is returned untouched; otherwise the thrown message is the parse error's or "Invalid messages format" |
| `ChatRoute.UpstreamFailure` | src/app/api/chat/route.js:80-94 | the thrown message is never empty; for a quota error it starts with the billing notice and ends with a closing quote, otherwise it is the upstream message or "Failed to get response from OpenAI" |
| `ChatRoute.CallUpstream` | src/app/api/chat/route.js:58-107 | the call succeeds exactly when the upstream answered 2xx with a first choice; a non-2xx answer throws the classified upstream failure |
| `ChatRoute.ServerError` | src/app/api/chat/route.js:108-118 | the outer catch answers 500 whose `error` is the thrown message, or "An error occurred while processing your request" when that is empty, and whose `details` is the stack exactly in development |
| `ChatRoute.UpstreamThrowIs500` | src/app/api/chat/route.js:58-119 | with a key set, a rejected upstream fetch, a non-JSON upstream body or a missing first choice gives 500 with the thrown message (or the generic text) and the stack as `details` only in development |
| `ChatRoute.Post` | src/app/api/chat/route.js:3-120 | the status is 200, 400 or 500; it is 400 exactly when validation fails, and then `error` is "Invalid request body" with the reason in `details`; something is sent upstream exactly when the body is valid and a key is set, and then it is the validated messages unchanged, with a `Bearer` header carrying the key |
| `ChatRoute.InvalidRequestIs400` | src/app/api/chat/route.js:14-33 | an unparseable body, or one without a `messages` array, gives 400 "Invalid request body" with the parse error or "Invalid messages format" as `details` |
| `ChatRoute.MockWithoutKey` | src/app/api/chat/route.js:39-55 | with no key, a valid request gets 200 with role "assistant", an id starting "mock-" and content that is one of the three mock texts, and nothing goes upstream |
| `ChatRoute.QuotaIff` | src/app/api/chat/route.js:80-84 | an upstream error is a quota error exactly when its code is "insufficient_quota" or its message contains "quota" or "billing" at some index |
| `ChatRoute.QuotaErrorIs500` | src/app/api/chat/route.js:80-90 | a quota error gives 500 whose message starts with the billing notice and includes the upstream message, or "Insufficient quota" when there is none |
| `ChatRoute.OtherUpstreamErrorIs500` | src/app/api/chat/route.js:92-94 | any other non-ok upstream answer gives 500 with the upstream message, or "Failed to get response from OpenAI" |
| `ChatRoute.NoClientErrorAfterValidation` | src/app/api/chat/route.js:104-119 | once validation passes the status is never 4xx: it is 200 exactly when there is no key or the upstream call succeeded, and every 500 has a non-empty error |
| `ChatRoute.SuccessShaping` | src/app/api/chat/route.js:97-103 | a successful upstream answer is returned as 200 with the upstream id and the first choice's content and role |
| `ChatPage.Greeting` | src/app/pages/ai-chat/index.jsx:41-50 | the greeting has id 1, sender "ai", the greeting text and the given time, and is neither loading nor an error |
| `ChatPage.UserMessage` | src/app/pages/ai-chat/index.jsx:68-73 | the user's entry carries the untrimmed text, sender "user", the send time as id and timestamp, and is neither loading nor an error |
| `ChatPage.Placeholder` | src/app/pages/ai-chat/index.jsx:78-84 | the placeholder is a loading, non-error "ai" entry reading "Thinking..." whose id starts "loading-" |
| `ChatPage.Serialize` | src/app/pages/ai-chat/index.jsx:37 | the stored form has one entry per message, in order, with the same non-timestamp fields and the formatted timestamp |
| `ChatPage.Revive` | src/app/pages/ai-chat/index.jsx:18-23 | reviving keeps length, order and every non-timestamp field, and parses each timestamp |
| `ChatPage.Restored` | src/app/pages/ai-chat/index.jsx:14-32 | a missing or unrevivable entry gives exactly the greeting; a stored array gives a transcript of the same length with the same non-timestamp fields |
| `ChatPage.SaveThenRestore` | src/app/pages/ai-chat/index.jsx:14-39 | saving and restoring gives back every message in order, and gives back the message itself wherever the date codec round-trips its timestamp |
| `ChatPage.Turns` | src/app/pages/ai-chat/index.jsx:91-94 | one turn per prior message, in order; the role is "user" exactly when the sender is "user", and "assistant" otherwise; the content is the text |
| `ChatPage.History` | src/app/pages/ai-chat/index.jsx:90-96 | the history is the turns of the prior transcript followed by one user turn with the sent text, so its length is the prior length plus one |
| `ChatPage.StatusFailure` | src/app/pages/ai-chat/index.jsx:129-135 | the error thrown for a non-ok status is never empty |
| `ChatPage.Attempt` | src/app/pages/ai-chat/index.jsx:103-135 | data is produced exactly for a 2xx response whose body parsed, an empty body counting as `{}`; every thrown message of a received response is non-empty |
| `ChatPage.Reduce` | src/app/pages/ai-chat/index.jsx:103-141 | the send is delivered exactly for a 2xx response with a parseable body; every failure carries a non-empty message; a rejected fetch with an empty message becomes "Failed to connect to the server" |
| `ChatPage.FailureText` | src/app/pages/ai-chat/index.jsx:118-135 | an unparseable body gives "Invalid response from server: <status> <statusText>"; a non-ok status gives `error`, else `message`, else "Request failed with status <status>" |
| `ChatPage.FallbackTexts` | src/app/pages/ai-chat/index.jsx:162-166 | there are three error texts, beginning with the trouble-connecting, the apology and the unable-to-process wording in that order |
| `ChatPage.FallbackEmbedsMessage` | src/app/pages/ai-chat/index.jsx:162-166 | each of the three error templates includes the error message |
| `ChatPage.FailureShown` | src/app/pages/ai-chat/index.jsx:160-179 | a failed send appends an `isError` message whose text includes the failure message |
| `ChatPage.Resolution` | src/app/pages/ai-chat/index.jsx:144-179 | the appended message is from "ai" and not loading; it is an error exactly when the send failed; a reply's text is its `content`; an error's text is one of the three templates of the message |
| `ChatPage.WithoutLoading` | src/app/pages/ai-chat/index.jsx:145 | the filtered transcript holds no loading message, keeps every other message and adds none |
| `ChatPage.WithoutLoadingMembers` | src/app/pages/ai-chat/index.jsx:145 | a message is kept by the filter exactly when it was in the transcript and is not loading |
| `ChatPage.WithoutLoadingAppend` | src/app/pages/ai-chat/index.jsx:145 | the filter distributes over concatenation, so kept messages keep their relative order |
| `ChatPage.WithoutLoadingSettled` | src/app/pages/ai-chat/index.jsx:161 | a transcript with no loading message passes the filter unchanged |
| `ChatPage.WithoutLoadingIdempotent` | src/app/pages/ai-chat/index.jsx:161 | filtering twice is filtering once |
| `ChatPage.SettledShape` | src/app/pages/ai-chat/index.jsx:75-86 | appending the user message and the placeholder and then filtering is the filtered prior transcript followed by the user message |
| `ChatPage.AiChatPage.constructor` | src/app/pages/ai-chat/index.jsx:10 | the transcript starts empty, beside whatever storage holds |
| `ChatPage.AiChatPage.LoadEffect` | src/app/pages/ai-chat/index.jsx:14-32 | the transcript becomes the restored one for the stored entry, and storage is untouched |
| `ChatPage.AiChatPage.SaveEffect` | src/app/pages/ai-chat/index.jsx:35-39 | a non-empty transcript is written in serialised form; an empty one leaves storage as it was |
| `ChatPage.AiChatPage.NewChat` | src/app/pages/ai-chat/index.jsx:52-55 | the stored entry is removed and the transcript is exactly the greeting |
| `ChatPage.AiChatPage.Submit` | src/app/pages/ai-chat/index.jsx:65-96 | a blank message changes nothing and posts nothing; otherwise the user message (untrimmed) and the placeholder are appended in that order, and the history of the prior transcript is returned |
| `ChatPage.AiChatPage.Resolve` | src/app/pages/ai-chat/index.jsx:143-180 | every loading message is removed and exactly one answer message is appended |
| `ChatPage.AiChatPage.Send` | src/app/pages/ai-chat/index.jsx:65-182 | a blank message changes nothing; otherwise the history is posted, the transcript becomes the filtered prior one plus the user message and the answer, no loading message remains, and storage holds the result |
| `EndToEnd.RouteAnswerReduces` | src/app/pages/ai-chat/index.jsx:115-135 | every route answer parses, so the page takes it as delivered exactly when the status is 200, with the route's body as data; otherwise the failure message is the body's `error` |
| `EndToEnd.HistoryForwarded` | src/app/api/chat/route.js:66-71 | with a key set, the route sends upstream exactly the history the page built |
| `EndToEnd.MockReplyShown` | src/app/api/chat/route.js:39-55 | with no key, the page appends a non-error AI message with one of the mock texts and a "mock-" id |
| `EndToEnd.ErrorResponseShown` | src/app/pages/ai-chat/index.jsx:129-135 | a non-2xx route response with an `error` shows as an error message that includes that `error` |
| `EndToEnd.QuotaErrorShown` | src/app/api/chat/route.js:80-90 | an upstream quota error reaches the transcript as an error message that includes the billing notice and the upstream message |
| `EndToEnd.RejectedRequestShown` | src/app/pages/ai-chat/index.jsx:129-135 | a request the route rejects shows as an error message that includes "Invalid request body" |
| `EndToEnd.NewChatThenReload` | src/app/pages/ai-chat/index.jsx:35-55 | new chat, the save effect and a reload give exactly the one-message greeting (id 1, sender "ai") |
| `EndToEnd.BlankSendIsIgnored` | src/app/pages/ai-chat/index.jsx:66 | an all-white-space send on any page leaves its transcript and storage as they were and posts nothing |
| `EndToEnd.ReloadDuringRequest` | src/app/pages/ai-chat/index.jsx:35-39 | a reload while a request is out restores the user message followed by the loading placeholder |

## Left out

- The presentation components (`ChatLayout`, `ChatMessageList`, `PromptCards`, `ChatInput`) and the page's JSX, scrolling and animation are rendering only. `ChatInput`'s trim guard is the same as the page's, which is modelled.
- `handleQuickPrompt` only calls `handleSendMessage`, which is modelled as `Send`.
- `src/app/api/transcribe/route.js` is not part of this model: it wraps the speech-to-text SDK and form parsing.
- `console` logging and the request and response headers have no effect on the state and are not modelled.
- `fetch`, `localStorage`, `JSON.parse`/`JSON.stringify`, `Date` and `Math.random` are inputs, as described above. Date formatting and parsing are abstract functions, so timestamp round-trips are stated under the assumption that the codec round-trips.
- JSON values of unexpected shapes are not modelled: a reply body that is `null`, or fields such as `error`, `content` or `id` holding objects or numbers where text is expected. Fields are either absent or of the expected type.
- A stored array that holds `null` elements, or a stored value that is not an array, is merged with unparseable text into `NotATranscript`, since all of them make the mount effect fall back to the greeting.
- `ChatPage.Clock`: every `Date.now()` and `new Date()` read before the request uses one reading, and every read after it settles uses a second one. The few milliseconds that can pass between reads inside one phase are not modelled.
- `ChatPage.AiChatPage.Send`: it is one uninterrupted step. Two sends in flight at once, React's stale closures and the exact batching of renders are not modelled. The save effect is taken to run once after the two appends and once after the answer.
- The `details` of a 500 carries the error's `stack` as an input string, since the engine produces it.
- Numbers are unbounded integers. JavaScript numbers are doubles, exact only up to 2^53 and written in exponent form from 10^21 on; the `Date.now()` readings and HTTP statuses the program renders are far below both, so the model is exact for them.
