/** The chat route's `POST` handler as a function from its inputs (the parsed
    request body, the environment, what the upstream `fetch` resolves to and
    the values of the clock and random generator) to the HTTP response it
    returns and the upstream request it makes. */
module ChatRoute {
  import opened Wrappers
  import opened Text
  import opened ChatApi

  /** What `await request.json()` gives. */
  datatype RequestBody =
    | Unreadable(reason: string)                // `request.json()` threw with this message
    | Falsy                                     // the body is `null`, `false`, `0` or `""`
    | Object(messages: Option<seq<Turn>>)       // `Some` iff `body.messages` is an array

  /** `process.env`: the API key and whether NODE_ENV is "development". */
  datatype Env = Env(apiKey: Option<string>, development: bool)

  /** The `error` member of the upstream's JSON answer. */
  datatype UpstreamError = UpstreamError(code: Option<string>, message: Option<string>)

  /** `data.choices[0].message`. */
  datatype AiMessage = AiMessage(content: Option<string>, role: Option<string>)

  /** Reading `data.choices[0].message.content` either finds the message or
      throws the engine's TypeError, whose message is carried here. */
  datatype FirstChoice = Present(message: AiMessage) | Missing(typeError: string)

  /** The upstream's parsed JSON answer. */
  datatype UpstreamData = UpstreamData(id: Option<MsgId>, error: Option<UpstreamError>, choice: FirstChoice)

  /** What the upstream `fetch` and `response.json()` come to. */
  datatype Upstream =
    | FetchFailed(message: string)              // `fetch` rejected
    | NotJson(message: string)                  // `response.json()` rejected
    | Answered(status: int, data: UpstreamData)

  /** `Math.random()` reduced to an index, `Date.now()`, `new Date().toISOString()`
      and the `stack` of the error a 500 reports. */
  datatype Ambient = Ambient(pick: nat, now: int, isoNow: string, stack: string)

  /** The upstream chat-completions request. */
  datatype UpstreamRequest = UpstreamRequest(
    url: string, authorization: string, model: string,
    messages: seq<Turn>, temperature: real, maxTokens: nat)

  datatype Response = Response(status: int, body: ReplyJson)

  /** The response returned and, when the handler got that far, the upstream
      request it sent. */
  datatype Handling = Handling(response: Response, forwarded: Option<UpstreamRequest>)

  const CompletionsUrl := "https://api.openai.com/v1/chat/completions"
  const Model := "gpt-3.5-turbo"
  const InvalidBody := "Invalid request body"
  const InvalidFormat := "Invalid messages format"
  const QuotaPrefix := "API quota exceeded. Please check your OpenAI account billing status. \""
  const QuotaFallback := "Insufficient quota"
  const UpstreamFallback := "Failed to get response from OpenAI"
  const ServerFallback := "An error occurred while processing your request"

  const MockResponses: seq<string> := [
    "I'm a mock response. Please set up your OpenAI API key for real responses.",
    "This is a simulated response. Add your OpenAI API key to get real AI responses.",
    "Mock response: I'm here to help! To enable real AI responses, please configure your OpenAI API key."
  ]

  /** The inner `try` around body parsing: the validated `messages` array or
      the message of the error it threw. */
  function Validate(body: RequestBody): (r: Result<seq<Turn>>)
    ensures r.Ok? <==> body.Object? && body.messages.Some?
    ensures r.Ok? ==> r.value == body.messages.value
    ensures body.Unreadable? ==> r == Err(body.reason)
    ensures !body.Unreadable? && r.Err? ==> r.message == InvalidFormat
  {
    match body
    case Unreadable(reason) => Err(reason)
    case Falsy => Err(InvalidFormat)
    case Object(messages) =>
      if messages.Some? then Ok(messages.value) else Err(InvalidFormat)
  }

  /** The quota test: `data.error?.code === "insufficient_quota"`, or the
      error message includes "quota" or "billing". */
  predicate IsQuotaError(e: Option<UpstreamError>): (b: bool)
    ensures b ==> e.Some?
    ensures e.Some? && e.value.code == Some("insufficient_quota") ==> b
  {
    && e.Some?
    && (|| e.value.code == Some("insufficient_quota")
        || (e.value.message.Some? &&
            (Contains(e.value.message.value, "quota") || Contains(e.value.message.value, "billing"))))
  }

  /** The message thrown for an upstream answer whose status is not ok. */
  function UpstreamFailure(e: Option<UpstreamError>): (m: string)
    ensures m != ""
    ensures IsQuotaError(e) ==> StartsWith(m, QuotaPrefix) && m[|m| - 1] == '"'
    ensures !IsQuotaError(e) ==> m == OrElse(if e.Some? then e.value.message else None, UpstreamFallback)
  {
    var upstreamMessage := if e.Some? then e.value.message else None;
    if IsQuotaError(e) then
      QuotaPrefix + OrElse(upstreamMessage, QuotaFallback) + "\""
    else
      OrElse(upstreamMessage, UpstreamFallback)
  }

  /** The `try` around the upstream call: the reply object, or the message of
      the error it threw. */
  function CallUpstream(up: Upstream, isoNow: string): (r: Result<ReplyJson>)
    ensures r.Ok? <==> up.Answered? && IsOkStatus(up.status) && up.data.choice.Present?
    ensures up.Answered? && !IsOkStatus(up.status) ==> r == Err(UpstreamFailure(up.data.error))
  {
    match up
    case FetchFailed(m) => Err(m)
    case NotJson(m) => Err(m)
    case Answered(status, data) =>
      if !IsOkStatus(status) then Err(UpstreamFailure(data.error))
      else match data.choice
        case Missing(typeError) => Err(typeError)
        case Present(ai) =>
          Ok(ReplyJson(data.id, ai.content, ai.role, Some(isoNow), None, None, None))
  }

  /** The request the handler sends upstream with the validated messages. */
  function Completion(key: string, messages: seq<Turn>): (r: UpstreamRequest)
    ensures r.url == CompletionsUrl && r.model == Model && r.messages == messages
    ensures r.temperature == 0.7 && r.maxTokens == 1000
    ensures StartsWith(r.authorization, "Bearer ") && r.authorization[7..] == key
  {
    UpstreamRequest(CompletionsUrl, "Bearer " + key, Model, messages, 0.7, 1000)
  }

  /** The mock reply returned when no API key is configured. */
  function MockReply(amb: Ambient): (r: ReplyJson)
    requires amb.pick < |MockResponses|
    ensures r.id.Some? && r.id.value.Str? && StartsWith(r.id.value.s, "mock-")
    ensures r.content.Some? && r.content.value in MockResponses
    ensures r.role == Some("assistant") && r.error == None
  {
    ReplyJson(Some(Str("mock-" + IntToDecimal(amb.now))), Some(MockResponses[amb.pick]),
              Some("assistant"), Some(amb.isoNow), None, None, None)
  }

  /** The outer `catch`: every error thrown after validation becomes a 500. */
  function ServerError(message: string, env: Env, amb: Ambient): (r: Response)
    ensures r.status == 500 && r.body.error.Some? && r.body.error.value != ""
    ensures r.body.error == Some(if message == "" then ServerFallback else message)
    ensures r.body.details == (if env.development then Some(amb.stack) else None)
    ensures r.body.content == None && r.body.id == None
  {
    Response(500, ReplyJson(None, None, None, None, Some(if message == "" then ServerFallback else message),
                            if env.development then Some(amb.stack) else None, None))
  }

  /** `POST /api/chat`. */
  function Post(body: RequestBody, env: Env, up: Upstream, amb: Ambient): (h: Handling)
    requires amb.pick < |MockResponses|
    ensures h.response.status in {200, 400, 500}
    ensures h.response.status == 400 <==> Validate(body).Err?
    ensures h.response.status == 400 ==>
      h.response.body.error == Some(InvalidBody) && h.response.body.details == Some(Validate(body).message)
    ensures h.forwarded.Some? <==> Validate(body).Ok? && StrTruthy(env.apiKey)
    ensures h.forwarded.Some? ==>
      h.forwarded.value.messages == body.messages.value
      && h.forwarded.value.authorization == "Bearer " + env.apiKey.value
  {
    match Validate(body)
    case Err(reason) =>
      Handling(Response(400, ReplyJson(None, None, None, None, Some(InvalidBody), Some(reason), None)), None)
    case Ok(messages) =>
      if !StrTruthy(env.apiKey) then
        Handling(Response(200, MockReply(amb)), None)
      else
        var response := match CallUpstream(up, amb.isoNow)
          case Ok(reply) => Response(200, reply)
          case Err(m) => ServerError(m, env, amb);
        Handling(response, Some(Completion(env.apiKey.value, messages)))
  }

  /** A body that does not parse, or whose `messages` is not an array, is
      rejected with 400 whatever the environment and the upstream. */
  lemma InvalidRequestIs400(body: RequestBody, env: Env, up: Upstream, amb: Ambient)
    requires amb.pick < |MockResponses|
    requires !(body.Object? && body.messages.Some?)
    ensures var r := Post(body, env, up, amb).response;
      r.status == 400 && r.body.error == Some(InvalidBody) && r.body.details.Some?
      && (body.Unreadable? ==> r.body.details == Some(body.reason))
      && (!body.Unreadable? ==> r.body.details == Some(InvalidFormat))
  {
  }

  /** Without a key a valid request is answered 200 by one of the three mock
      replies, with role "assistant" and an id starting "mock-", and nothing
      is sent upstream. */
  lemma MockWithoutKey(messages: seq<Turn>, env: Env, up: Upstream, amb: Ambient)
    requires amb.pick < |MockResponses|
    requires !StrTruthy(env.apiKey)
    ensures var h := Post(Object(Some(messages)), env, up, amb);
      && h.forwarded == None
      && h.response.status == 200
      && h.response.body.role == Some("assistant")
      && h.response.body.content.Some? && h.response.body.content.value in MockResponses
      && h.response.body.id.Some? && h.response.body.id.value.Str?
      && StartsWith(h.response.body.id.value.s, "mock-")
      && h.response.body.error == None
  {
  }

  /** The quota classification, stated on occurrences rather than on the scan. */
  lemma QuotaIff(e: UpstreamError)
    ensures IsQuotaError(Some(e)) <==>
      || e.code == Some("insufficient_quota")
      || (e.message.Some? &&
          ((exists k: nat :: OccursAt(e.message.value, "quota", k)) ||
           (exists k: nat :: OccursAt(e.message.value, "billing", k))))
  {
    if e.message.Some? {
      ContainsIffOccurs(e.message.value, "quota");
      ContainsIffOccurs(e.message.value, "billing");
    }
  }

  /** A quota error upstream is reported as a 500 whose message starts with
      the billing notice and quotes the upstream message (or "Insufficient
      quota" when it has none). */
  lemma QuotaErrorIs500(key: string, messages: seq<Turn>, status: int, data: UpstreamData, env: Env, amb: Ambient)
    requires amb.pick < |MockResponses|
    requires key != "" && env.apiKey == Some(key)
    requires !IsOkStatus(status) && IsQuotaError(data.error)
    ensures var r := Post(Object(Some(messages)), env, Answered(status, data), amb).response;
      && r.status == 500
      && r.body.error.Some?
      && StartsWith(r.body.error.value, QuotaPrefix)
      && Contains(r.body.error.value, OrElse(data.error.value.message, QuotaFallback))
  {
    var quoted := OrElse(data.error.value.message, QuotaFallback);
    ContainsInfix(QuotaPrefix, quoted, "\"");
  }

  /** Any other non-ok upstream answer is a 500 carrying the upstream message,
      or the generic upstream text when there is none. */
  lemma OtherUpstreamErrorIs500(key: string, messages: seq<Turn>, status: int, data: UpstreamData, env: Env, amb: Ambient)
    requires amb.pick < |MockResponses|
    requires key != "" && env.apiKey == Some(key)
    requires !IsOkStatus(status) && !IsQuotaError(data.error)
    ensures var r := Post(Object(Some(messages)), env, Answered(status, data), amb).response;
      && r.status == 500
      && r.body.error == Some(OrElse(if data.error.Some? then data.error.value.message else None, UpstreamFallback))
  {
  }

  /** Once the request is valid, no outcome of the upstream call gives a 4xx:
      the answer is a 200 exactly when the upstream call succeeded, and every
      failure is a 500 with a non-empty error. */
  lemma NoClientErrorAfterValidation(messages: seq<Turn>, env: Env, up: Upstream, amb: Ambient)
    requires amb.pick < |MockResponses|
    ensures var r := Post(Object(Some(messages)), env, up, amb).response;
      && (r.status == 200 || r.status == 500)
      && (r.status == 200 <==> !StrTruthy(env.apiKey) || CallUpstream(up, amb.isoNow).Ok?)
      && (r.status == 500 ==> r.body.error.Some? && r.body.error.value != "")
  {
  }

  /** A successful upstream answer is passed on with the upstream id and the
      content and role of the first choice. */
  lemma SuccessShaping(key: string, messages: seq<Turn>, status: int, data: UpstreamData, env: Env, amb: Ambient)
    requires amb.pick < |MockResponses|
    requires key != "" && env.apiKey == Some(key)
    requires IsOkStatus(status) && data.choice.Present?
    ensures var r := Post(Object(Some(messages)), env, Answered(status, data), amb).response;
      && r.status == 200
      && r.body.id == data.id
      && r.body.content == data.choice.message.content
      && r.body.role == data.choice.message.role
      && r.body.timestamp == Some(amb.isoNow)
      && r.body.error == None
  {
  }

  /** With a key set, a rejected upstream `fetch`, an upstream body that is
      not JSON and an answer without `choices[0].message` are all reported
      as a 500 whose `error` is the thrown message (or the generic text when
      it is empty) and whose `details` is the stack only in development. */
  lemma UpstreamThrowIs500(messages: seq<Turn>, env: Env, up: Upstream, amb: Ambient)
    requires amb.pick < |MockResponses|
    requires StrTruthy(env.apiKey)
    requires up.FetchFailed? || up.NotJson? || (up.Answered? && IsOkStatus(up.status) && up.data.choice.Missing?)
    ensures var r := Post(Object(Some(messages)), env, up, amb).response;
      var thrown := if up.Answered? then up.data.choice.typeError else up.message;
      && r.status == 500
      && r.body.error == Some(if thrown == "" then ServerFallback else thrown)
      && r.body.details == (if env.development then Some(amb.stack) else None)
  {
  }
}
