/** The page and the route together: the history the page posts reaches the
    upstream unchanged, and what the route answers ends up in the
    transcript as the page reads it. */
module EndToEnd {
  import opened Wrappers
  import opened Text
  import opened ChatApi
  import R = ChatRoute
  import P = ChatPage

  /** The page's view of a route response: its status, the status text the
      server sent, and the JSON body. */
  function Delivery(r: R.Response, statusText: string): P.HttpOutcome {
    P.Responded(r.status, statusText, P.Parsed(r.body))
  }

  /** The message the page appends for a given route answer. */
  function Shown(r: R.Response, statusText: string, clock: P.Clock, pick: nat, dates: P.DateCodec): P.Message
    requires pick < 3
  {
    P.Resolution(P.Reduce(Delivery(r, statusText)), clock, pick, dates)
  }

  /** Every answer of the route is JSON with status 200, 400 or 500, so the
      page takes it as delivered exactly when the status is 200; it never
      reaches its unparseable-body or empty-body branches. */
  lemma RouteAnswerReduces(body: R.RequestBody, env: R.Env, up: R.Upstream, amb: R.Ambient, statusText: string)
    requires amb.pick < |R.MockResponses|
    ensures var r := R.Post(body, env, up, amb).response;
      && (P.Reduce(Delivery(r, statusText)).Delivered? <==> r.status == 200)
      && (r.status == 200 ==> P.Reduce(Delivery(r, statusText)) == P.Delivered(r.body))
      && (r.status != 200 ==> P.Reduce(Delivery(r, statusText)) == P.Failed(r.body.error.value))
  {
  }

  /** With a key configured, the history the page builds is what the route
      sends upstream. */
  lemma HistoryForwarded(prior: seq<P.Message>, message: string, env: R.Env, up: R.Upstream, amb: R.Ambient)
    requires amb.pick < |R.MockResponses|
    requires StrTruthy(env.apiKey)
    ensures var h := R.Post(R.Object(Some(P.History(prior, message))), env, up, amb);
      && h.forwarded.Some?
      && h.forwarded.value.messages == P.History(prior, message)
      && |h.forwarded.value.messages| == |prior| + 1
  {
  }

  /** Without a key the page shows one of the mock replies as a normal
      (non-error) message whose id starts with "mock-". */
  lemma MockReplyShown(prior: seq<P.Message>, message: string, env: R.Env, up: R.Upstream, amb: R.Ambient,
                       statusText: string, clock: P.Clock, pick: nat, dates: P.DateCodec)
    requires amb.pick < |R.MockResponses| && pick < 3
    requires !StrTruthy(env.apiKey)
    ensures var m := Shown(R.Post(R.Object(Some(P.History(prior, message))), env, up, amb).response,
                           statusText, clock, pick, dates);
      && !m.isError && !m.isLoading && m.sender == "ai"
      && m.text.Some? && m.text.value in R.MockResponses
      && m.id.Str? && StartsWith(m.id.s, "mock-")
  {
  }

  /** A route error response shows as an error message that includes the
      response's `error`. */
  lemma ErrorResponseShown(r: R.Response, statusText: string, clock: P.Clock, pick: nat, dates: P.DateCodec)
    requires pick < 3
    requires !IsOkStatus(r.status) && StrTruthy(r.body.error)
    ensures var m := Shown(r, statusText, clock, pick, dates);
      m.isError && m.text.Some? && Contains(m.text.value, r.body.error.value)
  {
    assert P.Reduce(Delivery(r, statusText)) == P.Failed(r.body.error.value);
    P.FailureShown(r.body.error.value, clock, pick, dates);
  }

  /** An upstream quota error reaches the transcript as an error message that
      carries the billing notice and the upstream's own words. */
  lemma QuotaErrorShown(prior: seq<P.Message>, message: string, env: R.Env, status: int, data: R.UpstreamData,
                        amb: R.Ambient, statusText: string, clock: P.Clock, pick: nat, dates: P.DateCodec)
    requires amb.pick < |R.MockResponses| && pick < 3
    requires StrTruthy(env.apiKey)
    requires !IsOkStatus(status) && R.IsQuotaError(data.error)
    ensures var m := Shown(R.Post(R.Object(Some(P.History(prior, message))), env, R.Answered(status, data), amb).response,
                           statusText, clock, pick, dates);
      && m.isError && m.text.Some?
      && Contains(m.text.value, R.QuotaPrefix)
      && Contains(m.text.value, OrElse(data.error.value.message, R.QuotaFallback))
  {
    var r := R.Post(R.Object(Some(P.History(prior, message))), env, R.Answered(status, data), amb).response;
    R.QuotaErrorIs500(env.apiKey.value, P.History(prior, message), status, data, env, amb);
    var e := r.body.error.value;
    ErrorResponseShown(r, statusText, clock, pick, dates);
    var text := Shown(r, statusText, clock, pick, dates).text.value;
    ContainsInfix("", R.QuotaPrefix, e[|R.QuotaPrefix|..]);
    assert "" + R.QuotaPrefix + e[|R.QuotaPrefix|..] == e;
    ContainsTransitive(text, e, R.QuotaPrefix);
    ContainsTransitive(text, e, OrElse(data.error.value.message, R.QuotaFallback));
  }

  /** A request the route rejects shows as an error message quoting
      "Invalid request body": the body's `error` wins over its `details`. */
  lemma RejectedRequestShown(body: R.RequestBody, env: R.Env, up: R.Upstream, amb: R.Ambient,
                             statusText: string, clock: P.Clock, pick: nat, dates: P.DateCodec)
    requires amb.pick < |R.MockResponses| && pick < 3
    requires !(body.Object? && body.messages.Some?)
    ensures var m := Shown(R.Post(body, env, up, amb).response, statusText, clock, pick, dates);
      m.isError && m.text.Some? && Contains(m.text.value, R.InvalidBody)
  {
    R.InvalidRequestIs400(body, env, up, amb);
    ErrorResponseShown(R.Post(body, env, up, amb).response, statusText, clock, pick, dates);
  }

  /** "New chat" followed by the save effect and a reload shows exactly the
      greeting again, whatever the page held before. */
  method NewChatThenReload(stored: Option<P.Entry>, t0: int, t1: int, t2: int, dates: P.DateCodec)
    returns (after: seq<P.Message>)
    ensures |after| == 1
    ensures after[0].id == Num(1) && after[0].sender == "ai" && after[0].text == Some(P.GreetingText)
    ensures !after[0].isLoading && !after[0].isError
  {
    var page := new P.AiChatPage(stored);
    page.LoadEffect(t0, dates);
    page.SaveEffect(dates);
    page.NewChat(t1);
    page.SaveEffect(dates);
    var reloaded := new P.AiChatPage(page.storage);
    reloaded.LoadEffect(t2, dates);
    P.SaveThenRestore([P.Greeting(t1)], t2, dates);
    after := reloaded.messages;
  }

  /** A blank send leaves the page as it was and posts nothing. */
  method BlankSendIsIgnored(page: P.AiChatPage, message: string, outcome: P.HttpOutcome,
                            clock: P.Clock, pick: nat, dates: P.DateCodec)
    returns (request: Option<seq<Turn>>)
    requires pick < 3
    requires AllSpace(message)
    modifies page
    ensures request == None
    ensures page.messages == old(page.messages) && page.storage == old(page.storage)
  {
    request := page.Send(message, outcome, clock, pick, dates);
  }

  /** The save effect runs after the render that shows the placeholder, so a
      reload while the request is out comes back with the "Thinking..."
      entry as its last message, and nothing removes it until the next send
      settles. */
  method ReloadDuringRequest(stored: Option<P.Entry>, t0: int, t1: int, message: string,
                             clock: P.Clock, dates: P.DateCodec)
    returns (after: seq<P.Message>)
    requires !IsBlank(message)
    ensures |after| >= 2
    ensures after[|after| - 1].isLoading && after[|after| - 1].text == Some(P.PlaceholderText)
    ensures after[|after| - 2].sender == "user" && after[|after| - 2].text == Some(message)
  {
    var page := new P.AiChatPage(stored);
    page.LoadEffect(t0, dates);
    page.SaveEffect(dates);
    ghost var prior := page.messages;
    var request := page.Submit(message, clock);
    ghost var sent := page.messages;
    assert sent == prior + [P.UserMessage(message, clock), P.Placeholder(clock)];
    page.SaveEffect(dates);
    assert page.storage == Some(P.Records(P.Serialize(sent, dates)));
    var reloaded := new P.AiChatPage(page.storage);
    reloaded.LoadEffect(t1, dates);
    P.SaveThenRestore(sent, t1, dates);
    after := reloaded.messages;
    assert |after| == |sent| && sent[|sent| - 1] == P.Placeholder(clock) && sent[|sent| - 2] == P.UserMessage(message, clock);
  }
}
