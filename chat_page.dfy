/** The AI chat page: the transcript held in component state, its copy in
    the browser's local storage, and the send cycle that posts the history
    to the chat route and writes the answer (or an error) back. */
module ChatPage {
  import opened Wrappers
  import opened Text
  import opened ChatApi

  /** A `Date`: a time value in milliseconds, or an Invalid Date. */
  datatype Time = At(ms: int) | InvalidDate

  /** How a `Date` is written by `JSON.stringify` and read back by `new Date(text)`. */
  datatype DateCodec = DateCodec(format: Time -> string, parse: string -> Time)

  /** A transcript entry. `isLoading` and `isError` are `false` where the
      source leaves them undefined; `text` is `None` when a reply had no
      `content`. */
  datatype Message = Message(
    id: MsgId, text: Option<string>, sender: string, timestamp: Time,
    isLoading: bool, isError: bool)

  /** A transcript entry as JSON holds it: the timestamp is text. */
  datatype StoredMessage = StoredMessage(
    id: MsgId, text: Option<string>, sender: string, timestamp: string,
    isLoading: bool, isError: bool)

  /** The text stored under "chatHistory": either an array of entries, or
      text that `JSON.parse` rejects or whose value has no `map` (or has a
      `null` element), so that reviving it throws. */
  datatype Entry = Records(items: seq<StoredMessage>) | NotATranscript(text: string)

  /** `Date.now()` before the request goes out and after it settles. */
  datatype Clock = Clock(sent: int, settled: int)

  /** The response body text, as `JSON.parse` sees it. */
  datatype Body = EmptyText | Malformed | Parsed(data: ReplyJson)

  /** What the page's `fetch("/api/chat")` and `response.text()` come to. */
  datatype HttpOutcome =
    | Rejected(message: string)                  // `fetch` or `text()` threw
    | Responded(status: int, statusText: string, body: Body)

  /** What the send's outer `try` ends with. */
  datatype Settlement = Delivered(data: ReplyJson) | Failed(message: string)

  const GreetingText := "Hi there! I'm your AI assistant. How can I help you today?"
  const PlaceholderText := "Thinking..."
  const ConnectFailure := "Failed to connect to the server"

  // ---------------------------------------------------------------- messages

  /** The greeting a fresh transcript starts with. */
  function Greeting(now: int): (m: Message)
    ensures m.id == Num(1) && m.sender == "ai" && m.text == Some(GreetingText)
    ensures !m.isLoading && !m.isError && m.timestamp == At(now)
  {
    Message(Num(1), Some(GreetingText), "ai", At(now), false, false)
  }

  /** The entry for the text the user sent, kept untrimmed. */
  function UserMessage(message: string, clock: Clock): (m: Message)
    ensures m.sender == "user" && m.text == Some(message) && !m.isLoading && !m.isError
    ensures m.id == Num(clock.sent) && m.timestamp == At(clock.sent)
  {
    Message(Num(clock.sent), Some(message), "user", At(clock.sent), false, false)
  }

  /** The "Thinking..." placeholder shown while the request is out. */
  function Placeholder(clock: Clock): (m: Message)
    ensures m.isLoading && !m.isError && m.sender == "ai" && m.text == Some(PlaceholderText)
    ensures m.id.Str? && StartsWith(m.id.s, "loading-") && m.timestamp == At(clock.sent)
  {
    Message(Str("loading-" + IntToDecimal(clock.sent)), Some(PlaceholderText), "ai", At(clock.sent), true, false)
  }

  /** The non-timestamp fields of a message and its stored form agree. */
  predicate SameFields(m: Message, s: StoredMessage) {
    m.id == s.id && m.text == s.text && m.sender == s.sender
    && m.isLoading == s.isLoading && m.isError == s.isError
  }

  // ---------------------------------------------------------------- storage

  /** `JSON.stringify(messages)`, entry by entry. */
  function Serialize(s: seq<Message>, dates: DateCodec): (r: seq<StoredMessage>)
    ensures |r| == |s|
    ensures forall i :: 0 <= i < |s| ==>
      SameFields(s[i], r[i]) && r[i].timestamp == dates.format(s[i].timestamp)
  {
    if s == [] then []
    else
      var m := s[0];
      [StoredMessage(m.id, m.text, m.sender, dates.format(m.timestamp), m.isLoading, m.isError)]
      + Serialize(s[1..], dates)
  }

  /** `parsedMessages.map(msg => ({...msg, timestamp: new Date(msg.timestamp)}))`. */
  function Revive(items: seq<StoredMessage>, dates: DateCodec): (r: seq<Message>)
    ensures |r| == |items|
    ensures forall i :: 0 <= i < |items| ==>
      SameFields(r[i], items[i]) && r[i].timestamp == dates.parse(items[i].timestamp)
  {
    if items == [] then []
    else
      var m := items[0];
      [Message(m.id, m.text, m.sender, dates.parse(m.timestamp), m.isLoading, m.isError)]
      + Revive(items[1..], dates)
  }

  /** The transcript the mount effect installs for a given storage entry. */
  function Restored(entry: Option<Entry>, now: int, dates: DateCodec): (r: seq<Message>)
    ensures (entry.None? || entry.value.NotATranscript?) ==> r == [Greeting(now)]
    ensures entry.Some? && entry.value.Records? ==>
      |r| == |entry.value.items|
      && forall i :: 0 <= i < |r| ==> SameFields(r[i], entry.value.items[i])
  {
    match entry
    case Some(Records(items)) => Revive(items, dates)
    case _ => [Greeting(now)]
  }

  /** Saving a transcript and loading it again gives back every
      message in order with its non-timestamp fields, and its timestamp too
      wherever the date codec round-trips it. */
  lemma SaveThenRestore(s: seq<Message>, now: int, dates: DateCodec)
    ensures var r := Restored(Some(Records(Serialize(s, dates))), now, dates);
      && |r| == |s|
      && forall i :: 0 <= i < |s| ==>
           && r[i].id == s[i].id && r[i].text == s[i].text && r[i].sender == s[i].sender
           && r[i].isLoading == s[i].isLoading && r[i].isError == s[i].isError
           && (dates.parse(dates.format(s[i].timestamp)) == s[i].timestamp ==> r[i] == s[i])
  {
  }

  // ---------------------------------------------------------------- the request

  /** The `{role, content}` form of one prior message. */
  function Turns(prior: seq<Message>): (h: seq<Turn>)
    ensures |h| == |prior|
    ensures forall i :: 0 <= i < |prior| ==>
      && (h[i].role == "user" <==> prior[i].sender == "user")
      && (h[i].role == "user" || h[i].role == "assistant")
      && h[i].content == prior[i].text
  {
    if prior == [] then []
    else [Turn(if prior[0].sender == "user" then "user" else "assistant", prior[0].text)] + Turns(prior[1..])
  }

  /** The history posted to the route: every prior message, then the new one
      as a user turn. */
  function History(prior: seq<Message>, message: string): (h: seq<Turn>)
    ensures |h| == |prior| + 1
    ensures h[..|prior|] == Turns(prior)
    ensures h[|prior|] == Turn("user", Some(message))
  {
    Turns(prior) + [Turn("user", Some(message))]
  }

  /** The message thrown for a non-ok response whose body parsed. */
  function StatusFailure(data: ReplyJson, status: int): (m: string)
    ensures m != ""
  {
    OrElse(data.error, OrElse(data.message, "Request failed with status " + IntToDecimal(status)))
  }

  /** The inner `try`: the parsed response data, or the message it threw. */
  function Attempt(o: HttpOutcome): (r: Result<ReplyJson>)
    ensures r.Ok? <==> o.Responded? && IsOkStatus(o.status) && !o.body.Malformed?
    ensures r.Ok? ==> r.value == if o.body.EmptyText? then EmptyObject else o.body.data
    ensures o.Responded? && r.Err? ==> r.message != ""
  {
    match o
    case Rejected(m) => Err(m)
    case Responded(status, statusText, body) =>
      match body
      case Malformed =>
        Err("Invalid response from server: " + IntToDecimal(status) + " " + statusText)
      case EmptyText =>
        if !IsOkStatus(status) then Err(StatusFailure(EmptyObject, status)) else Ok(EmptyObject)
      case Parsed(data) =>
        if !IsOkStatus(status) then Err(StatusFailure(data, status)) else Ok(data)
  }

  /** The outer `try`: an error with an empty message becomes the connection
      failure text. */
  function Reduce(o: HttpOutcome): (s: Settlement)
    ensures s.Delivered? <==> o.Responded? && IsOkStatus(o.status) && !o.body.Malformed?
    ensures s.Failed? ==> s.message != ""
    ensures o.Rejected? ==> s == Failed(if o.message == "" then ConnectFailure else o.message)
  {
    match Attempt(o)
    case Ok(data) => Delivered(data)
    case Err(m) => Failed(if m == "" then ConnectFailure else m)
  }

  /** The error text the page shows for each way a request can fail. */
  lemma FailureText(o: HttpOutcome)
    ensures o.Responded? && o.body.Malformed? ==>
      Reduce(o) == Failed("Invalid response from server: " + IntToDecimal(o.status) + " " + o.statusText)
    ensures o.Responded? && !IsOkStatus(o.status) && o.body.Parsed? ==>
      Reduce(o) == Failed(OrElse(o.body.data.error, OrElse(o.body.data.message,
                            "Request failed with status " + IntToDecimal(o.status))))
    ensures o.Responded? && !IsOkStatus(o.status) && o.body.EmptyText? ==>
      Reduce(o) == Failed("Request failed with status " + IntToDecimal(o.status))
  {
  }

  // ---------------------------------------------------------------- the answer

  const TroubleText := "I'm having trouble connecting to the AI service. ("
  const SorryText := "Sorry, I encountered an error: "
  const UnableText := "I'm unable to process your request: "

  /** The three error texts of which one is shown. */
  function FallbackTexts(m: string): (r: seq<string>)
    ensures |r| == 3
    ensures StartsWith(r[0], TroubleText) && StartsWith(r[1], SorryText) && StartsWith(r[2], UnableText)
  {
    [TroubleText + m + ")", SorryText + m, UnableText + m]
  }

  /** Each error text embeds the error message. */
  lemma FallbackEmbedsMessage(m: string, pick: nat)
    requires pick < 3
    ensures Contains(FallbackTexts(m)[pick], m)
  {
    if pick == 0 {
      ContainsInfix(TroubleText, m, ")");
    } else {
      var p := if pick == 1 then SorryText else UnableText;
      ContainsInfix(p, m, "");
      assert p + m + "" == p + m;
    }
  }

  /** The message appended once the request settled. */
  function Resolution(s: Settlement, clock: Clock, pick: nat, dates: DateCodec): (m: Message)
    requires pick < 3
    ensures m.sender == "ai" && !m.isLoading
    ensures m.isError <==> s.Failed?
    ensures s.Delivered? ==> m.text == s.data.content
    ensures s.Failed? ==> m.text.Some? && m.text.value in FallbackTexts(s.message)
  {
    match s
    case Delivered(data) =>
      Message(if IdTruthy(data.id) then data.id.value else Num(clock.settled + 1),
              data.content, "ai",
              if StrTruthy(data.timestamp) then dates.parse(data.timestamp.value) else At(clock.settled),
              false, false)
    case Failed(message) =>
      Message(Num(clock.settled + 1), Some(FallbackTexts(message)[pick]), "ai", At(clock.settled), false, true)
  }

  /** A failed send is shown as an error message whose text includes the
      failure message. */
  lemma FailureShown(message: string, clock: Clock, pick: nat, dates: DateCodec)
    requires pick < 3
    ensures var m := Resolution(Failed(message), clock, pick, dates);
      m.isError && m.text.Some? && Contains(m.text.value, message)
  {
    FallbackEmbedsMessage(message, pick);
  }

  /** `prev.filter(msg => !msg.isLoading)`. */
  function WithoutLoading(s: seq<Message>): (r: seq<Message>)
    ensures |r| <= |s|
    ensures forall i :: 0 <= i < |r| ==> !r[i].isLoading
    ensures forall m {:trigger m in r} :: m in r <==> m in s && !m.isLoading
  {
    if s == [] then []
    else (if s[0].isLoading then [] else [s[0]]) + WithoutLoading(s[1..])
  }

  /** The filter keeps exactly the messages that are not loading. */
  lemma {:induction false} WithoutLoadingMembers(s: seq<Message>, m: Message)
    ensures m in WithoutLoading(s) <==> m in s && !m.isLoading
  {
    if s != [] {
      WithoutLoadingMembers(s[1..], m);
      assert s == [s[0]] + s[1..];
    }
  }

  /** The filter distributes over concatenation, so it keeps the relative
      order of the messages it keeps. */
  lemma {:induction false} WithoutLoadingAppend(a: seq<Message>, b: seq<Message>)
    ensures WithoutLoading(a + b) == WithoutLoading(a) + WithoutLoading(b)
  {
    if a == [] {
      assert a + b == b;
    } else {
      assert (a + b)[1..] == a[1..] + b;
      WithoutLoadingAppend(a[1..], b);
    }
  }

  /** A transcript with no loading message passes the filter unchanged. */
  lemma {:induction false} WithoutLoadingSettled(s: seq<Message>)
    requires forall i :: 0 <= i < |s| ==> !s[i].isLoading
    ensures WithoutLoading(s) == s
  {
    if s != [] {
      WithoutLoadingSettled(s[1..]);
    }
  }

  /** Filtering twice is filtering once. */
  lemma WithoutLoadingIdempotent(s: seq<Message>)
    ensures WithoutLoading(WithoutLoading(s)) == WithoutLoading(s)
  {
    WithoutLoadingSettled(WithoutLoading(s));
  }

  /** After a non-blank send settles, the transcript is the old one without
      its loading messages, then the user message, then the answer. */
  lemma SettledShape(prior: seq<Message>, message: string, clock: Clock, answer: Message)
    ensures WithoutLoading(prior + [UserMessage(message, clock), Placeholder(clock)]) + [answer]
         == WithoutLoading(prior) + [UserMessage(message, clock), answer]
  {
    var u, p := UserMessage(message, clock), Placeholder(clock);
    WithoutLoadingAppend(prior, [u, p]);
    assert [u, p] == [u] + [p];
    WithoutLoadingAppend([u], [p]);
    assert WithoutLoading([u]) == [u] + WithoutLoading([]);
    assert WithoutLoading([p]) == [] + WithoutLoading([]);
  }

  // ---------------------------------------------------------------- the component

  /** The page component: its `messages` state and the storage entry it
      reads and writes. */
  class AiChatPage {
    var messages: seq<Message>
    var storage: Option<Entry>

    /** `useState([])`, next to whatever storage already holds. */
    constructor (stored: Option<Entry>)
      ensures messages == [] && storage == stored
    {
      messages := [];
      storage := stored;
    }

    /** The mount effect: restore the saved transcript or seed the greeting. */
    method LoadEffect(now: int, dates: DateCodec)
      modifies this
      ensures storage == old(storage)
      ensures messages == Restored(storage, now, dates)
    {
      match storage
      case Some(Records(items)) =>
        messages := Revive(items, dates);
      case _ =>
        messages := [Greeting(now)];
    }

    /** The save effect run after every render that changed `messages`: an
        empty transcript is never written. */
    method SaveEffect(dates: DateCodec)
      modifies this
      ensures messages == old(messages)
      ensures |messages| == 0 ==> storage == old(storage)
      ensures |messages| > 0 ==> storage == Some(Records(Serialize(messages, dates)))
    {
      if |messages| > 0 {
        storage := Some(Records(Serialize(messages, dates)));
      }
    }

    /** "New chat": drop the stored entry and reseed the greeting. */
    method NewChat(now: int)
      modifies this
      ensures storage == None
      ensures messages == [Greeting(now)]
    {
      storage := None;
      messages := [Greeting(now)];
    }

    /** The part of `handleSendMessage` before its first `await`: the blank
        guard, the two appends, and the history to post (built from the
        transcript as it stood before the send). */
    method Submit(message: string, clock: Clock) returns (request: Option<seq<Turn>>)
      modifies this
      ensures storage == old(storage)
      ensures IsBlank(message) ==> request == None && messages == old(messages)
      ensures !IsBlank(message) ==>
        && request == Some(History(old(messages), message))
        && messages == old(messages) + [UserMessage(message, clock), Placeholder(clock)]
    {
      if IsBlank(message) {
        return None;
      }
      var prior := messages;
      messages := messages + [UserMessage(message, clock)];
      messages := messages + [Placeholder(clock)];
      request := Some(History(prior, message));
    }

    /** The part after the request settles: drop every loading message and
        append the reply or an error message. */
    method Resolve(outcome: HttpOutcome, clock: Clock, pick: nat, dates: DateCodec)
      requires pick < 3
      modifies this
      ensures storage == old(storage)
      ensures messages == WithoutLoading(old(messages)) + [Resolution(Reduce(outcome), clock, pick, dates)]
    {
      var kept := WithoutLoading(messages);
      messages := kept + [Resolution(Reduce(outcome), clock, pick, dates)];
    }

    /** One whole send cycle, with the save effect after each render, taken
        as one uninterrupted step. */
    method Send(message: string, outcome: HttpOutcome, clock: Clock, pick: nat, dates: DateCodec)
      returns (request: Option<seq<Turn>>)
      requires pick < 3
      modifies this
      ensures IsBlank(message) ==>
        request == None && messages == old(messages) && storage == old(storage)
      ensures !IsBlank(message) ==>
        && request == Some(History(old(messages), message))
        && messages == WithoutLoading(old(messages))
                       + [UserMessage(message, clock), Resolution(Reduce(outcome), clock, pick, dates)]
        && storage == Some(Records(Serialize(messages, dates)))
      ensures !IsBlank(message) ==> forall i :: 0 <= i < |messages| ==> !messages[i].isLoading
    {
      request := Submit(message, clock);
      if request.None? {
        return;
      }
      ghost var prior := old(messages);
      SaveEffect(dates);
      Resolve(outcome, clock, pick, dates);
      SettledShape(prior, message, clock, Resolution(Reduce(outcome), clock, pick, dates));
      SaveEffect(dates);
    }
  }
}
