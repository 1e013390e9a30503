/** The JSON values that travel between the chat page and the chat route:
    the `{role, content}` history the page posts and the object the route
    answers with. */
module ChatApi {
  import opened Wrappers

  /** A message id as JavaScript holds it: a number (`Date.now()`) or a string. */
  datatype MsgId = Num(n: int) | Str(s: string)

  /** One element of the `messages` array of a chat request. */
  datatype Turn = Turn(role: string, content: Option<string>)

  /** The fields of a chat response object that either side reads or writes;
      `None` is a field the object does not have. */
  datatype ReplyJson = ReplyJson(
    id: Option<MsgId>,
    content: Option<string>,
    role: Option<string>,
    timestamp: Option<string>,
    error: Option<string>,
    details: Option<string>,
    message: Option<string>)

  /** `{}`: what the page takes an empty response body for. */
  const EmptyObject := ReplyJson(None, None, None, None, None, None, None)

  /** A status is a success when it is a 2xx (the Fetch standard's `ok`). */
  predicate IsOkStatus(status: int) {
    200 <= status <= 299
  }

  /** JavaScript truthiness of an optional string: absent and `""` are falsy. */
  predicate StrTruthy(o: Option<string>) {
    o.Some? && o.value != ""
  }

  /** `a || b` on optional strings, as the `||` fallbacks of the source read. */
  function OrElse(a: Option<string>, b: string): (r: string)
    ensures StrTruthy(a) ==> r == a.value
    ensures !StrTruthy(a) ==> r == b
  {
    if StrTruthy(a) then a.value else b
  }

  /** JavaScript truthiness of an optional id: absent, `0` and `""` are falsy. */
  predicate IdTruthy(o: Option<MsgId>) {
    match o
    case None => false
    case Some(Num(n)) => n != 0
    case Some(Str(s)) => s != ""
  }
}
