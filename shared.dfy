/**
 * What both request handlers share: the chat turn sent by the client, the
 * error a handler can throw, the `{ error }` reply its `catch` block builds,
 * and the `body.messages ?? []` and `messages[messages.length - 1].content`
 * expressions that both handlers evaluate.
 */
module Shared {
  import opened Wrappers

  /** One chat turn as the client sends it: `{ role, content }`. */
  datatype Msg = Msg(role: string, content: string)

  /** A thrown JavaScript error: its `message` and its optional `status`. */
  datatype Thrown = Thrown(message: string, status: Option<int>)

  /** The JSON error reply `{ error }` and the HTTP status it is sent with. */
  datatype ErrorReply = ErrorReply(error: string, status: int)

  /** Status used when the thrown error carries none. */
  const DefaultStatus: int := 500

  /** Message of the TypeError raised when `.content` is read from `undefined`. */
  const NoLastMessage: string := "Cannot read properties of undefined (reading 'content')"

  /** The `catch (e)` block: `{ error: e.message }` with status `e.status ?? 500`. */
  function ErrorResponse(e: Thrown): (r: ErrorReply)
    ensures r.error == e.message
    ensures e.status.Some? ==> r.status == e.status.value
    ensures e.status.None? ==> r.status == DefaultStatus
  {
    ErrorReply(e.message, match e.status case Some(s) => s case None => DefaultStatus)
  }

  /** `body.messages ?? []`: a missing list reads as the empty list. */
  function OrEmpty(messages: Option<seq<Msg>>): (r: seq<Msg>)
    ensures messages.None? ==> r == []
    ensures messages.Some? ==> r == messages.value
  {
    match messages
    case Some(ms) => ms
    case None => []
  }

  /**
   * `messages[messages.length - 1].content`: the content of the last turn, or
   * the status-less TypeError that reading a property of `undefined` throws.
   */
  function LastContent(ms: seq<Msg>): (r: Result<string, Thrown>)
    ensures r.Ok? <==> ms != []
    ensures r.Ok? ==> r.value == ms[|ms| - 1].content
    ensures r.Err? ==> r.error == Thrown(NoLastMessage, None)
  {
    if ms == [] then Err(Thrown(NoLastMessage, None)) else Ok(ms[|ms| - 1].content)
  }

  /** `slice(0, -1)`: every element but the last; the empty list stays empty. */
  function AllButLast<T>(s: seq<T>): (r: seq<T>)
    ensures s == [] ==> r == []
    ensures s != [] ==> r + [s[|s| - 1]] == s
  {
    if s == [] then [] else s[..|s| - 1]
  }
}
