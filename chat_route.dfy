/**
 * The plain chat request handler (`POST /api/chat`): it flattens every turn
 * but the last into a `role: content` transcript, takes the last turn's
 * content as the input, and streams what the prompt-model-parser chain
 * produces. The chain is a parameter: it receives the template and the two
 * prompt variables, and either yields the streamed pieces or throws.
 */
module ChatRoute {
  import opened Wrappers
  import opened Shared
  import opened Text

  // ---------------------------------------------------------------------
  // Prompt template selection
  // ---------------------------------------------------------------------

  /** The two prompt variables the templates refer to. */
  const ChatHistoryPlaceholder: string := "{chat_history}"
  const InputPlaceholder: string := "{input}"

  /** The English template (the text before its first placeholder, then the rest). */
  const EnglishIntro: string :=
    "You are an useful personal assistant named Jarvis. All responses must be extremely informative and useful for everyone.\n\n  Current conversation:\n  "
  const EnglishTemplate: string :=
    EnglishIntro + ChatHistoryPlaceholder + "\n\n  User: " + InputPlaceholder + "\n  AI:"

  /** The Thai template, split the same way. */
  const ThaiIntro: string :=
    "คุณเป็นผู้ช่วยส่วนตัวที่มีประโยชน์ชื่อว่า Jarvis ทุกคำตอบต้องมีประโยชน์และเป็นประโยชน์อย่างมากสำหรับทุกคน\n\n  บทสนทนาปัจจุบัน:\n  "
  const ThaiTemplate: string :=
    ThaiIntro + ChatHistoryPlaceholder + "\n\n  ผู้ใช้: " + InputPlaceholder + "\n  AI:"

  /** `TEMPLATE`, chosen once from the `LANGUAGE` setting; unset for any other value. */
  function Template(language: Option<string>): (r: Option<string>)
    ensures r.Some? <==> language == Some("en") || language == Some("th")
    ensures language == Some("en") ==> r == Some(EnglishTemplate)
    ensures language == Some("th") ==> r == Some(ThaiTemplate)
  {
    if language == Some("en") then Some(EnglishTemplate)
    else if language == Some("th") then Some(ThaiTemplate)
    else None
  }

  /**
   * Whichever template is chosen holds the `{chat_history}` placeholder
   * before the `{input}` placeholder.
   */
  lemma TemplatePlaceholders(language: Option<string>)
    requires Template(language).Some?
    ensures Contains(Template(language).value, ChatHistoryPlaceholder)
    ensures Contains(Template(language).value, InputPlaceholder)
    ensures exists i, j :: i < j && OccursAt(Template(language).value, ChatHistoryPlaceholder, i)
                                && OccursAt(Template(language).value, InputPlaceholder, j)
  {
    var english := language == Some("en");
    var intro := if english then EnglishIntro else ThaiIntro;
    var between := if english then "\n\n  User: " else "\n\n  ผู้ใช้: ";
    var t := Template(language).value;
    var rest := between + InputPlaceholder + "\n  AI:";
    assert t == intro + ChatHistoryPlaceholder + rest;
    assert t[|intro|..|intro| + |ChatHistoryPlaceholder|] == ChatHistoryPlaceholder;
    assert OccursAt(t, ChatHistoryPlaceholder, |intro|);
    var j := |intro| + |ChatHistoryPlaceholder| + |between|;
    assert t == (intro + ChatHistoryPlaceholder + between) + InputPlaceholder + "\n  AI:";
    assert t[j..j + |InputPlaceholder|] == InputPlaceholder;
    assert OccursAt(t, InputPlaceholder, j);
  }

  // ---------------------------------------------------------------------
  // History flattening
  // ---------------------------------------------------------------------

  /** `formatMessage`: the role, then `": "`, then the content. */
  function FormatMessage(m: Msg): (r: string)
    ensures |r| == |m.role| + 2 + |m.content|
    ensures r[..|m.role|] == m.role
    ensures r[|m.role|..|m.role| + 2] == ": "
    ensures r[|m.role| + 2..] == m.content
  {
    m.role + ": " + m.content
  }

  /** Reads a `role: content` line back, splitting at its first colon. */
  function ParseLine(line: string): (r: Option<Msg>)
    ensures r.Some? ==> ':' !in r.value.role && FormatMessage(r.value) == line
  {
    var i := FirstIndexOf(line, ':');
    if i + 1 < |line| && line[i + 1] == ' ' then
      assert line == line[..i] + ": " + line[i + 2..];
      Some(Msg(line[..i], line[i + 2..]))
    else None
  }

  /** A formatted turn whose role has no colon reads back as the same turn. */
  lemma ParseFormatted(m: Msg)
    requires ':' !in m.role
    ensures ParseLine(FormatMessage(m)) == Some(m)
  {
    FirstIndexOfAfter(m.role, ':', " " + m.content);
    assert FormatMessage(m) == m.role + [':'] + (" " + m.content);
  }

  /** `messages.slice(0, -1).map(formatMessage)`: every turn but the last, of any role. */
  function FormattedPrevious(ms: seq<Msg>): (r: seq<string>)
    ensures |r| == if ms == [] then 0 else |ms| - 1
    ensures forall k :: 0 <= k < |r| ==> r[k] == FormatMessage(ms[k])
  {
    var previous := AllButLast(ms);
    seq(|previous|, k requires 0 <= k < |previous| => FormatMessage(previous[k]))
  }

  /** The `chat_history` prompt variable: the formatted earlier turns, one per line. */
  function ChatHistory(ms: seq<Msg>): (r: string)
    ensures |ms| <= 1 ==> r == ""
  {
    Join(FormattedPrevious(ms), "\n")
  }

  /**
   * With newline-free turns and colon-free roles, the history has one line
   * per earlier turn, in order, and each line reads back as that turn.
   */
  lemma ChatHistoryReadBack(ms: seq<Msg>)
    requires |ms| >= 2
    requires forall k :: 0 <= k < |ms| ==> '\n' !in ms[k].role && '\n' !in ms[k].content && ':' !in ms[k].role
    ensures |SplitLines(ChatHistory(ms))| == |ms| - 1
    ensures forall k :: 0 <= k < |ms| - 1 ==> ParseLine(SplitLines(ChatHistory(ms))[k]) == Some(ms[k])
  {
    var lines := FormattedPrevious(ms);
    forall k | 0 <= k < |lines|
      ensures '\n' !in lines[k]
    {
      assert lines[k] == ms[k].role + ": " + ms[k].content;
    }
    SplitJoin(lines);
    forall k | 0 <= k < |ms| - 1
      ensures ParseLine(SplitLines(ChatHistory(ms))[k]) == Some(ms[k])
    {
      ParseFormatted(ms[k]);
    }
  }

  /** Adding a turn after two or more turns appends one line to the history. */
  lemma {:induction false} ChatHistoryAppend(ms: seq<Msg>, m: Msg)
    requires |ms| >= 2
    ensures ChatHistory(ms + [m]) == ChatHistory(ms) + "\n" + FormatMessage(ms[|ms| - 1])
  {
    var a := FormattedPrevious(ms);
    var b := FormattedPrevious(ms + [m]);
    assert b == a + [FormatMessage(ms[|ms| - 1])];
    JoinSnoc(a, FormatMessage(ms[|ms| - 1]), "\n");
  }

  // ---------------------------------------------------------------------
  // The handler
  // ---------------------------------------------------------------------

  /** The request body: `{ messages? }`. */
  datatype Request = Request(messages: Option<seq<Msg>>)

  /** What the chain is given: the template and the two prompt variables. */
  datatype PromptInputs = PromptInputs(template: Option<string>, chatHistory: string, input: string)

  /** A stream of the chain's output (status 200), or the error JSON. */
  datatype Response = Streamed(pieces: seq<string>) | Failed(reply: ErrorReply)

  /**
   * `POST`: read the input from the raw last turn (a missing or empty list
   * throws a status-less TypeError), flatten the earlier turns, run the chain
   * and stream its output. Anything thrown becomes the error reply.
   */
  function Post(req: Request, language: Option<string>,
                chain: PromptInputs -> Result<seq<string>, Thrown>): (r: Response)
    ensures OrEmpty(req.messages) == [] ==> r == Failed(ErrorReply(NoLastMessage, 500))
    ensures OrEmpty(req.messages) != [] ==>
      var ms := OrEmpty(req.messages);
      var out := chain(PromptInputs(Template(language), ChatHistory(ms), ms[|ms| - 1].content));
      && (out.Ok? ==> r == Streamed(out.value))
      && (out.Err? ==> r == Failed(ErrorResponse(out.error)))
  {
    var ms := OrEmpty(req.messages);
    var history := ChatHistory(ms);
    match LastContent(ms)
    case Err(e) => Failed(ErrorResponse(e))
    case Ok(current) =>
      match chain(PromptInputs(Template(language), history, current))
      case Ok(pieces) => Streamed(pieces)
      case Err(e) => Failed(ErrorResponse(e))
  }
}
