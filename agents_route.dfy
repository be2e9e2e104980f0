/**
 * The agent request handler (`POST /api/chat/agents`): it adapts the
 * client's turns into the executor's input, and then either filters the
 * executor's log stream down to the final-answer text or returns the
 * executor's result and its intermediate steps as JSON.
 *
 * The executor is a parameter: `streamLog` and `invoke` stand for the two
 * ways of running it on the adapted input. Each either yields its output
 * or throws.
 */
module AgentsRoute {
  import opened Wrappers
  import opened Shared
  import opened Text

  // ---------------------------------------------------------------------
  // Message adapter
  // ---------------------------------------------------------------------

  /** The LangChain message classes: HumanMessage, AIMessage, ChatMessage. */
  datatype LcMessage =
    | Human(content: string)
    | AI(content: string)
    | Chat(content: string, role: string)

  /** The client role a LangChain message stands for. */
  function RoleOf(l: LcMessage): string {
    match l
    case Human(_) => "user"
    case AI(_) => "assistant"
    case Chat(_, role) => role
  }

  /** A turn the handler keeps: its role is `user` or `assistant`. */
  predicate IsDialogue(m: Msg) {
    m.role == "user" || m.role == "assistant"
  }

  /**
   * `convertVercelMessageToLangChainMessage`. The conversion loses nothing:
   * role and content can be read back. A `user` turn becomes a Human
   * message, an `assistant` turn an AI message, and any other role a Chat
   * message.
   */
  function ToLangChain(m: Msg): (r: LcMessage)
    ensures r.content == m.content && RoleOf(r) == m.role
    ensures r.Human? <==> m.role == "user"
    ensures r.AI? <==> m.role == "assistant"
    ensures r.Chat? <==> !IsDialogue(m)
  {
    if m.role == "user" then Human(m.content)
    else if m.role == "assistant" then AI(m.content)
    else Chat(m.content, m.role)
  }

  /** The `filter` that keeps the user and assistant turns. */
  function DialogueTurns(ms: seq<Msg>): (r: seq<Msg>)
    ensures |r| <= |ms|
    ensures forall k :: 0 <= k < |r| ==> IsDialogue(r[k])
  {
    if ms == [] then []
    else (if IsDialogue(ms[0]) then [ms[0]] else []) + DialogueTurns(ms[1..])
  }

  /** Filtering a concatenation filters each part and keeps their order. */
  lemma {:induction false} DialogueTurnsAppend(a: seq<Msg>, b: seq<Msg>)
    ensures DialogueTurns(a + b) == DialogueTurns(a) + DialogueTurns(b)
  {
    if a != [] {
      assert (a + b)[1..] == a[1..] + b;
      DialogueTurnsAppend(a[1..], b);
    } else {
      assert a + b == b;
    }
  }

  /**
   * The filtered list holds every user or assistant turn of the input as
   * often as the input does, and nothing else.
   */
  lemma {:induction false} DialogueTurnsCount(ms: seq<Msg>, x: Msg)
    ensures multiset(DialogueTurns(ms))[x] == if IsDialogue(x) then multiset(ms)[x] else 0
  {
    if ms != [] {
      DialogueTurnsCount(ms[1..], x);
      assert ms == [ms[0]] + ms[1..];
    }
  }

  /** A list of user and assistant turns passes the filter unchanged. */
  lemma {:induction false} DialogueTurnsKeepsDialogue(ms: seq<Msg>)
    requires forall k :: 0 <= k < |ms| ==> IsDialogue(ms[k])
    ensures DialogueTurns(ms) == ms
  {
    if ms != [] {
      DialogueTurnsKeepsDialogue(ms[1..]);
      assert ms == [ms[0]] + ms[1..];
    }
  }

  /** What the executor is run on: `{ input, chat_history }`. */
  datatype AgentInput = AgentInput(input: string, chatHistory: seq<LcMessage>)

  /** `map(convertVercelMessageToLangChainMessage)`. */
  function ConvertAll(ms: seq<Msg>): (r: seq<LcMessage>)
    ensures |r| == |ms|
    ensures forall k :: 0 <= k < |ms| ==> r[k] == ToLangChain(ms[k])
  {
    seq(|ms|, k requires 0 <= k < |ms| => ToLangChain(ms[k]))
  }

  /**
   * Filter the turns, convert all but the last kept turn into the chat
   * history, and take the input from the last KEPT turn. With no user or
   * assistant turn, reading the last turn throws a status-less TypeError.
   */
  function Adapt(messages: Option<seq<Msg>>): (r: Result<AgentInput, Thrown>)
    ensures var turns := DialogueTurns(OrEmpty(messages));
      && (r.Err? <==> turns == [])
      && (r.Err? ==> r.error == Thrown(NoLastMessage, None))
      && (r.Ok? ==>
            && r.value.input == turns[|turns| - 1].content
            && |r.value.chatHistory| == |turns| - 1
            && (forall k :: 0 <= k < |turns| - 1 ==> r.value.chatHistory[k] == ToLangChain(turns[k]))
            && (forall k :: 0 <= k < |r.value.chatHistory| ==> !r.value.chatHistory[k].Chat?))
  {
    var turns := DialogueTurns(OrEmpty(messages));
    var previous := ConvertAll(AllButLast(turns));
    match LastContent(turns)
    case Err(e) => Err(e)
    case Ok(current) => Ok(AgentInput(current, previous))
  }

  /**
   * A trailing turn that is neither user nor assistant changes nothing: the
   * input still comes from the last user or assistant turn before it.
   */
  lemma TrailingOtherIgnored(ms: seq<Msg>, m: Msg)
    requires !IsDialogue(m)
    ensures Adapt(Some(ms + [m])) == Adapt(Some(ms))
  {
    DialogueTurnsAppend(ms, [m]);
    assert DialogueTurns([m]) == [];
    assert DialogueTurns(ms + [m]) == DialogueTurns(ms);
  }

  /**
   * The history never holds the last kept turn: adding one more user or
   * assistant turn moves the previous input turn into the history and makes
   * the new turn the input.
   */
  lemma {:induction false} AdaptAppendDialogue(ms: seq<Msg>, m: Msg)
    requires IsDialogue(m)
    ensures var r := Adapt(Some(ms + [m]));
      && r.Ok? && r.value.input == m.content
      && r.value.chatHistory == ConvertAll(DialogueTurns(ms))
  {
    DialogueTurnsAppend(ms, [m]);
    assert DialogueTurns([m]) == [m];
    var turns := DialogueTurns(ms + [m]);
    assert turns == DialogueTurns(ms) + [m];
    assert AllButLast(turns) == DialogueTurns(ms);
  }

  // ---------------------------------------------------------------------
  // Log-stream filter
  // ---------------------------------------------------------------------

  /** The value of a log operation: a string, or anything else. */
  datatype Val = Str(s: string) | NonStr

  /** One JSON-patch operation of a log chunk: `{ op, path, value }`. */
  datatype Op = Op(op: string, path: string, value: Val)

  /** A log chunk; its `ops` may be missing. */
  datatype LogChunk = LogChunk(ops: Option<seq<Op>>)

  /** Path prefix of the log entries whose values are streamed to the client. */
  const FinalAnswerPrefix: string := "/logs/ChatOpenAI"

  /** The first operation of a chunk, if it has one. */
  function FirstOp(c: LogChunk): (r: Option<Op>)
    ensures r.Some? <==> c.ops.Some? && c.ops.value != []
    ensures r.Some? ==> r.value == c.ops.value[0]
  {
    match c.ops
    case Some(ops) => if ops == [] then None else Some(ops[0])
    case None => None
  }

  /**
   * A chunk is forwarded when its first operation adds a non-empty string at
   * a path under the final-answer prefix.
   */
  predicate Forwarded(c: LogChunk) {
    && FirstOp(c).Some?
    && FirstOp(c).value.op == "add"
    && StartsWith(FirstOp(c).value.path, FinalAnswerPrefix)
    && FirstOp(c).value.value.Str?
    && FirstOp(c).value.value.s != []
  }

  /** The text pieces that reach the client, in arrival order. */
  function FinalAnswerPieces(log: seq<LogChunk>): (r: seq<string>)
    ensures |r| <= |log|
    ensures forall k :: 0 <= k < |r| ==> r[k] != []
  {
    if log == [] then []
    else (if Forwarded(log[0]) then [FirstOp(log[0]).value.value.s] else []) + FinalAnswerPieces(log[1..])
  }

  /** The filter is a single pass: its output on a concatenation is the concatenation of its outputs. */
  lemma {:induction false} FinalAnswerPiecesAppend(a: seq<LogChunk>, b: seq<LogChunk>)
    ensures FinalAnswerPieces(a + b) == FinalAnswerPieces(a) + FinalAnswerPieces(b)
  {
    if a != [] {
      assert (a + b)[1..] == a[1..] + b;
      FinalAnswerPiecesAppend(a[1..], b);
    } else {
      assert a + b == b;
    }
  }

  /**
   * Only the first operation of each chunk matters: two logs whose chunks
   * agree on their first operations yield the same pieces.
   */
  lemma {:induction false} OnlyFirstOpMatters(log1: seq<LogChunk>, log2: seq<LogChunk>)
    requires |log1| == |log2|
    requires forall k :: 0 <= k < |log1| ==> FirstOp(log1[k]) == FirstOp(log2[k])
    ensures FinalAnswerPieces(log1) == FinalAnswerPieces(log2)
  {
    if log1 != [] {
      OnlyFirstOpMatters(log1[1..], log2[1..]);
    }
  }

  /**
   * A chunk with no operations, or whose first operation is not an `add`,
   * contributes nothing, whatever operations follow it.
   */
  lemma DroppedChunks(log: seq<LogChunk>, first: Op, rest: seq<Op>)
    requires first.op != "add"
    ensures FinalAnswerPieces([LogChunk(Some([]))] + log) == FinalAnswerPieces(log)
    ensures FinalAnswerPieces([LogChunk(None)] + log) == FinalAnswerPieces(log)
    ensures FinalAnswerPieces([LogChunk(Some([first] + rest))] + log) == FinalAnswerPieces(log)
  {
  }

  /**
   * Every piece is the value of the first operation of a forwarded chunk,
   * and every forwarded chunk's value is among the pieces.
   */
  lemma {:induction false} FinalAnswerPiecesSources(log: seq<LogChunk>)
    ensures forall k :: 0 <= k < |FinalAnswerPieces(log)| ==>
      exists i :: 0 <= i < |log| && Forwarded(log[i]) && FinalAnswerPieces(log)[k] == FirstOp(log[i]).value.value.s
    ensures forall i :: 0 <= i < |log| && Forwarded(log[i]) ==> FirstOp(log[i]).value.value.s in FinalAnswerPieces(log)
  {
    if log != [] {
      FinalAnswerPiecesSources(log[1..]);
      var head := if Forwarded(log[0]) then [FirstOp(log[0]).value.value.s] else [];
      var tail := FinalAnswerPieces(log[1..]);
      assert FinalAnswerPieces(log) == head + tail;
      var r := FinalAnswerPieces(log);
      assert r == head + tail;
      forall k | 0 <= k < |r|
        ensures exists i :: 0 <= i < |log| && Forwarded(log[i]) && r[k] == FirstOp(log[i]).value.value.s
      {
        if k < |head| {
          assert Forwarded(log[0]) && r[k] == FirstOp(log[0]).value.value.s;
        } else {
          var j :| 0 <= j < |log[1..]| && Forwarded(log[1..][j]) && tail[k - |head|] == FirstOp(log[1..][j]).value.value.s;
          assert log[1..][j] == log[j + 1];
          assert Forwarded(log[j + 1]) && r[k] == FirstOp(log[j + 1]).value.value.s;
        }
      }
      forall i | 0 <= i < |log| && Forwarded(log[i])
        ensures FirstOp(log[i]).value.value.s in head + tail
      {
        if i > 0 {
          assert log[1..][i - 1] == log[i];
        }
      }
    } else {
      assert FinalAnswerPieces(log) == [];
    }
  }

  /**
   * The stream controller the filter writes to: what has been enqueued so
   * far and whether the stream is closed. Enqueueing into or closing a
   * closed stream throws, so neither operation admits a closed stream.
   */
  class StreamController {
    var enqueued: seq<string>
    var closed: bool

    constructor ()
      ensures enqueued == [] && !closed
    {
      enqueued := [];
      closed := false;
    }

    /** `controller.enqueue(textEncoder.encode(piece))`. */
    method Enqueue(piece: string)
      requires !closed
      modifies this
      ensures enqueued == old(enqueued) + [piece] && !closed
    {
      enqueued := enqueued + [piece];
    }

    /** `controller.close()`. */
    method Close()
      requires !closed
      modifies this
      ensures closed && enqueued == old(enqueued)
    {
      closed := true;
    }
  }

  /**
   * The `start` callback of the response stream: one pass over the log,
   * forwarding the values that qualify, then one close.
   */
  method PumpLog(logStream: seq<LogChunk>, controller: StreamController)
    requires !controller.closed
    modifies controller
    ensures controller.closed
    ensures controller.enqueued == old(controller.enqueued) + FinalAnswerPieces(logStream)
  {
    for i := 0 to |logStream|
      invariant !controller.closed
      invariant controller.enqueued == old(controller.enqueued) + FinalAnswerPieces(logStream[..i])
    {
      var chunk := logStream[i];
      FinalAnswerPiecesAppend(logStream[..i], [chunk]);
      assert logStream[..i + 1] == logStream[..i] + [chunk];
      if chunk.ops.Some? && |chunk.ops.value| > 0 && chunk.ops.value[0].op == "add" {
        var addOp := chunk.ops.value[0];
        if StartsWith(addOp.path, FinalAnswerPrefix) && addOp.value.Str? && |addOp.value.s| > 0 {
          controller.Enqueue(addOp.value.s);
        }
      }
    }
    assert logStream[..|logStream|] == logStream;
    controller.Close();
  }

  // ---------------------------------------------------------------------
  // The handler
  // ---------------------------------------------------------------------

  /** One intermediate step of the executor: the tool, its input, its output. */
  datatype Step = Step(tool: string, toolInput: string, observation: string)

  /** The executor's result in trace mode. */
  datatype AgentResult = AgentResult(output: string, intermediateSteps: seq<Step>)

  /** The request body: `{ messages?, show_intermediate_steps? }`. */
  datatype Request = Request(messages: Option<seq<Msg>>, showIntermediateSteps: Option<bool>)

  /**
   * What the handler answers: a text stream of the forwarded pieces (status
   * 200), the trace JSON `{ output, intermediate_steps }` with its status, or
   * the error JSON.
   */
  datatype Response =
    | Streamed(pieces: seq<string>)
    | TraceJson(output: string, intermediateSteps: seq<Step>, status: int)
    | Failed(reply: ErrorReply)

  /** JavaScript truthiness of the optional flag. */
  predicate Truthy(flag: Option<bool>) {
    flag == Some(true)
  }

  /**
   * `POST`: adapt the request; with a falsy `show_intermediate_steps` run the
   * log stream through the filter, otherwise answer the executor's result
   * with status 200. Anything thrown becomes the error reply.
   */
  method Post(req: Request,
              streamLog: AgentInput -> Result<seq<LogChunk>, Thrown>,
              invoke: AgentInput -> Result<AgentResult, Thrown>)
    returns (resp: Response)
    ensures DialogueTurns(OrEmpty(req.messages)) == [] ==> resp == Failed(ErrorReply(NoLastMessage, 500))
    ensures Adapt(req.messages).Ok? && !Truthy(req.showIntermediateSteps) ==>
      var log := streamLog(Adapt(req.messages).value);
      && (log.Ok? ==> resp == Streamed(FinalAnswerPieces(log.value)))
      && (log.Err? ==> resp == Failed(ErrorResponse(log.error)))
    ensures Adapt(req.messages).Ok? && Truthy(req.showIntermediateSteps) ==>
      var result := invoke(Adapt(req.messages).value);
      && (result.Ok? ==> resp == TraceJson(result.value.output, result.value.intermediateSteps, 200))
      && (result.Err? ==> resp == Failed(ErrorResponse(result.error)))
  {
    var adapted := Adapt(req.messages);
    if adapted.Err? {
      return Failed(ErrorResponse(adapted.error));
    }
    var agentInput := adapted.value;
    if !Truthy(req.showIntermediateSteps) {
      var log := streamLog(agentInput);
      if log.Err? {
        return Failed(ErrorResponse(log.error));
      }
      var controller := new StreamController();
      PumpLog(log.value, controller);
      resp := Streamed(controller.enqueued);
    } else {
      var result := invoke(agentInput);
      if result.Err? {
        return Failed(ErrorResponse(result.error));
      }
      resp := TraceJson(result.value.output, result.value.intermediateSteps, 200);
    }
  }
}
