# Chat and agent request handlers of a LangChain / Next.js chat template

This project models, in Dafny, the two request handlers of a chat web application.

- `POST /api/chat` (module `ChatRoute`) works as follows:
  - It flattens every turn but the last into a transcript with one `role: content` line per turn.
  - It takes the last turn's content as the new input.
  - It picks the English or Thai prompt template from the `LANGUAGE` setting.
  - It streams back what the prompt → model → output-parser chain produces.
- `POST /api/chat/agents` (module `AgentsRoute`) works as follows:
  - It keeps only the `user` and `assistant` turns.
  - It converts all but the last kept turn into LangChain messages (Human, AI or Chat).
  - It takes the input from the last kept turn.
  - It then runs a tool-using agent executor in one of two ways. By default it streams the executor's log through a filter that forwards only the final-answer text. When `show_intermediate_steps` is set, it returns the executor's result and its intermediate steps as JSON with status 200.
- Both handlers turn anything thrown before the response is returned into `{ error: e.message }` with status `e.status ?? 500` (module `Shared`).
- `Text` holds the string operations the handlers use: `startsWith`, `join` and a newline split that is the partner of `join`.
- `Wrappers` holds `Option` and `Result`.

The language model, the agent executor and the chain are parameters of the handlers. Each is a function from what the handler passes to it to either its output or a thrown error. Each handler's contract therefore states exactly which input and chat history reach the executor or the chain.

The log filter is modelled imperatively, in the same shape as the source:
- `StreamController` stands for the stream controller. It holds the pieces enqueued so far and a `closed` flag.
- `PumpLog` is the loop over the log chunks. It is proved to leave exactly `FinalAnswerPieces(log)` enqueued and the stream closed. Its calls are only allowed on an open stream, so the stream is closed exactly once and nothing is enqueued after it closes.

Two behaviours of the code worth noting:
- The agent handler reads the current input from the last user or assistant turn, not from the raw last turn. `AgentsRoute.TrailingOtherIgnored` states this.
- An empty message list is answered with an error reply, because the TypeError thrown when `.content` is read from `undefined` carries no status, so the status is 500.

The filter's path prefix is the literal `/logs/ChatOpenAI`, as at `app/api/chat/agents/route.ts:103`. The handler builds a `ChatOllama` model (line 58). Whether the executor's log paths then carry that prefix depends on the library's naming of runs, which is not part of this model.

## Model

| member | source | states |
|---|---|---|
| `Shared.ErrorResponse` | app/api/chat/route.ts:86-88 | the error reply carries the thrown message; its status is the thrown status when there is one and 500 otherwise |
| `Shared.OrEmpty` | app/api/chat/agents/route.ts:43 | a missing `messages` field reads as the empty list |
| `Shared.LastContent` | app/api/chat/route.ts:45 | succeeds exactly on a non-empty list, with the last element's content; an empty list throws a TypeError without a status |
| `Shared.AllButLast` | app/api/chat/route.ts:44 | `slice(0, -1)`: the empty list stays empty, otherwise the result followed by the last element is the input |
| `Text.Join` | app/api/chat/route.ts:81 | `join` of no parts is `""`, of one part is that part |
| `Text.JoinSnoc` | app/api/chat/route.ts:81 | joining one more part appends exactly one separator and that part |
| `Text.SplitJoin` | app/api/chat/route.ts:81 | splitting a newline-joined non-empty list of newline-free parts at its newlines gives the parts back, so the joined text has one newline between consecutive parts and no other |
| `AgentsRoute.ToLangChain` | app/api/chat/agents/route.ts:18-26 | `user` ↔ Human, `assistant` ↔ AI, any other role ↔ Chat; the role and content can be read back unchanged from the result |
| `AgentsRoute.DialogueTurns` | app/api/chat/agents/route.ts:43-46 | the filtered list holds only user/assistant turns and is no longer than the input |
| `AgentsRoute.DialogueTurnsCount` | app/api/chat/agents/route.ts:43-46 | every user/assistant turn appears in the filtered list as often as in the input, and no other turn appears |
| `AgentsRoute.DialogueTurnsAppend` | app/api/chat/agents/route.ts:43-46 | filtering keeps relative order: the filter of a concatenation is the concatenation of the filters |
| `AgentsRoute.DialogueTurnsKeepsDialogue` | app/api/chat/agents/route.ts:43-46 | a list of only user/assistant turns passes the filter unchanged |
| `AgentsRoute.ConvertAll` | app/api/chat/agents/route.ts:48-50 | the history has one converted message per turn, position by position |
| `AgentsRoute.Adapt` | app/api/chat/agents/route.ts:43-51 | fails, with the status-less TypeError, exactly when no user/assistant turn survives; otherwise the input is the last kept turn's content, and the history has (kept count − 1) entries, is the conversion of the kept turns before it, and never holds a Chat message |
| `AgentsRoute.TrailingOtherIgnored` | app/api/chat/agents/route.ts:43-51 | a trailing turn whose role is neither user nor assistant leaves the adapted input and history unchanged |
| `AgentsRoute.AdaptAppendDialogue` | app/api/chat/agents/route.ts:48-51 | a trailing user/assistant turn becomes the input, and the history is exactly the conversion of the kept turns before it |
| `AgentsRoute.FirstOp` | app/api/chat/agents/route.ts:100-101 | a chunk has a first operation exactly when its `ops` is present and non-empty, and that operation is `ops[0]` |
| `AgentsRoute.FinalAnswerPieces` | app/api/chat/agents/route.ts:99-109 | no forwarded piece is empty, and there are no more pieces than chunks |
| `AgentsRoute.FinalAnswerPiecesAppend` | app/api/chat/agents/route.ts:99-110 | the filter is a single in-order pass: its output on a concatenation of logs is the concatenation of its outputs |
| `AgentsRoute.FinalAnswerPiecesSources` | app/api/chat/agents/route.ts:100-107 | every piece is the first-op value of a chunk that qualifies (add, final-answer path, non-empty string), and every qualifying chunk's value is among the pieces |
| `AgentsRoute.OnlyFirstOpMatters` | app/api/chat/agents/route.ts:100-101 | logs whose chunks agree on their first operations give the same output: no later operation is inspected |
| `AgentsRoute.DroppedChunks` | app/api/chat/agents/route.ts:100-101 | a chunk with missing or empty `ops`, or whose first op is not `add`, contributes nothing whatever follows it |
| `AgentsRoute.StreamController.constructor` | app/api/chat/agents/route.ts:97-98 | a new stream is open and empty |
| `AgentsRoute.StreamController.Enqueue` | app/api/chat/agents/route.ts:107 | appends one piece; only an open stream accepts it |
| `AgentsRoute.StreamController.Close` | app/api/chat/agents/route.ts:111 | closes an open stream and leaves its contents alone |
| `AgentsRoute.PumpLog` | app/api/chat/agents/route.ts:97-113 | after the loop the stream holds its earlier contents followed by exactly `FinalAnswerPieces(log)`, and is closed once |
| `AgentsRoute.Post` | app/api/chat/agents/route.ts:36-134 | no user/assistant turn gives the error reply with status 500; otherwise a falsy flag streams the filtered log of the executor run on the adapted input, a true flag answers its output and steps with status 200, and anything the executor throws becomes the error reply |
| `ChatRoute.Template` | app/api/chat/route.ts:14-32 | `en` selects the English template, `th` the Thai template, and any other or missing value leaves the template unset |
| `ChatRoute.TemplatePlaceholders` | app/api/chat/route.ts:14-32 | each template contains `{chat_history}` and `{input}`, with the history placeholder first |
| `ChatRoute.FormatMessage` | app/api/chat/route.ts:11-13 | the line is the role, then `": "`, then the content, with no other characters |
| `ChatRoute.ParseFormatted` | app/api/chat/route.ts:11-13 | a formatted turn whose role has no colon reads back as the same turn |
| `ChatRoute.FormattedPrevious` | app/api/chat/route.ts:44 | one formatted line per turn but the last, of any role, in order; none for an empty list |
| `ChatRoute.ChatHistory` | app/api/chat/route.ts:81 | the history is empty when there is at most one turn |
| `ChatRoute.ChatHistoryReadBack` | app/api/chat/route.ts:81 | with two or more turns, newline-free turns and colon-free roles, the history has one line per earlier turn, in order, and each line reads back as that turn |
| `ChatRoute.ChatHistoryAppend` | app/api/chat/route.ts:81 | after two or more turns, one more turn adds one newline and the formatted previous last turn to the history |
| `ChatRoute.Post` | app/api/chat/route.ts:40-89 | a missing or empty list gives the error reply with status 500; otherwise the chain gets the selected template, the flattened history and the raw last turn's content, whatever its role, and its output is streamed, or what it throws becomes the error reply |

## Left out

- The language model (`ChatOllama`), the agent executor (`initializeAgentExecutorWithOptions`, its reasoning loop, `streamLog`, `invoke`) and the `Calculator` tool are foreign library code. They are parameters of the handlers. The model does not cover failures while the executor or the model is being constructed; they would reach the same `catch` block as those modelled.
- `PromptTemplate.fromTemplate`, placeholder substitution and `HttpResponseOutputParser` are library internals. The chain parameter receives the template as it is, unset included, and decides the outcome.
- `AgentsRoute.PumpLog`: does not model `TextEncoder`, because UTF-8 encoding is opaque here. Pieces are enqueued as strings.
- `AgentsRoute.Post`: does not model incremental delivery. The log is a finished sequence, and the stream's contents are computed before the response value is formed. The model also leaves out `for await`, backpressure, cancellation and the edge runtime. An error thrown by the log stream while the response is already streaming ends that stream and never reaches the `catch` block; the model covers only a `streamLog` call that throws.
- `ChatRoute.Post`: does not model incremental delivery. The chain's output is a finished sequence. A failure of the chain after its stream has begun ends the already-returned 200 stream early and never reaches the `catch` block; the model covers only a chain that throws before the response is returned.
- `AgentsRoute.Truthy`: `show_intermediate_steps` is modelled as an optional boolean. Non-boolean truthy values such as `1` or `"yes"` are not modelled.
- Malformed request bodies (turns without a `content`, non-string roles, `ops` that is not an array) are not modelled. The fields are typed.
- `BASE_URL`, `BASE_MODEL` and the temperatures are configuration values passed to the model. `LANGUAGE` is the `language` parameter of `ChatRoute.Post`.
- `PREFIX_TEMPLATE` in the agent handler is declared but never used, so it is not modelled.
- `app/layout.tsx` is static page layout and is not part of this model.
