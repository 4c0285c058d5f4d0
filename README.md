# rag-backend in Dafny

This is a model of the retrieval-augmented chat backend `rag-backend`. It has four parts:

- **The MCP tool server** (`server.py`), covered by module `Server`. It has an `echo` tool and a `context_retriever` tool that seeds an empty collection before searching it. It also has `enter_data`, `get_collection_data_count`, and two prompts: `convert` and `track_context_history`.
- **The ingestion step** (`chromaDB.py`, `store_data`), covered by module `Ingestion`. The rows of the dataset's `test` split become three parallel lists: documents, metadata and ids. These lists are added to a collection in slices of at most 100.
- **The conversation orchestrator** (`mcp_client.py`), covered by modules `Orchestrator`, `Gateway` and `Persistence`, and class `Orchestrator.McpClient`. The `process_query` turn loop asks the model for a reply and answers each `tool_use` block with a `tool_result` message. It dumps the transcript after every append. Around it sit:
  - `call_llm`, which chooses Claude or Gemini from the stored model choice and filters tool schemas for Gemini;
  - `set_model` and `get_model_choice`;
  - the check on the script extension in `connect_to_server`.
- **The command-line client** (`cli_chatbot_client.py`), covered by module `CliClient` and class `CliClient.CliChatClient`. Its `process_query` does one round of tool use per query. Every assistant message it appends shares one list object. `chat_loop` reads queries until a quit line whose deletion of the history collection succeeds; as written, that deletion always fails, so it never leaves (see Findings).

Shared pieces:

- `Transcript` holds the data that flows between these parts: JSON values, content blocks, messages and tools.
- `Text` holds the Python string operations used: `strip`, `lower`, `endswith`, `replace(" ", "")`, `str(int)` and `join`.
- `PyRepr` holds Python's `repr` of strings and of JSON-like lists and dicts. It is needed because the prompts and the tool notes are built with `str(...)`.
- `Launch` holds the extension check that both clients share.
- `Wrappers` holds `Option` and `Result`.

Everything the system does not compute itself is a parameter of the model:

- The model provider is a function from (call number, request) to reply blocks.
- The MCP tool server is a function from (tool name, arguments) to a result or an error message.
- The dataset loader result is a `LoadResult` value.
- The vector search is a function from (collection contents, query, count) to the text of the result or the text of the error.
- The source's `while True` loops are bounded by a `fuel` count.

Two rules specify the two chat clients' loops:

- Each loop is a specification function: `Orchestrator.Converse` for `mcp_client.py` and `CliClient.QuerySpec` / `CliClient.Chat` for the command-line client.
- Each class method is proved to produce exactly the state and the result of that function.

A separate checker states the tool-use protocol that both clients must follow:

- It is `Orchestrator.Replay`. An assistant message opens the ids of its `tool_use` blocks. A user message holding one `tool_result` must answer the oldest open id.
- The lemmas prove that the orchestrator's transcripts always satisfy this checker.
- They also prove that the command-line client's requests can break it.

## Model

| member | source | states |
|---|---|---|
| Launch.ServerCommand | rag-backend/mcp_client.py:63-68 | The script launches exactly when the path ends in `.py` or `.js`, under `python` or `node`; any other path raises the `ValueError` with its fixed message. |
| Launch.ScriptCommands | rag-backend/cli_chatbot_client.py:48-53 | Any `<name>.py` runs under `python` and any `<name>.js` under `node`. |
| Launch.PythonExactlyForPy | rag-backend/mcp_client.py:63-68 | `python` is chosen if and only if the path ends in `.py`; no path ends in both extensions. |
| Gateway.FilterSchema | rag-backend/mcp_client.py:221-229 | An entry is kept if and only if it is in the schema and its key is neither `additionalProperties` nor `$schema`; never longer than the input. |
| Gateway.FilterSchemaAppend | rag-backend/mcp_client.py:221-229 | The filter works entry by entry, so it distributes over concatenation and keeps the order of the entries it keeps. |
| Gateway.FilterSchemaKeeps | rag-backend/mcp_client.py:221-229 | A schema without the two dropped keys passes unchanged. |
| Gateway.FilterSchemaIdempotent | rag-backend/mcp_client.py:221-229 | Filtering twice is the same as filtering once. |
| Gateway.Declarations | rag-backend/mcp_client.py:215-234 | One function declaration per tool, in order, each with the tool's name, description and filtered schema. |
| Gateway.Dispatch | rag-backend/mcp_client.py:193-203 | The Claude arm is taken if and only if `choice.lower().strip()` is `claude`; the Gemini arm if and only if it is `gemini`. |
| Gateway.CallLlm | rag-backend/mcp_client.py:189-243 | A Claude request is sent if and only if Claude is chosen and `self.llm` is still the Anthropic client, carrying the whole transcript and the tools. A Gemini request is sent if and only if Gemini is chosen and there is a first message, carrying that message's content and the filtered declarations. Any other choice returns the fixed error string. Choosing Gemini leaves the Gemini client in `self.llm`. |
| Gateway.GeminiSeesFirstMessageOnly | rag-backend/mcp_client.py:210-212 | Two transcripts with the same first message give the same Gemini call. |
| Gateway.ClaudeAfterGeminiRaises | rag-backend/mcp_client.py:206 | Once `self.llm` holds the Gemini client, choosing Claude raises instead of reaching a provider. |
| Persistence.NormalizeItem | rag-backend/mcp_client.py:275-287 | A list element becomes its `to_dict()`, else its `dict()`, else its `model_dump()`; a plain element is kept. |
| Persistence.SerializeConversation | rag-backend/mcp_client.py:265-289 | The two loops of `log_conversation` build exactly the normalised transcript. |
| Persistence.NormalizeTranscriptShape | rag-backend/mcp_client.py:267-289 | Same length and order as the transcript; each role is kept, string content is copied, list content keeps its length. |
| Persistence.NormalizeKeepsPlainItems | rag-backend/mcp_client.py:286-287 | An element without any of the three serialisation methods is dumped unchanged. |
| Persistence.NormalizeIdempotent | rag-backend/mcp_client.py:265-289 | The dump contains plain dicts only, so normalising it again changes nothing. |
| Persistence.NormalizePlainTranscript | rag-backend/mcp_client.py:272-287 | A transcript of strings and plain dicts is dumped as it is. |
| Persistence.NormalizeMessageFixed | rag-backend/mcp_client.py:269-287 | A message already in plain form is its own normal form. |
| Orchestrator.RunTools | rag-backend/mcp_client.py:153-180 | If the inner tool loop stops early, it is on a tool call that raised. |
| Orchestrator.RunToolsShape | rag-backend/mcp_client.py:153-180 | Result `k` answers the `k`-th `tool_use` block with that call's result. The loop answers every block exactly when no call raised. On a failure, the failure names the first block whose call raised. |
| Orchestrator.RunToolsReplay | rag-backend/mcp_client.py:153-175 | The tool results close the open `tool_use` ids in order. After a failure, the failing block's id is the oldest one left open. |
| Orchestrator.RoundGrowth | rag-backend/mcp_client.py:136-151 | A reply ends the query if and only if it is exactly one text block; in that case the answer is an assistant message holding exactly that text. Otherwise it appends one assistant message and one result per `tool_use` block. |
| Orchestrator.RoundReplay | rag-backend/mcp_client.py:136-175 | Every reply's appended messages satisfy the protocol, except that a failed tool leaves its own id open. |
| Orchestrator.TurnStepProtocol | rag-backend/mcp_client.py:132-181 | An iteration from a transcript that satisfies the tool-use protocol leaves one that still satisfies it, or, when a tool raised, one whose oldest open id is that tool's. |
| Orchestrator.ConverseKeepsProtocol | rag-backend/mcp_client.py:132-181 | The whole loop leaves a transcript that satisfies the protocol, or, when a tool raised, one whose oldest open id is that tool's. |
| Orchestrator.TurnStepRequests | rag-backend/mcp_client.py:133 | Each iteration makes at most one provider request, and it is the one `call_llm` builds. |
| Orchestrator.TurnStepAppends | rag-backend/mcp_client.py:141-151 | An iteration only appends to the transcript. When it answers, it made one request, the model's reply to it was a single text block, and the transcript ends with that text as an assistant message. |
| Orchestrator.ConverseAppends | rag-backend/mcp_client.py:129-181 | The loop only appends to the transcript. When answered, the model's reply to the last request was a single text block, and the transcript ends with that text as an assistant message. |
| Orchestrator.TurnStepCounts | rag-backend/mcp_client.py:136-151 | Each request adds one assistant message, except a reply that is never read. |
| Orchestrator.ConverseCountsCalls | rag-backend/mcp_client.py:132-151 | Assistant messages appended (plus one for an unread reply) equal the provider requests made. |
| Orchestrator.GeminiQueryFails | rag-backend/mcp_client.py:203-241 | With Gemini chosen, the query makes one Gemini request from the first message and then fails reading the reply, with the transcript unchanged. |
| Orchestrator.ClaudeSeesTheTranscript | rag-backend/mcp_client.py:197-202 | With Claude chosen, every request carries the transcript as it stood at that call, and the tools. |
| Orchestrator.UnknownChoiceStops | rag-backend/mcp_client.py:242-243 | An unknown model choice ends the query with no request made, since the returned string has no `content`. |
| Orchestrator.TurnStepPlain | rag-backend/mcp_client.py:146-174 | An iteration appends only plain messages. |
| Orchestrator.ConverseStaysPlain | rag-backend/mcp_client.py:129-181 | A plain transcript stays plain through the loop. |
| Orchestrator.ProcessQueryGuarantees | rag-backend/mcp_client.py:126-186 | The transcript starts with the query. When answered, it ends with the text of the model's single-text-block reply to the last request, as an assistant message. It satisfies the protocol unless a tool raised. Its assistant messages match the requests. |
| Orchestrator.ClaudeQueryAfterGemini | rag-backend/mcp_client.py:206 | After a Gemini call, a Claude query fails on its first call with only the query in the transcript. |
| Orchestrator.Snapshots | rag-backend/mcp_client.py:141-175 | One dump per message appended after the query. |
| Orchestrator.SnapshotsAppend | rag-backend/mcp_client.py:141-175 | Appending a message adds one dump of the whole transcript. |
| Orchestrator.McpClient.constructor | rag-backend/mcp_client.py:22-41 | Model choice `claude`, the Anthropic client, no tools, no messages. |
| Orchestrator.McpClient.SetModel | rag-backend/mcp_client.py:43-46 | Stores the choice and replies with the confirmation text. |
| Orchestrator.McpClient.GetModelChoice | rag-backend/mcp_client.py:48-49 | Returns the stored choice. |
| Orchestrator.McpClient.ConnectToServer | rag-backend/mcp_client.py:63-94 | Launches by extension and stores the server's tools only when the script is accepted. |
| Orchestrator.McpClient.LogConversation | rag-backend/mcp_client.py:259-289 | Appends the normalised transcript to the dump log. |
| Orchestrator.McpClient.AppendAndLog | rag-backend/mcp_client.py:150-151 | Appends one plain message and dumps the new transcript. |
| Orchestrator.McpClient.AnswerToolUses | rag-backend/mcp_client.py:153-180 | Appends exactly the tool results of the specification and reports its failure. |
| Orchestrator.McpClient.HandleReply | rag-backend/mcp_client.py:136-180 | Handles one reply exactly as the specification's round does. |
| Orchestrator.McpClient.RunTurn | rag-backend/mcp_client.py:132-180 | One iteration: messages, client and requests as the specification's step gives them. |
| Orchestrator.McpClient.RunLoop | rag-backend/mcp_client.py:132-181 | The loop ends in the status, transcript, client and requests `Converse` gives. |
| Orchestrator.McpClient.ProcessQuery | rag-backend/mcp_client.py:126-186 | `process_query` ends in the specification's outcome, with one dump per appended message. |
| Ingestion.Documents | rag-backend/chromaDB.py:54-57 | One document per row. |
| Ingestion.RowEntries | rag-backend/chromaDB.py:54-64 | Row `k` gives document `Question: … Answer: …`, metadata `{author: ayan das, question}` and id `str(id)`, all at index `k`. |
| Ingestion.IdsDistinct | rag-backend/chromaDB.py:63-64 | Rows with distinct ids get distinct string ids. |
| Ingestion.BatchesCount | rag-backend/chromaDB.py:75-82 | ⌈n/100⌉ `add` calls, none for an empty list. |
| Ingestion.BatchAt | rag-backend/chromaDB.py:76-82 | Batch `j` holds entries `[100j, min(100j+100, n))` of all three lists: non-empty and at most 100. |
| Ingestion.BatchesCover | rag-backend/chromaDB.py:76-82 | Read in order, the batches give back each list whole. |
| Ingestion.BatchesShareNoId | rag-backend/chromaDB.py:63-77 | When the rows' ids are distinct, no id is added by two different `add` calls. |
| Ingestion.RowBatchesAddEachRowOnce | rag-backend/chromaDB.py:40-83 | ⌈n/100⌉ calls that together add each row's document, metadata and id once, in row order. |
| Ingestion.VectorDatabase.StoreData | rag-backend/chromaDB.py:40-83 | Without a `test` split, raises `KeyError('test')` and adds nothing. Otherwise adds exactly the rows' batches in order. |
| PyRepr.StrReprRoundTrip | rag-backend/server.py:182-191 | The quoted literal `str` writes for a string reads back as the same string. |
| PyRepr.StrReprInjective | rag-backend/server.py:182-191 | Different strings have different literals. |
| Server.GetOrCreate | rag-backend/server.py:44-49 | An absent collection is created empty; every other collection is unchanged. |
| Server.Echo | rag-backend/server.py:69-71 | The reply is `Echo: ` followed by the message. |
| Server.EchoInjective | rag-backend/server.py:69-71 | The message can be recovered from the echo. |
| Server.EnterData | rag-backend/server.py:135-154 | Data is stored if and only if the collection is empty, the load gave 200 and the data has a `test` split; then the collection gains exactly those rows' batches. Otherwise the store is only get-or-created, and no other collection changes. |
| Server.EnterDataOutcomes | rag-backend/server.py:141-154 | Each branch's outcome: stored with one id per row; already filled with its size, whatever the loader said; the 503 message; the unknown error; a missing `data` or `test` key caught and reported. |
| Server.EnterDataKnownStatus | rag-backend/chromaDB.py:101-128 | With the results the loader can return, the unknown-error reply cannot occur, and the only `KeyError` those results can cause is the missing `test` split. |
| Server.EnterDataReplies | rag-backend/server.py:141-154 | The text `enter_data` answers in each branch: the success line with the collection's name; the name and its size; the loader's 503 message; `Error occured due to` and the caught `KeyError`; the unknown error. |
| Server.EnterReplyPayload | rag-backend/server.py:147-154 | Each reply gives back what it reports: equal size replies report equal sizes, and equal load-failure or error replies carry equal messages. |
| Server.AlreadyFilledDiffers | rag-backend/server.py:144-154 | For a collection name without spaces, the size reply differs from every other kind of reply. |
| Server.EnterRepliesDistinct | rag-backend/server.py:141-154 | For a collection name without spaces, different outcomes give different replies, so the reply tells the caller what happened. |
| Server.EnterDataTwice | rag-backend/server.py:141-147 | A second `enter_data` finds the rows and reports their number without storing again. |
| Server.RetrieveRelevantContext | rag-backend/server.py:77-88 | The reply is the search reply over the collection as it stands after seeding. |
| Server.RetrieveWithDefaults | rag-backend/server.py:77 | The defaults search `complete_collection` for three results. |
| Server.RetrieveSeedsOnlyEmpty | rag-backend/server.py:78-80 | A collection with data is searched as it is; an empty or absent one is seeded first. |
| Server.NormalizeCollectionName | rag-backend/server.py:161 | The normalised name has no spaces and only characters of the input. |
| Server.NormalizeCollectionNameIdempotent | rag-backend/server.py:161 | Normalising twice is normalising once. |
| Server.GetCollectionDataCount | rag-backend/server.py:160-161 | Succeeds if and only if the normalised name is a collection, with its count; otherwise fails naming the normalised name. |
| Server.CountIgnoresSpaces | rag-backend/server.py:161 | A name and its normalised form reach the same collection. |
| Server.ConvertShape | rag-backend/server.py:181-191 | The prompt is the fixed system part, then the quoted user content, then `}]`. |
| Server.ConvertWithDefault | rag-backend/server.py:181-191 | Called without an argument, the prompt carries the default vector data `placeholder data` in its user message. |
| Server.ConvertDefaultIsPlaceholder | rag-backend/server.py:181 | The prompt made without an argument equals the prompt for some vector data exactly when that data is `placeholder data`. |
| Server.ConvertKeepsVectorData | rag-backend/server.py:181-191 | Different vector data give different prompts. |
| Server.FetchConversationHistory | rag-backend/server.py:197-202 | Three messages: user, user, assistant, with the query as the middle one. |
| Server.HistoryFrameFixed | rag-backend/server.py:197-202 | Only the middle message depends on the query, and the prompt determines the query. |
| CliClient.Resolve | rag-backend/cli_chatbot_client.py:113-116 | Every shared-list entry reads as the assistant message holding the list's current contents. |
| CliClient.FirstText | rag-backend/cli_chatbot_client.py:138 | Succeeds if and only if the reply's first block is text, with that text. |
| CliClient.WalkSizes | rag-backend/cli_chatbot_client.py:100-138 | Walking the blocks only appends: two context entries and one follow-up request per `tool_use` block, and one `final_text` entry per text block plus two per `tool_use` block. |
| CliClient.WalkTexts | rag-backend/cli_chatbot_client.py:98-138 | Walking the blocks appends to `final_text` exactly `NotedTexts`: in block order, a text block's text, and for a `tool_use` its note then the first text of the reply to its follow-up, the follow-ups taken in the order sent. |
| CliClient.WalkShared | rag-backend/cli_chatbot_client.py:100-113 | The shared list ends with every text and `tool_use` block of the reply, in order. |
| CliClient.WalkPairs | rag-backend/cli_chatbot_client.py:113-129 | After the entries already there, the context alternates a shared-list entry and a tool result. |
| CliClient.WalkResults | rag-backend/cli_chatbot_client.py:113-129 | The results answer the reply's `tool_use` ids, in order. |
| CliClient.ProcessQueryShape | rag-backend/cli_chatbot_client.py:73-161 | A completed query: the context is the query plus a pair per tool call, with every assistant entry reading the whole final list. `final_text` is, block by block, each text block's text, and for each `tool_use` its note then the first text of its follow-up's reply. One first request with tools, then follow-ups without tools. |
| CliClient.OneRoundOnly | rag-backend/cli_chatbot_client.py:131-138 | Only the first block of a follow-up reply matters: the rest is never read and no further tools are called. |
| CliClient.TwoToolUseRequests | rag-backend/cli_chatbot_client.py:100-138 | For a reply of two `tool_use` blocks, the second follow-up sends `[q, A[a,b], result a, A[a,b], result b]`, both assistant messages being the same list. |
| CliClient.AliasBreaksSecondFollowUp | rag-backend/cli_chatbot_client.py:113-136 | As written, the first follow-up satisfies the tool-use protocol but the second violates it. |
| CliClient.AssistantWhileOpenFails | rag-backend/cli_chatbot_client.py:113-129 | An assistant message with blocks that arrives while a `tool_use` is still unanswered fails the replay, whatever follows. |
| CliClient.AliasedReplayFails | rag-backend/cli_chatbot_client.py:113-129 | After `[q, A[a,b], result a]` the id of `b` is still open, so when a second `A[a,b]` arrives, the replay fails. |
| CliClient.CorrectedQueryKeepsProtocol | rag-backend/cli_chatbot_client.py:113-136 | With a fresh assistant list per tool call, every request of the query satisfies the tool-use protocol. |
| CliClient.FirstQuit | rag-backend/cli_chatbot_client.py:170-172 | The first input read as a quit line (its stripped, lower-cased form is `quit`), if any; every input before it is a query. |
| CliClient.QuitLeavesAtFirstQuit | rag-backend/cli_chatbot_client.py:168-178 | With a working deletion, the loop leaves at the first quit line, having processed every line before it. |
| CliClient.NoQuitStays | rag-backend/cli_chatbot_client.py:168-182 | Without a quit line in reach, every stripped line is processed and the loop does not leave. |
| CliClient.FailedDeleteNeverLeaves | rag-backend/cli_chatbot_client.py:172-182 | As written, the deletion raises, so a quit line never leaves the loop. It is skipped, and every other line is processed. |
| CliClient.AskAllAppend | rag-backend/cli_chatbot_client.py:178 | Processing one more query appends that query's requests, numbered on from the ones before. |
| CliClient.CliChatClient.constructor | rag-backend/cli_chatbot_client.py:29-34 | No tools, no context, no requests. |
| CliClient.CliChatClient.ConnectToServer | rag-backend/cli_chatbot_client.py:48-71 | Launches by extension. Only when the script is accepted does it keep the server's tool list, which the later queries use. |
| CliClient.CliChatClient.ProcessQuery | rag-backend/cli_chatbot_client.py:73-161 | Records exactly the requests `QuerySpec` makes. On completion, returns `final_text` joined by newlines and keeps the resolved context. On an error, raises it and leaves the context as it was. |
| CliClient.CliChatClient.Ask | rag-backend/cli_chatbot_client.py:178 | One query adds exactly its own requests to the record, numbered on from the earlier ones. |
| CliClient.CliChatClient.ChatLoop | rag-backend/cli_chatbot_client.py:163-182 | Leaves and processes queries exactly as `Chat` says, and records exactly those queries' requests. |

## Left out

- Logging, printing, the conversation file write in `log_conversation` and the timestamped file name are not modelled. Only the normalised list that is dumped is modelled.
- Orchestrator.McpClient.LogConversation: a failed dump is not modelled, and no outcome records it. In the source, `os.makedirs` on a fixed absolute path (`mcp_client.py:260-263`) or the `open` of `conversations/...` (`mcp_client.py:294-306`) can raise. `process_query` then re-raises (`mcp_client.py:184-186`) after the message was already appended. The model's `LogConversation`, `AppendAndLog` and `ProcessQuery` always go on.
- The provider SDKs, the MCP session, `load_dataset` and the Chroma client are not modelled; they are oracles or values passed in. The SDK's block objects are modelled as content blocks with optional `to_dict`/`dict`/`model_dump` results. The text of a search result is passed in as a string, since it holds floating-point distances.
- The `contextual_data` history collection is not modelled: its creation and deletion in `mcp_client.py:35-62`, and the `add` of the stringified context with a random id in `cli_chatbot_client.py:145-158`. In the command-line client, the deletion on quit is modelled only as its success or failure.
- The `tool_results` list of the command-line client (`cli_chatbot_client.py:97,110`) is not modelled, because it is never read.
- The second tool listing in `call_llm` for Gemini (`mcp_client.py:207`) is not modelled; the tools already stored are used.
- CliClient.CliChatClient.ConnectToServer: the tool list it keeps stands in for the `list_tools` call that `process_query` makes on every query (`cli_chatbot_client.py:77-85`). The model assumes the server's tools do not change between queries. In the source, `connect_to_server` only prints the tool names (`cli_chatbot_client.py:69-71`).
- Failed model calls: the model oracles (`Orchestrator.Env.llm` and the `model` parameter of the `CliClient` members) always return a reply. An exception raised by `messages.create` or `generate_content` is not modelled. In `mcp_client.py` such an exception is re-raised by `call_llm` (189-243) and `process_query` (184-186); in `cli_chatbot_client.py` it reaches the `except` of `chat_loop` (181). No modelled outcome records a failed model call.
- Calling `process_query` before `connect_to_server` is not modelled. In the source, `self.session` is then `None`.
- `KeyboardInterrupt` and cancellation are not modelled. An `EOFError` at the end of input is caught like any other error, so `chat_loop` is modelled as doing nothing more once the input lines run out.
- Chroma's handling of duplicate ids is not modelled. A collection's count is the number of ids added to it.
- Server.EnterData: a failing Chroma call inside the `try` of `enter_data` (`server.py:139-154`) is not modelled. Such a call is the collection creation in `ChromaDBVectorDatabase(...)` (`chromaDB.py:17-27`), including Chroma's check of the collection name, or an `add` in `store_data` (`chromaDB.py:76-82`). In the source such an exception is caught and answered with `Error occured due to` and its text. If an `add` fails after earlier batches were stored, those batches stay. In the model, creation and `add` always succeed, and the only caught exceptions are the two `KeyError`s.
- The peek, rename, list, delete, query-history and token-count tools of `server.py` are not modelled. They only forward to the Chroma client or the Anthropic SDK.
- Text.Lower maps ASCII letters only. `str.lower` also maps other letters, which matters for no string the model compares.
- PyRepr.StrRepr escapes ASCII control characters. It does not model how `repr` handles non-printable non-ASCII characters.
- Orchestrator.McpClient.RunLoop: the `while True` loop is bounded by `fuel` model calls, and running out of it is a status of its own (`OutOfFuel`).
- CliClient.CliChatClient.ChatLoop: the `while True` loop is bounded by `fuel` rounds. The printed response and the printed error of each query are not modelled. As in the source, an error in one query does not stop the loop.

## Findings

| source | as written | input that shows it | evidently intended | confidence | as-written member | corrected member |
|---|---|---|---|---|---|---|
| rag-backend/cli_chatbot_client.py:113-116 | Every assistant message appended to `message_context` is the same `assistant_message_content` list. Later tool calls keep growing that list, so earlier assistant messages grow too. | A first reply of two `tool_use` blocks `a`, `b`, both tools answering. The second follow-up sends `[q, A[a,b], result a, A[a,b], result b]`, where the first assistant message lists a `tool_use` (`b`) that the next message does not answer. | Each tool call gets an assistant message of its own. It holds the blocks since the previous tool call, ending with this call's `tool_use`, and the list then starts afresh. So every request satisfies the tool-use protocol. | not executed | CliClient.AliasBreaksSecondFollowUp | CliClient.CorrectedQueryKeepsProtocol |
| rag-backend/cli_chatbot_client.py:172-176 | `quit` calls `delete_collection` on a Chroma collection object, which has no such method. The `AttributeError` is caught at line 181, so `break` is never reached. | Any input containing the line `quit`: the loop goes on reading queries. | A quit line deletes the history collection through the client and leaves the loop. | not executed; it rests on the Chroma `Collection` API, which defines no `delete_collection` | CliClient.FailedDeleteNeverLeaves | CliClient.QuitLeavesAtFirstQuit |
