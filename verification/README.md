# A model of neoagent

neoagent runs conversations between a user, a language model and tools. Its central promise concerns a session's
history: a chat keeps only a bounded window of recent messages, a compressor moves older turns into a store, the
`recall_turn` tool reads them back, and window and store together are always the whole conversation. This project
models that machine and the components around it, and proves what they promise.

The files, from the centre outwards:

| file | what it models |
|---|---|
| `History.dfy` | one chat as functions on values: the compression check, the request with its hooks, the reply, the tools; runs of chats and resumes, and the states inside a chat |
| `HistoryLog.dfy`, `HistoryWindow.dfy`, `HistoryPairing.dfy`, `HistoryBatches.dfy` | invariants of every run: completeness of the history, the size of the window, pairing of tool calls and results, recallable batches |
| `Transcript.dfy`, `Requests.dfy`, `Recording.dfy`, `MemoryEdits.dfy` | what a run logs, sends, records and edits, against what it was told: the user's texts, the provider's replies, the outputs of the tools, the strategy's answers |
| `Agent.dfy`, `Compressor.dfy`, `Sessions.dfy`, `CompressedStore.dfy`, `IdGenerator.dfy` | the same machine as mutable objects, with the compressed list shared between session and store; each method is proved equal to its function in `History.dfy` |
| `Splitting.dfy`, `OneShot.dfy`, `WorkingMemory.dfy` | the split of a window, the contract on a compressor's answer, the two editors of the working memory |
| `RecallTurn.dfy` | reading messages back |
| `SessionMoves.dfy`, `FailedChat.dfy` | a session move by move, with the file that is saved after every round of tools; what a resume after a failed chat loses |
| `SharedBus.dfy` | several sessions of one agent, interleaved move by move on one event bus, with their saved files |
| `SessionCodec.dfy`, `Resume.dfy` | the JSON form of a session, and saving and resuming as a step of a run |
| `Replay.dfy`, `ReplayOfRun.dfy`, `Rollback.dfy` | rebuilding a session from its event log, also after restarts and after resumes that took chats back |
| `LegacyCompression.dfy` | compression without a strategy |
| `Hooks.dfy`, `ToolExecutor.dfy`, `ToolInputs.dfy`, `ToolRound.dfy` | hook registration and execution; concurrent and serial tool calls under any interleaving; what each tool runs on and what its call comes to; the results as a round of the history |
| `TaskTracker.dfy`, `Workers.dfy`, `WorkerOutcomes.dfy` | the task registry; dispatch, permits, cancellation and nesting of workers; what is announced and recorded of a task |
| `OpenAIStream.dfy`, `StreamCuts.dfy` | streamed against whole responses; the ways a response can be cut up |
| `Grouping.dfy`, `Sorting.dfy` | the two listings by user turn; Python's stable sort |
| `McpClient.dfy` | matching requests and replies |
| `Witnesses.dfy` | inputs on which an expectation fails, one for each condition a theorem of the history or of replay names |
| `Prelude.dfy`, `Types.dfy` | options, filters and maps on sequences; messages, blocks, batches, JSON |

The provider, the compression strategy, the token estimate, hook handlers, tools, permission answers, the transport
and the clock are arbitrary inputs of each step: an `Iteration` of a chat, an `Answer` to a tool call, a `Step` of a
client. Exceptions the code raises or lets through are outcomes of their own (`Aborted`, `Raised`, `Err`, `Lost`).
Where coroutines interleave, a step is the stretch between two awaits and a run is any sequence of steps.

## Where the code and the expectation part

Each condition comes with inputs on its failing side.

- A reply that ends the turn and still carries tool calls is appended without results. Calls stay paired exactly when
  no such reply is accepted (`HistoryPairing.CallsStayPaired`; one such reply: `Witnesses.StrayCallIsUnanswered`).
- A `pre_provider_call` hook that changes only the system text or the tools makes the provider receive the live list
  without the rewriting of freed results; exactly when the list holds such a result does that differ
  (`HistoryPairing.RewritingSurvivesExactlyWhen`; a run in which it does: `Witnesses.HookDropsRewriting`).
- A chat that ends in an exception keeps its user message but is not counted, so each one loosens the window bound by
  one turn until the counter is next reset; the bound is stated with that count (`HistoryWindow.WindowIsBounded`,
  `HistoryWindow.RequestsAreBounded`). After n failed chats a request shows n user turns, for any n
  (`Witnesses.FailedChatsPileUp`).
- The two removals from working memory use the prefixes `id:` and `id: `. They agree on all lists of entries exactly
  when the id is not itself an entry (`WorkingMemories.RemovalsAgreeExactlyWhen`, `WorkingMemories.RemovalsDiffer`).
- Replay restores the turn counter from the log's per-process turn numbers. It gives the largest number of chats that
  one process had, which is the session's exactly when at most one process had any (`ReplayOfRun.RestartsLoseTurns`);
  n chats in n processes come back as turn 1 (`Witnesses.RestartsForgetTurns`).
- Replay keeps in the window those stored messages that no batch lists (`ReplayOfRun.LiveStaysLive`; a run that stores
  messages and lists none: `Witnesses.StoredComesBackLive`).
- The file of a session is written after every round of tools, so a chat that an exception ends has saved the rounds
  it finished. A resume then loses the user's message exactly when the first pass raised, and a batch exactly when the
  pass that raised had recorded one (`FailedChat.ResumeAfterFailedChat`, and between the moves of other sessions
  `FailedChat.AgentResumes`; each case: `Witnesses.MessageIsLost`, `Witnesses.RoundIsSaved`, `Witnesses.BatchIsLost`).
- What a resume takes back stays on the bus, and its message and batch numbers are used again. The session itself is
  where its own moves brought it (`SharedBus.SessionsDoNotInterfere`). Replay keeps the first message under each
  number, counts the members of lost batches as compressed, and takes the highest numbers as counters, so that those
  after them are new (`Rollback.RebuildOfBus`). It finds the session's history exactly when the session has gone as far
  as it ever had and no number was first and last announced with different messages (`Rollback.ReplayFindsHistory`;
  a number used for two messages: `Witnesses.ReusedNumber`).
- A two-message list, and no other, lowers the legacy compressor's failure count without asking the provider
  (`LegacyCompression.ResetWithoutAsking`), and its fallback for an empty middle is unreachable
  (`LegacyCompression.LegacyCompressor.LlmCompress`).
- A delegated context with a message that cannot be built raises before the worker's own error handling: the task is
  announced, never completed, and keeps its cancel handle. A task that has come to rest was completed exactly when its
  context builds or a cancellation came in time, while it waited for its permit or before its failure had left the
  dispatching tool (`Workers.CompletedExactlyWhen`); being completed in every run is the same as having a context that
  builds (`Workers.AlwaysCompletedExactlyWhen`; a run that loses one: `Workers.UnbuildableIsLost`).
- Without a cancellation or a timeout the workers can lock up exactly when there are no permits or workers may spawn
  workers (`Workers.StuckExactlyWhen`).
- A streamed response equals the whole one exactly when the tool indexes are first seen in ascending order, given
  distinct call ids (`OpenAIStream.StreamedExactlyWhen`). Splitting alone never changes it
  (`StreamCuts.SplittingDoesNotMatter`); exchanging the first two calls of any response does
  (`StreamCuts.ExchangingMatters`).
- An MCP reply goes missing exactly when one is read for another request while a reply with its id is still held
  (`McpClient.RepliesAreKept`; two replies under one id: `McpClient.SecondReplyOverwrites`).

## Model

| member | source | states |
|---|---|---|
| HistoryLog.HistoryIsComplete | neoagent/core/loop.py:131-143 | in every state that a run reaches, between chats and at each point inside one, the store followed by the window is every message ever created, in creation order, with ids exactly m1..m(counter), each once, and the batches are those announced |
| HistoryLog.LoopPasses | neoagent/core/loop.py:114-436 | every run of the loop is a sequence of passes up to the one whose outcome is the loop's, so the states of passes, over which the theorems range, are those of all chats |
| Transcript.LogIsFaithful | neoagent/core/loop.py:346-433 | in every state that a run reaches each message has its chat's turn; a user input is that chat's text, a reply the response announced just before it, the k-th reply the k-th response, and results follow the reply whose calls they answer; the turn events count its calls; between chats no response and no input is missing, and each response has been announced as one complete turn |
| Transcript.RoundsShowOutputs | neoagent/core/loop.py:370-433 | the loop goes on exactly after a response that calls tools and does not end the turn; then the reply and one result message have been logged, the i-th block with the i-th call's id and the i-th tool's output and error flag; memory edits and freed results of the tools are taken over, and nothing counts as recalled |
| Transcript.TenthChatIsLast | neoagent/core/compress.py:82-94 | as long as no check has been due, no chat after ten completed ones sends a request; and no check is due by the turn count before the eleventh chat (in `LogIsFaithful`) |
| Transcript.CheckIsTold | neoagent/core/compress.py:82-94 | a check is due from ten counted chats on or over budget, and gives the first of these reasons |
| Requests.LastReplyIsTaken | neoagent/core/loop.py:265-304 | in every pass of every run a second, identical request is made exactly when the first reply was cut short, and what is announced is the post hook's response or else the one to the last request made; without a post hook nothing is announced exactly when both replies were cut short |
| Requests.RequestShowsWindow | neoagent/core/loop.py:196-260 | the announced request shows the window message by message: a freed, unrecalled result by its id, its error flag and a text naming id, tool, size and preview, and everything else as it is |
| Requests.FreedStaysHidden | neoagent/core/loop.py:443-480 | sessions that differ only in what was freed, in the records or in the withheld results themselves, announce the same request |
| Recording.BatchIsTheAnswers | neoagent/core/compress.py:264-316 | a check records exactly one batch or none; it has the session's id, the next number and the check's reason, and its members and summary are those of the answer: for a bundled answer the longest acceptable beginning with every role, preview and turn |
| Recording.BundledAnswersAreRecorded | neoagent/core/compress.py:195-207 | with the bundled strategy every answer to a due check with something to move is recorded |
| Recording.RefusalsAreTold | neoagent/core/compress.py:167-207 | a due check that records nothing leaves the session as it was and announces the strategy's reason or the first orphan; with nothing to move it is quiet and the turn count begins anew |
| Recording.FirstOrphanIs | neoagent/core/compress.py:223-262 | the orphan check names the first member whose id looks like a message's and was never given out, and none exactly when there is none |
| Recording.WindowComesBack | examples/migrate_log_to_session.py:149-151 | when every accepted answer lists all that it moves, any log of the run is rebuilt with the run's own window |
| HistoryLog.ChatKeeps | neoagent/agent.py:286-324 | one chat, with any answers of the outside, keeps the log, id and batch invariants |
| HistoryLog.RunLoopKeeps | neoagent/core/loop.py:114-436 | any number of passes of the loop keeps them |
| HistoryLog.CompressPhaseKeeps | neoagent/core/loop.py:118-143 | a due, skipped, failed, rejected or raising compression keeps them |
| HistoryLog.MoveKeeps | neoagent/v2/compressed_store.py:77-90 | moving a prefix of the window into the store drops nothing as a duplicate and leaves their concatenation unchanged |
| HistoryWindow.WindowIsBounded | neoagent/core/compress.py:90-94 | in every state that a run reaches the window holds at most 5 distinct user turns more, and between chats at most 4 more, than were counted or ended in an exception since the turn counter was last reset |
| HistoryWindow.RequestsAreBounded | neoagent/core/loop.py:196-268 | every request of every run is within that bound, and while no compression has failed shows at most 14 user turns and one for each chat aborted since the last reset |
| HistoryWindow.ExactlyFiveAfterMove | neoagent/core/compress.py:167-221 | a compression that moved anything leaves exactly five distinct user turns |
| HistoryWindow.ChatWindow | neoagent/agent.py:310-316 | one chat keeps the bound between chats |
| HistoryPairing.CallsStayPaired | neoagent/core/loop.py:375-394 | in every state that a run reaches each call of the log is answered by the message right behind it, id by id and in order, and each result stands right behind its call, if and only if no reply appended so far ended its turn with calls; and then the same holds of the window |
| HistoryPairing.RequestsStayPaired | neoagent/core/loop.py:196-268 | in every request of every run, also of one in the middle of a chat, results stand right behind their calls, and all calls are answered if no reply appended so far ended its turn with calls; the same of what the provider received when no hook replaces the messages |
| HistoryPairing.ResultsAnswerCalls | neoagent/core/loop.py:391-391 | the result blocks of a round carry the ids of its calls, in order |
| HistoryPairing.CutBetweenPairs | neoagent/core/compress.py:474-489 | the window left by a split never begins with the results of a call that was moved |
| HistoryPairing.FreedKeepsShape | neoagent/core/loop.py:443-480 | replacing freed results keeps the number of messages, their roles, their call ids and their result ids |
| HistoryPairing.RewritingSurvivesExactlyWhen | neoagent/core/loop.py:242-260 | what is sent is the rewritten list if and only if the hook left everything alone or nothing in the window is freed |
| HistoryBatches.BundledIsNeverOrphaned | neoagent/core/compress.py:195-207 | a delta of the bundled validator never fails the orphan check |
| HistoryBatches.RunBatches | neoagent/core/compress.py:209-221 | every run with the bundled validator keeps: batch members are in the store, and working-memory lists hold entries only |
| HistoryBatches.ReachedBatches | neoagent/core/compress.py:209-221 | the same in every state inside a chat |
| RecallTurn.Execute | neoagent/tools/builtin/recall_turn.py:95-165 | the payload is the lookup of each id in the compressed index overridden by the live one, in request order, and the ids found in neither |
| RecallTurn.RecallIsExact | neoagent/tools/builtin/recall_turn.py:145-160 | in every state that a run reaches, the one in which tools run among them, for any ids, exactly those m1..m(counter) are recalled, in request order, with the message created under that number, and exactly the others are missing |
| RecallTurn.MembersAreRecallable | neoagent/v2/strategies/oneshot_compression.py:284-339 | in every such state, with the bundled validator, asking for the member of any recorded batch gives exactly that message's entry and nothing missing |
| RecallTurn.EntryOfMsgId | neoagent/tools/builtin/recall_turn.py:152-156 | the entry for mK has the id, role and content of the K-th created message |
| RecallTurn.LookupInLog | neoagent/tools/builtin/recall_turn.py:113-136 | the merged index holds an id if and only if the counter covers it |
| Splitting.SplitMessagesForCompression | neoagent/core/compress.py:439-503 | the two loops compute the split function whose properties the lemmas below state |
| Splitting.CollectUserTurns | neoagent/core/compress.py:454-465 | the first loop collects the distinct user turns in order of appearance |
| Splitting.FindSplit | neoagent/core/compress.py:474-489 | the second loop finds the place of the cut |
| Splitting.SplitIsStablePartition | neoagent/core/compress.py:439-503 | the two parts are the selections of one mask: subsequences in order, with nothing lost or duplicated |
| Splitting.RecentTurnsStay | neoagent/core/compress.py:467-501 | a message without a turn, or of one of the kept turns, is never moved |
| Splitting.MovedTurnsAreOlder | neoagent/core/compress.py:474-489 | if turns do not decrease, every moved turn is below every kept numbered turn |
| Splitting.KeptTurnsAreRecent | neoagent/core/compress.py:471-472 | if turns do not decrease and there are more than were asked for, the kept part shows exactly the asked number, the latest ones, and something is moved |
| Splitting.SplitAgainMovesNothing | neoagent/core/compress.py:439-503 | splitting the kept part again moves nothing |
| Splitting.SplitOfNumbered | neoagent/core/compress.py:488-489 | when every message has a turn the two parts are a prefix and the rest |
| Splitting.FewTurnsStay | neoagent/core/compress.py:467-469 | with no more turns than asked for nothing is moved |
| IdGenerator.ParseOfDecimal | neoagent/v2/id_gen.py:29-32 | the decimal text of a number reads back as that number |
| IdGenerator.MsgIdInjective | neoagent/v2/id_gen.py:29-32 | different counters give different message ids |
| IdGenerator.BatchIdInjective | neoagent/v2/id_gen.py:34-37 | different counters give different batch ids |
| IdGenerator.SessionIdGenerator.NextMsgId | neoagent/v2/id_gen.py:29-32 | advances only the message counter, by one, and gives the id of its new value |
| IdGenerator.SessionIdGenerator.NextBatchId | neoagent/v2/id_gen.py:34-37 | the same for batches |
| IdGenerator.SessionIdGenerator.NextDecisionId | neoagent/v2/id_gen.py:39-42 | the same for decisions |
| CompressedStore.InMemoryCompressedMessageStore.BindSession | neoagent/v2/compressed_store.py:71-75 | the session's bucket is the very list given |
| CompressedStore.InMemoryCompressedMessageStore.PutMany | neoagent/v2/compressed_store.py:77-90 | fails exactly for an unbound session; otherwise the shared list grows by the messages whose ids it does not have yet |
| CompressedStore.InMemoryCompressedMessageStore.GetMany | neoagent/v2/compressed_store.py:92-95 | finds exactly the requested ids that the bucket has |
| CompressedStore.InMemoryCompressedMessageStore.ListIds | neoagent/v2/compressed_store.py:97-98 | the ids of the bucket in insertion order |
| CompressedStore.InMemoryCompressedMessageStore.DeleteSession | neoagent/v2/compressed_store.py:100-104 | forgets the bucket and leaves the list alone |
| CompressedStore.IndexOfUnique | neoagent/v2/compressed_store.py:94-94 | an id borne by one message is indexed to that message |
| Compressors.ContextCompressor.ShouldCompress | neoagent/core/compress.py:82-94 | due from ten turns on or over budget, the turn count first |
| Compressors.ContextCompressor.FindOrphanId | neoagent/core/compress.py:223-262 | the first member id of the form mN outside m1..m(counter), and none while nothing is numbered |
| Compressors.ContextCompressor.ApplyDelta | neoagent/core/compress.py:264-327 | the new session state: one batch with the next id, announced, and the memory edited and stamped |
| Compressors.ContextCompressor.CompressWithStrategy | neoagent/core/compress.py:137-221 | the new state of session, shared list and bus, and what the caller is to do, for every answer of the strategy |
| Agents.ApplyFreedToMessages | neoagent/core/loop.py:443-480 | the list with freed, unrecalled results replaced, message by message |
| Agents.QueryLoop.CheckCompression | neoagent/core/loop.py:118-143 | the state after the check, a compression if due, and the in-place replacement of the window |
| Agents.QueryLoop.Request | neoagent/core/loop.py:196-282 | the events, the requests the provider received with and without retry, and the answer after both hooks |
| Agents.QueryLoop.AskProvider | neoagent/core/loop.py:265-285 | the requests the provider received with and without retry, and the answer after the hooks on it |
| Agents.QueryLoop.FinishTurn | neoagent/core/loop.py:305-369 | the state after a turn's last reply: snapshot, events, appended message, cleared recalls |
| Agents.QueryLoop.ToolRound | neoagent/core/loop.py:375-433 | the state after a round of tools: edits, both messages, events, cleared recalls |
| Agents.QueryLoop.Pass | neoagent/core/loop.py:114-433 | one pass of the loop with each of its exits |
| Agents.QueryLoop.Run | neoagent/core/loop.py:60-436 | passes until an exit or the turn limit |
| Agents.NeoAgent.NewSession | neoagent/agent.py:216-222 | an empty session whose compressed list is the store's bucket |
| Agents.NeoAgent.SaveAndResume | neoagent/agent.py:224-242 | a new bound session equal to the old one except for the ids recalled this turn |
| Agents.NeoAgent.Chat | neoagent/agent.py:286-324 | the objects end in the state of the chat function, and the session stays bound |
| SessionMoves.RunIsMoves | neoagent/agent.py:286-324 | every run of whole chats and resumes is a sequence of moves: begin, check, request, answer, finish, and stop or break; it ends in the same state |
| SessionMoves.ChatIsMoves | neoagent/core/loop.py:114-436 | the same for one chat with any script, whatever pass ends it |
| SessionMoves.MovesAreGood | neoagent/core/loop.py:114-436 | whatever the moves, with chats broken off at any of them and with resumes in the middle of chats, the log stays complete and numbered and the window within its bound |
| FailedChat.ChatFile | neoagent/core/loop.py:366-435 | after a chat the file is the session's at the end of its last round of tools, or at its end if no exception ended it, or unchanged when neither came |
| FailedChat.ResumeAfterFailedChat | neoagent/agent.py:306-318 | resuming after a chat that an exception ended: the user's message is lost if and only if the first pass raised, and otherwise no message is; a batch is lost if and only if the pass that raised had recorded one |
| FailedChat.AgentResumes | neoagent/agent.py:224-242 | the same for an agent's resume, with any moves of other sessions in between |
| FailedChat.FileFollows | neoagent/session.py:99-103 | a session and its file follow its own moves, whatever other sessions do in between |
| SharedBus.MoveBehind | neoagent/events.py:268-274 | a move does the same to a session whatever the bus and the provider have seen before |
| SharedBus.SessionsDoNotInterfere | neoagent/agent.py:216-324 | whatever an agent's sessions do, move by move in any order, each is at every moment where its own moves alone would have brought it, those since it was opened or, after a resume, those behind its file; and so is its file |
| SharedBus.EventsAreItsOwn | neoagent/events.py:268-274 | unless a resume or a new session takes announced things back, the events on the shared bus under a session's id are those of its own moves, in order |
| SharedBus.EachHistoryIsComplete | neoagent/agent.py:216-324 | at every moment store and window of each session are its messages m1..m(counter), each once, its window is within its bound, and they are those that the bus announced for it unless announced things were taken back |
| Witnesses.FailedChatsPileUp | neoagent/agent.py:308-316 | after n chats that the provider fails no compression has come due and the last request showed n user turns, for every n |
| Witnesses.StrayCallIsUnanswered | neoagent/core/loop.py:305-369 | a first reply that ends its turn with a call leaves log and window unpaired |
| Witnesses.HookDropsRewriting | neoagent/core/loop.py:242-260 | a run in which the provider does not receive the list that was announced for it |
| Witnesses.StoredComesBackLive | examples/migrate_log_to_session.py:149-151 | a run that stores messages no batch lists, its five chats before having been denied: any log of it is rebuilt with them in the window |
| Witnesses.RestartsForgetTurns | examples/migrate_log_to_session.py:87-88 | a log of n chats in n processes is rebuilt in its first turn, for every n |
| Witnesses.MessageIsLost | neoagent/agent.py:299-311 | a chat whose first pass raises, on any session: the resumed one lacks the user's message |
| Witnesses.RoundIsSaved | neoagent/core/loop.py:435-435 | a round of tools and then a pass that raises: the resumed session has every message |
| Witnesses.BatchIsLost | neoagent/core/compress.py:209-221 | a pass that records a batch and then raises: the resumed session lacks the batch |
| Witnesses.ReusedNumber | examples/migrate_log_to_session.py:91-109 | a message taken back and its number used for another one: replay does not find the session's history |
| WorkingMemories.WorkingMemory.EditByCompression | neoagent/core/compress.py:318-327 | the operations in order and then the stamp; no stamp when one raises |
| WorkingMemories.WorkingMemory.ApplyOperation | neoagent/core/compress.py:401-436 | one operation of a delta, or no change when it raises |
| WorkingMemories.WorkingMemory.ExecuteTool | neoagent/tools/builtin/update_working_memory.py:96-178 | the tool's edit and stamp, or no change at all with an error |
| WorkingMemories.RemovalsAgreeExactlyWhen | neoagent/core/compress.py:434-435 | the two removals agree on every list of entries if and only if the id is not itself an entry |
| WorkingMemories.RemovalsDiffer | neoagent/tools/builtin/update_working_memory.py:155-158 | for an id that is an entry there is a list of entries on which they differ |
| WorkingMemories.EntryPrefix | neoagent/tools/builtin/update_working_memory.py:119-123 | on an entry the prefixes with and without the space match alike, unless the id is an entry |
| MemoryEdits.OperationsAreTold | neoagent/core/compress.py:401-436 | an operation changes its field alone: it replaces a text or a list, adds one item at the end or takes out the items of one id, in order; it raises exactly when it is to remove from a list that holds something else than text |
| MemoryEdits.DeltasAreTold | neoagent/core/compress.py:318-327 | the operations of a delta take effect one by one up to the first that raises; the stamp follows exactly when none does |
| MemoryEdits.InputsAreTold | neoagent/tools/builtin/update_working_memory.py:96-178 | the tool changes the memory exactly when its input has the form that it wants, and then one field and the author's stamp |
| MemoryEdits.InputsInOrder | neoagent/tools/builtin/update_working_memory.py:96-178 | several tool calls take effect one after the other, refused ones not at all |
| MemoryEdits.SnapshotIsTold | neoagent/core/loop.py:313-333 | the snapshot of a turn is one version on, at the turn of its number, announced as it is, and changes no entry |
| OneShot.ValidateAndBuild | neoagent/v2/strategies/oneshot_compression.py:269-427 | the two validation loops leave exactly the validated delta |
| OneShot.DeltaIsWholeOrNothing | neoagent/v2/strategies/oneshot_compression.py:299-427 | the surviving members are the longest valid prefix; the operations survive together if and only if nothing breaks the contract, and otherwise none does |
| OneShot.ValidPrefixIs | neoagent/v2/strategies/oneshot_compression.py:299-339 | there is one valid prefix followed by an invalid member or nothing |
| OneShot.ValidOpsKeepForm | neoagent/v2/strategies/oneshot_compression.py:358-410 | validated operations never raise on lists of entries and leave lists of entries |
| OneShot.ToolKeepsForm | neoagent/tools/builtin/update_working_memory.py:119-168 | an accepted tool edit leaves lists of entries |
| OneShot.EditsKeepForm | neoagent/core/compress.py:264-327 | any interleaving of tool edits and validated deltas leaves lists of entries, and no validated delta raises on them |
| SessionCodec.SessionRoundTrip | neoagent/session.py:260-426 | decoding an encoded session gives back the whole session with only the ids recalled this turn emptied |
| SessionCodec.StateRoundTrip | neoagent/session.py:268-304 | the same for the session state and all its fields |
| SessionCodec.MessagesRoundTrip | neoagent/session.py:185-223 | messages with any mixture of text, calls and results come back, ids and turns set or not |
| SessionCodec.BatchRoundTrip | neoagent/session.py:310-347 | batches come back with their members |
| SessionCodec.MemoryRoundTrip | neoagent/session.py:226-257 | the working memory comes back |
| SessionCodec.PromotedRoundTrip | neoagent/session.py:275-275 | the promoted set comes back from its sorted list |
| SessionCodec.SortedListSorts | neoagent/session.py:275-275 | sorting a set of names lists each once, in ascending order |
| SessionCodec.SavedAgain | neoagent/session.py:95-97 | saving what was loaded gives the same JSON value |
| Resuming.ResumeIsAStep | neoagent/agent.py:224-242 | going through the JSON form is exactly the resume step of a run, for any session |
| Replay.ReplayLog | examples/migrate_log_to_session.py:67-187 | the loop over the log computes the rebuilt session, or fails when no session is named |
| Replay.PickMessages | examples/migrate_log_to_session.py:149-151 | the messages split by membership, each part in first-seen order |
| ReplayOfRun.ReplayRebuildsRun | examples/migrate_log_to_session.py:91-179 | from a log of any state that a run reaches: the run's full message log split by batch membership, its batches, and both counters |
| ReplayOfRun.LiveStaysLive | examples/migrate_log_to_session.py:149-151 | everything really live stays live; the rebuilt window is the real one if and only if every stored message is listed by a batch |
| ReplayOfRun.RestartsLoseTurns | examples/migrate_log_to_session.py:87-88 | for a log that any number of processes wrote one after another the rebuilt turn counter is the largest number of chats of any one process, never more than the session's, and equal to it if and only if at most one process had chats |
| ReplayOfRun.TurnsSinceLastBatch | examples/migrate_log_to_session.py:136-137 | for the log of one process the rebuilt turns since compression are the chats begun after the one that recorded the last batch, or all of them without a batch |
| ReplayOfRun.LastMemoryComesBack | examples/migrate_log_to_session.py:144-145 | the rebuilt memory is the last one announced, if any |
| ReplayOfRun.BatchesAreMigrated | examples/migrate_log_to_session.py:111-135 | each rebuilt batch comes from a record, with its time, the migration's trigger and the session named by then |
| Rollback.RebuildOfBus | examples/migrate_log_to_session.py:91-179 | from what the bus announced for a session, whatever was taken back: the first message under each number, without gaps; live is what no announced batch lists, lost ones included; all announced batches; counters at least the session's, after which the numbers are new |
| Rollback.HighestAreFresh | examples/migrate_log_to_session.py:105-109 | the highest announced numbers reach as far as the session's counters, and the next ones were never used |
| Rollback.SessionIsLatest | neoagent/agent.py:224-242 | for a session opened once, each message of its history, and of its file, is the last one announced under its number |
| Rollback.ReplayFindsHistory | examples/migrate_log_to_session.py:91-109 | for a session opened once replay finds its history if and only if it has gone as far as it ever had and no number was first and last announced with different messages |
| LegacyCompression.SanitizeToolPairs | neoagent/core/compress.py:366-398 | the loops compute the cleaned and padded list whose properties the lemmas state |
| LegacyCompression.SanitizedIsSound | neoagent/core/compress.py:366-398 | call ids and result ids become equal sets, roles alternate, every text and matched block stays in order, and nothing but placeholders is added |
| LegacyCompression.SanitizedTwice | neoagent/core/compress.py:366-398 | doing it twice is doing it once |
| LegacyCompression.LegacyCompressor.TruncateOldest | neoagent/core/compress.py:358-364 | the first message and at most six recent ones, made sound |
| LegacyCompression.LegacyCompressor.LlmCompress | neoagent/core/compress.py:331-356 | asks exactly for three messages or more; the middle is never empty |
| LegacyCompression.LegacyCompressor.Compress | neoagent/core/compress.py:119-133 | the result, the new failure count and the number of requests, for either answer |
| LegacyCompression.CallIsTold | neoagent/core/compress.py:119-133 | up to two messages stay; more come back, up to placeholders and unmatched tool blocks, as the first and the last six, or as the first, a note that ends with the summary and the last six of the others; the failure count rises by one or falls to zero exactly when the provider was asked, or stays, but for two messages |
| LegacyCompression.TruncationKeepsRecent | neoagent/core/compress.py:358-364 | truncation says the first message and the last six of the others |
| LegacyCompression.SummaryKeepsRecent | neoagent/core/compress.py:331-356 | the summary stands in a user's note between the first message and the last six of the others |
| LegacyCompression.CompressedShape | neoagent/core/compress.py:331-364 | at most 15 messages by either route, alternating for inputs of three or more, a plain first message first |
| LegacyCompression.FailuresStayWithin | neoagent/core/compress.py:122-133 | over any sequence of calls the failure count stays within its cap |
| LegacyCompression.OpenBreakerStaysOpen | neoagent/core/compress.py:122-124 | once at the cap it stays there and no later call asks the provider |
| Sorting.StableSortSorts | neoagent/hooks.py:150-150 | a stable sort is an ascending permutation that keeps the order of elements ranked alike |
| Sorting.StableOrderIsUnique | neoagent/hooks.py:150-150 | at most one list has those properties |
| Hooks.HandlersAreSorted | neoagent/hooks.py:143-156 | after any registrations and removals the handlers of a type are those still registered, stably sorted by priority |
| Hooks.LiveIsWhatStands | neoagent/hooks.py:152-156 | still registered means: made by a registration that no later removal of that handler took back |
| Hooks.HookManager.RegisterHook | neoagent/hooks.py:143-150 | the new registry |
| Hooks.HookManager.UnregisterHook | neoagent/hooks.py:152-156 | the new registry |
| Hooks.HookManager.RunPre | neoagent/hooks.py:182-222 | each handler sees the event as those before left it, up to the first deny, which is the result; otherwise all are called and the result conveys the final event |
| Hooks.HookManager.RunPost | neoagent/hooks.py:224-263 | all handlers are called, none denies, and the result conveys the final event |
| Hooks.ExtractModifiedData | neoagent/hooks.py:169-178 | exactly the fields that differ |
| Hooks.DiffRestores | neoagent/hooks.py:160-178 | applying the extracted difference to the original event gives the final event |
| Hooks.FieldOfDiff | neoagent/hooks.py:169-178 | a field taken from the difference, or else from the original, has its final value |
| Hooks.LastWriterWins | neoagent/hooks.py:160-167 | a handler sees in a field what the last handler before it that wrote it put there, or the original value |
| ToolExecution.ResultsAlign | neoagent/tools/executor.py:42-57 | for any interleaving: one result for each call, at its place and under its id, emitted once as the call's last act, and a tool run at most once, on the input that the check just before allowed |
| ToolExecution.PlayIsSound | neoagent/tools/executor.py:69-164 | the same for one call, whatever the checker, the hooks and the tool answer, at every stage |
| ToolInputs.CallIsTold | neoagent/tools/executor.py:69-164 | from the answers alone, everything a call leaves behind: it is announced with its own input; the permission checker is asked about the validated form of that input and, when a hook has changed it and the new one is valid, of the new one; the tool runs exactly when all this is allowed and no hook denies it, once, on the input last asked about; the result is the tool's output, cut and wrapped, or the post hook's, under the tool's error flag, or the words of the first objection |
| ToolInputs.CallsAreTold | neoagent/tools/executor.py:42-57 | the same for every call of an execution, whatever the interleaving |
| ToolExecution.CallsDoNotInterfere | neoagent/tools/executor.py:46-49 | in any interleaving each call goes through what it would go through by itself |
| ToolExecution.SerialCallsComeLast | neoagent/tools/executor.py:53-55 | a serial call acts after all concurrent ones and after every serial one before it |
| ToolExecution.SomeCallMoves | neoagent/tools/executor.py:42-57 | until all calls are done some call can go on |
| ToolExecution.MovesAreBounded | neoagent/tools/executor.py:69-164 | there are at most six moves for each call |
| ToolExecution.RunOne | neoagent/tools/executor.py:69-164 | the result and the notes of the call by itself |
| ToolExecution.Attempt | neoagent/tools/executor.py:82-161 | the result the try block ends with, or the message of the exception that left it |
| ToolExecution.PartitionByConcurrency | neoagent/tools/executor.py:59-67 | the concurrent calls and the others, each with its place, in order |
| ToolExecution.Execute | neoagent/tools/executor.py:42-57 | whatever order the concurrent calls finish in, the i-th result is that of the i-th call |
| ToolRounds.ExecutorMakesARound | neoagent/core/loop.py:375-391 | however the executor interleaves a reply's calls, its results make the one result message the history model assumes: a block for each call, in order and under its id |
| TaskTracking.TaskTracker.Track | neoagent/multi/task.py:120-136 | the new tracker |
| TaskTracking.TaskTracker.SetAsyncioTask | neoagent/multi/task.py:138-143 | the new tracker |
| TaskTracking.TaskTracker.Complete | neoagent/multi/task.py:149-154 | the result recorded and the handle gone |
| TaskTracking.TaskTracker.GetResult | neoagent/multi/task.py:165-168 | the recorded result, if any |
| TaskTracking.TaskTracker.ListActive | neoagent/multi/task.py:170-174 | the tracked ids without a result, in tracking order |
| TaskTracking.TaskTracker.Cleanup | neoagent/multi/task.py:202-223 | the surplus is forgotten and counted |
| TaskTracking.TaskTracker.Cancel | neoagent/multi/task.py:225-245 | has an effect exactly for a tracked, unfinished task with a handle |
| TaskTracking.CleanupDropsOldest | neoagent/multi/task.py:202-223 | the newest results stay, up to the cap and in order; only finished tasks go, and each is older than every result that stays |
| Workers.CompletedOnce | neoagent/multi/tools/delegate_task.py:112-139 | in any interleaving a dispatched task has one dispatch event, and one completion event exactly when it is settled |
| WorkerOutcomes.WordsAreKept | neoagent/multi/tools/delegate_task.py:112-139 | in every run each dispatch event names the worker and the level it came from, each completion event has the status of the last word on its task, what the worker returned or the cancellation that came before it, and the tracker holds that result, the task's instruction and the worker's name |
| Workers.CancellableExactlyWhile | neoagent/multi/task.py:225-245 | a dispatched task can be cancelled if and only if it is not settled, and a settled one has no handle |
| Workers.CompletedExactlyWhen | neoagent/multi/task.py:331-345 | at rest a dispatched task has had its one completion if and only if its context builds or it was cancelled while it waited for a permit or before its failure had left the dispatching tool |
| Workers.AlwaysCompletedExactlyWhen | neoagent/multi/task.py:331-345 | with a permit at all, a task is completed in every run that comes to rest if and only if its context builds |
| Workers.UnbuildableIsLost | neoagent/multi/task.py:331-345 | a context that does not build loses its task: no completion, a handle left, no permit |
| Workers.DepthIsBounded | neoagent/multi/worker.py:127-130 | free permits and running workers make up the limit, and depth stays within max(1, max_depth) |
| Workers.FlatNeverStuck | neoagent/multi/worker.py:127-130 | with max_depth at most one no permit holder waits, and with a permit at all nothing is ever stuck |
| Workers.StuckExactlyWhen | neoagent/multi/tools/spawn_worker.py:83-119 | a stuck state is reachable if and only if there are no permits or max_depth is two or more |
| Workers.Orchestrator.CreateWorkerAgent | neoagent/multi/worker.py:115-130 | the authorised tools that exist, in order, and spawn_worker exactly below the maximum depth |
| Workers.AuthorisedAre | neoagent/multi/worker.py:115-130 | a worker gets exactly the tools that are both authorised and known, and all of them in order when all are known |
| Workers.Orchestrator.Delegate | neoagent/multi/tools/delegate_task.py:63-125 | the dispatch step, or nothing for an unknown worker |
| Workers.Orchestrator.Spawn | neoagent/multi/tools/spawn_worker.py:56-106 | the dispatch step one level deeper, or nothing for a definition that does not parse |
| Workers.Orchestrator.EnterSemaphore | neoagent/multi/tools/delegate_task.py:116-120 | a permit taken, or taken and given back with the task failing |
| Workers.Orchestrator.LeaveSemaphore | neoagent/multi/tools/delegate_task.py:116-120 | the permit given back with the worker's result |
| Workers.Orchestrator.Settle | neoagent/multi/tools/delegate_task.py:122-139 | the completion recorded and announced, with a cancelled result when the dispatching tool was cancelled after its worker ended |
| Workers.Orchestrator.RaiseOut | neoagent/multi/tools/delegate_task.py:122-125 | the exception passes on: the task is lost and keeps its handle |
| OpenAIStream.FragmentationDoesNotMatter | neoagent/providers/openai.py:152-199 | however a response is cut up, with its tool indexes first seen in ascending order, streaming rebuilds what the parser builds |
| OpenAIStream.StreamedExactlyWhen | neoagent/providers/openai.py:152-199 | with distinct call ids it does so if and only if they are first seen in ascending order |
| OpenAIStream.CutsAgree | neoagent/providers/openai.py:159-182 | two cuts of one response that see the indexes in the same order give the same response |
| OpenAIStream.WholeIsACut | neoagent/providers/openai.py:159-182 | one chunk with everything is such a cut |
| StreamCuts.CutUpIsACut | neoagent/providers/openai.py:152-182 | splitting chunks, splitting tool deltas and exchanging neighbouring ones, from the response in one piece, in any number of steps, changes neither the text nor the calls, the finish reason or the usage put together |
| StreamCuts.SplittingDoesNotMatter | neoagent/providers/openai.py:152-199 | however a response is split into pieces that arrive in order, streaming rebuilds what the parser builds |
| StreamCuts.ExchangingMatters | neoagent/providers/openai.py:159-199 | with distinct call ids, exchanging the first two calls of any response makes the streamed one differ |
| OpenAIStream.CreateStreaming | neoagent/providers/openai.py:148-199 | the loop over the chunks builds the streamed response, and the callback is given its text |
| OpenAIStream.ParseResponse | neoagent/providers/openai.py:89-117 | the parsed response |
| OpenAIStream.ParsedTells | neoagent/providers/openai.py:89-117 | the parsed response has the completion's text and its calls in order with their arguments parsed, stops for tools exactly on tool_calls and short exactly on length, and has its usage |
| Grouping.ListingIsStableSort | neoagent/core/prompt.py:219-257 | grouping by turn lists the items as the stable sort by turn does, items without a turn first |
| Grouping.ListingLosesNothing | neoagent/core/prompt.py:219-257 | grouping by turn lists every item exactly once |
| Grouping.LinesAreHeaded | neoagent/core/prompt.py:246-257 | each item stands under the heading of its own turn, the headings are the turns in order, and a group that is closed is closed before the next |
| Grouping.ListingsAgree | neoagent/core/prompt.py:219-257 | the history view and the compressor's prompt list corresponding items in the same order |
| Grouping.RenderRecoverable | neoagent/core/prompt.py:219-257 | the lines of the history view, group by group; their items are the stable sort |
| Grouping.FormatByTurn | neoagent/v2/strategies/oneshot_compression.py:153-210 | the lines of the compressor's prompt, likewise, and the distinct turn numbers |
| McpClient.RepliesAreKept | neoagent/mcp/client.py:39-92 | under any interleaving a returned reply has the caller's id and none is returned twice; none goes missing if and only if none is read for another request while one with its id is held |
| McpClient.DistinctRepliesReachTheirCallers | neoagent/mcp/client.py:39-92 | with distinct reply ids each reply read is held, or returned to exactly the call that asked for it |
| McpClient.SecondReplyOverwrites | neoagent/mcp/client.py:78-92 | two replies under the same other id, read by one waiting call: the first one is gone |
| McpClient.MCPClient.Begin | neoagent/mcp/client.py:58-62 | the next id, and a reply already held under it, which is then no longer held |
| McpClient.MCPClient.Deliver | neoagent/mcp/client.py:73-92 | one message read: skipped, returned or held |
| McpClient.MCPClient.Request | neoagent/mcp/client.py:44-92 | a call by itself returns the first reply with its id and holds the others it read |

## Left out

- Agents.NeoAgent.Chat: the text it returns, the temporary session of a call without one, and `run` with a message list are not modelled; sessions are bound to the store, as `new_session` and `resume` make them, while forks and transient sessions are not.
- HistoryWindow.WindowIsBounded: the count of chats aborted since the turn counter was last reset is a history variable that the code does not keep.
- Agents.QueryLoop.Request: the tuples that the hook's event makes of the message and schema lists, tool schemas, the system text and its sections are not modelled, nor is the repr quoting of a preview in a placeholder.
- Agents.QueryLoop.ToolRound: the save after a round is in `SessionMoves.dfy`; the error raised when the loop has no executor is left out; what tools do to freed results is an input; the map from call ids to tool names and the event for each persisted result are left out here, and tool execution is modelled in `ToolExecutor.dfy`.
- Agents.QueryLoop.FinishTurn: the save at the end of a turn is in `SessionMoves.dfy`; the stored working-memory snapshots are one shared object in the code and are not modelled; nor is memory extraction.
- Compressors.ContextCompressor.ShouldCompress: the token estimate and its threshold are one boolean input.
- Compressors.ContextCompressor.ApplyDelta: the turn range of a batch is always 0 because the loop passes none; one clock reading serves a whole pass.
- OneShot.ValidateAndBuild: prompts, retries and JSON parsing of the compressor's answer are an outcome of the strategy; a member's turn is an integer or absent; ids that are digits outside ASCII are not modelled.
- WorkingMemories.WorkingMemory.ExecuteTool: digits outside ASCII in the entry pattern are not modelled.
- SessionCodec.SessionRoundTrip: points in time are their ISO texts, JSON objects have no key order, and the decoders' behaviour on values of a wrong type is not modelled; file input and output is left out.
- Agents.NeoAgent.SaveAndResume: follows the state of the run; the file that is saved after every round of tools and at the end of a chat, and loading one older than the session, are modelled on values, in `SessionMoves.dfy` and the modules beside it.
- SharedBus.SessionsDoNotInterfere: a move is one step, so other sessions do not announce anything inside a compression, a hook or a round of tools; a cancellation inside a round or inside the end of a turn finds it not begun; chats of one session follow each other, and a session that is opened or resumed again replaces the former object of its id, whose chat goes no further.
- SharedBus.EventsAreItsOwn: each event is filed under the session that emitted it, while in the code some event types carry no session id; the store and the saved files are maps by session id.
- Replay.ReplayLog: the numbers in ids are read as ASCII digits, without the signs and spaces that int() accepts; timestamps that do not parse are left out.
- LegacyCompression.LegacyCompressor.LlmCompress: the summary prompt is not modelled.
- Hooks.HookManager.RunPre: handlers that register or remove handlers during a run, and field values of a wrong type, are not modelled.
- ToolExecution.Execute: the concurrent calls finish in any order but are not interleaved; interleaving at every await is in `ToolExecution.ResultsAlign` and the lemmas beside it. Cancellation of the whole execution is left out.
- ToolExecution.ResultsAlign: every call gets a result object of its own; a tool that returns one shared object for two calls would have its id overwritten by the later one.
- Workers.Orchestrator.Delegate: the messages of a context and how they are built are one flag, whether they build.
- Workers.StuckExactlyWhen: a task timeout counts as a cancellation; fairness among waiters is not modelled.
- Workers.DepthIsBounded: the tools registered for workers are taken not to include dispatching tools.
- TaskTracking.TaskTracker.Complete: token usage, work summaries and error texts of a result are left out, as is the lock.
- OpenAIStream.FragmentationDoesNotMatter: only the first choice of a response is modelled, and token counts are integers; serialising messages for the provider is left out.
- Grouping.RenderRecoverable: the text of a line is left abstract.
- Grouping.FormatByTurn: the text of a line and the hint about the id range are left out.
- McpClient.RepliesAreKept: reply ids are integers, strings or null; a waiter that never re-checks the held replies may wait for ever, and no liveness is claimed.
- Prompt building, tokenizers, deferred tools, memory extraction and retrieval, skills, security scanning, configuration, observability and user interfaces are left out: thin wrappers, constant texts or easy members.
