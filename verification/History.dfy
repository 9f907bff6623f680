/**
 What one chat does to a session, as functions on values: _chat_inner in neoagent/agent.py,
 QueryLoop.run in neoagent/core/loop.py and _compress_with_strategy in
 neoagent/core/compress.py. The provider, the strategy, the token estimate, the hooks and
 the tools answer with arbitrary values, collected in an Iteration.
 */
module History {
  import opened Prelude
  import opened Types
  import opened IdGenerator
  import opened Splitting
  import opened WorkingMemories
  import opened OneShot
  import opened CompressedStore

  const KEEP_RECENT_USER_TURNS := 5
  const TURN_COUNT_TRIGGER := 10

  datatype StopReason = EndTurn | ToolUseStop | MaxTokens | OtherStop(name: string)

  datatype Source = UserInput | AssistantReply | ToolResultSource

  /** The events of the bus that concern a session's history. */
  datatype Event =
    | MessageCreated(message: Message, source: Source)
    | CompressCheck(should: bool, reason: string)
    | CompressionFailed(reason: string)
    | BatchCreated(batch: Batch)
    | ProviderRequest(messages: seq<Message>)
    | ProviderResponse(content: seq<Block>, stop: StopReason)
    | WorkingMemoryUpdated(memory: Memory)
    | TurnComplete(toolCallCount: nat)

  datatype Response = Response(content: seq<Block>, stop: StopReason)

  datatype ProviderReply = Reply(response: Response) | ProviderRaises

  datatype StrategyReply =
    | OneShotAnswer(raw: RawDelta)    // the bundled strategy, any answer of its model
    | CustomAnswer(delta: Delta)      // any other strategy
    | Fails(reason: string)           // CompressionError
    | StrategyRaises                  // any other exception

  /** Outcome of the pre_provider_call hooks; a Modify has changed something. */
  datatype PreHook = Allow | Deny | Modify(messages: Option<seq<Message>>)

  datatype ToolOutput = ToolOutput(output: string, isError: bool)

  /** Everything one pass of the loop is told by the outside. */
  datatype Iteration = Iteration(
    overBudget: bool,
    strategy: StrategyReply,
    preHook: PreHook,
    reply: ProviderReply,
    retry: ProviderReply,
    postHook: Option<Response>,
    outputs: nat -> ToolOutput,                // output of the i-th tool call
    freed: map<string, FreedToolResult>,       // freed results after the tools ran
    memoryEdits: seq<ToolInput>,               // update_working_memory calls among the tools
    now: DateTime)

  predicate ValidIteration(it: Iteration) {
    forall i :: 0 <= i < |it.memoryEdits| ==> ValidInput(it.memoryEdits[i])
  }

  /** A session, the event bus and the provider's received requests. */
  datatype State = State(
    sessionId: string,
    live: seq<Message>,
    compressed: seq<Message>,
    msgCounter: nat,
    batchCounter: nat,
    batches: seq<Batch>,
    turnsSince: nat,
    userTurn: nat,
    memory: Option<Memory>,
    freed: map<string, FreedToolResult>,
    recalled: set<string>,
    trace: seq<Event>,
    received: seq<seq<Message>>,
    aborted: nat)            // chats ended by an exception since turnsSince was reset; the source keeps no such count

  function NewSession(id: string, memory: Option<Memory>): State {
    State(id, [], [], 0, 0, [], 0, 0, memory, map[], {}, [], [], 0)
  }

  function Emit(s: State, e: Event): State { s.(trace := s.trace + [e]) }

  function NextMessage(s: State, turn: int, role: Role, content: Content): Message {
    Message(Some(MsgId(s.msgCounter + 1)), Some(turn), role, content)
  }

  function AppendMessage(s: State, turn: int, role: Role, content: Content, source: Source): State {
    var m := NextMessage(s, turn, role, content);
    s.(msgCounter := s.msgCounter + 1, live := s.live + [m], trace := s.trace + [MessageCreated(m, source)])
  }

  // ---- Compression.

  /** A member id is tracked when it is m1 .. m<counter>. */
  predicate Tracked(id: string, counter: nat) { exists n :: 1 <= n <= counter && MsgId(n) == id }

  predicate LooksLikeMsgId(id: string) { |id| > 0 && id[0] == 'm' && AllDigits(id[1..]) }

  predicate Orphan(id: string, counter: nat) { LooksLikeMsgId(id) && !Tracked(id, counter) }

  function FirstOrphan(members: seq<BatchMember>, counter: nat): Option<string> {
    if |members| == 0 || counter == 0 then None
    else if Orphan(members[0].id, counter) then Some(members[0].id)
    else FirstOrphan(members[1..], counter)
  }

  function DeltaOf(reply: StrategyReply, shown: seq<Message>): Delta
    requires reply.OneShotAnswer? || reply.CustomAnswer?
  {
    if reply.OneShotAnswer? then Validated(reply.raw, shown) else reply.delta
  }

  function NewBatch(s: State, delta: Delta, trigger: string, now: DateTime): Batch {
    Batch(s.sessionId, BatchId(s.batchCounter + 1), 0, 0, now, now, delta.summary, delta.members, trigger, now)
  }

  /** The batch half of _apply_delta. */
  function RecordBatch(s: State, delta: Delta, trigger: string, now: DateTime): State {
    var b := NewBatch(s, delta, trigger, now);
    s.(batchCounter := s.batchCounter + 1, batches := s.batches + [b], trace := s.trace + [BatchCreated(b)])
  }

  /** The working-memory half of _apply_delta. */
  function EditByDelta(s: State, ops: seq<Op>, now: DateTime): (State, bool) {
    if s.memory.None? then (s, false)
    else
      var (m, raised) := CompressionEdit(s.memory.value, ops, now);
      (s.(memory := Some(m)), raised)
  }

  /** _apply_delta; the flag tells whether a memory operation raised. */
  function ApplyDelta(s: State, delta: Delta, trigger: string, now: DateTime): (State, bool) {
    EditByDelta(RecordBatch(s, delta, trigger, now), delta.ops, now)
  }

  datatype CompressOutcome = Replace(messages: seq<Message>) | Nothing | Raised

  /** Applying an accepted delta and moving the messages. */
  function Accept(s: State, delta: Delta, moved: seq<Message>, kept: seq<Message>, trigger: string, now: DateTime)
    : (State, CompressOutcome)
  {
    var (s1, raised) := ApplyDelta(s, delta, trigger, now);
    if raised then (s1, Raised)
    else (s1.(compressed := PutAll(s1.compressed, moved), turnsSince := 0, aborted := 0), Replace(kept))
  }

  /** The orphan check on a delta, then its application. */
  function Judge(s: State, delta: Delta, moved: seq<Message>, kept: seq<Message>, trigger: string, now: DateTime)
    : (State, CompressOutcome)
  {
    var orphan := FirstOrphan(delta.members, s.msgCounter);
    if orphan.Some? then (Emit(s, CompressionFailed("orphan_id:" + orphan.value)), Replace(s.live))
    else Accept(s, delta, moved, kept, trigger, now)
  }

  function Consult(
      s: State, strategy: StrategyReply, moved: seq<Message>, kept: seq<Message>, trigger: string, now: DateTime)
    : (State, CompressOutcome)
  {
    match strategy
    case Fails(reason) => (Emit(s, CompressionFailed(reason)), Replace(s.live))
    case StrategyRaises => (s, Raised)
    case _ => Judge(s, DeltaOf(strategy, moved), moved, kept, trigger, now)
  }

  /** The body of _compress_with_strategy; the caller replaces the live list. */
  function Compress(s: State, strategy: StrategyReply, trigger: string, now: DateTime): (State, CompressOutcome) {
    var (moved, kept) := Split(s.live, KEEP_RECENT_USER_TURNS);
    if moved == [] then (s, Nothing) else Consult(s, strategy, moved, kept, trigger, now)
  }

  function Due(s: State, overBudget: bool): bool { s.turnsSince >= TURN_COUNT_TRIGGER || overBudget }

  function Trigger(s: State, overBudget: bool): string {
    if s.turnsSince >= TURN_COUNT_TRIGGER then "turn_count" else if overBudget then "token_threshold" else ""
  }

  /** What the loop does with the outcome of a compression. */
  function Settle(result: (State, CompressOutcome)): (State, bool) {
    match result.1
    case Nothing => (result.0.(turnsSince := 0, aborted := 0), false)
    case Replace(ms) => (result.0.(live := ms), false)
    case Raised => (result.0, true)
  }

  /** The compression check at the head of a pass; the flag tells whether it raised. */
  function CompressPhase(s: State, it: Iteration): (State, bool) {
    var due := Due(s, it.overBudget);
    var s1 := Emit(s, CompressCheck(due, Trigger(s, it.overBudget)));
    if !due then (s1, false)
    else Settle(Compress(s1, it.strategy, Trigger(s, it.overBudget), it.now))
  }

  // ---- The request.

  /** The text that stands in for a freed result; repr quoting of the preview is not modelled. */
  function Placeholder(info: FreedToolResult): string {
    "[freed: tool_use_id=" + info.id + ", tool=" + info.toolName + ", size=" + Decimal(info.size)
    + "B, preview=" + info.preview + "]"
  }

  predicate IsFreed(b: Block, freed: map<string, FreedToolResult>, recalled: set<string>) {
    b.ToolResult? && b.toolUseId in freed && b.toolUseId !in recalled
  }

  function FreedBlock(b: Block, freed: map<string, FreedToolResult>, recalled: set<string>): Block {
    if IsFreed(b, freed, recalled) then b.(content := Placeholder(freed[b.toolUseId])) else b
  }

  /** A message with freed results loses its id and turn in the copy that is sent. */
  function FreedMessage(m: Message, freed: map<string, FreedToolResult>, recalled: set<string>): Message {
    if m.content.Blocks? && exists i :: 0 <= i < |m.content.blocks| && IsFreed(m.content.blocks[i], freed, recalled)
    then Message(None, None, m.role, Blocks(Map(m.content.blocks, b => FreedBlock(b, freed, recalled))))
    else m
  }

  function ApplyFreed(ms: seq<Message>, freed: map<string, FreedToolResult>, recalled: set<string>): seq<Message> {
    Map(ms, m => FreedMessage(m, freed, recalled))
  }

  function MessagesForModel(s: State): seq<Message> {
    if s.freed == map[] then s.live else ApplyFreed(s.live, s.freed, s.recalled)
  }

  /** What provider.create receives: a hook that changes something else falls back to the raw live list. */
  function Sent(s: State, hook: PreHook): seq<Message> {
    match hook
    case Modify(Some(ms)) => ms
    case Modify(None) => s.live
    case _ => MessagesForModel(s)
  }

  datatype Answer = Answered(response: Response) | Denied | AnswerRaised

  /** The call of the provider, its retry after a truncated reply, and the hooks on the reply. */
  function Ask(s: State, it: Iteration, sent: seq<Message>): (State, Answer) {
    var s1 := s.(received := s.received + [sent]);
    if it.reply.ProviderRaises? then (s1, AnswerRaised)
    else if it.reply.response.stop != MaxTokens then
      (s1, Answered(if it.postHook.Some? then it.postHook.value else it.reply.response))
    else
      var s2 := s1.(received := s1.received + [sent]);
      if it.retry.ProviderRaises? then (s2, AnswerRaised)
      else if it.retry.response.stop != MaxTokens && it.postHook.Some? then (s2, Answered(it.postHook.value))
      else (s2, Answered(it.retry.response))
  }

  function RequestPhase(s: State, it: Iteration): (State, Answer) {
    var s1 := Emit(s, ProviderRequest(MessagesForModel(s)));
    if it.preHook.Deny? then (s1, Denied) else Ask(s1, it, Sent(s, it.preHook))
  }

  // ---- The reply.

  function ToolResults(content: seq<Block>, outputs: nat -> ToolOutput): seq<Block> {
    var ids := ToolUseIdsOf(content);
    seq(|ids|, i requires 0 <= i < |ids| => ToolResult(ids[i], outputs(i).output, outputs(i).isError))
  }

  /** The snapshot an end-of-turn takes of the working memory. */
  function Snapshot(s: State, now: DateTime): State {
    if s.memory.None? then s
    else
      var v := s.memory.value.version + 1;
      var m := s.memory.value.(version := v, atTurn := v, updatedAt := now);
      Emit(s.(memory := Some(m)), WorkingMemoryUpdated(m))
  }

  datatype Status = Continue | Done | Aborted

  function EndOfTurn(s: State, it: Iteration, r: Response, turn: int): State {
    var s1 := Emit(Snapshot(s, it.now), TurnComplete(0));
    AppendMessage(s1, turn, Assistant, Blocks(r.content), AssistantReply).(recalled := {})
  }

  /** What the tools of one reply do to the session besides their output. */
  function ToolEffects(s: State, it: Iteration): State
    requires ValidIteration(it)
  {
    var memory := if s.memory.None? then None else Some(EditMemory(s.memory.value, it.memoryEdits, it.now));
    s.(freed := it.freed, memory := memory)
  }

  function ToolsRan(s: State, it: Iteration, r: Response, turn: int): State
    requires ValidIteration(it)
  {
    var s1 := AppendMessage(ToolEffects(s, it), turn, Assistant, Blocks(r.content), AssistantReply);
    var s2 := AppendMessage(s1, turn, User, Blocks(ToolResults(r.content, it.outputs)), ToolResultSource);
    Emit(s2, TurnComplete(|ToolUseIdsOf(r.content)|)).(recalled := {})
  }

  function ReplyPhase(s: State, it: Iteration, r: Response, turn: int): (State, Status)
    requires ValidIteration(it)
  {
    if r.stop == MaxTokens then (s, Done)
    else
      var s1 := Emit(s, ProviderResponse(r.content, r.stop));
      if r.stop == EndTurn || ToolUseIdsOf(r.content) == [] then (EndOfTurn(s1, it, r, turn), Done)
      else (ToolsRan(s1, it, r, turn), Continue)
  }

  /** One pass of the loop. */
  function Iterate(s: State, it: Iteration, turn: int): (State, Status)
    requires ValidIteration(it)
  {
    var (s1, raised) := CompressPhase(s, it);
    if raised then (s1, Aborted)
    else
      var (s2, answer) := RequestPhase(s1, it);
      match answer
      case AnswerRaised => (s2, Aborted)
      case Denied => (s2, Done)
      case Answered(r) => ReplyPhase(s2, it, r, turn)
  }

  predicate ValidScript(its: seq<Iteration>) { forall i :: 0 <= i < |its| ==> ValidIteration(its[i]) }

  /** QueryLoop.run; the script's length is max_turns. */
  function RunLoop(s: State, its: seq<Iteration>, turn: int): (State, Status)
    requires ValidScript(its)
    decreases |its|
  {
    if |its| == 0 then (s, Done)
    else
      var (s1, status) := Iterate(s, its[0], turn);
      if status == Continue then RunLoop(s1, its[1..], turn) else (s1, status)
  }

  function StartChat(s: State, text: string): State {
    AppendMessage(s.(userTurn := s.userTurn + 1), s.userTurn + 1, User, Str(text), UserInput)
  }

  /** An exception leaves the turn uncounted. */
  function CountChat(s: State, completed: bool): State {
    if completed then s.(turnsSince := s.turnsSince + 1) else s.(aborted := s.aborted + 1)
  }

  /** NeoAgent.chat on a session. */
  function Chat(s: State, text: string, its: seq<Iteration>): State
    requires ValidScript(its)
  {
    var s1 := StartChat(s, text);
    var (s2, status) := RunLoop(s1, its, s1.userTurn);
    CountChat(s2, status != Aborted)
  }

  // ---- Runs.

  datatype Step =
    | ChatStep(text: string, script: seq<Iteration>)
    | SaveAndResume                       // save the session, load it back and bind the store again

  predicate ValidStep(st: Step) { st.ChatStep? ==> ValidScript(st.script) }

  function Perform(s: State, st: Step): State
    requires ValidStep(st)
  {
    match st
    case ChatStep(text, script) => Chat(s, text, script)
    case SaveAndResume => s.(recalled := {})
  }

  predicate ValidRun(steps: seq<Step>) { forall i :: 0 <= i < |steps| ==> ValidStep(steps[i]) }

  function Run(s: State, steps: seq<Step>): State
    requires ValidRun(steps)
  {
    if |steps| == 0 then s else Perform(Run(s, steps[..|steps| - 1]), steps[|steps| - 1])
  }

  ghost predicate NextState(steps: seq<Step>, states: seq<State>, i: nat)
    requires i < |steps| && |states| == |steps| + 1
  {
    ValidStep(steps[i]) && states[i + 1] == Perform(states[i], steps[i])
  }

  /** The states a new session goes through, from the first to the one after the last step. */
  ghost predicate RunsThrough(id: string, memory: Option<Memory>, steps: seq<Step>, states: seq<State>) {
    && |states| == |steps| + 1 && states[0] == NewSession(id, memory)
    && forall i :: 0 <= i < |steps| ==> NextState(steps, states, i)
  }

  lemma {:induction false} RunReaches(id: string, memory: Option<Memory>, steps: seq<Step>, states: seq<State>, i: nat)
    requires RunsThrough(id, memory, steps, states) && i <= |steps|
    ensures ValidRun(steps[..i]) && states[i] == Run(NewSession(id, memory), steps[..i])
  {
    hide Perform;
    if i > 0 {
      RunReaches(id, memory, steps, states, i - 1);
      assert steps[..i][..i - 1] == steps[..i - 1];
      assert NextState(steps, states, i - 1);
    }
  }

  // ---- Inside a chat.

  /**
   The states of one pass at which the loop waits for others: at its head, after the compression check, while the
   provider has the request, and once the response is announced, which is where the tools run.
   */
  datatype Pass = Pass(head: State, checked: Option<State>, requested: Option<State>, replied: Option<State>)

  function CheckedState(s: State, it: Iteration): Option<State> {
    var (s1, raised) := CompressPhase(s, it);
    if raised then None else Some(s1)
  }

  function RequestedState(s: State, it: Iteration): Option<State> {
    var s1 :- CheckedState(s, it);
    Some(RequestPhase(s1, it).0)
  }

  function RepliedState(s: State, it: Iteration): Option<State> {
    var s1 :- CheckedState(s, it);
    var (s2, answer) := RequestPhase(s1, it);
    if !answer.Answered? || answer.response.stop == MaxTokens then None
    else Some(Emit(s2, ProviderResponse(answer.response.content, answer.response.stop)))
  }

  function PassFrom(s: State, it: Iteration): Pass {
    Pass(s, CheckedState(s, it), RequestedState(s, it), RepliedState(s, it))
  }

  ghost predicate NextPass(its: seq<Iteration>, passes: seq<Pass>, turn: int, i: nat)
    requires i < |passes| <= |its|
  {
    && ValidIteration(its[i]) && passes[i] == PassFrom(passes[i].head, its[i])
    && (i + 1 < |passes| ==> Iterate(passes[i].head, its[i], turn) == (passes[i + 1].head, Continue))
  }

  /** The passes that a loop entered in `s` goes through. */
  ghost predicate PassesThrough(s: State, its: seq<Iteration>, passes: seq<Pass>) {
    && |passes| <= |its| && (|passes| > 0 ==> passes[0].head == s)
    && forall i :: 0 <= i < |passes| ==> NextPass(its, passes, s.userTurn, i)
  }

  /** `s` is one of the states of the pass. */
  predicate Shows(p: Pass, s: State) {
    s == p.head || Some(s) == p.checked || Some(s) == p.requested || Some(s) == p.replied
  }

  ghost predicate ShownInChat(before: State, st: Step, passes: seq<Pass>, s: State) {
    && st.ChatStep? && PassesThrough(StartChat(before, st.text), st.script, passes)
    && exists k :: 0 <= k < |passes| && Shows(passes[k], s)
  }

  /** A run is in state `s` after its first n steps, or inside the chat that is the next one. */
  ghost predicate Reached(id: string, memory: Option<Memory>, steps: seq<Step>, states: seq<State>, n: nat,
                          passes: seq<Pass>, s: State)
  {
    && RunsThrough(id, memory, steps, states) && n <= |steps|
    && (s == states[n] || (n < |steps| && ShownInChat(states[n], steps[n], passes, s)))
  }

  // ---- What the event trace says.

  /** Every message ever created, in creation order. */
  function Created(trace: seq<Event>): seq<Message> {
    if |trace| == 0 then []
    else
      var rest := Created(trace[..|trace| - 1]);
      var e := trace[|trace| - 1];
      if e.MessageCreated? then rest + [e.message] else rest
  }

  /** Every batch ever recorded, in order. */
  function BatchesIn(trace: seq<Event>): seq<Batch> {
    if |trace| == 0 then []
    else
      var rest := BatchesIn(trace[..|trace| - 1]);
      var e := trace[|trace| - 1];
      if e.BatchCreated? then rest + [e.batch] else rest
  }

  lemma ProjectionsOfEmit(trace: seq<Event>, e: Event)
    ensures Created(trace + [e]) == Created(trace) + (if e.MessageCreated? then [e.message] else [])
    ensures BatchesIn(trace + [e]) == BatchesIn(trace) + (if e.BatchCreated? then [e.batch] else [])
  {
    assert (trace + [e])[..|trace|] == trace;
  }
}
