/**
 What the log of a session says against what was said to it: the user's texts, the responses and the outputs of the
 tools. Everything is stated over the event trace and the inputs.
 */
module Transcript {
  import opened Prelude
  import opened Types
  import opened IdGenerator
  import opened Splitting
  import opened WorkingMemories
  import opened OneShot
  import opened CompressedStore
  import opened History
  import opened HistoryLog

  // ---- Projections of the trace.

  /** How many user inputs have been logged. */
  function Inputs(trace: seq<Event>): nat {
    if |trace| == 0 then 0
    else
      var e := trace[|trace| - 1];
      Inputs(trace[..|trace| - 1]) + (if e.MessageCreated? && e.source == UserInput then 1 else 0)
  }

  /** The responses that were announced, in order. */
  function Said(trace: seq<Event>): seq<Response> {
    if |trace| == 0 then []
    else
      var before, e := Said(trace[..|trace| - 1]), trace[|trace| - 1];
      if e.ProviderResponse? then before + [Response(e.content, e.stop)] else before
  }

  /** The replies that were logged, in order. */
  function Replies(trace: seq<Event>): seq<Message> {
    if |trace| == 0 then []
    else
      var before, e := Replies(trace[..|trace| - 1]), trace[|trace| - 1];
      if e.MessageCreated? && e.source == AssistantReply then before + [e.message] else before
  }

  /** How many turns have been announced as complete. */
  function Completions(trace: seq<Event>): nat {
    if |trace| == 0 then 0
    else Completions(trace[..|trace| - 1]) + (if trace[|trace| - 1].TurnComplete? then 1 else 0)
  }

  /** No check has been due yet. */
  predicate NeverDue(trace: seq<Event>) {
    forall i :: 0 <= i < |trace| ==> !(trace[i].CompressCheck? && trace[i].should)
  }

  /** The last message logged is the reply that these results answer, call by call. */
  predicate FollowsCalls(created: seq<Message>, m: Message) {
    && |created| > 0 && created[|created| - 1].role == Assistant && m.content.Blocks?
    && var ids := ToolUseIds(created[|created| - 1]);
       |m.content.blocks| == |ids|
       && forall i :: 0 <= i < |ids| ==> m.content.blocks[i].ToolResult? && m.content.blocks[i].toolUseId == ids[i]
  }

  /** A logged message has the turn of its chat, and the role and the content that its source gave it. */
  predicate MessageTold(front: seq<Event>, m: Message, source: Source, texts: seq<string>) {
    match source
    case UserInput =>
      && m.role == User && m.turn == Some(Inputs(front) + 1)
      && Inputs(front) < |texts| && m.content == Str(texts[Inputs(front)])
    case AssistantReply =>
      && m.role == Assistant && m.turn == Some(Inputs(front))
      && |Said(front)| == |Replies(front)| + 1 && m.content == Blocks(Said(front)[|Said(front)| - 1].content)
    case ToolResultSource =>
      m.role == User && m.turn == Some(Inputs(front)) && FollowsCalls(Created(front), m)
  }

  /** What an event may be after the events before it, in a session that is told `texts`. */
  predicate NextTold(front: seq<Event>, e: Event, texts: seq<string>) {
    match e
    case MessageCreated(m, source) => MessageTold(front, m, source, texts)
    case ProviderResponse(_, _) => |Said(front)| == |Replies(front)|
    case CompressCheck(should, reason) =>
      && (should <==> reason != "") && reason in {"", "turn_count", "token_threshold"}
      && (reason == "turn_count" ==> Inputs(front) >= 11)
    case TurnComplete(n) =>
      && |Said(front)| > 0
      && var r := Said(front)[|Said(front)| - 1]; n == if r.stop == EndTurn then 0 else |ToolUseIdsOf(r.content)|
    case _ => true
  }

  predicate Told(trace: seq<Event>, texts: seq<string>) {
    forall i :: 0 <= i < |trace| ==> NextTold(trace[..i], trace[i], texts)
  }

  /** A trace on which every announced response has been logged and completed. */
  predicate AllLogged(trace: seq<Event>, texts: seq<string>) {
    Told(trace, texts) && |Said(trace)| == |Replies(trace)| == Completions(trace)
  }

  lemma ToldNext(trace: seq<Event>, e: Event, texts: seq<string>)
    requires Told(trace, texts) && NextTold(trace, e, texts)
    ensures Told(trace + [e], texts)
  {
    hide NextTold;
    var t := trace + [e];
    forall i | 0 <= i < |t| ensures NextTold(t[..i], t[i], texts) {
      if i < |trace| {
        assert t[..i] == trace[..i];
      } else {
        assert t[..i] == trace;
      }
    }
  }

  lemma Projected(trace: seq<Event>, e: Event)
    ensures Inputs(trace + [e]) == Inputs(trace) + (if e.MessageCreated? && e.source == UserInput then 1 else 0)
    ensures Said(trace + [e]) == Said(trace) + (if e.ProviderResponse? then [Response(e.content, e.stop)] else [])
    ensures Replies(trace + [e])
         == Replies(trace) + (if e.MessageCreated? && e.source == AssistantReply then [e.message] else [])
    ensures Completions(trace + [e]) == Completions(trace) + (if e.TurnComplete? then 1 else 0)
    ensures NeverDue(trace + [e]) <==> NeverDue(trace) && !(e.CompressCheck? && e.should)
  {
    assert (trace + [e])[..|trace|] == trace;
    assert forall i :: 0 <= i < |trace| ==> (trace + [e])[i] == trace[i];
    assert (trace + [e])[|trace|] == e;
  }

  // ---- The state behind a trace.

  /** The counts of chats that the state keeps, against those in the trace; `open` is 1 inside a chat. */
  predicate Counts(s: State, open: nat) {
    && Inputs(s.trace) == s.userTurn && s.turnsSince + open <= s.userTurn
    && (NeverDue(s.trace) ==> s.turnsSince + s.aborted + open == s.userTurn)
  }

  predicate Faithful(s: State, texts: seq<string>, open: nat) { AllLogged(s.trace, texts) && Counts(s, open) }

  /** Events that log nothing, answer nothing and check nothing. */
  predicate Silent(e: Event) {
    e.CompressionFailed? || e.BatchCreated? || e.ProviderRequest? || e.WorkingMemoryUpdated?
  }

  lemma SilentNext(trace: seq<Event>, e: Event, texts: seq<string>)
    requires AllLogged(trace, texts) && Silent(e)
    ensures AllLogged(trace + [e], texts) && Inputs(trace + [e]) == Inputs(trace)
    ensures NeverDue(trace + [e]) <==> NeverDue(trace)
  {
    Projected(trace, e);
    ToldNext(trace, e, texts);
  }

  // ---- The check.

  /** What the consultation of the strategy changes of all this. */
  lemma ConsultQuiet(
      s: State, strategy: StrategyReply, moved: seq<Message>, kept: seq<Message>, trigger: string, now: DateTime)
    ensures var (s', o) := Consult(s, strategy, moved, kept, trigger, now);
      && s'.userTurn == s.userTurn && !o.Nothing?
      && (s'.trace == s.trace || exists e :: Silent(e) && s'.trace == s.trace + [e])
      && ((s'.turnsSince == s.turnsSince && s'.aborted == s.aborted) || s'.turnsSince == 0)
  {
    if strategy.Fails? {
      assert Silent(CompressionFailed(strategy.reason));
    } else if !strategy.StrategyRaises? {
      var delta := DeltaOf(strategy, moved);
      var orphan := FirstOrphan(delta.members, s.msgCounter);
      if orphan.Some? {
        assert Silent(CompressionFailed("orphan_id:" + orphan.value));
      } else {
        assert Silent(BatchCreated(NewBatch(s, delta, trigger, now)));
      }
    }
  }

  lemma CheckTold(s: State, it: Iteration, texts: seq<string>)
    requires Faithful(s, texts, 1)
    ensures var s1 := Emit(s, CompressCheck(Due(s, it.overBudget), Trigger(s, it.overBudget)));
      && AllLogged(s1.trace, texts) && Inputs(s1.trace) == s1.userTurn
      && (NeverDue(s1.trace) <==> NeverDue(s.trace) && !Due(s, it.overBudget))
  {
    var e := CompressCheck(Due(s, it.overBudget), Trigger(s, it.overBudget));
    Projected(s.trace, e);
    ToldNext(s.trace, e, texts);
  }

  /** After the check: fewer than eleven chats counted, or a check has been due. */
  lemma CompressPhaseTold(s: State, it: Iteration, texts: seq<string>)
    requires Faithful(s, texts, 1)
    ensures Faithful(CompressPhase(s, it).0, texts, 1) && CompressPhase(s, it).0.userTurn == s.userTurn
    ensures NeverDue(CompressPhase(s, it).0.trace) ==>
      CompressPhase(s, it).0.userTurn <= 10 + CompressPhase(s, it).0.aborted
  {
    hide Told, Consult, Split;
    CheckTold(s, it, texts);
    var s1 := Emit(s, CompressCheck(Due(s, it.overBudget), Trigger(s, it.overBudget)));
    if Due(s, it.overBudget) {
      var (moved, kept) := Split(s1.live, KEEP_RECENT_USER_TURNS);
      ConsultQuiet(s1, it.strategy, moved, kept, Trigger(s, it.overBudget), it.now);
      var t := Consult(s1, it.strategy, moved, kept, Trigger(s, it.overBudget), it.now).0.trace;
      if t != s1.trace {
        var e :| Silent(e) && t == s1.trace + [e];
        SilentNext(s1.trace, e, texts);
      }
    }
  }

  // ---- The request and the reply.

  lemma RequestTold(s: State, it: Iteration, texts: seq<string>)
    requires Faithful(s, texts, 1)
    ensures Faithful(RequestPhase(s, it).0, texts, 1) && RequestPhase(s, it).0.userTurn == s.userTurn
  {
    hide Told, MessagesForModel, Sent;
    SilentNext(s.trace, ProviderRequest(MessagesForModel(s)), texts);
  }

  /** A response that is announced and not yet logged. */
  predicate Pending(trace: seq<Event>, r: Response, texts: seq<string>) {
    && Told(trace, texts) && |Said(trace)| == |Replies(trace)| + 1 == Completions(trace) + 1
    && Said(trace)[|Said(trace)| - 1] == r
  }

  lemma AnnouncedTold(trace: seq<Event>, r: Response, texts: seq<string>)
    requires AllLogged(trace, texts)
    ensures Pending(trace + [ProviderResponse(r.content, r.stop)], r, texts)
    ensures Inputs(trace + [ProviderResponse(r.content, r.stop)]) == Inputs(trace)
    ensures NeverDue(trace + [ProviderResponse(r.content, r.stop)]) <==> NeverDue(trace)
  {
    Projected(trace, ProviderResponse(r.content, r.stop));
    ToldNext(trace, ProviderResponse(r.content, r.stop), texts);
  }

  /** The end of a turn: perhaps a snapshot, then its event, then the reply. */
  lemma EndTold(trace: seq<Event>, snapshot: seq<Event>, m: Message, r: Response, texts: seq<string>)
    requires Pending(trace, r, texts) && (r.stop == EndTurn || ToolUseIdsOf(r.content) == [])
    requires snapshot == [] || (|snapshot| == 1 && snapshot[0].WorkingMemoryUpdated?)
    requires m.role == Assistant && m.turn == Some(Inputs(trace)) && m.content == Blocks(r.content)
    ensures var t := trace + snapshot + [TurnComplete(0)] + [MessageCreated(m, AssistantReply)];
      AllLogged(t, texts) && Inputs(t) == Inputs(trace) && (NeverDue(t) <==> NeverDue(trace))
  {
    hide Told;
    var t1 := trace + snapshot;
    if snapshot == [] {
      assert t1 == trace;
    } else {
      assert t1 == trace + [snapshot[0]];
      Projected(trace, snapshot[0]);
      ToldNext(trace, snapshot[0], texts);
    }
    Projected(t1, TurnComplete(0));
    ToldNext(t1, TurnComplete(0), texts);
    Projected(t1 + [TurnComplete(0)], MessageCreated(m, AssistantReply));
    ToldNext(t1 + [TurnComplete(0)], MessageCreated(m, AssistantReply), texts);
  }

  /** A round of tools: the reply, its results and the event. */
  lemma RoundTold(trace: seq<Event>, a: Message, b: Message, r: Response, texts: seq<string>)
    requires Pending(trace, r, texts) && r.stop != EndTurn
    requires a.role == Assistant && a.turn == Some(Inputs(trace)) && a.content == Blocks(r.content)
    requires b.role == User && b.turn == Some(Inputs(trace)) && FollowsCalls([a], b)
    ensures var t := trace + [MessageCreated(a, AssistantReply)] + [MessageCreated(b, ToolResultSource)]
                     + [TurnComplete(|ToolUseIdsOf(r.content)|)];
      AllLogged(t, texts) && Inputs(t) == Inputs(trace) && (NeverDue(t) <==> NeverDue(trace))
  {
    hide Told;
    var t1 := trace + [MessageCreated(a, AssistantReply)];
    Projected(trace, MessageCreated(a, AssistantReply));
    ToldNext(trace, MessageCreated(a, AssistantReply), texts);
    ProjectionsOfEmit(trace, MessageCreated(a, AssistantReply));
    var t2 := t1 + [MessageCreated(b, ToolResultSource)];
    Projected(t1, MessageCreated(b, ToolResultSource));
    ToldNext(t1, MessageCreated(b, ToolResultSource), texts);
    Projected(t2, TurnComplete(|ToolUseIdsOf(r.content)|));
    ToldNext(t2, TurnComplete(|ToolUseIdsOf(r.content)|), texts);
  }

  lemma ResultsFollow(a: Message, b: Message, r: Response, outputs: nat -> ToolOutput)
    requires a.role == Assistant && a.content == Blocks(r.content)
    requires b.content == Blocks(ToolResults(r.content, outputs))
    ensures FollowsCalls([a], b)
  {
    hide ToolUseIdsOf;
  }

  lemma EndOfTurnTold(s: State, it: Iteration, r: Response, texts: seq<string>)
    requires Pending(s.trace, r, texts) && Counts(s, 1) && (r.stop == EndTurn || ToolUseIdsOf(r.content) == [])
    ensures Faithful(EndOfTurn(s, it, r, s.userTurn), texts, 1)
    ensures EndOfTurn(s, it, r, s.userTurn).userTurn == s.userTurn
  {
    hide Pending, AllLogged, NeverDue, Inputs, ToolUseIdsOf;
    var s' := EndOfTurn(s, it, r, s.userTurn);
    var snap := Snapshot(s, it.now);
    var m := NextMessage(s, s.userTurn, Assistant, Blocks(r.content));
    var snapshot := if s.memory.Some? then [WorkingMemoryUpdated(snap.memory.value)] else [];
    assert snap.trace == s.trace + snapshot;
    assert s'.trace == s.trace + snapshot + [TurnComplete(0)] + [MessageCreated(m, AssistantReply)];
    EndTold(s.trace, snapshot, m, r, texts);
  }

  lemma ToolsRanTold(s: State, it: Iteration, r: Response, texts: seq<string>)
    requires Pending(s.trace, r, texts) && Counts(s, 1) && r.stop != EndTurn && ValidIteration(it)
    ensures Faithful(ToolsRan(s, it, r, s.userTurn), texts, 1) && ToolsRan(s, it, r, s.userTurn).userTurn == s.userTurn
  {
    hide Pending, AllLogged, NeverDue, Inputs, ToolUseIdsOf, FollowsCalls, ToolResults, EditMemory;
    var s' := ToolsRan(s, it, r, s.userTurn);
    var a := Message(Some(MsgId(s.msgCounter + 1)), Some(s.userTurn), Assistant, Blocks(r.content));
    var b := Message(Some(MsgId(s.msgCounter + 2)), Some(s.userTurn), User, Blocks(ToolResults(r.content, it.outputs)));
    assert s'.trace == s.trace + [MessageCreated(a, AssistantReply)] + [MessageCreated(b, ToolResultSource)]
                       + [TurnComplete(|ToolUseIdsOf(r.content)|)];
    ResultsFollow(a, b, r, it.outputs);
    RoundTold(s.trace, a, b, r, texts);
  }

  lemma ReplyTold(s: State, it: Iteration, r: Response, texts: seq<string>)
    requires Faithful(s, texts, 1) && ValidIteration(it)
    ensures Faithful(ReplyPhase(s, it, r, s.userTurn).0, texts, 1)
    ensures ReplyPhase(s, it, r, s.userTurn).0.userTurn == s.userTurn
  {
    hide AllLogged, Pending, NeverDue, Inputs, ToolUseIdsOf, EndOfTurn, ToolsRan;
    if r.stop != MaxTokens {
      AnnouncedTold(s.trace, r, texts);
      var s1 := Emit(s, ProviderResponse(r.content, r.stop));
      if r.stop == EndTurn || ToolUseIdsOf(r.content) == [] {
        EndOfTurnTold(s1, it, r, texts);
      } else {
        ToolsRanTold(s1, it, r, texts);
      }
    }
  }

  lemma IterateTold(s: State, it: Iteration, texts: seq<string>)
    requires Faithful(s, texts, 1) && ValidIteration(it)
    ensures Faithful(Iterate(s, it, s.userTurn).0, texts, 1) && Iterate(s, it, s.userTurn).0.userTurn == s.userTurn
  {
    hide Faithful, CompressPhase, RequestPhase, ReplyPhase;
    CompressPhaseTold(s, it, texts);
    var (s1, raised) := CompressPhase(s, it);
    if !raised {
      RequestTold(s1, it, texts);
      var (s2, answer) := RequestPhase(s1, it);
      if answer.Answered? {
        ReplyTold(s2, it, answer.response, texts);
      }
    }
  }

  lemma {:induction false} LoopTold(s: State, its: seq<Iteration>, texts: seq<string>)
    requires Faithful(s, texts, 1) && ValidScript(its)
    ensures Faithful(RunLoop(s, its, s.userTurn).0, texts, 1) && RunLoop(s, its, s.userTurn).0.userTurn == s.userTurn
    decreases |its|
  {
    hide Faithful, Iterate;
    if |its| > 0 {
      IterateTold(s, its[0], texts);
      var (s1, status) := Iterate(s, its[0], s.userTurn);
      if status == Continue {
        LoopTold(s1, its[1..], texts);
      }
    }
  }

  // ---- Chats and runs.

  lemma StartTold(s: State, text: string, texts: seq<string>)
    requires Faithful(s, texts, 0) && s.userTurn < |texts| && texts[s.userTurn] == text
    ensures Faithful(StartChat(s, text), texts, 1) && StartChat(s, text).userTurn == s.userTurn + 1
  {
    hide Told, NeverDue, Inputs, Said, Replies, Completions;
    var e := MessageCreated(NextMessage(s, s.userTurn + 1, User, Str(text)), UserInput);
    Projected(s.trace, e);
    ToldNext(s.trace, e, texts);
  }

  lemma ChatTold(s: State, text: string, its: seq<Iteration>, texts: seq<string>)
    requires Faithful(s, texts, 0) && s.userTurn < |texts| && texts[s.userTurn] == text && ValidScript(its)
    ensures Faithful(Chat(s, text, its), texts, 0) && Chat(s, text, its).userTurn == s.userTurn + 1
  {
    hide AllLogged, NeverDue, Inputs, RunLoop, StartChat;
    StartTold(s, text, texts);
    LoopTold(StartChat(s, text), its, texts);
  }

  /** What the user has said in a run. */
  function TextsOf(steps: seq<Step>): seq<string> {
    if |steps| == 0 then []
    else
      var before, st := TextsOf(steps[..|steps| - 1]), steps[|steps| - 1];
      if st.ChatStep? then before + [st.text] else before
  }

  lemma {:induction false} TextsGrow(steps: seq<Step>, n: nat)
    requires n <= |steps|
    ensures TextsOf(steps[..n]) <= TextsOf(steps)
    ensures n < |steps| && steps[n].ChatStep? ==>
      |TextsOf(steps[..n])| < |TextsOf(steps)| && TextsOf(steps)[|TextsOf(steps[..n])|] == steps[n].text
    ensures n < |steps| && steps[n].ChatStep? ==> |TextsOf(steps[..n + 1])| == |TextsOf(steps[..n])| + 1
    ensures n < |steps| && !steps[n].ChatStep? ==> TextsOf(steps[..n + 1]) == TextsOf(steps[..n])
  {
    if n == |steps| {
      assert steps[..n] == steps;
    } else {
      var front := steps[..|steps| - 1];
      assert front[..n] == steps[..n] && steps[..n + 1][..n] == steps[..n];
      TextsGrow(front, n);
    }
  }

  lemma NewTold(id: string, memory: Option<Memory>, texts: seq<string>)
    ensures Faithful(NewSession(id, memory), texts, 0)
  {
  }

  lemma NoTexts(id: string, memory: Option<Memory>, steps: seq<Step>)
    ensures NewSession(id, memory).userTurn == |TextsOf(steps[..0])|
    ensures Run(NewSession(id, memory), steps[..0]) == NewSession(id, memory)
  {
  }

  lemma ResumeTold(s: State, texts: seq<string>)
    requires Faithful(s, texts, 0)
    ensures Faithful(s.(recalled := {}), texts, 0)
  {
  }

  lemma {:induction false} RunTold(id: string, memory: Option<Memory>, steps: seq<Step>, n: nat)
    requires n <= |steps| && ValidRun(steps[..n])
    ensures Faithful(Run(NewSession(id, memory), steps[..n]), TextsOf(steps), 0)
    ensures Run(NewSession(id, memory), steps[..n]).userTurn == |TextsOf(steps[..n])|
  {
    hide AllLogged, Counts, Chat, NewSession, TextsOf;
    if n == 0 {
      NewTold(id, memory, TextsOf(steps));
      NoTexts(id, memory, steps);
    } else {
      assert steps[..n][..n - 1] == steps[..n - 1];
      RunTold(id, memory, steps, n - 1);
      TextsGrow(steps, n - 1);
      var s, st := Run(NewSession(id, memory), steps[..n - 1]), steps[n - 1];
      if st.ChatStep? {
        ChatTold(s, st.text, st.script, TextsOf(steps));
      } else {
        ResumeTold(s, TextsOf(steps));
      }
    }
  }

  // ---- Every state that a run reaches.

  lemma {:induction false} HeadTold(s: State, its: seq<Iteration>, passes: seq<Pass>, k: nat, texts: seq<string>)
    requires Faithful(s, texts, 1) && PassesThrough(s, its, passes) && k < |passes|
    ensures Faithful(passes[k].head, texts, 1) && passes[k].head.userTurn == s.userTurn
  {
    hide Faithful, Iterate, PassFrom;
    if k > 0 {
      HeadTold(s, its, passes, k - 1, texts);
      assert NextPass(its, passes, s.userTurn, k - 1);
      IterateTold(passes[k - 1].head, its[k - 1], texts);
    }
  }

  /** All responses but perhaps the last one have been logged. */
  predicate AlmostLogged(trace: seq<Event>, texts: seq<string>) {
    Told(trace, texts) && |Replies(trace)| <= |Said(trace)| <= |Replies(trace)| + 1
  }

  lemma PassTold(s: State, it: Iteration, seen: State, texts: seq<string>)
    requires Faithful(s, texts, 1) && Shows(PassFrom(s, it), seen)
    ensures AlmostLogged(seen.trace, texts) && Inputs(seen.trace) == s.userTurn
  {
    hide CompressPhase, RequestPhase, Told, Inputs, NeverDue, Said, Replies, Completions;
    CompressPhaseTold(s, it, texts);
    var (s1, raised) := CompressPhase(s, it);
    if !raised {
      RequestTold(s1, it, texts);
      var (s2, answer) := RequestPhase(s1, it);
      if answer.Answered? {
        AnnouncedTold(s2.trace, answer.response, texts);
      }
    }
  }

  /** Message by message, the replies that were logged are the responses that were announced. */
  lemma {:induction false} RepliesAreSaid(trace: seq<Event>, texts: seq<string>)
    requires Told(trace, texts)
    ensures |Replies(trace)| <= |Said(trace)|
    ensures forall k :: 0 <= k < |Replies(trace)| ==> Replies(trace)[k].content == Blocks(Said(trace)[k].content)
  {
    if |trace| > 0 {
      var front := trace[..|trace| - 1];
      assert NextTold(trace[..|trace| - 1], trace[|trace| - 1], texts);
      forall i | 0 <= i < |front| ensures NextTold(front[..i], front[i], texts) {
        assert front[..i] == trace[..i];
      }
      RepliesAreSaid(front, texts);
    }
  }

  /**
   In every state that a run reaches, the log is what the session was told. Each message has the turn of its chat; a
   user input is that chat's text; a reply is the response announced just before it, and the k-th reply the k-th
   response; results follow the reply whose calls they answer. Between chats no response and no input is missing, and
   each response has been announced as one complete turn.
   */
  lemma {:induction false} LogIsFaithful(id: string, memory: Option<Memory>, steps: seq<Step>, states: seq<State>,
                                         n: nat, passes: seq<Pass>, s: State)
    requires Reached(id, memory, steps, states, n, passes, s)
    ensures Told(s.trace, TextsOf(steps))
    ensures |Replies(s.trace)| <= |Said(s.trace)| <= |Replies(s.trace)| + 1
    ensures forall k :: 0 <= k < |Replies(s.trace)| ==> Replies(s.trace)[k].content == Blocks(Said(s.trace)[k].content)
    ensures |Said(states[n].trace)| == |Replies(states[n].trace)| == Completions(states[n].trace)
    ensures Inputs(states[n].trace) == |TextsOf(steps[..n])|
    ensures Inputs(s.trace) == |TextsOf(steps[..n])| + (if s == states[n] then 0 else 1)
  {
    hide Perform, StartChat, PassFrom, Run, TextsOf, Told, Inputs, NeverDue, Said, Replies;
    RunReaches(id, memory, steps, states, n);
    RunTold(id, memory, steps, n);
    if s != states[n] {
      var s0 := StartChat(states[n], steps[n].text);
      TextsGrow(steps, n);
      StartTold(states[n], steps[n].text, TextsOf(steps));
      var k :| 0 <= k < |passes| && Shows(passes[k], s);
      HeadTold(s0, steps[n].script, passes, k, TextsOf(steps));
      assert NextPass(steps[n].script, passes, s0.userTurn, k);
      PassTold(passes[k].head, steps[n].script[k], s, TextsOf(steps));
    }
    RepliesAreSaid(s.trace, TextsOf(steps));
  }

  /** The check of a pass: due from ten counted chats on, or over budget, and for the first of these reasons. */
  lemma CheckIsTold(s: State, it: Iteration)
    ensures var t := CompressPhase(s, it).0.trace;
      && |t| > |s.trace| && t[..|s.trace|] == s.trace && t[|s.trace|].CompressCheck?
      && (t[|s.trace|].should <==> s.turnsSince >= 10 || it.overBudget)
      && (t[|s.trace|].reason == "turn_count" <==> s.turnsSince >= 10)
      && (t[|s.trace|].reason == "token_threshold" <==> s.turnsSince < 10 && it.overBudget)
  {
    hide Split, FirstOrphan, Validated, PutAll, CompressionEdit;
  }

  /** As long as no check has been due, no request goes out in a chat after ten that have been completed. */
  lemma {:induction false} TenthChatIsLast(
      id: string, memory: Option<Memory>, steps: seq<Step>, states: seq<State>, n: nat, passes: seq<Pass>, k: nat)
    requires RunsThrough(id, memory, steps, states) && n < |steps| && steps[n].ChatStep?
    requires PassesThrough(StartChat(states[n], steps[n].text), steps[n].script, passes) && k < |passes|
    requires passes[k].checked.Some? && NeverDue(passes[k].checked.value.trace)
    ensures Inputs(passes[k].checked.value.trace) <= 10 + passes[k].checked.value.aborted
  {
    hide Perform, StartChat, CompressPhase, Run, TextsOf, Told, NeverDue, Said, Replies, Inputs, Completions;
    RunReaches(id, memory, steps, states, n);
    RunTold(id, memory, steps, n);
    var s0 := StartChat(states[n], steps[n].text);
    TextsGrow(steps, n);
    StartTold(states[n], steps[n].text, TextsOf(steps));
    HeadTold(s0, steps[n].script, passes, k, TextsOf(steps));
    assert NextPass(steps[n].script, passes, s0.userTurn, k);
    CompressPhaseTold(passes[k].head, steps[n].script[k], TextsOf(steps));
  }

  // ---- How a pass goes on, and what its round of tools shows.

  /** The response that a pass has announced. */
  function Announced(p: Pass): Response
    requires p.replied.Some? && |p.replied.value.trace| > 0
    requires p.replied.value.trace[|p.replied.value.trace| - 1].ProviderResponse?
  {
    var e := p.replied.value.trace[|p.replied.value.trace| - 1];
    Response(e.content, e.stop)
  }

  predicate Announces(p: Pass) {
    p.replied.Some? && |p.replied.value.trace| > 0
    && p.replied.value.trace[|p.replied.value.trace| - 1].ProviderResponse?
  }

  lemma PassAnnounces(s: State, it: Iteration)
    ensures PassFrom(s, it).replied.Some? ==> Announces(PassFrom(s, it))
  {
    hide CompressPhase, RequestPhase;
  }

  /** What a round of tools has added to the session of `before` by `after`. */
  ghost predicate RoundShown(before: State, r: Response, it: Iteration, after: State) {
    && |after.live| == |before.live| + 2 && after.live[..|before.live|] == before.live
    && |after.trace| == |before.trace| + 3 && after.trace[..|before.trace|] == before.trace
    && var a, b := after.live[|before.live|], after.live[|before.live| + 1];
    && after.trace[|before.trace|] == MessageCreated(a, AssistantReply)
    && after.trace[|before.trace| + 1] == MessageCreated(b, ToolResultSource)
    && a.role == Assistant && b.role == User && a.turn == b.turn == Some(before.userTurn)
    && a.content == Blocks(r.content) && b.content.Blocks?
    && var ids := ToolUseIdsOf(r.content);
    && |b.content.blocks| == |ids|
    && (forall i :: 0 <= i < |ids| ==>
          b.content.blocks[i] == ToolResult(ids[i], it.outputs(i).output, it.outputs(i).isError))
    && after.freed == it.freed && after.recalled == {}
    && (forall i :: 0 <= i < |it.memoryEdits| ==> ValidInput(it.memoryEdits[i]))
    && after.memory == if before.memory.None? then None
                       else Some(EditMemory(before.memory.value, it.memoryEdits, it.now))
  }

  /** What the end of a turn has added to the session of `before` by `after`. */
  ghost predicate EndShown(before: State, r: Response, after: State) {
    && |after.live| == |before.live| + 1 && after.live[..|before.live|] == before.live
    && var a := after.live[|before.live|];
    && |after.trace| > |before.trace| && after.trace[|after.trace| - 1] == MessageCreated(a, AssistantReply)
    && a.role == Assistant && a.turn == Some(before.userTurn) && a.content == Blocks(r.content)
    && after.freed == before.freed && after.recalled == {}
    && (before.memory.None? <==> after.memory.None?)
    && (before.memory.Some? ==> after.memory.value.version == before.memory.value.version + 1)
  }

  lemma RoundIs(s: State, it: Iteration, r: Response, turn: int)
    requires ValidIteration(it) && r.stop != MaxTokens && turn == s.userTurn
    ensures var (s', status) := ReplyPhase(s, it, r, turn);
      && (status == Continue <==> r.stop != EndTurn && ToolUseIdsOf(r.content) != [])
      && (status == Continue ==> RoundShown(Emit(s, ProviderResponse(r.content, r.stop)), r, it, s'))
      && (status != Continue ==> status == Done && EndShown(Emit(s, ProviderResponse(r.content, r.stop)), r, s'))
  {
    hide ToolUseIdsOf, EditMemory;
  }

  lemma Truncated(s: State, it: Iteration, r: Response, turn: int)
    requires ValidIteration(it) && r.stop == MaxTokens
    ensures ReplyPhase(s, it, r, turn) == (s, Done)
  {
  }

  /**
   The loop goes on after a pass exactly when its response calls tools and does not end the turn; then the reply and
   one message of results have been logged, whose i-th block has the i-th call's id and the i-th tool's output and
   error flag, and no result counts as recalled any more. Otherwise an announced response ends the chat, logged last.
   */
  lemma {:induction false} RoundsShowOutputs(
      id: string, memory: Option<Memory>, steps: seq<Step>, states: seq<State>, n: nat, passes: seq<Pass>, k: nat)
    requires RunsThrough(id, memory, steps, states) && n < |steps| && steps[n].ChatStep?
    requires PassesThrough(StartChat(states[n], steps[n].text), steps[n].script, passes) && k < |passes|
    ensures ValidIteration(steps[n].script[k]) && (passes[k].replied.Some? ==> Announces(passes[k]))
    ensures var status := Iterate(passes[k].head, steps[n].script[k], passes[k].head.userTurn).1;
      status == Continue <==>
        passes[k].replied.Some? && Announced(passes[k]).stop != EndTurn
        && ToolUseIdsOf(Announced(passes[k]).content) != []
    ensures k + 1 < |passes| ==>
      passes[k].replied.Some?
      && RoundShown(passes[k].replied.value, Announced(passes[k]), steps[n].script[k], passes[k + 1].head)
    ensures var (last, status) := Iterate(passes[k].head, steps[n].script[k], passes[k].head.userTurn);
      passes[k].replied.Some? && status != Continue ==>
        status == Done && EndShown(passes[k].replied.value, Announced(passes[k]), last)
  {
    hide Run, Perform, StartChat, CompressPhase, RequestPhase, ReplyPhase, Inv, RoundShown, EndShown, ToolUseIdsOf;
    RunReaches(id, memory, steps, states, n);
    RunKeeps(id, memory, steps[..n]);
    var s0, it := StartChat(states[n], steps[n].text), steps[n].script[k];
    StartChatKeeps(states[n], steps[n].text);
    HeadKeeps(s0, steps[n].script, passes, k);
    assert NextPass(steps[n].script, passes, s0.userTurn, k);
    PassAnnounces(passes[k].head, it);
    var s := passes[k].head;
    CompressPhaseKeeps(s, it);
    var (s1, raised) := CompressPhase(s, it);
    RequestPhaseKeeps(s1, it);
    var (s2, answer) := RequestPhase(s1, it);
    if !raised && answer.Answered? && answer.response.stop != MaxTokens {
      RoundIs(s2, it, answer.response, s.userTurn);
    } else if !raised && answer.Answered? {
      Truncated(s2, it, answer.response, s.userTurn);
    }
  }
}
