/** Tool calls and their results stay together, in the log, in the window and in every request. */
module HistoryPairing {
  import opened Prelude
  import opened Types
  import opened IdGenerator
  import opened Splitting
  import opened WorkingMemories
  import opened History
  import opened HistoryLog

  /** If message i calls tools, message i + 1 is the user message with their results, same ids, same order. */
  predicate Answered(ms: seq<Message>, i: nat)
    requires i < |ms|
  {
    ms[i].role == Assistant && ToolUseIds(ms[i]) != [] ==>
      i + 1 < |ms| && ms[i + 1].role == User && ResultIds(ms[i + 1]) == ToolUseIds(ms[i])
  }

  /** If message i carries tool results, message i - 1 is the assistant message that asked for them. */
  predicate Asked(ms: seq<Message>, i: nat)
    requires i < |ms|
  {
    ms[i].role == User && ResultIds(ms[i]) != [] ==>
      i > 0 && ms[i - 1].role == Assistant && ToolUseIds(ms[i - 1]) == ResultIds(ms[i])
  }

  predicate AllAnswered(ms: seq<Message>) { forall i :: 0 <= i < |ms| ==> Answered(ms, i) }

  predicate AllAsked(ms: seq<Message>) { forall i :: 0 <= i < |ms| ==> Asked(ms, i) }

  predicate Paired(ms: seq<Message>) { AllAnswered(ms) && AllAsked(ms) }

  /** An answer that ends the turn while it calls tools. */
  predicate CallsAtEnd(e: Event) { e.ProviderResponse? && e.stop == EndTurn && ToolUseIdsOf(e.content) != [] }

  predicate Clean(trace: seq<Event>) { forall i :: 0 <= i < |trace| ==> !CallsAtEnd(trace[i]) }

  /** The last event announces such an answer, which is not appended yet. */
  predicate Pending(trace: seq<Event>) { |trace| > 0 && CallsAtEnd(trace[|trace| - 1]) }

  /** The trace up to the last answer that has been appended. */
  function Appended(trace: seq<Event>): seq<Event> { if Pending(trace) then trace[..|trace| - 1] else trace }

  /** Results carry the turn of the call they answer. */
  predicate SameTurns(ms: seq<Message>) {
    forall i :: 0 <= i < |ms| && ms[i].role == User && ResultIds(ms[i]) != [] && i > 0 ==> ms[i - 1].turn == ms[i].turn
  }

  predicate HeadIsNoResult(ms: seq<Message>) { ms != [] ==> !(ms[0].role == User && ResultIds(ms[0]) != []) }

  predicate GoodRequest(ms: seq<Message>, clean: bool) { AllAsked(ms) && (clean ==> AllAnswered(ms)) }

  predicate RequestsGood(trace: seq<Event>, clean: bool) {
    forall i :: 0 <= i < |trace| && trace[i].ProviderRequest? ==> GoodRequest(trace[i].messages, clean)
  }

  predicate ReceivedGood(received: seq<seq<Message>>, clean: bool) {
    forall i :: 0 <= i < |received| ==> GoodRequest(received[i], clean)
  }

  /** `plain` says that no hook replaces the messages. */
  predicate PairInv(s: State, plain: bool) {
    var log := Created(s.trace);
    && Inv(s)
    && (Clean(s.trace) <==> AllAnswered(log))
    && AllAsked(log) && SameTurns(log) && HeadIsNoResult(s.live)
    && RequestsGood(s.trace, Clean(s.trace))
    && (plain ==> ReceivedGood(s.received, Clean(s.trace)))
    && !Pending(s.trace)
  }

  // ---- Appending to the log.

  lemma AskedAppend(log: seq<Message>, m: Message)
    requires AllAsked(log) && (m.role == Assistant || ResultIds(m) == [])
    ensures AllAsked(log + [m])
    ensures SameTurns(log) ==> SameTurns(log + [m])
  {
    var l := log + [m];
    forall i | 0 <= i < |l| ensures Asked(l, i) {
      if i < |log| {
        assert Asked(log, i);
      }
    }
  }

  /** A message that answers nothing leaves the log answered exactly when it was and it calls nothing itself. */
  lemma AnsweredAppend(log: seq<Message>, m: Message)
    requires m.role == Assistant || ResultIds(m) == []
    ensures AllAnswered(log + [m]) <==> AllAnswered(log) && (m.role == User || ToolUseIds(m) == [])
  {
    var l := log + [m];
    if AllAnswered(l) {
      assert Answered(l, |log|);
      forall i | 0 <= i < |log| ensures Answered(log, i) {
        assert Answered(l, i);
      }
    } else {
      var i :| 0 <= i < |l| && !Answered(l, i);
      if i < |log| {
        assert !Answered(log, i);
      }
    }
  }

  /** A call followed by its results leaves the log as answered as it was. */
  lemma RoundAppend(log: seq<Message>, a: Message, r: Message)
    requires AllAsked(log) && SameTurns(log)
    requires a.role == Assistant && r.role == User && ResultIds(r) == ToolUseIds(a) != [] && a.turn == r.turn
    ensures AllAnswered(log + [a] + [r]) <==> AllAnswered(log)
    ensures AllAsked(log + [a] + [r]) && SameTurns(log + [a] + [r])
  {
    var l := log + [a];
    var k := l + [r];
    AskedAppend(log, a);
    assert SameTurns(k);
    forall i | 0 <= i < |k| ensures Asked(k, i) {
      if i < |l| {
        assert Asked(l, i);
      }
    }
    if AllAnswered(k) {
      forall i | 0 <= i < |log| ensures Answered(log, i) {
        assert Answered(k, i);
      }
    } else {
      var i :| 0 <= i < |k| && !Answered(k, i);
      assert i < |log|;
      assert !Answered(log, i);
    }
  }

  lemma {:induction false} ResultsAnswerCalls(content: seq<Block>, outputs: nat -> ToolOutput)
    ensures ResultIdsOf(ToolResults(content, outputs)) == ToolUseIdsOf(content)
  {
    var blocks := ToolResults(content, outputs);
    FilterAll(blocks, (b: Block) => b.ToolResult?);
  }

  // ---- The trace.

  predicate Neutral(e: Event) { !e.MessageCreated? && !e.ProviderRequest? && !e.ProviderResponse? }

  lemma CleanOfEmit(trace: seq<Event>, e: Event)
    ensures Clean(trace + [e]) <==> Clean(trace) && !CallsAtEnd(e)
  {
    assert forall i :: 0 <= i < |trace| ==> (trace + [e])[i] == trace[i];
    assert (trace + [e])[|trace|] == e;
  }

  lemma RequestsOfEmit(trace: seq<Event>, e: Event, clean: bool)
    requires RequestsGood(trace, clean)
    requires e.ProviderRequest? ==> GoodRequest(e.messages, clean)
    ensures RequestsGood(trace + [e], clean)
  {
  }

  lemma EmitKeepsPairs(s: State, e: Event, plain: bool)
    requires PairInv(s, plain) && Neutral(e) && !e.BatchCreated?
    ensures PairInv(Emit(s, e), plain)
  {
    EmitKeeps(s, e);
    ProjectionsOfEmit(s.trace, e);
    CleanOfEmit(s.trace, e);
    RequestsOfEmit(s.trace, e, Clean(s.trace));
  }

  // ---- The window.

  lemma LiveIsSuffix(s: State)
    requires LogInv(s)
    ensures s.live == Created(s.trace)[|s.compressed|..]
  {
    assert Created(s.trace)[|s.compressed|..] == s.live;
  }

  /** A window that does not begin with results is paired as far as the log is. */
  lemma SuffixIsGood(log: seq<Message>, n: nat, clean: bool)
    requires n <= |log| && AllAsked(log) && (clean ==> AllAnswered(log)) && HeadIsNoResult(log[n..])
    ensures GoodRequest(log[n..], clean)
  {
    var ms := log[n..];
    forall i | 0 <= i < |ms| ensures Asked(ms, i) {
      assert Asked(log, n + i);
    }
    if clean {
      forall i | 0 <= i < |ms| ensures Answered(ms, i) {
        assert Answered(log, n + i);
      }
    }
  }

  /** The cut falls between turns, so it never separates a call from its results. */
  lemma CutBetweenTurns(ms: seq<Message>, keep: nat)
    requires SameTurns(ms) && SplitIndex(ms, keep) > 0
    ensures HeadIsNoResult(ms[SplitIndex(ms, keep)..])
  {
    var k := SplitIndex(ms, keep);
    var recent := RecentTurns(SeenUserTurns(ms), keep);
    assert !InTurns(ms[k - 1], recent);
  }

  lemma SuffixSameTurns(log: seq<Message>, n: nat)
    requires n <= |log| && SameTurns(log)
    ensures SameTurns(log[n..])
  {
    forall i | 0 < i < |log[n..]| && log[n..][i].role == User && ResultIds(log[n..][i]) != []
      ensures log[n..][i - 1].turn == log[n..][i].turn
    {
      assert log[n..][i] == log[n + i] && log[n..][i - 1] == log[n + i - 1];
    }
  }

  lemma {:induction false} CutBetweenPairs(s: State, plain: bool)
    requires PairInv(s, plain) && Split(s.live, KEEP_RECENT_USER_TURNS).0 != []
    ensures HeadIsNoResult(Split(s.live, KEEP_RECENT_USER_TURNS).1)
  {
    hide LogOk, SameTurns, AllAsked, AllAnswered, RequestsGood, Clean, HeadIsNoResult, Created, BatchInv;
    LiveIsNumbered(s);
    SplitOfNumbered(s.live, KEEP_RECENT_USER_TURNS);
    hide Split;
    LiveIsSuffix(s);
    SuffixSameTurns(Created(s.trace), |s.compressed|);
    CutBetweenTurns(s.live, KEEP_RECENT_USER_TURNS);
  }

  lemma ConsultShape(
      s: State, strategy: StrategyReply, moved: seq<Message>, kept: seq<Message>, trigger: string, now: DateTime)
    ensures var s' := Consult(s, strategy, moved, kept, trigger, now).0;
      && s'.received == s.received && s'.live == s.live
      && (s'.trace == s.trace || exists e :: Neutral(e) && s'.trace == s.trace + [e])
    ensures var o := Consult(s, strategy, moved, kept, trigger, now).1;
      o == Raised || o == Replace(s.live) || o == Replace(kept)
  {
    if strategy.Fails? {
      assert Neutral(CompressionFailed(strategy.reason));
    } else if !strategy.StrategyRaises? {
      var delta := DeltaOf(strategy, moved);
      var orphan := FirstOrphan(delta.members, s.msgCounter);
      if orphan.Some? {
        assert Neutral(CompressionFailed("orphan_id:" + orphan.value));
      } else {
        assert Neutral(BatchCreated(NewBatch(s, delta, trigger, now)));
      }
    }
  }

  lemma NeutralTrace(s: State, s': State, e: Event, plain: bool)
    requires PairInv(s, plain) && Inv(s') && Neutral(e) && s'.trace == s.trace + [e]
    requires s'.received == s.received && HeadIsNoResult(s'.live)
    ensures PairInv(s', plain)
  {
    ProjectionsOfEmit(s.trace, e);
    CleanOfEmit(s.trace, e);
    RequestsOfEmit(s.trace, e, Clean(s.trace));
  }

  lemma SameTrace(s: State, s': State, plain: bool)
    requires PairInv(s, plain) && Inv(s') && s'.trace == s.trace
    requires s'.received == s.received && HeadIsNoResult(s'.live)
    ensures PairInv(s', plain)
  {
  }

  lemma HeadOfLive(s: State, plain: bool)
    requires PairInv(s, plain)
    ensures HeadIsNoResult(s.live)
  {
  }

  lemma SettlePairs(s: State, it: Iteration, trigger: string, plain: bool)
    requires PairInv(s, plain) && Inv(Settle(Compress(s, it.strategy, trigger, it.now)).0)
    ensures PairInv(Settle(Compress(s, it.strategy, trigger, it.now)).0, plain)
  {
    hide PairInv, Inv, Consult, Split, HeadIsNoResult;
    var s' := Settle(Compress(s, it.strategy, trigger, it.now)).0;
    var (moved, kept) := Split(s.live, KEEP_RECENT_USER_TURNS);
    HeadOfLive(s, plain);
    if moved == [] {
      SameTrace(s, s', plain);
    } else {
      CutBetweenPairs(s, plain);
      ConsultShape(s, it.strategy, moved, kept, trigger, it.now);
      if s'.trace == s.trace {
        SameTrace(s, s', plain);
      } else {
        var e :| Neutral(e) && s'.trace == s.trace + [e];
        NeutralTrace(s, s', e, plain);
      }
    }
  }

  lemma CompressPhasePairs(s: State, it: Iteration, plain: bool)
    requires PairInv(s, plain)
    ensures PairInv(CompressPhase(s, it).0, plain)
  {
    var check := CompressCheck(Due(s, it.overBudget), Trigger(s, it.overBudget));
    EmitKeepsPairs(s, check, plain);
    CompressPhaseKeeps(s, it);
    if Due(s, it.overBudget) {
      SettlePairs(Emit(s, check), it, Trigger(s, it.overBudget), plain);
    }
  }

  // ---- The request.

  lemma {:induction false} FreedKeepsIds(blocks: seq<Block>, freed: map<string, FreedToolResult>, recalled: set<string>)
    ensures ToolUseIdsOf(Map(blocks, b => FreedBlock(b, freed, recalled))) == ToolUseIdsOf(blocks)
    ensures ResultIdsOf(Map(blocks, b => FreedBlock(b, freed, recalled))) == ResultIdsOf(blocks)
  {
    var changed := Map(blocks, b => FreedBlock(b, freed, recalled));
    if |blocks| > 0 {
      var front := blocks[..|blocks| - 1];
      FreedKeepsIds(front, freed, recalled);
      assert changed[..|changed| - 1] == Map(front, b => FreedBlock(b, freed, recalled));
    }
  }

  /** Replacing freed results keeps the number of messages, their roles and all tool ids. */
  lemma FreedKeepsShape(ms: seq<Message>, freed: map<string, FreedToolResult>, recalled: set<string>)
    ensures |ApplyFreed(ms, freed, recalled)| == |ms|
    ensures forall i :: 0 <= i < |ms| ==>
      && ApplyFreed(ms, freed, recalled)[i].role == ms[i].role
      && ToolUseIds(ApplyFreed(ms, freed, recalled)[i]) == ToolUseIds(ms[i])
      && ResultIds(ApplyFreed(ms, freed, recalled)[i]) == ResultIds(ms[i])
  {
    forall i | 0 <= i < |ms|
      ensures ToolUseIds(FreedMessage(ms[i], freed, recalled)) == ToolUseIds(ms[i])
      ensures ResultIds(FreedMessage(ms[i], freed, recalled)) == ResultIds(ms[i])
    {
      if ms[i].content.Blocks? {
        FreedKeepsIds(ms[i].content.blocks, freed, recalled);
      }
    }
  }

  lemma FreedIsGood(ms: seq<Message>, freed: map<string, FreedToolResult>, recalled: set<string>, clean: bool)
    requires GoodRequest(ms, clean)
    ensures GoodRequest(ApplyFreed(ms, freed, recalled), clean)
  {
    var fs := ApplyFreed(ms, freed, recalled);
    FreedKeepsShape(ms, freed, recalled);
    forall i | 0 <= i < |fs| ensures Asked(fs, i) {
      assert Asked(ms, i);
    }
    if clean {
      forall i | 0 <= i < |fs| ensures Answered(fs, i) {
        assert Answered(ms, i);
      }
    }
  }

  lemma ModelSeesPairs(s: State, plain: bool)
    requires PairInv(s, plain)
    ensures GoodRequest(s.live, Clean(s.trace)) && GoodRequest(MessagesForModel(s), Clean(s.trace))
  {
    LiveIsSuffix(s);
    SuffixIsGood(Created(s.trace), |s.compressed|, Clean(s.trace));
    if s.freed != map[] {
      FreedIsGood(s.live, s.freed, s.recalled, Clean(s.trace));
    }
  }

  predicate KeepsMessages(it: Iteration) { it.preHook.Modify? ==> it.preHook.messages.None? }

  lemma RequestEmitted(s: State, s': State, sent: seq<Message>, plain: bool)
    requires PairInv(s, plain) && Inv(s') && GoodRequest(MessagesForModel(s), Clean(s.trace))
    requires s'.trace == s.trace + [ProviderRequest(MessagesForModel(s))] && s'.live == s.live
    requires plain ==> GoodRequest(sent, Clean(s.trace))
    requires s'.received == s.received || s'.received == s.received + [sent]
          || s'.received == s.received + [sent] + [sent]
    ensures PairInv(s', plain)
  {
    hide Inv, AllAsked, AllAnswered, SameTurns, RequestsGood, Clean, GoodRequest, MessagesForModel, Created;
    var e := ProviderRequest(MessagesForModel(s));
    ProjectionsOfEmit(s.trace, e);
    CleanOfEmit(s.trace, e);
    RequestsOfEmit(s.trace, e, Clean(s.trace));
    assert Created(s'.trace) == Created(s.trace);
  }

  lemma ReceivedByRequest(s: State, it: Iteration)
    ensures var s' := RequestPhase(s, it).0;
      var sent := Sent(s, it.preHook);
      && s'.trace == s.trace + [ProviderRequest(MessagesForModel(s))] && s'.live == s.live
      && (s'.received == s.received || s'.received == s.received + [sent]
          || s'.received == s.received + [sent] + [sent])
  {
  }

  lemma RequestPairs(s: State, it: Iteration, plain: bool)
    requires PairInv(s, plain) && (plain ==> KeepsMessages(it))
    ensures PairInv(RequestPhase(s, it).0, plain)
  {
    RequestPhaseKeeps(s, it);
    ModelSeesPairs(s, plain);
    ReceivedByRequest(s, it);
    RequestEmitted(s, RequestPhase(s, it).0, Sent(s, it.preHook), plain);
  }

  // ---- The reply.

  lemma RequestsWeaken(trace: seq<Event>, clean: bool, clean': bool)
    requires RequestsGood(trace, clean) && (clean' ==> clean)
    ensures RequestsGood(trace, clean')
  {
  }

  /** The response, the optional memory snapshot and the end-of-turn event create no message. */
  lemma ThreeEmits(s: State, e1: Event, snap: State, s2: State)
    requires e1.ProviderResponse? && RequestsGood(s.trace, Clean(s.trace))
    requires exists now :: snap == Snapshot(Emit(s, e1), now)
    requires s2 == Emit(snap, TurnComplete(0))
    ensures Created(s2.trace) == Created(s.trace)
    ensures Clean(s2.trace) <==> Clean(s.trace) && !CallsAtEnd(e1)
    ensures RequestsGood(s2.trace, Clean(s.trace))
  {
    var t1 := s.trace + [e1];
    ProjectionsOfEmit(s.trace, e1);
    CleanOfEmit(s.trace, e1);
    RequestsOfEmit(s.trace, e1, Clean(s.trace));
    if snap.trace != t1 {
      var e2 := WorkingMemoryUpdated(snap.memory.value);
      assert snap.trace == t1 + [e2];
      ProjectionsOfEmit(t1, e2);
      CleanOfEmit(t1, e2);
      RequestsOfEmit(t1, e2, Clean(s.trace));
    }
    ProjectionsOfEmit(snap.trace, TurnComplete(0));
    CleanOfEmit(snap.trace, TurnComplete(0));
    RequestsOfEmit(snap.trace, TurnComplete(0), Clean(s.trace));
  }

  lemma ReplyEndsTurn(s: State, it: Iteration, r: Response, plain: bool)
    requires PairInv(s, plain) && s.userTurn >= 1 && ValidIteration(it)
    requires r.stop != MaxTokens && (r.stop == EndTurn || ToolUseIdsOf(r.content) == [])
    ensures PairInv(ReplyPhase(s, it, r, s.userTurn).0, plain)
  {
    hide AllAsked, AllAnswered, Clean, Created, ToolResults;
    var s' := ReplyPhase(s, it, r, s.userTurn).0;
    ReplyPhaseKeeps(s, it, r);
    var e1 := ProviderResponse(r.content, r.stop);
    var s1 := Emit(s, e1);
    var snap := Snapshot(s1, it.now);
    var s2 := Emit(snap, TurnComplete(0));
    var m := NextMessage(s2, s.userTurn, Assistant, Blocks(r.content));
    var e4 := MessageCreated(m, AssistantReply);
    ThreeEmits(s, e1, snap, s2);
    ProjectionsOfEmit(s2.trace, e4);
    CleanOfEmit(s2.trace, e4);
    AskedAppend(Created(s.trace), m);
    AnsweredAppend(Created(s.trace), m);
    RequestsWeaken(s2.trace, Clean(s.trace), Clean(s'.trace));
    RequestsOfEmit(s2.trace, e4, Clean(s'.trace));
    assert s'.live == s.live + [m];
  }

  lemma InvMeasures(s: State)
    requires Inv(s)
    ensures |Created(s.trace)| == s.msgCounter
  {
  }

  lemma FourEmits(trace: seq<Event>, es: seq<Event>)
    requires |es| == 4 && es[0].ProviderResponse? && !CallsAtEnd(es[0])
    requires es[1].MessageCreated? && es[2].MessageCreated? && es[3].TurnComplete?
    requires RequestsGood(trace, Clean(trace))
    ensures var t := trace + [es[0]] + [es[1]] + [es[2]] + [es[3]];
      && Created(t) == Created(trace) + [es[1].message] + [es[2].message]
      && (Clean(t) <==> Clean(trace)) && RequestsGood(t, Clean(trace))
  {
    var t1 := trace + [es[0]];
    var t2 := t1 + [es[1]];
    var t3 := t2 + [es[2]];
    ProjectionsOfEmit(trace, es[0]);
    ProjectionsOfEmit(t1, es[1]);
    ProjectionsOfEmit(t2, es[2]);
    ProjectionsOfEmit(t3, es[3]);
    CleanOfEmit(trace, es[0]);
    CleanOfEmit(t1, es[1]);
    CleanOfEmit(t2, es[2]);
    CleanOfEmit(t3, es[3]);
    RequestsOfEmit(trace, es[0], Clean(trace));
    RequestsOfEmit(t1, es[1], Clean(trace));
    RequestsOfEmit(t2, es[2], Clean(trace));
    RequestsOfEmit(t3, es[3], Clean(trace));
  }

  lemma ReplyRunsTools(s: State, it: Iteration, r: Response, plain: bool)
    requires PairInv(s, plain) && s.userTurn >= 1 && ValidIteration(it)
    requires r.stop != MaxTokens && r.stop != EndTurn && ToolUseIdsOf(r.content) != []
    ensures PairInv(ReplyPhase(s, it, r, s.userTurn).0, plain)
  {
    hide Inv, AllAsked, AllAnswered, SameTurns, RequestsGood, Clean, Created, ResultIdsOf, ToolUseIdsOf, ToolResults;
    var s' := ReplyPhase(s, it, r, s.userTurn).0;
    ReplyPhaseKeeps(s, it, r);
    InvMeasures(s);
    var a := Message(Some(MsgId(s.msgCounter + 1)), Some(s.userTurn), Assistant, Blocks(r.content));
    var b := Message(Some(MsgId(s.msgCounter + 2)), Some(s.userTurn), User, Blocks(ToolResults(r.content, it.outputs)));
    var es := [ProviderResponse(r.content, r.stop), MessageCreated(a, AssistantReply),
               MessageCreated(b, ToolResultSource), TurnComplete(|ToolUseIdsOf(r.content)|)];
    assert s'.live == s.live + [a] + [b];
    assert s'.trace == s.trace + [es[0]] + [es[1]] + [es[2]] + [es[3]];
    ResultsAnswerCalls(r.content, it.outputs);
    RoundAppend(Created(s.trace), a, b);
    FourEmits(s.trace, es);
  }

  lemma ReplyPairs(s: State, it: Iteration, r: Response, plain: bool)
    requires PairInv(s, plain) && s.userTurn >= 1 && ValidIteration(it)
    ensures PairInv(ReplyPhase(s, it, r, s.userTurn).0, plain)
  {
    hide PairInv;
    if r.stop != MaxTokens {
      if r.stop == EndTurn || ToolUseIdsOf(r.content) == [] {
        ReplyEndsTurn(s, it, r, plain);
      } else {
        ReplyRunsTools(s, it, r, plain);
      }
    }
  }

  // ---- Passes, chats, runs.

  lemma IteratePairs(s: State, it: Iteration, plain: bool)
    requires PairInv(s, plain) && ValidIteration(it) && s.userTurn >= 1 && (plain ==> KeepsMessages(it))
    ensures PairInv(Iterate(s, it, s.userTurn).0, plain)
    ensures Iterate(s, it, s.userTurn).0.userTurn == s.userTurn
  {
    IterateKeepsTurn(s, it);
    hide PairInv, CompressPhase, RequestPhase, ReplyPhase;
    CompressPhasePairs(s, it, plain);
    var (s1, raised) := CompressPhase(s, it);
    if !raised {
      RequestPairs(s1, it, plain);
      var (s2, answer) := RequestPhase(s1, it);
      if answer.Answered? {
        ReplyPairs(s2, it, answer.response, plain);
      }
    }
  }

  predicate PlainScript(its: seq<Iteration>) { forall i :: 0 <= i < |its| ==> KeepsMessages(its[i]) }

  lemma {:induction false} RunLoopPairs(s: State, its: seq<Iteration>, plain: bool)
    requires PairInv(s, plain) && ValidScript(its) && s.userTurn >= 1 && (plain ==> PlainScript(its))
    ensures PairInv(RunLoop(s, its, s.userTurn).0, plain)
    decreases |its|
  {
    if |its| > 0 {
      IteratePairs(s, its[0], plain);
      var (s1, status) := Iterate(s, its[0], s.userTurn);
      if status == Continue {
        RunLoopPairs(s1, its[1..], plain);
      }
    }
  }

  lemma StartChatPairs(s: State, text: string, plain: bool)
    requires PairInv(s, plain)
    ensures PairInv(StartChat(s, text), plain)
  {
    hide Inv, AllAsked, AllAnswered, SameTurns, RequestsGood, Clean;
    var m := NextMessage(s, s.userTurn + 1, User, Str(text));
    var e := MessageCreated(m, UserInput);
    StartChatKeeps(s, text);
    ProjectionsOfEmit(s.trace, e);
    CleanOfEmit(s.trace, e);
    RequestsOfEmit(s.trace, e, Clean(s.trace));
    AskedAppend(Created(s.trace), m);
    AnsweredAppend(Created(s.trace), m);
  }

  lemma ChatPairs(s: State, text: string, its: seq<Iteration>, plain: bool)
    requires PairInv(s, plain) && ValidScript(its) && (plain ==> PlainScript(its))
    ensures PairInv(Chat(s, text, its), plain)
  {
    hide RunLoop, LogInv, BatchInv, AllAsked, AllAnswered, SameTurns, RequestsGood, Clean, Created, ReceivedGood;
    StartChatPairs(s, text, plain);
    RunLoopPairs(StartChat(s, text), its, plain);
    InvIgnoresCounters(RunLoop(StartChat(s, text), its, s.userTurn + 1).0);
  }

  predicate PlainRun(steps: seq<Step>) {
    forall i :: 0 <= i < |steps| && steps[i].ChatStep? ==> PlainScript(steps[i].script)
  }

  lemma NewSessionPairs(id: string, memory: Option<Memory>, plain: bool)
    ensures PairInv(NewSession(id, memory), plain)
  {
  }

  lemma StepPairs(s: State, st: Step, plain: bool)
    requires PairInv(s, plain) && ValidStep(st) && (plain && st.ChatStep? ==> PlainScript(st.script))
    ensures PairInv(Perform(s, st), plain)
  {
    hide LogOk, AllAsked, AllAnswered, SameTurns, RequestsGood, Clean, Created, BatchesIn, Chat;
    if st.ChatStep? {
      ChatPairs(s, st.text, st.script, plain);
    }
  }

  lemma {:induction false} RunPairs(id: string, memory: Option<Memory>, steps: seq<Step>, plain: bool)
    requires ValidRun(steps) && (plain ==> PlainRun(steps))
    ensures PairInv(Run(NewSession(id, memory), steps), plain)
  {
    hide PairInv, Perform, PlainScript;
    if |steps| == 0 {
      NewSessionPairs(id, memory, plain);
    } else {
      var before := steps[..|steps| - 1];
      RunPairs(id, memory, before, plain);
      StepPairs(Run(NewSession(id, memory), before), steps[|steps| - 1], plain);
    }
  }

  lemma {:induction false} HeadPairs(s: State, its: seq<Iteration>, passes: seq<Pass>, k: nat, plain: bool)
    requires PairInv(s, plain) && s.userTurn >= 1 && PassesThrough(s, its, passes) && k < |passes|
    requires plain ==> PlainScript(its)
    ensures PairInv(passes[k].head, plain) && passes[k].head.userTurn == s.userTurn
  {
    hide PairInv, Iterate, PassFrom;
    if k > 0 {
      HeadPairs(s, its, passes, k - 1, plain);
      assert NextPass(its, passes, s.userTurn, k - 1);
      IteratePairs(passes[k - 1].head, its[k - 1], plain);
    }
  }

  /** What the invariant says about the log, the window and the requests, also once a reply is announced. */
  predicate PairsHold(s: State, plain: bool) {
    var clean := Clean(Appended(s.trace));
    && (Paired(Created(s.trace)) <==> clean) && (clean ==> Paired(s.live))
    && RequestsGood(s.trace, clean) && (plain ==> ReceivedGood(s.received, clean))
  }

  lemma {:induction false} InvPairsHold(s: State, plain: bool)
    requires PairInv(s, plain)
    ensures PairsHold(s, plain)
  {
    LiveIsSuffix(s);
    SuffixIsGood(Created(s.trace), |s.compressed|, Clean(s.trace));
  }

  lemma {:induction false} AnnouncedPairsHold(s: State, e: Event, plain: bool)
    requires PairInv(s, plain) && e.ProviderResponse?
    ensures PairsHold(Emit(s, e), plain)
  {
    InvPairsHold(s, plain);
    hide PairInv, Paired, ReceivedGood, RequestsGood, Clean, Created;
    ProjectionsOfEmit(s.trace, e);
    CleanOfEmit(s.trace, e);
    RequestsOfEmit(s.trace, e, Clean(s.trace));
    assert (s.trace + [e])[..|s.trace|] == s.trace;
  }

  lemma {:induction false} PassPairs(s: State, it: Iteration, seen: State, plain: bool)
    requires PairInv(s, plain) && Shows(PassFrom(s, it), seen) && (plain ==> KeepsMessages(it))
    ensures PairsHold(seen, plain)
  {
    hide PairInv, PairsHold, CompressPhase, RequestPhase;
    var (s1, raised) := CompressPhase(s, it);
    CompressPhasePairs(s, it, plain);
    RequestPairs(s1, it, plain);
    var (s2, answer) := RequestPhase(s1, it);
    InvPairsHold(s, plain);
    InvPairsHold(s1, plain);
    InvPairsHold(s2, plain);
    if answer.Answered? {
      AnnouncedPairsHold(s2, ProviderResponse(answer.response.content, answer.response.stop), plain);
    }
  }

  lemma {:induction false} ReachedPairs(id: string, memory: Option<Memory>, steps: seq<Step>, states: seq<State>,
                                        n: nat, passes: seq<Pass>, s: State, plain: bool)
    requires Reached(id, memory, steps, states, n, passes, s) && (plain ==> PlainRun(steps))
    ensures PairsHold(s, plain)
  {
    hide PairInv, PairsHold, Perform, StartChat, PassFrom, Run, Inv;
    RunReaches(id, memory, steps, states, n);
    RunPairs(id, memory, steps[..n], plain);
    InvPairsHold(states[n], plain);
    if s != states[n] {
      var s0 := StartChat(states[n], steps[n].text);
      StartChatPairs(states[n], steps[n].text, plain);
      RunKeeps(id, memory, steps[..n]);
      StartChatKeeps(states[n], steps[n].text);
      var k :| 0 <= k < |passes| && Shows(passes[k], s);
      HeadPairs(s0, steps[n].script, passes, k, plain);
      assert NextPass(steps[n].script, passes, s0.userTurn, k);
      PassPairs(passes[k].head, steps[n].script[k], s, plain);
    }
  }

  /**
   In every state that a run reaches the log's calls are all answered, each right behind and id by id, exactly when
   no answer appended so far ended its turn with calls; and then the same holds of the window.
   */
  lemma {:induction false} CallsStayPaired(id: string, memory: Option<Memory>, steps: seq<Step>, states: seq<State>,
                                           n: nat, passes: seq<Pass>, s: State)
    requires Reached(id, memory, steps, states, n, passes, s)
    ensures Paired(Created(s.trace)) <==> Clean(Appended(s.trace))
    ensures Clean(Appended(s.trace)) ==> Paired(s.live)
  {
    hide Reached;
    ReachedPairs(id, memory, steps, states, n, passes, s, false);
  }

  /**
   In every run results stand right behind their calls in every request, and if no answer ended its turn with calls
   every request is fully paired; when no hook replaces the messages, the same holds of what the provider received.
   */
  lemma {:induction false} RequestsStayPaired(id: string, memory: Option<Memory>, steps: seq<Step>, states: seq<State>,
                                              n: nat, passes: seq<Pass>, s: State)
    requires Reached(id, memory, steps, states, n, passes, s)
    ensures RequestsGood(s.trace, Clean(Appended(s.trace)))
    ensures PlainRun(steps) ==> ReceivedGood(s.received, Clean(Appended(s.trace)))
  {
    hide Reached;
    ReachedPairs(id, memory, steps, states, n, passes, s, PlainRun(steps));
  }

  // ---- Freed results and the pre_provider_call hook.

  /** Some result in the message is freed and not recalled. */
  predicate HoldsFreed(m: Message, freed: map<string, FreedToolResult>, recalled: set<string>) {
    m.content.Blocks? && exists i :: 0 <= i < |m.content.blocks| && IsFreed(m.content.blocks[i], freed, recalled)
  }

  lemma OnlyFreedChanges(m: Message, freed: map<string, FreedToolResult>, recalled: set<string>)
    requires m.turn.Some?
    ensures FreedMessage(m, freed, recalled) == m <==> !HoldsFreed(m, freed, recalled)
    ensures HoldsFreed(m, freed, recalled) ==> freed != map[]
  {
  }

  lemma NothingRewritten(ms: seq<Message>, freed: map<string, FreedToolResult>, recalled: set<string>)
    requires forall i :: 0 <= i < |ms| ==> ms[i].turn.Some?
    ensures ApplyFreed(ms, freed, recalled) == ms <==> forall i :: 0 <= i < |ms| ==> !HoldsFreed(ms[i], freed, recalled)
    ensures freed == map[] ==> ApplyFreed(ms, freed, recalled) == ms
  {
    hide FreedMessage, HoldsFreed;
    var out := ApplyFreed(ms, freed, recalled);
    forall i | 0 <= i < |ms|
      ensures out[i] == ms[i] <==> !HoldsFreed(ms[i], freed, recalled)
      ensures freed == map[] ==> out[i] == ms[i]
    {
      OnlyFreedChanges(ms[i], freed, recalled);
    }
  }

  lemma LiveHasTurns(s: State)
    requires LogInv(s)
    ensures forall i :: 0 <= i < |s.live| ==> s.live[i].turn.Some?
  {
    LiveIsNumbered(s);
    hide LogInv, TurnsAscend;
  }

  /** A hook that changes only the system text or the tools sends the list without the rewriting. */
  lemma {:induction false} RewritingSurvivesExactlyWhen(s: State, hook: PreHook)
    requires LogInv(s) && (hook.Allow? || hook == Modify(None))
    ensures Sent(s, hook) == MessagesForModel(s)
      <==> hook.Allow? || forall i :: 0 <= i < |s.live| ==> !HoldsFreed(s.live[i], s.freed, s.recalled)
  {
    hide LogInv, HoldsFreed, ApplyFreed;
    LiveHasTurns(s);
    NothingRewritten(s.live, s.freed, s.recalled);
  }
}
