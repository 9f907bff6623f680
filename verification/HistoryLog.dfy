/** The live window and the compressed store together are always the full append-only log. */
module HistoryLog {
  import opened Prelude
  import opened Types
  import opened IdGenerator
  import opened Splitting
  import opened WorkingMemories
  import opened OneShot
  import opened CompressedStore
  import opened History

  /** Message number i of the log: id m<i+1> and a turn that has been started. */
  predicate Stamped(m: Message, i: nat, userTurn: nat) {
    m.id == Some(MsgId(i + 1)) && m.turn.Some? && 1 <= m.turn.value <= userTurn
  }

  predicate LogOk(log: seq<Message>, userTurn: nat) {
    TurnsAscend(log) && forall i :: 0 <= i < |log| ==> Stamped(log[i], i, userTurn)
  }

  /** The turn of the last message of a log; 0 when there is none. */
  function LastTurn(log: seq<Message>): int {
    if |log| == 0 || log[|log| - 1].turn.None? then 0 else log[|log| - 1].turn.value
  }

  predicate LogShape(s: State) {
    && s.compressed + s.live == Created(s.trace)
    && |Created(s.trace)| == s.msgCounter
    && LogOk(Created(s.trace), s.userTurn)
  }

  predicate LogInv(s: State) { LogShape(s) && LastTurn(Created(s.trace)) == s.userTurn }

  predicate BatchInv(s: State) {
    && BatchesIn(s.trace) == s.batches
    && |s.batches| == s.batchCounter
    && forall i :: 0 <= i < |s.batches| ==> s.batches[i].batchId == BatchId(i + 1)
  }

  predicate Inv(s: State) { LogInv(s) && BatchInv(s) }

  // ---- Primitive steps.

  lemma EmitKeeps(s: State, e: Event)
    requires Inv(s) && !e.MessageCreated? && !e.BatchCreated?
    ensures Inv(Emit(s, e))
  {
    ProjectionsOfEmit(s.trace, e);
  }

  lemma LogOkAppend(log: seq<Message>, m: Message, userTurn: nat)
    requires LogOk(log, userTurn) && Stamped(m, |log|, userTurn) && m.turn.value == userTurn
    ensures LogOk(log + [m], userTurn)
  {
  }

  lemma AppendKeeps(s: State, role: Role, content: Content, source: Source)
    requires LogShape(s) && BatchInv(s) && s.userTurn >= 1
    ensures Inv(AppendMessage(s, s.userTurn, role, content, source))
  {
    var m := NextMessage(s, s.userTurn, role, content);
    ProjectionsOfEmit(s.trace, MessageCreated(m, source));
    LogOkAppend(Created(s.trace), m, s.userTurn);
    assert s.compressed + (s.live + [m]) == (s.compressed + s.live) + [m];
  }

  lemma RecordKeeps(s: State, delta: Delta, trigger: string, now: DateTime)
    requires Inv(s)
    ensures Inv(RecordBatch(s, delta, trigger, now))
  {
    ProjectionsOfEmit(s.trace, BatchCreated(NewBatch(s, delta, trigger, now)));
  }

  // ---- Moving messages.

  lemma IdsDistinct(log: seq<Message>, userTurn: nat, i: nat, j: nat)
    requires LogOk(log, userTurn) && i < |log| && j < |log| && i != j
    ensures HasId(log[i]) && log[i].id != log[j].id
  {
    assert Stamped(log[i], i, userTurn) && Stamped(log[j], j, userTurn);
    MsgIdInjective(i + 1, j + 1);
  }

  /** No message of a well-formed log is skipped as a duplicate. */
  lemma {:induction false} PutAllFresh(log: seq<Message>, userTurn: nat, bucket: seq<Message>, ms: seq<Message>)
    requires LogOk(log, userTurn) && bucket + ms <= log
    ensures PutAll(bucket, ms) == bucket + ms
  {
    if |ms| == 0 {
      assert bucket + ms == bucket;
    } else {
      var front := ms[..|ms| - 1];
      var n := |bucket + front|;
      assert bucket + ms == bucket + front + [ms[|ms| - 1]];
      PutAllFresh(log, userTurn, bucket, front);
      assert log[n] == ms[|ms| - 1];
      forall i | 0 <= i < n ensures (bucket + front)[i].id != log[n].id {
        assert (bucket + front)[i] == (bucket + ms)[i] == log[i];
        IdsDistinct(log, userTurn, i, n);
      }
      assert Stamped(log[n], n, userTurn);
      assert log[n].id.value !in Ids(bucket + front);
    }
  }

  lemma LiveIsNumbered(s: State)
    requires LogInv(s)
    ensures forall i :: 0 <= i < |s.live| ==> Numbered(s.live[i])
    ensures forall i :: 0 <= i < |s.live| ==> s.live[i] == Created(s.trace)[|s.compressed| + i]
    ensures TurnsAscend(s.live)
  {
    forall i | 0 <= i < |s.live|
      ensures Numbered(s.live[i]) && s.live[i] == Created(s.trace)[|s.compressed| + i]
    {
      assert s.live[i] == (s.compressed + s.live)[|s.compressed| + i];
      assert Stamped(Created(s.trace)[|s.compressed| + i], |s.compressed| + i, s.userTurn);
    }
  }

  lemma MoveKeeps(s: State, moved: seq<Message>, kept: seq<Message>)
    requires LogInv(s) && moved + kept == s.live
    ensures PutAll(s.compressed, moved) == s.compressed + moved
    ensures LogInv(s.(compressed := PutAll(s.compressed, moved), turnsSince := 0, aborted := 0, live := kept))
  {
    assert s.compressed + moved + kept == s.compressed + (moved + kept);
    PutAllFresh(Created(s.trace), s.userTurn, s.compressed, moved);
  }

  /** The invariant of the state a compression leaves once its caller has replaced the live list. */
  predicate Settled(s: State, o: CompressOutcome) {
    match o
    case Replace(ms) => Inv(s.(live := ms))
    case _ => Inv(s)
  }

  lemma AcceptKeeps(
      s: State, delta: Delta, moved: seq<Message>, kept: seq<Message>, trigger: string, now: DateTime)
    requires Inv(s) && moved + kept == s.live
    ensures Settled(Accept(s, delta, moved, kept, trigger, now).0, Accept(s, delta, moved, kept, trigger, now).1)
  {
    RecordKeeps(s, delta, trigger, now);
    var (s1, raised) := ApplyDelta(s, delta, trigger, now);
    if !raised {
      MoveKeeps(s1, moved, kept);
    }
  }

  lemma ConsultKeeps(
      s: State, strategy: StrategyReply, moved: seq<Message>, kept: seq<Message>, trigger: string, now: DateTime)
    requires Inv(s) && moved + kept == s.live
    ensures var (s', o) := Consult(s, strategy, moved, kept, trigger, now); Settled(s', o)
  {
    if strategy.Fails? {
      EmitKeeps(s, CompressionFailed(strategy.reason));
    } else if !strategy.StrategyRaises? {
      var delta := DeltaOf(strategy, moved);
      var orphan := FirstOrphan(delta.members, s.msgCounter);
      if orphan.Some? {
        EmitKeeps(s, CompressionFailed("orphan_id:" + orphan.value));
      } else {
        AcceptKeeps(s, delta, moved, kept, trigger, now);
      }
    }
  }

  lemma CompressKeeps(s: State, strategy: StrategyReply, trigger: string, now: DateTime)
    requires Inv(s)
    ensures Settled(Compress(s, strategy, trigger, now).0, Compress(s, strategy, trigger, now).1)
  {
    LiveIsNumbered(s);
    SplitOfNumbered(s.live, KEEP_RECENT_USER_TURNS);
    ConsultKeeps(s, strategy, Split(s.live, KEEP_RECENT_USER_TURNS).0, Split(s.live, KEEP_RECENT_USER_TURNS).1,
                 trigger, now);
  }

  lemma InvIgnoresCounters(s: State)
    requires Inv(s)
    ensures forall n, m :: Inv(s.(turnsSince := n)) && Inv(s.(aborted := m)) && Inv(s.(turnsSince := n, aborted := m))
  {
    hide LogOk, Created, BatchesIn;
  }

  lemma {:induction false} CompressKeepsTurn(s: State, strategy: StrategyReply, trigger: string, now: DateTime)
    ensures Compress(s, strategy, trigger, now).0.userTurn == s.userTurn
  {
    hide Split, FirstOrphan, PutAll, CompressionEdit, Validated;
  }

  lemma {:induction false} CompressPhaseKeeps(s: State, it: Iteration)
    requires Inv(s)
    ensures Inv(CompressPhase(s, it).0) && CompressPhase(s, it).0.userTurn == s.userTurn
  {
    hide Inv, Compress;
    var trigger := Trigger(s, it.overBudget);
    var s1 := Emit(s, CompressCheck(Due(s, it.overBudget), trigger));
    EmitKeeps(s, CompressCheck(Due(s, it.overBudget), trigger));
    if Due(s, it.overBudget) {
      CompressKeeps(s1, it.strategy, trigger, it.now);
      CompressKeepsTurn(s1, it.strategy, trigger, it.now);
      if Compress(s1, it.strategy, trigger, it.now).1.Nothing? {
        InvIgnoresCounters(Compress(s1, it.strategy, trigger, it.now).0);
      }
    }
  }

  // ---- Requests, replies, passes, chats.

  lemma InvIgnoresReceived(s: State, received: seq<seq<Message>>)
    requires Inv(s)
    ensures Inv(s.(received := received))
  {
    hide LogOk, Created, BatchesIn;
  }

  lemma {:induction false} RequestPhaseKeeps(s: State, it: Iteration)
    requires Inv(s)
    ensures Inv(RequestPhase(s, it).0) && RequestPhase(s, it).0.userTurn == s.userTurn
  {
    hide Inv, MessagesForModel, Sent;
    EmitKeeps(s, ProviderRequest(MessagesForModel(s)));
    InvIgnoresReceived(Emit(s, ProviderRequest(MessagesForModel(s))), RequestPhase(s, it).0.received);
  }

  lemma {:induction false} ReplyPhaseKeeps(s: State, it: Iteration, r: Response)
    requires Inv(s) && ValidIteration(it) && s.userTurn >= 1
    ensures Inv(ReplyPhase(s, it, r, s.userTurn).0) && ReplyPhase(s, it, r, s.userTurn).0.userTurn == s.userTurn
  {
    if r.stop != MaxTokens {
      var s1 := Emit(s, ProviderResponse(r.content, r.stop));
      EmitKeeps(s, ProviderResponse(r.content, r.stop));
      var calls := ToolUseIdsOf(r.content);
      if r.stop == EndTurn || calls == [] {
        var snap := Snapshot(s1, it.now);
        if s1.memory.Some? {
          EmitKeeps(s1, WorkingMemoryUpdated(snap.memory.value));
        }
        EmitKeeps(snap, TurnComplete(0));
        AppendKeeps(Emit(snap, TurnComplete(0)), Assistant, Blocks(r.content), AssistantReply);
      } else {
        var memory := if s1.memory.None? then None else Some(EditMemory(s1.memory.value, it.memoryEdits, it.now));
        var s2 := s1.(freed := it.freed, memory := memory);
        AppendKeeps(s2, Assistant, Blocks(r.content), AssistantReply);
        var s3 := AppendMessage(s2, s.userTurn, Assistant, Blocks(r.content), AssistantReply);
        AppendKeeps(s3, User, Blocks(ToolResults(r.content, it.outputs)), ToolResultSource);
        var s4 := AppendMessage(s3, s.userTurn, User, Blocks(ToolResults(r.content, it.outputs)), ToolResultSource);
        EmitKeeps(s4, TurnComplete(|calls|));
      }
    }
  }

  lemma IterateKeeps(s: State, it: Iteration)
    requires Inv(s) && ValidIteration(it) && s.userTurn >= 1
    ensures Inv(Iterate(s, it, s.userTurn).0)
    ensures Iterate(s, it, s.userTurn).0.userTurn == s.userTurn
  {
    hide Inv, CompressPhase, RequestPhase, ReplyPhase;
    CompressPhaseKeeps(s, it);
    var (s1, raised) := CompressPhase(s, it);
    if !raised {
      RequestPhaseKeeps(s1, it);
      var (s2, answer) := RequestPhase(s1, it);
      if answer.Answered? {
        ReplyPhaseKeeps(s2, it, answer.response);
      }
    }
  }

  /** A pass stays in its turn. */
  lemma IterateKeepsTurn(s: State, it: Iteration)
    requires Inv(s) && ValidIteration(it) && s.userTurn >= 1
    ensures Iterate(s, it, s.userTurn).0.userTurn == s.userTurn
    ensures CompressPhase(s, it).0.userTurn == s.userTurn
    ensures RequestPhase(CompressPhase(s, it).0, it).0.userTurn == s.userTurn
  {
    hide Inv, CompressPhase, RequestPhase, ReplyPhase;
    IterateKeeps(s, it);
    CompressPhaseKeeps(s, it);
    RequestPhaseKeeps(CompressPhase(s, it).0, it);
  }

  lemma {:induction false} RunLoopKeeps(s: State, its: seq<Iteration>)
    requires Inv(s) && ValidScript(its) && s.userTurn >= 1
    ensures Inv(RunLoop(s, its, s.userTurn).0)
    decreases |its|
  {
    if |its| > 0 {
      IterateKeeps(s, its[0]);
      var (s1, status) := Iterate(s, its[0], s.userTurn);
      if status == Continue {
        RunLoopKeeps(s1, its[1..]);
      }
    }
  }

  lemma LaterTurn(log: seq<Message>, userTurn: nat)
    requires LogOk(log, userTurn)
    ensures LogOk(log, userTurn + 1)
  {
    forall i | 0 <= i < |log| ensures Stamped(log[i], i, userTurn + 1) {
      assert Stamped(log[i], i, userTurn);
    }
  }

  lemma NextTurnShape(s: State)
    requires Inv(s)
    ensures LogShape(s.(userTurn := s.userTurn + 1)) && BatchInv(s.(userTurn := s.userTurn + 1))
  {
    hide LogOk, Created, BatchesIn;
    LaterTurn(Created(s.trace), s.userTurn);
  }

  lemma {:induction false} StartChatKeeps(s: State, text: string)
    requires Inv(s)
    ensures Inv(StartChat(s, text)) && StartChat(s, text).userTurn == s.userTurn + 1
  {
    hide Inv, LogShape, BatchInv;
    NextTurnShape(s);
    AppendKeeps(s.(userTurn := s.userTurn + 1), User, Str(text), UserInput);
  }

  lemma ChatKeeps(s: State, text: string, its: seq<Iteration>)
    requires Inv(s) && ValidScript(its)
    ensures Inv(Chat(s, text, its))
  {
    hide RunLoop, LogOk, Created, BatchesIn;
    StartChatKeeps(s, text);
    RunLoopKeeps(StartChat(s, text), its);
  }

  lemma {:induction false} RunKeeps(id: string, memory: Option<Memory>, steps: seq<Step>)
    requires ValidRun(steps)
    ensures Inv(Run(NewSession(id, memory), steps))
  {
    if |steps| > 0 {
      RunKeeps(id, memory, steps[..|steps| - 1]);
      var st := steps[|steps| - 1];
      if st.ChatStep? {
        ChatKeeps(Run(NewSession(id, memory), steps[..|steps| - 1]), st.text, st.script);
      }
    }
  }

  lemma {:induction false} HeadKeeps(s: State, its: seq<Iteration>, passes: seq<Pass>, k: nat)
    requires Inv(s) && s.userTurn >= 1 && PassesThrough(s, its, passes) && k < |passes|
    ensures Inv(passes[k].head) && passes[k].head.userTurn == s.userTurn
  {
    hide Inv, Iterate, PassFrom;
    if k > 0 {
      HeadKeeps(s, its, passes, k - 1);
      assert NextPass(its, passes, s.userTurn, k - 1);
      IterateKeeps(passes[k - 1].head, its[k - 1]);
    }
  }

  lemma PassHead(s: State, it: Iteration)
    ensures PassFrom(s, it).head == s
  {
  }

  /** Every loop goes through passes: up to its last one, whose outcome is the loop's. */
  lemma {:induction false} LoopPasses(s: State, its: seq<Iteration>) returns (passes: seq<Pass>)
    requires Inv(s) && s.userTurn >= 1 && ValidScript(its)
    ensures PassesThrough(s, its, passes) && (|its| > 0 ==> |passes| > 0)
    ensures |passes| > 0 ==>
              var k := |passes| - 1;
              && RunLoop(s, its, s.userTurn).0 == Iterate(passes[k].head, its[k], s.userTurn).0
              && (|passes| == |its| || Iterate(passes[k].head, its[k], s.userTurn).1 != Continue)
    decreases |its|
  {
    hide Inv, Iterate, PassFrom;
    if |its| == 0 {
      passes := [];
    } else {
      var (s1, status) := Iterate(s, its[0], s.userTurn);
      IterateKeeps(s, its[0]);
      if status != Continue || |its| == 1 {
        passes := [PassFrom(s, its[0])];
        PassHead(s, its[0]);
      } else {
        var rest := LoopPasses(s1, its[1..]);
        passes := [PassFrom(s, its[0])] + rest;
        PassHead(s, its[0]);
        forall i | 0 <= i < |passes| ensures NextPass(its, passes, s.userTurn, i) {
          if i > 0 {
            assert NextPass(its[1..], rest, s.userTurn, i - 1);
          }
        }
      }
    }
  }

  /** Whatever holds of the log at the head of a pass holds at each of its states. */
  lemma {:induction false} PassKeeps(s: State, it: Iteration, seen: State)
    requires Inv(s) && Shows(PassFrom(s, it), seen)
    ensures Inv(seen) && seen.userTurn == s.userTurn
  {
    hide Inv, CompressPhase, RequestPhase;
    var (s1, raised) := CompressPhase(s, it);
    CompressPhaseKeeps(s, it);
    RequestPhaseKeeps(s1, it);
    var (s2, answer) := RequestPhase(s1, it);
    if answer.Answered? {
      EmitKeeps(s2, ProviderResponse(answer.response.content, answer.response.stop));
    }
  }

  /** The invariants hold in every state that a run reaches, inside chats and between them. */
  lemma {:induction false} ReachedKeeps(id: string, memory: Option<Memory>, steps: seq<Step>, states: seq<State>,
                                        n: nat, passes: seq<Pass>, s: State)
    requires Reached(id, memory, steps, states, n, passes, s)
    ensures Inv(s)
  {
    hide Inv, Perform, StartChat, PassFrom;
    RunReaches(id, memory, steps, states, n);
    RunKeeps(id, memory, steps[..n]);
    if s != states[n] {
      var s0 := StartChat(states[n], steps[n].text);
      StartChatKeeps(states[n], steps[n].text);
      var k :| 0 <= k < |passes| && Shows(passes[k], s);
      HeadKeeps(s0, steps[n].script, passes, k);
      assert NextPass(steps[n].script, passes, s0.userTurn, k);
      PassKeeps(passes[k].head, steps[n].script[k], s);
    }
  }

  /**
   In every state that a run reaches, inside a chat and between chats, through successful,
   skipped, failed, rejected and raising compressions, failed chats and resumes, the store
   followed by the window is every message ever created, in creation order, and the ids are
   exactly m1 .. m<counter>, each once.
   */
  lemma {:induction false} HistoryIsComplete(id: string, memory: Option<Memory>, steps: seq<Step>, states: seq<State>,
                                             n: nat, passes: seq<Pass>, s: State)
    requires Reached(id, memory, steps, states, n, passes, s)
    ensures s.compressed + s.live == Created(s.trace)
    ensures |Created(s.trace)| == s.msgCounter
    ensures forall i :: 0 <= i < s.msgCounter ==> Created(s.trace)[i].id == Some(MsgId(i + 1))
    ensures forall i, j :: 0 <= i < j < s.msgCounter ==> Created(s.trace)[i].id != Created(s.trace)[j].id
    ensures BatchesIn(s.trace) == s.batches && |s.batches| == s.batchCounter
  {
    hide Reached;
    ReachedKeeps(id, memory, steps, states, n, passes, s);
    var log := Created(s.trace);
    forall i | 0 <= i < s.msgCounter ensures log[i].id == Some(MsgId(i + 1)) {
      assert Stamped(log[i], i, s.userTurn);
    }
    forall i, j | 0 <= i < j < s.msgCounter ensures log[i].id != log[j].id {
      IdsDistinct(log, s.userTurn, i, j);
    }
  }
}
