/** How many user turns the live window can hold. */
module HistoryWindow {
  import opened Prelude
  import opened Types
  import opened Splitting
  import opened WorkingMemories
  import opened OneShot
  import opened History
  import opened HistoryLog

  function Turns(ms: seq<Message>): nat { |SeenUserTurns(ms)| }

  predicate NoFailures(trace: seq<Event>) { forall i :: 0 <= i < |trace| ==> !trace[i].CompressionFailed? }

  /** A window of at most `slack` turns, the ones counted since the last compression, and those of failed chats. */
  predicate Window(s: State, slack: nat) { Turns(s.live) <= slack + s.turnsSince + s.aborted }

  predicate InChat(s: State) {
    && Inv(s) && s.userTurn >= 1
    && s.userTurn in SeenUserTurns(s.live)
    && Window(s, 5)
  }

  predicate BetweenChats(s: State) { Inv(s) && Window(s, 4) }

  // ---- What the steps do to the set of turns.

  lemma {:induction false} TurnsWithin(a: seq<Message>, b: seq<Message>)
    requires forall x :: x in SeenUserTurns(a) ==> x in SeenUserTurns(b)
    ensures Turns(a) <= Turns(b)
  {
    SeenDistinct(a);
    SeenDistinct(b);
    DistinctCardinality(SeenUserTurns(a));
    DistinctCardinality(SeenUserTurns(b));
    SubsetCardinality(set x | x in SeenUserTurns(a), set x | x in SeenUserTurns(b));
  }

  /** The copy with freed results replaced shows no more user turns than the window. */
  lemma FreedShowsNoMoreTurns(s: State)
    ensures Turns(MessagesForModel(s)) <= Turns(s.live)
  {
    var ms := MessagesForModel(s);
    forall x | x in SeenUserTurns(ms) ensures x in SeenUserTurns(s.live) {
      var i := SeenFrom(ms, x);
      assert ms[i] == s.live[i];
      SeenHas(s.live, i);
    }
    TurnsWithin(ms, s.live);
  }

  lemma SeenOfAppend(ms: seq<Message>, m: Message)
    requires IsUserTurn(m)
    ensures m.turn.value in SeenUserTurns(ms + [m])
    ensures Turns(ms + [m]) <= Turns(ms) + 1
    ensures m.turn.value in SeenUserTurns(ms) ==> SeenUserTurns(ms + [m]) == SeenUserTurns(ms)
  {
    assert (ms + [m])[..|ms|] == ms;
  }

  lemma SeenOfAssistant(ms: seq<Message>, m: Message)
    requires m.role == Assistant
    ensures SeenUserTurns(ms + [m]) == SeenUserTurns(ms)
  {
    assert (ms + [m])[..|ms|] == ms;
  }

  lemma AppendKeepsWindow(s: State, role: Role, content: Content, source: Source)
    requires InChat(s)
    ensures InChat(AppendMessage(s, s.userTurn, role, content, source))
  {
    var m := NextMessage(s, s.userTurn, role, content);
    AppendKeeps(s, role, content, source);
    if role == User {
      SeenOfAppend(s.live, m);
    } else {
      SeenOfAssistant(s.live, m);
    }
  }

  // ---- Compression.

  lemma SeenAtMost(s: State, t: int)
    requires LogInv(s) && t in SeenUserTurns(s.live)
    ensures t <= s.userTurn
  {
    LiveIsNumbered(s);
    var w := SeenFrom(s.live, t);
    assert HistoryLog.Stamped(Created(s.trace)[|s.compressed| + w], |s.compressed| + w, s.userTurn);
  }

  lemma LargestIsRecent(seen: seq<int>, t: int, keep: nat)
    requires StrictlyAscends(seen) && t in seen && 0 < keep < |seen| && seen[|seen| - 1] <= t
    ensures t in RecentTurns(seen, keep)
  {
    var j :| 0 <= j < |seen| && seen[j] == t;
    var recent := RecentTurns(seen, keep);
    assert j == |seen| - 1;
    assert recent[|recent| - 1] == t;
  }

  lemma CurrentTurnIsRecent(s: State)
    requires LogInv(s) && s.userTurn in SeenUserTurns(s.live) && Turns(s.live) > KEEP_RECENT_USER_TURNS
    ensures s.userTurn in RecentTurns(SeenUserTurns(s.live), KEEP_RECENT_USER_TURNS)
  {
    hide SeenUserTurns, LogInv, TurnsAscend;
    LiveIsNumbered(s);
    SeenAscends(s.live);
    var last := SeenUserTurns(s.live)[Turns(s.live) - 1];
    SeenAtMost(s, last);
    LargestIsRecent(SeenUserTurns(s.live), s.userTurn, KEEP_RECENT_USER_TURNS);
  }

  /** What stays after a move: five turns, the current one among them. */
  lemma KeptWindow(s: State)
    requires LogInv(s) && s.userTurn in SeenUserTurns(s.live) && Split(s.live, KEEP_RECENT_USER_TURNS).0 != []
    ensures Turns(Split(s.live, KEEP_RECENT_USER_TURNS).1) == 5
    ensures s.userTurn in SeenUserTurns(Split(s.live, KEEP_RECENT_USER_TURNS).1)
  {
    LiveIsNumbered(s);
    if Turns(s.live) <= KEEP_RECENT_USER_TURNS {
      FewTurnsStay(s.live, KEEP_RECENT_USER_TURNS);
    }
    KeptTurnsAreRecent(s.live, KEEP_RECENT_USER_TURNS);
    CurrentTurnIsRecent(s);
  }

  lemma AcceptWindow(s: State, delta: Delta, moved: seq<Message>, kept: seq<Message>, trigger: string, now: DateTime)
    ensures var (s', o) := Accept(s, delta, moved, kept, trigger, now);
      && s'.live == s.live && s'.userTurn == s.userTurn
      && s'.trace == s.trace + [BatchCreated(NewBatch(s, delta, trigger, now))]
      && (if o == Raised then s'.turnsSince == s.turnsSince && s'.aborted == s.aborted
          else o == Replace(kept) && s'.turnsSince == 0 && s'.aborted == 0)
  {
  }

  /** What a consultation that ends in `s'` and `o` has kept of the window of `s`. */
  predicate WindowSettled(s: State, kept: seq<Message>, s': State, o: CompressOutcome) {
    && s'.userTurn == s.userTurn
    && match o
       case Replace(ms) =>
         (ms == s.live || ms == kept) && Window(s'.(live := ms), 5) && (NoFailures(s'.trace) ==> s'.turnsSince == 0)
       case Raised => s'.live == s.live && Window(s', 5)
       case Nothing => false
  }

  lemma ConsultWindow(
      s: State, strategy: StrategyReply, moved: seq<Message>, kept: seq<Message>, trigger: string, now: DateTime)
    requires InChat(s) && Turns(kept) == 5 && s.userTurn in SeenUserTurns(kept)
    ensures WindowSettled(s, kept, Consult(s, strategy, moved, kept, trigger, now).0,
                          Consult(s, strategy, moved, kept, trigger, now).1)
  {
    if strategy.Fails? {
      assert Emit(s, CompressionFailed(strategy.reason)).trace[|s.trace|].CompressionFailed?;
    } else if !strategy.StrategyRaises? {
      var delta := DeltaOf(strategy, moved);
      var orphan := FirstOrphan(delta.members, s.msgCounter);
      if orphan.Some? {
        assert Emit(s, CompressionFailed("orphan_id:" + orphan.value)).trace[|s.trace|].CompressionFailed?;
      } else {
        AcceptWindow(s, delta, moved, kept, trigger, now);
      }
    }
  }

  lemma NothingMovedWindow(s: State)
    requires LogInv(s) && Split(s.live, KEEP_RECENT_USER_TURNS).0 == []
    ensures Turns(s.live) <= 5
  {
    if Turns(s.live) > 5 {
      LiveIsNumbered(s);
      KeptTurnsAreRecent(s.live, KEEP_RECENT_USER_TURNS);
    }
  }

  /** After the check the window is bounded; without a failed compression it was counted recently. */
  lemma CompressPhaseWindow(s: State, it: Iteration)
    requires InChat(s)
    ensures InChat(CompressPhase(s, it).0)
    ensures !CompressPhase(s, it).1 && NoFailures(CompressPhase(s, it).0.trace)
      ==> CompressPhase(s, it).0.turnsSince <= 9
  {
    var check := CompressCheck(Due(s, it.overBudget), Trigger(s, it.overBudget));
    var s1 := Emit(s, check);
    EmitKeeps(s, check);
    CompressPhaseKeeps(s, it);
    if Due(s, it.overBudget) {
      var (moved, kept) := Split(s1.live, KEEP_RECENT_USER_TURNS);
      if moved == [] {
        NothingMovedWindow(s1);
      } else {
        KeptWindow(s1);
        ConsultWindow(s1, it.strategy, moved, kept, Trigger(s, it.overBudget), it.now);
      }
    }
  }

  lemma MovesOnlyOnAccept(
      s: State, strategy: StrategyReply, moved: seq<Message>, kept: seq<Message>, trigger: string, now: DateTime)
    requires Consult(s, strategy, moved, kept, trigger, now).0.compressed != s.compressed
    ensures Consult(s, strategy, moved, kept, trigger, now).1 == Replace(kept)
  {
  }

  /** A compression that moves messages leaves exactly five user turns in the window. */
  lemma ExactlyFiveAfterMove(s: State, it: Iteration)
    requires InChat(s) && CompressPhase(s, it).0.compressed != s.compressed
    ensures Turns(CompressPhase(s, it).0.live) == 5
  {
    var s1 := Emit(s, CompressCheck(Due(s, it.overBudget), Trigger(s, it.overBudget)));
    EmitKeeps(s, CompressCheck(Due(s, it.overBudget), Trigger(s, it.overBudget)));
    var (moved, kept) := Split(s1.live, KEEP_RECENT_USER_TURNS);
    assert moved != [];
    KeptWindow(s1);
    MovesOnlyOnAccept(s1, it.strategy, moved, kept, Trigger(s, it.overBudget), it.now);
  }

  // ---- Requests, replies, passes, chats.

  lemma RequestWindow(s: State, it: Iteration)
    requires InChat(s)
    ensures InChat(RequestPhase(s, it).0)
  {
    hide Inv, SeenUserTurns, MessagesForModel;
    RequestPhaseKeeps(s, it);
  }

  /** The request that is sent, and the counts at that moment. */
  lemma RequestSent(s: State, it: Iteration)
    ensures var s' := RequestPhase(s, it).0;
      && s'.trace == s.trace + [ProviderRequest(MessagesForModel(s))]
      && s'.turnsSince == s.turnsSince && s'.aborted == s.aborted
  {
  }

  /** In a chat, events other than requests, messages and batches change nothing. */
  lemma EmitInChat(s: State, e: Event)
    requires InChat(s) && !e.ProviderRequest? && !e.MessageCreated? && !e.BatchCreated?
    ensures InChat(Emit(s, e))
  {
    hide Inv, SeenUserTurns;
    EmitKeeps(s, e);
  }

  /** Fields the window does not depend on. */
  lemma OtherFields(s: State, memory: Option<Memory>, freed: map<string, FreedToolResult>, recalled: set<string>)
    requires InChat(s)
    ensures InChat(s.(memory := memory, freed := freed)) && InChat(s.(memory := memory))
    ensures InChat(s.(recalled := recalled))
  {
    hide LogOk, Created, BatchesIn, SeenUserTurns;
  }

  lemma EndOfTurnWindow(s: State, it: Iteration, r: Response)
    requires InChat(s)
    ensures InChat(EndOfTurn(s, it, r, s.userTurn))
  {
    hide InChat, AppendMessage;
    var snap := Snapshot(s, it.now);
    if s.memory.Some? {
      OtherFields(s, snap.memory, s.freed, {});
      EmitInChat(s.(memory := snap.memory), WorkingMemoryUpdated(snap.memory.value));
    }
    EmitInChat(snap, TurnComplete(0));
    var s1 := Emit(snap, TurnComplete(0));
    AppendKeepsWindow(s1, Assistant, Blocks(r.content), AssistantReply);
    OtherFields(AppendMessage(s1, s.userTurn, Assistant, Blocks(r.content), AssistantReply), None, map[], {});
  }

  lemma ToolsRanWindow(s: State, it: Iteration, r: Response)
    requires InChat(s) && ValidIteration(it)
    ensures InChat(ToolsRan(s, it, r, s.userTurn))
  {
    var s1 := ToolEffects(s, it);
    OtherFields(s, s1.memory, it.freed, {});
    hide InChat;
    AppendKeepsWindow(s1, Assistant, Blocks(r.content), AssistantReply);
    var s2 := AppendMessage(s1, s.userTurn, Assistant, Blocks(r.content), AssistantReply);
    AppendKeepsWindow(s2, User, Blocks(ToolResults(r.content, it.outputs)), ToolResultSource);
    var s3 := AppendMessage(s2, s.userTurn, User, Blocks(ToolResults(r.content, it.outputs)), ToolResultSource);
    EmitInChat(s3, TurnComplete(|ToolUseIdsOf(r.content)|));
    OtherFields(Emit(s3, TurnComplete(|ToolUseIdsOf(r.content)|)), None, map[], {});
  }

  lemma ReplyWindow(s: State, it: Iteration, r: Response)
    requires InChat(s) && ValidIteration(it)
    ensures InChat(ReplyPhase(s, it, r, s.userTurn).0)
  {
    hide InChat;
    if r.stop != MaxTokens {
      var e := ProviderResponse(r.content, r.stop);
      EmitInChat(s, e);
      if r.stop == EndTurn || ToolUseIdsOf(r.content) == [] {
        EndOfTurnWindow(Emit(s, e), it, r);
      } else {
        ToolsRanWindow(Emit(s, e), it, r);
      }
    }
  }

  lemma IterateWindow(s: State, it: Iteration)
    requires InChat(s) && ValidIteration(it)
    ensures InChat(Iterate(s, it, s.userTurn).0)
    ensures Iterate(s, it, s.userTurn).0.userTurn == s.userTurn
  {
    IterateKeepsTurn(s, it);
    hide InChat, CompressPhase, RequestPhase, ReplyPhase, NoFailures;
    CompressPhaseWindow(s, it);
    var (s1, raised) := CompressPhase(s, it);
    if !raised {
      RequestWindow(s1, it);
      var (s2, answer) := RequestPhase(s1, it);
      if answer.Answered? {
        ReplyWindow(s2, it, answer.response);
      }
    }
  }

  lemma {:induction false} RunLoopWindow(s: State, its: seq<Iteration>)
    requires InChat(s) && ValidScript(its)
    ensures InChat(RunLoop(s, its, s.userTurn).0)
    decreases |its|
  {
    if |its| > 0 {
      IterateWindow(s, its[0]);
      var (s1, status) := Iterate(s, its[0], s.userTurn);
      if status == Continue {
        RunLoopWindow(s1, its[1..]);
      }
    }
  }

  lemma StartChatWindow(s: State, text: string)
    requires BetweenChats(s)
    ensures InChat(StartChat(s, text))
  {
    hide Inv, SeenUserTurns;
    var m := NextMessage(s, s.userTurn + 1, User, Str(text));
    StartChatKeeps(s, text);
    SeenOfAppend(s.live, m);
  }

  lemma EndChatWindow(s: State, completed: bool)
    requires InChat(s)
    ensures BetweenChats(CountChat(s, completed))
  {
    InvIgnoresCounters(s);
    hide Inv, SeenUserTurns;
  }

  lemma ChatWindow(s: State, text: string, its: seq<Iteration>)
    requires BetweenChats(s) && ValidScript(its)
    ensures BetweenChats(Chat(s, text, its))
  {
    StartChatWindow(s, text);
    hide InChat, BetweenChats, RunLoop, StartChat;
    var s1 := StartChat(s, text);
    RunLoopWindow(s1, its);
    EndChatWindow(RunLoop(s1, its, s1.userTurn).0, true);
    EndChatWindow(RunLoop(s1, its, s1.userTurn).0, false);
  }

  lemma {:induction false} RunWindow(id: string, memory: Option<Memory>, steps: seq<Step>)
    requires ValidRun(steps)
    ensures BetweenChats(Run(NewSession(id, memory), steps))
  {
    if |steps| > 0 {
      RunWindow(id, memory, steps[..|steps| - 1]);
      var st := steps[|steps| - 1];
      var before := Run(NewSession(id, memory), steps[..|steps| - 1]);
      if st.ChatStep? {
        ChatWindow(before, st.text, st.script);
      } else {
        RunKeeps(id, memory, steps);
      }
    }
  }

  lemma {:induction false} HeadWindow(s: State, its: seq<Iteration>, passes: seq<Pass>, k: nat)
    requires InChat(s) && PassesThrough(s, its, passes) && k < |passes|
    ensures InChat(passes[k].head) && passes[k].head.userTurn == s.userTurn
  {
    hide InChat, Iterate, PassFrom;
    if k > 0 {
      HeadWindow(s, its, passes, k - 1);
      assert NextPass(its, passes, s.userTurn, k - 1);
      IterateWindow(passes[k - 1].head, its[k - 1]);
    }
  }

  lemma {:induction false} PassWindow(s: State, it: Iteration, seen: State)
    requires InChat(s) && Shows(PassFrom(s, it), seen)
    ensures InChat(seen)
  {
    hide InChat, CompressPhase, RequestPhase;
    var (s1, raised) := CompressPhase(s, it);
    CompressPhaseWindow(s, it);
    RequestWindow(s1, it);
    var (s2, answer) := RequestPhase(s1, it);
    if answer.Answered? {
      EmitInChat(s2, ProviderResponse(answer.response.content, answer.response.stop));
    }
  }

  /** The states that begin the passes of a chat of the run are in a chat. */
  lemma {:induction false} ChatHeads(
      id: string, memory: Option<Memory>, steps: seq<Step>, states: seq<State>, n: nat, passes: seq<Pass>, k: nat)
    requires RunsThrough(id, memory, steps, states) && n < |steps| && steps[n].ChatStep?
    requires PassesThrough(StartChat(states[n], steps[n].text), steps[n].script, passes) && k < |passes|
    ensures InChat(passes[k].head) && passes[k] == PassFrom(passes[k].head, steps[n].script[k])
  {
    hide InChat, BetweenChats, Run, Perform, StartChat, PassFrom;
    RunReaches(id, memory, steps, states, n);
    RunWindow(id, memory, steps[..n]);
    StartChatWindow(states[n], steps[n].text);
    HeadWindow(StartChat(states[n], steps[n].text), steps[n].script, passes, k);
    assert NextPass(steps[n].script, passes, StartChat(states[n], steps[n].text).userTurn, k);
  }

  /**
   In every state that a run reaches the window holds at most 5 user turns more than were counted
   since the turn counter was last reset, and those of the chats that an exception ended since then;
   between chats, at most 4 more.
   */
  lemma {:induction false} WindowIsBounded(id: string, memory: Option<Memory>, steps: seq<Step>, states: seq<State>,
                                           n: nat, passes: seq<Pass>, s: State)
    requires Reached(id, memory, steps, states, n, passes, s)
    ensures Turns(s.live) <= 5 + s.turnsSince + s.aborted
    ensures Turns(states[n].live) <= 4 + states[n].turnsSince + states[n].aborted
  {
    hide Inv, SeenUserTurns, Run, Perform, StartChat, PassFrom;
    RunReaches(id, memory, steps, states, n);
    RunWindow(id, memory, steps[..n]);
    if s != states[n] {
      var k :| 0 <= k < |passes| && Shows(passes[k], s);
      ChatHeads(id, memory, steps, states, n, passes, k);
      PassWindow(passes[k].head, steps[n].script[k], s);
    }
  }

  /**
   Every request of every run is within that bound; as long as no compression has failed it shows at most
   14 user turns and those of the chats that an exception ended since the counter was last reset.
   */
  lemma {:induction false} RequestsAreBounded(
      id: string, memory: Option<Memory>, steps: seq<Step>, states: seq<State>, n: nat, passes: seq<Pass>, k: nat)
    requires RunsThrough(id, memory, steps, states) && n < |steps| && steps[n].ChatStep?
    requires PassesThrough(StartChat(states[n], steps[n].text), steps[n].script, passes) && k < |passes|
    requires passes[k].requested.Some?
    ensures var s := passes[k].requested.value;
      && |s.trace| > 0 && s.trace[|s.trace| - 1].ProviderRequest?
      && var turns := Turns(s.trace[|s.trace| - 1].messages);
      && turns <= 5 + s.turnsSince + s.aborted
      && (NoFailures(s.trace) ==> turns <= 14 + s.aborted)
  {
    hide RunsThrough, Inv, SeenUserTurns, Perform, StartChat, CompressPhase, RequestPhase, MessagesForModel;
    ChatHeads(id, memory, steps, states, n, passes, k);
    var s, it := passes[k].head, steps[n].script[k];
    CompressPhaseWindow(s, it);
    var s1 := CompressPhase(s, it).0;
    FreedShowsNoMoreTurns(s1);
    RequestSent(s1, it);
    var s2 := RequestPhase(s1, it).0;
    assert NoFailures(s2.trace) ==> NoFailures(s1.trace) by {
      assert forall i :: 0 <= i < |s1.trace| ==> s1.trace[i] == s2.trace[i];
    }
  }
}
