/** Inputs on which an expectation fails: for each condition that a theorem names, a case on its failing side. */
module Witnesses {
  import opened Prelude
  import opened Types
  import opened IdGenerator
  import opened Splitting
  import opened OneShot
  import opened History
  import opened HistoryLog
  import opened HistoryWindow
  import HistoryPairing
  import opened SessionMoves
  import opened FailedChat
  import opened SharedBus
  import Rollback
  import Replay
  import ReplayOfRun

  // ---- Chats that do nothing but add a user message, and chats that the provider fails.

  /** A pass with the given reply and nothing out of the ordinary. */
  function PlainPass(reply: ProviderReply): Iteration {
    Iteration(false, StrategyRaises, Allow, reply, ProviderRaises, None, _ => ToolOutput("", false), map[], [],
              DateTime(""))
  }

  /** n chats with the same script. */
  function Chats(n: nat, script: seq<Iteration>): seq<Step> {
    if n == 0 then [] else Chats(n - 1, script) + [ChatStep("hi", script)]
  }

  /** The script of a chat that is over at once, as with a limit of no passes. */
  const IDLE: seq<Iteration> := []

  /** The script of a chat whose provider raises. */
  function Failing(): seq<Iteration> { [PlainPass(ProviderRaises)] }

  lemma {:induction false} ChatsAre(n: nat, script: seq<Iteration>)
    ensures |Chats(n, script)| == n && forall i :: 0 <= i < n ==> Chats(n, script)[i] == ChatStep("hi", script)
  {
    if n > 0 {
      ChatsAre(n - 1, script);
    }
  }

  lemma ChatsNext(n: nat, script: seq<Iteration>)
    requires n > 0
    ensures |Chats(n, script)| == n && Chats(n, script)[..n - 1] == Chats(n - 1, script)
    ensures Chats(n, script)[n - 1] == ChatStep("hi", script)
  {
    ChatsAre(n, script);
    ChatsAre(n - 1, script);
  }

  /** A chat begins with a turn that the window has not shown. */
  lemma NewTurnCounts(s: State, text: string)
    requires Inv(s)
    ensures Turns(StartChat(s, text).live) == Turns(s.live) + 1
  {
    hide LogOk, Created, BatchesIn;
    var t := s.userTurn + 1;
    if t in SeenUserTurns(s.live) {
      SeenAtMost(s, t);
    }
    var m := NextMessage(s, t, User, Str(text));
    assert (s.live + [m])[..|s.live|] == s.live;
  }

  /** What a session looks like after n chats that only added their user messages. */
  predicate OnlyAsked(s: State, n: nat) {
    && Inv(s) && Turns(s.live) == n && s.userTurn == n
    && s.compressed == [] && s.batches == [] && s.memory == None && s.freed == map[] && s.sessionId == "s"
  }

  /** An idle chat adds one turn. */
  lemma IdleChat(s: State, n: nat)
    requires OnlyAsked(s, n)
    ensures var s' := Chat(s, "hi", IDLE); OnlyAsked(s', n + 1) && s'.turnsSince == s.turnsSince + 1
  {
    hide Inv, SeenUserTurns;
    ChatKeeps(s, "hi", IDLE);
    NewTurnCounts(s, "hi");
  }

  /** The run of one more chat. */
  lemma OneMoreChat(s: State, n: nat, script: seq<Iteration>)
    requires n > 0 && ValidScript(script)
    ensures ValidRun(Chats(n - 1, script)) && ValidRun(Chats(n, script))
    ensures Run(s, Chats(n, script)) == Chat(Run(s, Chats(n - 1, script)), "hi", script)
  {
    hide Chat;
    ChatsAre(n, script);
    ChatsAre(n - 1, script);
    ChatsNext(n, script);
  }

  lemma NoChatYet(script: seq<Iteration>)
    ensures Run(NewSession("s", None), Chats(0, script)) == NewSession("s", None)
    ensures OnlyAsked(NewSession("s", None), 0)
  {
  }

  lemma {:induction false} IdleChats(n: nat)
    ensures ValidRun(Chats(n, IDLE))
    ensures var s := Run(NewSession("s", None), Chats(n, IDLE)); OnlyAsked(s, n) && s.turnsSince == n
  {
    hide Chat, OnlyAsked, Run;
    if n == 0 {
      NoChatYet(IDLE);
    } else {
      IdleChats(n - 1);
      OneMoreChat(NewSession("s", None), n, IDLE);
      IdleChat(Run(NewSession("s", None), Chats(n - 1, IDLE)), n - 1);
    }
  }

  /** The script of a chat whose request a hook denies. */
  function Denying(): seq<Iteration> { [PlainPass(ProviderRaises).(preHook := Deny)] }

  lemma DenyingPass(s: State)
    requires s.turnsSince < TURN_COUNT_TRIGGER
    ensures ValidScript(Denying())
    ensures var (s', status) := RunLoop(s, Denying(), s.userTurn);
      status == Done && s' == s.(trace := s'.trace, received := s'.received)
  {
    assert Denying()[0] == PlainPass(ProviderRaises).(preHook := Deny);
    hide Split, MessagesForModel;
  }

  /** A denied chat adds one turn and counts it. */
  lemma DeniedChat(s: State, n: nat)
    requires OnlyAsked(s, n) && s.turnsSince < TURN_COUNT_TRIGGER
    ensures ValidScript(Denying())
    ensures var s' := Chat(s, "hi", Denying()); OnlyAsked(s', n + 1) && s'.turnsSince == s.turnsSince + 1
  {
    hide Inv, SeenUserTurns, RunLoop;
    DenyingPass(StartChat(s, "hi"));
    ChatKeeps(s, "hi", Denying());
    NewTurnCounts(s, "hi");
  }

  lemma {:induction false} DeniedChats(n: nat)
    requires n <= TURN_COUNT_TRIGGER
    ensures ValidRun(Chats(n, Denying()))
    ensures var s := Run(NewSession("s", None), Chats(n, Denying())); OnlyAsked(s, n) && s.turnsSince == n
  {
    hide Chat, OnlyAsked, Run, ValidScript, Denying;
    if n == 0 {
      NoChatYet(Denying());
    } else {
      DeniedChats(n - 1);
      DeniedChat(Run(NewSession("s", None), Chats(n - 1, Denying())), n - 1);
      OneMoreChat(NewSession("s", None), n, Denying());
    }
  }

  // ---- The window.

  /** What a pass does whose provider raises, when no compression is due. */
  lemma FailingPass(s: State)
    requires s.turnsSince == 0 && s.freed == map[]
    ensures ValidScript(Failing())
    ensures var (s', status) := RunLoop(s, Failing(), s.userTurn);
      && status == Aborted
      && s'.trace == s.trace + [CompressCheck(false, "")] + [ProviderRequest(s.live)]
      && s' == s.(trace := s'.trace, received := s'.received)
  {
    assert Failing()[0] == PlainPass(ProviderRaises);
    hide Split, ApplyFreed;
  }

  /** The trace ends with a request that shows n user turns. */
  predicate Requests(trace: seq<Event>, n: nat) {
    && |trace| > 0 && trace[|trace| - 1].ProviderRequest?
    && Turns(trace[|trace| - 1].messages) == n
  }

  /** A chat that the provider fails adds one turn and counts none. */
  lemma FailingChat(s: State, n: nat)
    requires OnlyAsked(s, n) && s.turnsSince == 0
    ensures ValidScript(Failing())
    ensures var s' := Chat(s, "hi", Failing());
      OnlyAsked(s', n + 1) && s'.turnsSince == 0 && s'.aborted == s.aborted + 1 && Requests(s'.trace, n + 1)
  {
    hide Inv, SeenUserTurns, RunLoop;
    FailingPass(StartChat(s, "hi"));
    ChatKeeps(s, "hi", Failing());
    NewTurnCounts(s, "hi");
  }

  /**
   Chats that the provider fails are not counted: after n of them no compression has come due, and
   the last request showed n user turns, whatever n is.
   */
  lemma {:induction false} FailedChatsPileUp(n: nat)
    ensures ValidRun(Chats(n, Failing()))
    ensures var s := Run(NewSession("s", None), Chats(n, Failing()));
      OnlyAsked(s, n) && s.turnsSince == 0 && s.aborted == n && (n > 0 ==> Requests(s.trace, n))
  {
    hide Chat, OnlyAsked, Requests, Run, ValidScript, Failing;
    if n == 0 {
      NoChatYet(Failing());
    } else {
      FailedChatsPileUp(n - 1);
      FailingChat(Run(NewSession("s", None), Chats(n - 1, Failing())), n - 1);
      OneMoreChat(NewSession("s", None), n, Failing());
    }
  }

  // ---- Passes whose answer arrives.

  /** A pass in which no compression is due. */
  lemma QuietCheck(s: State, it: Iteration)
    requires s.turnsSince < TURN_COUNT_TRIGGER && !it.overBudget
    ensures CompressPhase(s, it) == (Emit(s, CompressCheck(false, "")), false)
  {
  }

  /** A request whose answer is taken as it comes. */
  lemma QuietRequest(s: State, it: Iteration, r: Response)
    requires it.reply == Reply(r) && r.stop != MaxTokens && it.postHook == None && !it.preHook.Deny?
    ensures var s1 := Emit(s, ProviderRequest(MessagesForModel(s)));
      RequestPhase(s, it) == (s1.(received := s.received + [Sent(s1, it.preHook)]), Answered(r))
  {
    hide ApplyFreed;
  }

  /** The state in which a quiet pass handles its answer. */
  function Asked(s: State, it: Iteration): State {
    var s1 := Emit(s, CompressCheck(false, ""));
    var s2 := Emit(s1, ProviderRequest(MessagesForModel(s1)));
    s2.(received := s.received + [Sent(s2, it.preHook)])
  }

  lemma QuietPass(s: State, it: Iteration, r: Response, turn: int)
    requires s.turnsSince < TURN_COUNT_TRIGGER && !it.overBudget && ValidIteration(it)
    requires it.reply == Reply(r) && r.stop != MaxTokens && it.postHook == None && !it.preHook.Deny?
    ensures Iterate(s, it, turn) == ReplyPhase(Asked(s, it), it, r, turn)
  {
    hide CompressPhase, RequestPhase, ReplyPhase, MessagesForModel, Sent;
    QuietCheck(s, it);
    QuietRequest(Emit(s, CompressCheck(false, "")), it, r);
  }

  // ---- Pairing.

  function Call(stop: StopReason): Response { Response([ToolUse("t", "tool", JNull)], stop) }

  lemma OneCall(stop: StopReason)
    ensures ToolUseIdsOf(Call(stop).content) == ["t"]
  {
    assert Call(stop).content[..0] == [];
    assert Filter(Call(stop).content, (b: Block) => b.ToolUse?) == Call(stop).content;
  }

  function FirstChat(): State { StartChat(NewSession("s", None), "hi") }

  lemma FirstChatIs()
    ensures Inv(FirstChat()) && FirstChat().userTurn == 1 && |FirstChat().live| == 1 && FirstChat().compressed == []
    ensures FirstChat().turnsSince == 0 && FirstChat().freed == map[] && FirstChat().recalled == {}
  {
    hide Inv;
    NoChatYet(IDLE);
    StartChatKeeps(NewSession("s", None), "hi");
  }

  lemma AskedFields(s: State, it: Iteration)
    ensures Asked(s, it) == s.(trace := Asked(s, it).trace, received := Asked(s, it).received)
  {
  }

  lemma LogOf(s: State)
    requires Inv(s)
    ensures Created(s.trace) == s.compressed + s.live
  {
  }

  /** One answer that ends its turn with a call leaves the log with a call and no results. */
  lemma {:induction false} StrayCallIsUnanswered()
    ensures var (s, status) := RunLoop(FirstChat(), [PlainPass(Reply(Call(EndTurn)))], 1);
      status == Done && !HistoryPairing.Paired(Created(s.trace)) && !HistoryPairing.Paired(s.live)
  {
    hide Inv, Created, CompressPhase, RequestPhase, FirstChat, Asked;
    var it := PlainPass(Reply(Call(EndTurn)));
    FirstChatIs();
    RunLoopKeeps(FirstChat(), [it]);
    QuietPass(FirstChat(), it, Call(EndTurn), 1);
    OneCall(EndTurn);
    var s := RunLoop(FirstChat(), [it], 1).0;
    assert s == ReplyPhase(Asked(FirstChat(), it), it, Call(EndTurn), 1).0;
    AskedFields(FirstChat(), it);
    LogOf(s);
    assert s.compressed == [] && [] + s.live == s.live;
    assert !HistoryPairing.Answered(s.live, 1);
  }

  // ---- The hook that changes no messages.

  /** A pass whose tool result is freed at once. */
  function FreeingPass(): Iteration {
    PlainPass(Reply(Call(ToolUseStop))).(freed := map["t" := FreedToolResult("t", "tool", 0, "", "")])
  }

  /** The next pass; its hook changes the system text. */
  function HookedPass(): Iteration { PlainPass(Reply(Call(ToolUseStop))).(preHook := Modify(None)) }

  /** What a round of tools leaves behind. */
  lemma RoundOf(s: State, it: Iteration, r: Response, turn: int)
    requires ValidIteration(it) && r.stop == ToolUseStop && ToolUseIdsOf(r.content) != []
    ensures var (s', status) := ReplyPhase(s, it, r, turn);
      && status == Continue && s'.turnsSince == s.turnsSince && s'.freed == it.freed && s'.recalled == {}
      && |s'.live| == |s.live| + 2
      && s'.live[|s.live| + 1].content == Blocks(ToolResults(r.content, it.outputs))
  {
    hide ToolResults;
  }

  /** After a pass that freed its result. */
  lemma {:induction false} FreedResult()
    ensures var (s, status) := Iterate(FirstChat(), FreeingPass(), 1);
      && status == Continue && Inv(s) && s.userTurn == 1 && s.turnsSince == 0 && |s.live| == 3
      && HistoryPairing.HoldsFreed(s.live[2], s.freed, s.recalled)
  {
    hide Inv, FirstChat, Asked, Iterate, ReplyPhase;
    var it := FreeingPass();
    FirstChatIs();
    IterateKeeps(FirstChat(), it);
    QuietPass(FirstChat(), it, Call(ToolUseStop), 1);
    AskedFields(FirstChat(), it);
    OneCall(ToolUseStop);
    RoundOf(Asked(FirstChat(), it), it, Call(ToolUseStop), 1);
    var s := Iterate(FirstChat(), it, 1).0;
    assert IsFreed(s.live[2].content.blocks[0], s.freed, s.recalled);
  }

  /** A request is only noted. */
  lemma EmitRequest(s: State)
    requires Inv(s)
    ensures var s2 := Emit(s, ProviderRequest(MessagesForModel(s)));
      HistoryLog.LogInv(s2) && MessagesForModel(s2) == MessagesForModel(s)
  {
    hide LogOk, Created, ApplyFreed;
    EmitKeeps(s, ProviderRequest(MessagesForModel(s)));
  }

  /** A run in which the provider does not receive the list that was announced for it. */
  lemma {:induction false} HookDropsRewriting()
    ensures var s := Iterate(FirstChat(), FreeingPass(), 1).0;
      var s' := RequestPhase(CompressPhase(s, HookedPass()).0, HookedPass()).0;
      && |s'.received| > 0 && |s'.trace| > 0 && s'.trace[|s'.trace| - 1].ProviderRequest?
      && s'.received[|s'.received| - 1] != s'.trace[|s'.trace| - 1].messages
  {
    FreedResult();
    hide Inv, Iterate, MessagesForModel, Sent, CompressPhase, FirstChat;
    var s := Iterate(FirstChat(), FreeingPass(), 1).0;
    QuietCheck(s, HookedPass());
    var s1 := Emit(s, CompressCheck(false, ""));
    EmitKeeps(s, CompressCheck(false, ""));
    QuietRequest(s1, HookedPass(), Call(ToolUseStop));
    EmitRequest(s1);
    var s2 := Emit(s1, ProviderRequest(MessagesForModel(s1)));
    HistoryPairing.RewritingSurvivesExactlyWhen(s2, Modify(None));
  }

  // ---- Replay.

  /** Every state's own events make a log of it. */
  lemma {:induction false} OwnLog(s: State, ts: DateTime) returns (rs: seq<Replay.Record>)
    ensures ReplayOfRun.Logs(rs, s)
  {
    rs := Map(s.trace, e => Replay.Record(0, ts, Some(s.sessionId), e));
    assert ReplayOfRun.Events(rs) == s.trace;
  }

  /** A pass that compresses with an answer that names no member. */
  function UnlistedPass(): Iteration {
    PlainPass(ProviderRaises).(overBudget := true, strategy := OneShotAnswer(RawDelta([], [])))
  }

  /** Applying an answer without members and operations moves the messages and lists none of them. */
  lemma {:induction false} EmptyAnswer(s: State, it: Iteration)
    requires Inv(s) && s.memory == None && s.batches == [] && s.compressed == []
    requires it.overBudget && it.strategy == OneShotAnswer(RawDelta([], [])) && Turns(s.live) > KEEP_RECENT_USER_TURNS
    ensures var (s', raised) := CompressPhase(s, it);
      && !raised && s'.compressed != [] && |s'.batches| == 1 && s'.batches[0].members == []
      && Inv(s') && s'.sessionId == s.sessionId && s'.msgCounter == s.msgCounter
  {
    hide LogOk, Created, BatchesIn, SeenUserTurns, Split;
    CompressPhaseKeeps(s, it);
    LiveIsNumbered(s);
    var (moved, kept) := Split(s.live, KEEP_RECENT_USER_TURNS);
    KeptTurnsAreRecent(s.live, KEEP_RECENT_USER_TURNS);
    SplitOfNumbered(s.live, KEEP_RECENT_USER_TURNS);
    MoveKeeps(s, moved, kept);
    assert Validated(RawDelta([], []), moved).members == [];
  }

  /** What no batch lists comes back as live. */
  lemma {:induction false} NothingListed(s: State, rs: seq<Replay.Record>)
    requires Inv(s) && s.sessionId != "" && s.msgCounter > 0 && ReplayOfRun.Logs(rs, s)
    requires |s.batches| == 1 && s.batches[0].members == [] && s.compressed != []
    ensures Replay.Rebuild(rs).Ok? && Replay.Rebuild(rs).value.live == s.compressed + s.live != s.live
  {
    hide Inv, Filter, Replay.Rebuild, ReplayOfRun.Logs;
    ReplayOfRun.RebuildsState(s, rs);
    var ids := Replay.MemberIds(s.batches);
    assert ids == {};
    FilterAll(s.compressed + s.live, (m: Message) => !Replay.Listed(m, ids));
  }

  /** The chat after the fifth one, up to its first pass. */
  lemma SixthChat(s: State)
    requires OnlyAsked(s, 5)
    ensures var s0 := StartChat(s, "hi");
      && Inv(s) && Inv(s0) && Turns(s0.live) == 6 && s0.msgCounter > 0 && s0.userTurn == s.userTurn + 1
      && s0.compressed == [] && s0.batches == [] && s0.memory == None && s0.sessionId == "s"
  {
    hide Inv, SeenUserTurns;
    NewTurnCounts(s, "hi");
    StartChatKeeps(s, "hi");
  }

  /**
   The state of the sixth chat after its check, the five before it having added their user messages only, as denied
   ones do: it moved the first turn away and listed nothing.
   */
  lemma {:induction false} StoredComesBackLive(s: State, rs: seq<Replay.Record>)
    requires OnlyAsked(s, 5) && ReplayOfRun.Logs(rs, CompressPhase(StartChat(s, "hi"), UnlistedPass()).0)
    ensures var s' := CompressPhase(StartChat(s, "hi"), UnlistedPass()).0;
      Replay.Rebuild(rs).Ok? && Replay.Rebuild(rs).value.live == s'.compressed + s'.live != s'.live
  {
    hide Inv, SeenUserTurns, StartChat, CompressPhase, ReplayOfRun.Logs, Replay.Rebuild;
    SixthChat(s);
    EmptyAnswer(StartChat(s, "hi"), UnlistedPass());
    NothingListed(CompressPhase(StartChat(s, "hi"), UnlistedPass()).0, rs);
  }

  // ---- Resuming after a chat that raised.

  /** A pass whose provider raises does so whatever its check does. */
  lemma RaisingProvider(s: State, it: Iteration, turn: int)
    requires it.reply == ProviderRaises && !it.preHook.Deny? && ValidIteration(it)
    ensures Iterate(s, it, turn).1 == Aborted
  {
    hide CompressPhase, MessagesForModel, Sent;
  }

  /** What is loaded after a chat on a session whose file was up to date. */
  function Resumed(s: State, its: seq<Iteration>): Option<State>
    requires ValidMoves(ChatMoves("hi", its))
  {
    FileAfter(Live(s, Idle), Some(Filed(Live(s, Idle))), ChatMoves("hi", its))
  }

  /** The first pass raises: the user's message is gone. */
  lemma {:induction false} MessageIsLost(s: State)
    requires Inv(s)
    ensures ValidScript(Failing()) && ValidMoves(ChatMoves("hi", Failing())) && Resumed(s, Failing()).Some?
    ensures Log(Resumed(s, Failing()).value) == Log(s) && Log(Chat(s, "hi", Failing())) != Log(s)
  {
    hide Inv, FileAfter, ChatMoves, StartChat, Iterate, Log, Chat, LastHead;
    var s0 := StartChat(s, "hi");
    StartedLog(s, "hi");
    RaisingProvider(s0, Failing()[0], s0.userTurn);
    ResumeAfterFailedChat(s, "hi", Failing());
  }

  lemma TwoPasses(s: State, a: Iteration, b: Iteration)
    requires ValidIteration(a) && ValidIteration(b)
    requires var (s1, status) := Iterate(s, a, s.userTurn);
      status == Continue && Iterate(s1, b, s.userTurn).1 == Aborted
    ensures ValidScript([a, b]) && RunLoop(s, [a, b], s.userTurn).1 == Aborted
  {
    hide Iterate;
    assert [a, b][1..] == [b];
  }

  /** A round of tools and then a pass that raises: no message is gone. */
  lemma {:induction false} RoundIsSaved()
    ensures var its := [FreeingPass(), PlainPass(ProviderRaises)];
      && ValidScript(its) && ValidMoves(ChatMoves("hi", its)) && Resumed(NewSession("s", None), its).Some?
      && RunLoop(FirstChat(), its, 1).1 == Aborted
      && Log(Resumed(NewSession("s", None), its).value) == Log(Chat(NewSession("s", None), "hi", its))
  {
    var its, s := [FreeingPass(), PlainPass(ProviderRaises)], NewSession("s", None);
    NoChatYet(IDLE);
    FirstChatIs();
    FreedResult();
    hide Inv, FileAfter, ChatMoves, StartChat, RunLoop, Iterate, Log, LastHead, OnlyAsked;
    var s1 := Iterate(FirstChat(), its[0], 1).0;
    RaisingProvider(s1, its[1], 1);
    TwoPasses(FirstChat(), its[0], its[1]);
    ResumeAfterFailedChat(s, "hi", its);
  }

  /** A pass of the sixth chat records a batch and then raises: the batch is gone. */
  lemma {:induction false} BatchIsLost(s: State)
    requires OnlyAsked(s, 5)
    ensures var its := [UnlistedPass()];
      && ValidScript(its) && ValidMoves(ChatMoves("hi", its)) && Resumed(s, its).Some?
      && Resumed(s, its).value.batches < Chat(s, "hi", its).batches
  {
    hide Inv, FileAfter, ChatMoves, StartChat, Iterate, Log, Chat, SeenUserTurns, Records, CompressPhase;
    SixthChat(s);
    var its := [UnlistedPass()];
    var s0 := StartChat(s, "hi");
    RaisingProvider(s0, its[0], s0.userTurn);
    EmptyAnswer(s0, its[0]);
    CheckRecords(s0, its[0]);
    ResumeAfterFailedChat(s, "hi", its);
  }

  // ---- Numbers that are used again.

  /** Where the agent's session "s" stands, what its file would be loaded as, and what has been announced of it. */
  ghost predicate At(acts: seq<Act>, l: Live, file: Option<Live>, announced: seq<Message>) {
    && ValidActs(acts) && Rollback.OpenedOnce(acts, "s") && Rollback.Announced(acts, "s") == announced
    && var b := Past(acts, "s");
    && b.current.Some? && LiveOf("s", b.current.value) == l
    && (b.saved.None? <==> file.None?) && (file.Some? ==> LiveOf("s", b.saved.value) == file.value)
  }

  lemma Opened()
    ensures ValidLive(NewLive("s", None)) && At([Open("s", None)], NewLive("s", None), None, [])
  {
    assert [Open("s", None)][..0] == [];
  }

  lemma AtNext(acts: seq<Act>, l: Live, file: Option<Live>, announced: seq<Message>, act: Act)
    requires At(acts, l, file, announced) && act.id == "s" && !act.Open? && ValidAct(act) && ValidLive(l)
    requires act.Resume? ==> file.Some?
    ensures act.Go? ==>
      At(acts + [act], Moved(l, act.move), if Saves(l, act.move) then Some(Moved(Moved(l, act.move), Reload)) else file,
         announced + Created(News(l, act.move)))
    ensures act.Resume? ==> At(acts + [act], file.value, file, announced)
  {
    hide LiveOf, News, Saves, Moved, Created, EventsOf, After, Past;
    assert (acts + [act])[..|acts|] == acts;
    NextSays(acts, act, "s");
    Rollback.CreatedAppend(EventsOf(After(acts).bus, "s"), Said(Past(acts, "s"), "s", act));
    Rollback.NothingCreated();
    if act.Go? {
      var now := Past(acts, "s").current.value;
      OneMoreMove("s", now, act.move);
      OneMoreMove("s", Longer(now, act.move), Reload);
    } else {
      assert announced + [] == announced;
    }
  }

  /** A chat that was saved, one that was not and is taken back by a resume, and another one after it. */
  function Rewritten(lost: string, later: string): seq<Act> {
    [Open("s", None)] + [Go("s", Begin("hi"))] + [Go("s", Stop)] + [Go("s", Begin(lost))] + [Go("s", Break)]
    + [Resume("s")] + [Go("s", Begin(later))]
  }

  function Greeting(n: nat, text: string): Message { Message(Some(MsgId(n)), Some(n), User, Str(text)) }

  lemma Announces(l: Live, text: string)
    requires l.stage.Idle? && l.state.msgCounter == l.state.userTurn
    ensures var n, l' := l.state.msgCounter + 1, Moved(l, Begin(text));
      && l'.stage == Head && l'.state.msgCounter == l'.state.userTurn == n
      && l'.state.live == l.state.live + [Greeting(n, text)] && l'.state.compressed == l.state.compressed
      && Created(News(l, Begin(text))) == [Greeting(n, text)]
  {
    ProjectionsOfEmit([], MessageCreated(Greeting(l.state.msgCounter + 1, text), UserInput));
    assert [] + [Greeting(l.state.msgCounter + 1, text)] == [Greeting(l.state.msgCounter + 1, text)];
    assert News(l, Begin(text)) == [] + [MessageCreated(Greeting(l.state.msgCounter + 1, text), UserInput)];
  }

  /** The ends of a chat announce nothing and keep the history. */
  lemma EndsQuietly(l: Live, m: Move)
    requires l.stage.Head? && (m == Stop || m == Break)
    ensures var l' := Moved(l, m);
      && l'.stage == Idle && l'.state.msgCounter == l.state.msgCounter && l'.state.userTurn == l.state.userTurn
      && l'.state.live == l.state.live && l'.state.compressed == l.state.compressed
      && News(l, m) == [] && Saves(l, m) == (m == Stop)
    ensures var r := Moved(Moved(l, m), Reload);
      && r.stage == Idle && r.state.msgCounter == l.state.msgCounter && r.state.userTurn == l.state.userTurn
      && r.state.live == l.state.live && r.state.compressed == l.state.compressed
  {
  }

  lemma SavesNothing(l: Live, text: string)
    ensures !Saves(l, Begin(text))
  {
  }

  lemma SavedStands() returns (l: Live, file: Live)
    ensures At([Open("s", None)] + [Go("s", Begin("hi"))] + [Go("s", Stop)], l, Some(file), [Greeting(1, "hi")])
    ensures l.stage == file.stage == Idle && l.state.live == file.state.live == [Greeting(1, "hi")]
    ensures l.state.compressed == file.state.compressed == []
    ensures l.state.msgCounter == l.state.userTurn == file.state.msgCounter == file.state.userTurn == 1
  {
    hide At, Moved, Saves, News, Created, ValidLive;
    Opened();
    Rollback.NothingCreated();
    var l0, first := NewLive("s", None), [Greeting(1, "hi")];
    var acts := [Open("s", None)];
    SavesNothing(l0, "hi");
    AtNext(acts, l0, None, [], Go("s", Begin("hi")));
    Announces(l0, "hi");
    assert [] + first == first && first + [] == first;
    var l1 := Moved(l0, Begin("hi"));
    AtNext(acts + [Go("s", Begin("hi"))], l1, None, first, Go("s", Stop));
    EndsQuietly(l1, Stop);
    l, file := Moved(l1, Stop), Moved(Moved(l1, Stop), Reload);
  }

  lemma RewrittenStands(lost: string, later: string) returns (l: Live, file: Option<Live>)
    ensures At(Rewritten(lost, later), l, file, [Greeting(1, "hi"), Greeting(2, lost), Greeting(2, later)])
    ensures l.state.compressed + l.state.live == [Greeting(1, "hi"), Greeting(2, later)]
  {
    hide At, Moved, Saves, News, Created;
    Rollback.NothingCreated();
    var l2, f := SavedStands();
    file := Some(f);
    var acts := [Open("s", None)] + [Go("s", Begin("hi"))] + [Go("s", Stop)];
    var two := [Greeting(1, "hi"), Greeting(2, lost)];
    AtNext(acts, l2, file, [Greeting(1, "hi")], Go("s", Begin(lost)));
    Announces(l2, lost);
    SavesNothing(l2, lost);
    assert [Greeting(1, "hi")] + [Greeting(2, lost)] == two && two + [] == two;
    var l3 := Moved(l2, Begin(lost));
    acts := acts + [Go("s", Begin(lost))];
    AtNext(acts, l3, file, two, Go("s", Break));
    EndsQuietly(l3, Break);
    acts := acts + [Go("s", Break)];
    AtNext(acts, Moved(l3, Break), file, two, Resume("s"));
    AtNext(acts + [Resume("s")], f, file, two, Go("s", Begin(later)));
    Announces(f, later);
    SavesNothing(f, later);
    l := Moved(f, Begin(later));
    assert two + [Greeting(2, later)] == [Greeting(1, "hi"), Greeting(2, lost), Greeting(2, later)];
  }

  lemma TwoUnderOneNumber(lost: string, later: string)
    requires lost != later
    ensures !Rollback.Unambiguous([Greeting(1, "hi"), Greeting(2, lost), Greeting(2, later)], 2)
  {
    var ms := [Greeting(1, "hi"), Greeting(2, lost), Greeting(2, later)];
    assert ms[..2][..1] == ms[..1] && ms[..1][..0] == [];
    Rollback.MsgIdDiffer(1, 2);
    assert Rollback.FirstWith(ms[..1], MsgId(2)) == None;
    assert Rollback.FirstWith(ms[..2], MsgId(2)) == Some(Greeting(2, lost));
  }

  /** A message was taken back and its number used for another one: replay does not find the session's history. */
  lemma {:induction false} ReusedNumber(lost: string, later: string, rs: seq<Replay.Record>)
    requires lost != later && ValidActs(Rewritten(lost, later)) && Rollback.LogsBus(rs, Rewritten(lost, later), "s")
    ensures Past(Rewritten(lost, later), "s").current.Some?
    ensures Replay.FirstSeen(rs) != Rollback.LogBehind("s", Past(Rewritten(lost, later), "s").current)
  {
    hide Rewritten, Past, LiveOf, Replay.FirstSeen, Rollback.Announced, Rollback.LogsBus, Rollback.Seen;
    var acts := Rewritten(lost, later);
    var l, file := RewrittenStands(lost, later);
    Rollback.ReplayFindsHistory(acts, "s", rs);
    TwoUnderOneNumber(lost, later);
    assert !Rollback.Unambiguous(Rollback.Announced(acts, "s"), 2);
  }

  // ---- Restarts.

  function Hello(n: nat): Message { Message(Some(MsgId(n)), Some(n), User, Str("hi")) }

  /** The log of n idle chats, each in a process of its own. */
  function OneEach(n: nat): seq<Replay.Record> {
    if n == 0 then []
    else OneEach(n - 1) + [Replay.Record(1, DateTime(""), Some("s"), MessageCreated(Hello(n), UserInput))]
  }

  /** What an idle chat announces. */
  lemma IdleChatSays(s: State, n: nat)
    requires n > 0 && s.msgCounter == s.userTurn == n - 1
    ensures var s' := Chat(s, "hi", IDLE);
      s'.trace == s.trace + [MessageCreated(Hello(n), UserInput)] && s'.msgCounter == s'.userTurn == n
  {
  }

  lemma LastEvent(rs: seq<Replay.Record>)
    requires |rs| > 0
    ensures ReplayOfRun.Events(rs) == ReplayOfRun.Events(rs[..|rs| - 1]) + [rs[|rs| - 1].event]
  {
  }

  lemma {:induction false} OneEachLogs(n: nat)
    ensures ValidRun(Chats(n, IDLE)) && |OneEach(n)| == n
    ensures var s := Run(NewSession("s", None), Chats(n, IDLE));
      ReplayOfRun.Events(OneEach(n)) == s.trace && s.msgCounter == s.userTurn == n
  {
    hide Chat, Run;
    if n == 0 {
      NoChatYet(IDLE);
    } else {
      OneEachLogs(n - 1);
      OneMoreChat(NewSession("s", None), n, IDLE);
      IdleChatSays(Run(NewSession("s", None), Chats(n - 1, IDLE)), n);
      var before := OneEach(n - 1);
      assert OneEach(n)[..n - 1] == before;
      LastEvent(OneEach(n));
    }
  }

  /** A log's records up to the i-th are the log of i chats. */
  lemma {:induction false} OneEachPrefix(n: nat, i: nat)
    requires i <= n
    ensures |OneEach(n)| == n && OneEach(n)[..i] == OneEach(i)
    ensures forall k :: 0 <= k < n ==> OneEach(n)[k].replTurn == 1 && OneEach(n)[k].sessionId == Some("s")
  {
    if n > 0 {
      OneEachPrefix(n - 1, if i < n then i else 0);
    }
  }

  /** After i records the session is in turn i. */
  lemma TurnOfOneEach(n: nat, i: nat)
    requires i <= n == |OneEach(n)|
    ensures ReplayOfRun.TurnAt(OneEach(n), i) == i
  {
    hide Run, ReplayOfRun.Events, LogShape, BatchInv;
    OneEachPrefix(n, i);
    OneEachLogs(i);
    RunKeeps("s", None, Chats(i, IDLE));
  }

  lemma {:induction false} SessionNamed(rs: seq<Replay.Record>)
    requires |rs| > 0 && forall k :: 0 <= k < |rs| ==> rs[k].sessionId == Some("s")
    ensures Replay.FirstSession(rs) == Some("s")
  {
    if |rs| > 1 {
      SessionNamed(rs[..|rs| - 1]);
    }
  }

  lemma RebuiltTurn(rs: seq<Replay.Record>)
    requires |rs| > 0 && forall k :: 0 <= k < |rs| ==> rs[k].replTurn == 1 && rs[k].sessionId == Some("s")
    ensures Replay.Rebuild(rs).Ok? && Replay.Rebuild(rs).value.userTurn == 1
  {
    ReplayOfRun.MaxReplAtMost(rs, 1);
    ReplayOfRun.MaxReplAtLeast(rs, 0);
    SessionNamed(rs);
    hide Replay.FirstSession, Replay.MaxReplTurn, Replay.FirstSeen, Replay.BatchesFrom, Replay.LastMemory,
         Replay.LastCompression, Replay.MaxMsgNumber, Replay.MaxBatchNumber, Replay.MemberIds, Filter;
  }

  /** n chats, each in a process of its own: the rebuilt session is in its first turn. */
  lemma {:induction false} RestartsForgetTurns(n: nat)
    requires n > 0 && ValidRun(Chats(n, IDLE))
    ensures ReplayOfRun.Logs(OneEach(n), Run(NewSession("s", None), Chats(n, IDLE)))
    ensures ReplayOfRun.Processes(OneEach(n), seq(n, i => i))
    ensures Replay.Rebuild(OneEach(n)).Ok? && Replay.Rebuild(OneEach(n)).value.userTurn == 1
    ensures Run(NewSession("s", None), Chats(n, IDLE)).userTurn == n
  {
    hide Run, ReplayOfRun.TurnAt, ReplayOfRun.Events, OneEach, Created;
    OneEachLogs(n);
    OneEachPrefix(n, 0);
    IdleChats(n);
    forall i | 0 <= i <= n ensures ReplayOfRun.TurnAt(OneEach(n), i) == i {
      TurnOfOneEach(n, i);
    }
    RebuiltTurn(OneEach(n));
  }
}
