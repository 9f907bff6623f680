/**
 One session move by move: the stretches of _chat_inner and QueryLoop.run between the points at which the loop waits
 for a hook, the provider or the tools, and the saved file, which is written after every round of tools and at the end
 of a chat (neoagent/core/loop.py:366 and 435, neoagent/agent.py:318).
 */
module SessionMoves {
  import opened Prelude
  import opened Types
  import opened Splitting
  import opened WorkingMemories
  import opened History
  import opened HistoryLog
  import opened HistoryWindow

  /** Where the session's chat stands; Idle between chats. */
  datatype Stage =
    | Idle
    | Head
    | Checked(it: Iteration)
    | Requested(it: Iteration, answer: Answer)
    | Announced(it: Iteration, response: Response)

  datatype Live = Live(state: State, stage: Stage)

  /** Stop is the limit of passes, Break an exception or a cancellation from outside, Reload the load of the file. */
  datatype Move = Begin(text: string) | Check(it: Iteration) | Request | Answer | Finish | Stop | Break | Reload

  predicate ValidMove(m: Move) { m.Check? ==> ValidIteration(m.it) }

  predicate ValidMoves(moves: seq<Move>) { forall i :: 0 <= i < |moves| ==> ValidMove(moves[i]) }

  predicate ValidLive(l: Live) {
    l.stage.Checked? || l.stage.Requested? || l.stage.Announced? ==> ValidIteration(l.stage.it)
  }

  function NewLive(id: string, memory: Option<Memory>): Live { Live(NewSession(id, memory), Idle) }

  function Ended(s: State, completed: bool): Live { Live(CountChat(s, completed), Idle) }

  function AfterCheck(s: State, it: Iteration): Live {
    var (s1, raised) := CompressPhase(s, it);
    if raised then Ended(s1, false) else Live(s1, Checked(it))
  }

  function AfterRequest(s: State, it: Iteration): Live {
    var (s1, answer) := RequestPhase(s, it);
    Live(s1, Requested(it, answer))
  }

  function AfterAnswer(s: State, it: Iteration, answer: History.Answer): Live {
    match answer
    case AnswerRaised => Ended(s, false)
    case Denied => Ended(s, true)
    case Answered(r) =>
      if r.stop == MaxTokens then Ended(s, true)
      else Live(Emit(s, ProviderResponse(r.content, r.stop)), Announced(it, r))
  }

  predicate EndsTurn(r: Response) { r.stop == EndTurn || ToolUseIdsOf(r.content) == [] }

  function AfterFinish(s: State, it: Iteration, r: Response): Live
    requires ValidIteration(it)
  {
    if EndsTurn(r) then Ended(EndOfTurn(s, it, r, s.userTurn), true) else Live(ToolsRan(s, it, r, s.userTurn), Head)
  }

  /** What the saved file of a session holds; a chat it caught in the middle goes no further. */
  function Filed(l: Live): State {
    if l.stage.Idle? then l.state.(recalled := {}) else CountChat(l.state, false).(recalled := {})
  }

  /** A move that is not open leaves the session as it is. */
  function Moved(l: Live, m: Move): (l': Live)
    requires ValidLive(l) && ValidMove(m)
    ensures ValidLive(l')
  {
    match m
    case Begin(text) => if l.stage.Idle? then Live(StartChat(l.state, text), Head) else l
    case Check(it) => if l.stage.Head? then AfterCheck(l.state, it) else l
    case Request => if l.stage.Checked? then AfterRequest(l.state, l.stage.it) else l
    case Answer => if l.stage.Requested? then AfterAnswer(l.state, l.stage.it, l.stage.answer) else l
    case Finish => if l.stage.Announced? then AfterFinish(l.state, l.stage.it, l.stage.response) else l
    case Stop => if l.stage.Head? then Ended(l.state, true) else l
    case Break => if l.stage.Idle? then l else Ended(l.state, false)
    case Reload => Live(Filed(l), Idle)
  }

  /** The moves that end with the file being written: a round of tools, and every end of a chat but by an exception. */
  predicate Saves(l: Live, m: Move) {
    match m
    case Answer =>
      l.stage.Requested? && (l.stage.answer.Denied?
                             || (l.stage.answer.Answered? && l.stage.answer.response.stop == MaxTokens))
    case Finish => l.stage.Announced?
    case Stop => l.stage.Head?
    case _ => false
  }

  function MoveAll(l: Live, moves: seq<Move>): (l': Live)
    requires ValidLive(l) && ValidMoves(moves)
    ensures ValidLive(l')
  {
    if |moves| == 0 then l else Moved(MoveAll(l, moves[..|moves| - 1]), moves[|moves| - 1])
  }

  /** The saved file beside the session. */
  function FileAfter(l: Live, file: Option<State>, moves: seq<Move>): Option<State>
    requires ValidLive(l) && ValidMoves(moves)
  {
    if |moves| == 0 then file
    else
      var before, m := MoveAll(l, moves[..|moves| - 1]), moves[|moves| - 1];
      if Saves(before, m) then Some(Filed(Moved(before, m))) else FileAfter(l, file, moves[..|moves| - 1])
  }

  // ---- What every move keeps.

  predicate Good(l: Live) {
    ValidLive(l) && if l.stage.Idle? then BetweenChats(l.state) else InChat(l.state)
  }

  lemma RecalledDoesNotMatter(s: State)
    requires BetweenChats(s)
    ensures BetweenChats(s.(recalled := {}))
  {
    hide LogOk, Created, BatchesIn, SeenUserTurns;
  }

  lemma FiledIsGood(l: Live)
    requires Good(l)
    ensures BetweenChats(Filed(l))
  {
    hide BetweenChats, InChat;
    if l.stage.Idle? {
      RecalledDoesNotMatter(l.state);
    } else {
      EndChatWindow(l.state, false);
      RecalledDoesNotMatter(CountChat(l.state, false));
    }
  }

  lemma AnswerIsGood(s: State, it: Iteration, answer: History.Answer)
    requires InChat(s) && ValidIteration(it)
    ensures Good(AfterAnswer(s, it, answer))
  {
    hide BetweenChats, InChat;
    EndChatWindow(s, true);
    EndChatWindow(s, false);
    if answer.Answered? {
      EmitInChat(s, ProviderResponse(answer.response.content, answer.response.stop));
    }
  }

  lemma FinishIsGood(s: State, it: Iteration, r: Response)
    requires InChat(s) && ValidIteration(it)
    ensures Good(AfterFinish(s, it, r))
  {
    hide BetweenChats, InChat, EndOfTurn, ToolsRan;
    if EndsTurn(r) {
      EndOfTurnWindow(s, it, r);
      EndChatWindow(EndOfTurn(s, it, r, s.userTurn), true);
    } else {
      ToolsRanWindow(s, it, r);
    }
  }

  /** Every move keeps the log complete and the window bounded. */
  lemma MoveIsGood(l: Live, m: Move)
    requires Good(l) && ValidMove(m)
    ensures Good(Moved(l, m))
  {
    hide BetweenChats, InChat, CompressPhase, RequestPhase, StartChat, CountChat, AfterAnswer, AfterFinish, Filed;
    var s := l.state;
    match m {
      case Begin(text) =>
        if l.stage.Idle? {
          StartChatWindow(s, text);
        }
      case Check(it) =>
        if l.stage.Head? {
          CompressPhaseWindow(s, it);
          EndChatWindow(CompressPhase(s, it).0, false);
        }
      case Request =>
        if l.stage.Checked? {
          RequestWindow(s, l.stage.it);
        }
      case Answer =>
        if l.stage.Requested? {
          AnswerIsGood(s, l.stage.it, l.stage.answer);
        }
      case Finish =>
        if l.stage.Announced? {
          FinishIsGood(s, l.stage.it, l.stage.response);
        }
      case Stop =>
        if l.stage.Head? {
          EndChatWindow(s, true);
        }
      case Break =>
        if !l.stage.Idle? {
          EndChatWindow(s, false);
        }
      case Reload => FiledIsGood(l);
    }
  }

  lemma NewIsGood(id: string, memory: Option<Memory>)
    ensures Good(NewLive(id, memory))
  {
  }

  lemma {:induction false} MovesAreGood(id: string, memory: Option<Memory>, moves: seq<Move>)
    requires ValidMoves(moves)
    ensures Good(MoveAll(NewLive(id, memory), moves))
  {
    hide Good, Moved;
    if |moves| == 0 {
      NewIsGood(id, memory);
    } else {
      MovesAreGood(id, memory, moves[..|moves| - 1]);
      MoveIsGood(MoveAll(NewLive(id, memory), moves[..|moves| - 1]), moves[|moves| - 1]);
    }
  }

  // ---- Chats and runs are sequences of moves.

  function PassMoves(it: Iteration): seq<Move> { [Check(it), Request, Answer, Finish] }

  /** The passes of a script; those that the loop does not come to are not open. */
  function LoopMoves(its: seq<Iteration>): seq<Move> {
    if |its| == 0 then [Stop] else PassMoves(its[0]) + LoopMoves(its[1..])
  }

  function ChatMoves(text: string, its: seq<Iteration>): seq<Move> { [Begin(text)] + LoopMoves(its) }

  lemma {:induction false} MovesAppend(l: Live, a: seq<Move>, b: seq<Move>)
    requires ValidLive(l) && ValidMoves(a) && ValidMoves(b)
    ensures ValidMoves(a + b) && MoveAll(l, a + b) == MoveAll(MoveAll(l, a), b)
    decreases |b|
  {
    hide Moved, ValidLive, ValidMove;
    if |b| == 0 {
      assert a + b == a;
    } else {
      assert (a + b)[..|a + b| - 1] == a + b[..|b| - 1];
      MovesAppend(l, a, b[..|b| - 1]);
    }
  }

  lemma {:induction false} FileAppend(l: Live, file: Option<State>, a: seq<Move>, b: seq<Move>)
    requires ValidLive(l) && ValidMoves(a) && ValidMoves(b)
    ensures ValidMoves(a + b) && FileAfter(l, file, a + b) == FileAfter(MoveAll(l, a), FileAfter(l, file, a), b)
    decreases |b|
  {
    hide Moved, ValidLive, ValidMove, Saves, Filed;
    MovesAppend(l, a, b);
    if |b| == 0 {
      assert a + b == a;
    } else {
      assert (a + b)[..|a + b| - 1] == a + b[..|b| - 1];
      FileAppend(l, file, a, b[..|b| - 1]);
      MovesAppend(l, a, b[..|b| - 1]);
    }
  }

  lemma {:induction false} LoopMovesAreValid(its: seq<Iteration>)
    requires ValidScript(its)
    ensures ValidMoves(LoopMoves(its))
    decreases |its|
  {
    hide ValidIteration;
    if |its| > 0 {
      LoopMovesAreValid(its[1..]);
    }
  }

  function Left(s: State, status: Status): Live {
    if status == Continue then Live(s, Head) else Ended(s, status == Done)
  }

  /** Where a pass leaves its session. */
  function AfterPass(s: State, it: Iteration): Live
    requires ValidIteration(it)
  {
    Left(Iterate(s, it, s.userTurn).0, Iterate(s, it, s.userTurn).1)
  }

  /** The four moves of a pass one after another. */
  lemma FourMoves(l: Live, it: Iteration)
    requires ValidLive(l) && ValidIteration(it)
    ensures ValidMoves(PassMoves(it))
    ensures MoveAll(l, PassMoves(it)) == Moved(Moved(Moved(Moved(l, Check(it)), Request), Answer), Finish)
  {
    hide Moved, ValidLive;
    var ms := PassMoves(it);
    assert ms[..3][..2] == ms[..2] && ms[..2][..1] == ms[..1] && ms[..1][..0] == [];
    assert MoveAll(l, ms[..1]) == Moved(l, ms[0]);
    assert MoveAll(l, ms[..2]) == Moved(MoveAll(l, ms[..1]), ms[1]);
    assert MoveAll(l, ms[..3]) == Moved(MoveAll(l, ms[..2]), ms[2]);
  }

  lemma ReplyIsMoves(s: State, it: Iteration, r: Response)
    requires ValidIteration(it)
    ensures Moved(AfterAnswer(s, it, Answered(r)), Finish)
         == Left(ReplyPhase(s, it, r, s.userTurn).0, ReplyPhase(s, it, r, s.userTurn).1)
  {
    hide EndOfTurn, ToolsRan, ToolUseIdsOf;
  }

  /** A move at a stage at which it is open, and one that comes after the end of the chat. */
  lemma OpenMoves(s: State, it: Iteration, a: History.Answer)
    requires ValidIteration(it)
    ensures Moved(Live(s, Head), Check(it)) == AfterCheck(s, it)
    ensures Moved(Live(s, Checked(it)), Request) == AfterRequest(s, it)
    ensures Moved(Live(s, Requested(it, a)), Answer) == AfterAnswer(s, it, a)
    ensures forall m :: m == Request || m == Answer || m == Finish ==> Moved(Live(s, Idle), m) == Live(s, Idle)
  {
    hide AfterCheck, AfterRequest, AfterAnswer;
  }

  /** Where a pass is left that got as far as an answer. */
  function AfterAsking(s: State, it: Iteration, a: History.Answer): Live
    requires ValidIteration(it)
  {
    match a
    case AnswerRaised => Ended(s, false)
    case Denied => Ended(s, true)
    case Answered(r) => Left(ReplyPhase(s, it, r, s.userTurn).0, ReplyPhase(s, it, r, s.userTurn).1)
  }

  lemma AnswerIsMoves(s: State, it: Iteration, a: History.Answer)
    requires ValidIteration(it)
    ensures Moved(AfterAnswer(s, it, a), Finish) == AfterAsking(s, it, a)
  {
    hide ReplyPhase, CountChat;
    if a.Answered? {
      ReplyIsMoves(s, it, a.response);
    }
  }

  /** A pass is its check, its request and what follows the answer. */
  lemma PassIs(s: State, it: Iteration)
    requires Inv(s) && ValidIteration(it) && s.userTurn >= 1
    ensures var (s1, raised) := CompressPhase(s, it);
      var (s2, answer) := RequestPhase(s1, it);
      AfterPass(s, it) == if raised then Ended(s1, false) else AfterAsking(s2, it, answer)
  {
    IterateKeepsTurn(s, it);
    hide Inv, CompressPhase, RequestPhase, ReplyPhase, CountChat;
  }

  /** The moves of a pass do what the pass does. */
  lemma PassIsMoves(s: State, it: Iteration)
    requires Inv(s) && ValidIteration(it) && s.userTurn >= 1
    ensures ValidMoves(PassMoves(it)) && MoveAll(Live(s, Head), PassMoves(it)) == AfterPass(s, it)
  {
    hide MoveAll, Moved, Inv, CompressPhase, RequestPhase, AfterPass, AfterAsking, AfterAnswer, CountChat;
    PassIs(s, it);
    FourMoves(Live(s, Head), it);
    var (s1, raised) := CompressPhase(s, it);
    var (s2, answer) := RequestPhase(s1, it);
    OpenMoves(s, it, answer);
    OpenMoves(s1, it, answer);
    OpenMoves(s2, it, answer);
    OpenMoves(CountChat(s1, false), it, answer);
    AnswerIsMoves(s2, it, answer);
  }

  /** Once the chat is over, the moves of its later passes are not open. */
  lemma {:induction false} LateMoves(s: State, its: seq<Iteration>)
    requires ValidScript(its)
    ensures ValidMoves(LoopMoves(its)) && MoveAll(Live(s, Idle), LoopMoves(its)) == Live(s, Idle)
    decreases |its|
  {
    hide ValidIteration;
    LoopMovesAreValid(its);
    if |its| == 0 {
      assert [Stop][..0] == [];
    } else {
      FourMoves(Live(s, Idle), its[0]);
      LateMoves(s, its[1..]);
      MovesAppend(Live(s, Idle), PassMoves(its[0]), LoopMoves(its[1..]));
    }
  }

  lemma StopMove(s: State)
    ensures MoveAll(Live(s, Head), [Stop]) == Ended(s, true)
  {
    assert [Stop][..0] == [];
  }

  lemma {:induction false} LoopIsMoves(s: State, its: seq<Iteration>)
    requires Inv(s) && s.userTurn >= 1 && ValidScript(its)
    ensures ValidMoves(LoopMoves(its))
    ensures var (s', status) := RunLoop(s, its, s.userTurn);
      MoveAll(Live(s, Head), LoopMoves(its)) == Ended(s', status != Aborted)
    decreases |its|
  {
    hide Inv, Iterate, MoveAll, Moved, CountChat, PassMoves, ValidIteration;
    LoopMovesAreValid(its);
    if |its| == 0 {
      StopMove(s);
    } else {
      LoopMovesAreValid(its[1..]);
      PassIsMoves(s, its[0]);
      IterateKeeps(s, its[0]);
      MovesAppend(Live(s, Head), PassMoves(its[0]), LoopMoves(its[1..]));
      var (s1, status) := Iterate(s, its[0], s.userTurn);
      if status == Continue {
        LoopIsMoves(s1, its[1..]);
      } else {
        LateMoves(CountChat(s1, status == Done), its[1..]);
      }
    }
  }

  lemma BeginMove(s: State, text: string)
    ensures MoveAll(Live(s, Idle), [Begin(text)]) == Live(StartChat(s, text), Head)
  {
    hide StartChat;
    assert [Begin(text)][..0] == [];
  }

  /** A chat is its moves one after another. */
  lemma {:induction false} ChatIsMoves(s: State, text: string, its: seq<Iteration>)
    requires Inv(s) && ValidScript(its)
    ensures ValidMoves(ChatMoves(text, its))
    ensures MoveAll(Live(s, Idle), ChatMoves(text, its)) == Live(Chat(s, text, its), Idle)
  {
    hide Inv, RunLoop, MoveAll, StartChat, CountChat, LoopMoves;
    StartChatKeeps(s, text);
    LoopIsMoves(StartChat(s, text), its);
    BeginMove(s, text);
    MovesAppend(Live(s, Idle), [Begin(text)], LoopMoves(its));
  }

  function StepMoves(st: Step): seq<Move> {
    match st
    case ChatStep(text, script) => ChatMoves(text, script)
    case SaveAndResume => [Reload]
  }

  function RunMoves(steps: seq<Step>): seq<Move> {
    if |steps| == 0 then [] else RunMoves(steps[..|steps| - 1]) + StepMoves(steps[|steps| - 1])
  }

  lemma StepIsMoves(s: State, st: Step)
    requires Inv(s) && ValidStep(st)
    ensures ValidMoves(StepMoves(st)) && MoveAll(Live(s, Idle), StepMoves(st)) == Live(Perform(s, st), Idle)
  {
    hide Inv, Chat;
    if st.ChatStep? {
      ChatIsMoves(s, st.text, st.script);
    } else {
      assert [Reload][..0] == [];
    }
  }

  lemma NoMoves(l: Live)
    requires ValidLive(l)
    ensures MoveAll(l, []) == l
  {
  }

  /** So every run of whole chats is a sequence of moves. */
  lemma {:induction false} RunIsMoves(id: string, memory: Option<Memory>, steps: seq<Step>)
    requires ValidRun(steps)
    ensures ValidMoves(RunMoves(steps))
    ensures MoveAll(NewLive(id, memory), RunMoves(steps)) == Live(Run(NewSession(id, memory), steps), Idle)
  {
    hide MoveAll, Perform, StepMoves, Inv, ValidMove;
    if |steps| == 0 {
      NoMoves(NewLive(id, memory));
    } else {
      var before, st := steps[..|steps| - 1], steps[|steps| - 1];
      RunIsMoves(id, memory, before);
      RunKeeps(id, memory, before);
      StepIsMoves(Run(NewSession(id, memory), before), st);
      MovesAppend(NewLive(id, memory), RunMoves(before), StepMoves(st));
    }
  }
}
