/** What the saved file holds after a chat, and what a resume after a failed one loses. */
module FailedChat {
  import opened Prelude
  import opened Types
  import opened Splitting
  import opened WorkingMemories
  import opened OneShot
  import opened CompressedStore
  import opened History
  import opened HistoryLog
  import HistoryPairing
  import HistoryWindow
  import opened SessionMoves
  import opened SharedBus

  /** The file after a loop entered in `s`: a round of tools and the end of a chat write it, an exception does not. */
  function LoopFile(s: State, file: Option<State>, its: seq<Iteration>): Option<State>
    requires ValidScript(its)
    decreases |its|
  {
    if |its| == 0 then Some(Filed(Ended(s, true)))
    else
      var (s1, status) := Iterate(s, its[0], s.userTurn);
      match status
      case Continue => LoopFile(s1, Some(Filed(Live(s1, Head))), its[1..])
      case Done => Some(Filed(Ended(s1, true)))
      case Aborted => file
  }

  // ---- The file is that of the moves.

  lemma FileNext(l: Live, file: Option<State>, moves: seq<Move>, m: Move)
    requires ValidLive(l) && ValidMoves(moves) && ValidMove(m)
    ensures ValidMoves(moves + [m])
    ensures FileAfter(l, file, moves + [m])
         == if Saves(MoveAll(l, moves), m) then Some(Filed(Moved(MoveAll(l, moves), m))) else FileAfter(l, file, moves)
    ensures MoveAll(l, moves + [m]) == Moved(MoveAll(l, moves), m)
  {
    hide Moved, Saves, Filed;
    assert (moves + [m])[..|moves|] == moves;
  }

  lemma NoFile(l: Live, file: Option<State>)
    requires ValidLive(l)
    ensures FileAfter(l, file, []) == file
  {
  }

  /** The file after the four moves of a pass, of which the last two may write it. */
  lemma FourFiles(l: Live, file: Option<State>, it: Iteration)
    requires ValidLive(l) && ValidIteration(it)
    ensures ValidMoves(PassMoves(it))
    ensures var l2 := Moved(Moved(l, Check(it)), Request);
      var l3 := Moved(l2, Answer);
      FileAfter(l, file, PassMoves(it))
        == if Saves(l3, Finish) then Some(Filed(Moved(l3, Finish)))
           else if Saves(l2, Answer) then Some(Filed(l3)) else file
  {
    hide Moved, Filed, FileAfter, MoveAll;
    NoMoves(l);
    NoFile(l, file);
    FileNext(l, file, [], Check(it));
    FileNext(l, file, [Check(it)], Request);
    FileNext(l, file, [Check(it), Request], Answer);
    FileNext(l, file, [Check(it), Request, Answer], Finish);
    assert [] + [Check(it)] == [Check(it)] && [Check(it)] + [Request] == [Check(it), Request];
    assert [Check(it), Request] + [Answer] == [Check(it), Request, Answer];
    assert [Check(it), Request, Answer] + [Finish] == PassMoves(it);
  }

  lemma ReplyGoesOn(s: State, it: Iteration, r: Response, turn: int)
    requires ValidIteration(it)
    ensures ReplyPhase(s, it, r, turn).1 != Aborted
  {
  }

  /** The answer and the end of a pass write the file unless an exception ends it. */
  lemma AnswerFile(s: State, it: Iteration, a: History.Answer)
    requires ValidIteration(it)
    ensures var l := AfterAnswer(s, it, a);
      && (Saves(l, Finish) <==> a.Answered? && a.response.stop != MaxTokens)
      && (Saves(Live(s, Requested(it, a)), Answer)
          <==> a.Denied? || (a.Answered? && a.response.stop == MaxTokens))
      && (!Saves(l, Finish) ==> Moved(l, Finish) == l == Ended(s, !a.AnswerRaised?))
    ensures forall m :: m == Answer || m == Finish ==> !Saves(Live(s, Idle), m)
  {
    hide CountChat;
  }

  lemma AbortsWhen(s: State, it: Iteration)
    requires ValidIteration(it)
    ensures var (s1, raised) := CompressPhase(s, it);
      Iterate(s, it, s.userTurn).1 == Aborted <==> raised || RequestPhase(s1, it).1.AnswerRaised?
  {
    hide CompressPhase, RequestPhase, ReplyPhase;
    var s1 := CompressPhase(s, it).0;
    var (s2, answer) := RequestPhase(s1, it);
    if answer.Answered? {
      ReplyGoesOn(s2, it, answer.response, s.userTurn);
    }
  }

  lemma PassFile(s: State, file: Option<State>, it: Iteration)
    requires Inv(s) && ValidIteration(it) && s.userTurn >= 1
    ensures ValidMoves(PassMoves(it))
    ensures FileAfter(Live(s, Head), file, PassMoves(it))
         == if Iterate(s, it, s.userTurn).1 == Aborted then file else Some(Filed(AfterPass(s, it)))
  {
    hide FileAfter, Moved, Saves, AfterAnswer, AfterPass, AfterAsking, Inv, Iterate, CompressPhase, RequestPhase,
         CountChat, Filed;
    PassIs(s, it);
    AbortsWhen(s, it);
    FourFiles(Live(s, Head), file, it);
    var (s1, raised) := CompressPhase(s, it);
    var (s2, answer) := RequestPhase(s1, it);
    OpenMoves(s, it, answer);
    OpenMoves(s1, it, answer);
    OpenMoves(s2, it, answer);
    OpenMoves(CountChat(s1, false), it, answer);
    AnswerFile(s2, it, answer);
    AnswerFile(CountChat(s1, false), it, answer);
    AnswerIsMoves(s2, it, answer);
  }

  lemma {:induction false} LateFile(s: State, file: Option<State>, its: seq<Iteration>)
    requires ValidScript(its)
    ensures ValidMoves(LoopMoves(its)) && FileAfter(Live(s, Idle), file, LoopMoves(its)) == file
    decreases |its|
  {
    hide ValidIteration, CountChat;
    LoopMovesAreValid(its);
    if |its| == 0 {
      assert [Stop][..0] == [];
    } else {
      LoopMovesAreValid(its[1..]);
      FourMoves(Live(s, Idle), its[0]);
      FourFiles(Live(s, Idle), file, its[0]);
      LateFile(s, file, its[1..]);
      FileAppend(Live(s, Idle), file, PassMoves(its[0]), LoopMoves(its[1..]));
    }
  }

  lemma StopFile(s: State, file: Option<State>)
    ensures FileAfter(Live(s, Head), file, [Stop]) == Some(Filed(Ended(s, true)))
  {
    assert [Stop][..0] == [];
  }

  lemma {:induction false} LoopFileIs(s: State, file: Option<State>, its: seq<Iteration>)
    requires Inv(s) && s.userTurn >= 1 && ValidScript(its)
    ensures ValidMoves(LoopMoves(its)) && FileAfter(Live(s, Head), file, LoopMoves(its)) == LoopFile(s, file, its)
    decreases |its|
  {
    hide Inv, Iterate, MoveAll, Moved, FileAfter, CountChat, PassMoves, ValidIteration, Filed;
    LoopMovesAreValid(its);
    if |its| == 0 {
      StopFile(s, file);
    } else {
      LoopMovesAreValid(its[1..]);
      PassIsMoves(s, its[0]);
      PassFile(s, file, its[0]);
      IterateKeeps(s, its[0]);
      FileAppend(Live(s, Head), file, PassMoves(its[0]), LoopMoves(its[1..]));
      var (s1, status) := Iterate(s, its[0], s.userTurn);
      var file1 := FileAfter(Live(s, Head), file, PassMoves(its[0]));
      if status == Continue {
        LoopFileIs(s1, file1, its[1..]);
      } else {
        LateFile(CountChat(s1, status == Done), file1, its[1..]);
      }
    }
  }

  lemma BeginFile(s: State, file: Option<State>, text: string)
    ensures FileAfter(Live(s, Idle), file, [Begin(text)]) == file
  {
    assert [Begin(text)][..0] == [];
  }

  /** The file after a chat. */
  lemma {:induction false} ChatFile(s: State, file: Option<State>, text: string, its: seq<Iteration>)
    requires Inv(s) && ValidScript(its)
    ensures ValidMoves(ChatMoves(text, its))
    ensures FileAfter(Live(s, Idle), file, ChatMoves(text, its)) == LoopFile(StartChat(s, text), file, its)
  {
    hide Inv, LoopFile, MoveAll, FileAfter, StartChat, LoopMoves;
    StartChatKeeps(s, text);
    LoopMovesAreValid(its);
    LoopFileIs(StartChat(s, text), file, its);
    BeginMove(s, text);
    BeginFile(s, file, text);
    FileAppend(Live(s, Idle), file, [Begin(text)], LoopMoves(its));
  }

  // ---- What a failed chat leaves behind.

  /** The pass in which a loop ends: the state at its head. */
  function LastHead(s: State, its: seq<Iteration>): (State, Iteration)
    requires ValidScript(its) && |its| > 0
    decreases |its|
  {
    var (s1, status) := Iterate(s, its[0], s.userTurn);
    if status == Continue && |its| > 1 then LastHead(s1, its[1..]) else (s, its[0])
  }

  /** The check of a pass records a batch: it is due, there is something to move, and the answer's ids are tracked. */
  predicate Records(s: State, it: Iteration) {
    var moved := Split(s.live, KEEP_RECENT_USER_TURNS).0;
    && Due(s, it.overBudget) && moved != [] && (it.strategy.OneShotAnswer? || it.strategy.CustomAnswer?)
    && FirstOrphan(DeltaOf(it.strategy, moved).members, s.msgCounter).None?
  }

  lemma CheckRecords(s: State, it: Iteration)
    ensures |CompressPhase(s, it).0.batches| == |s.batches| + (if Records(s, it) then 1 else 0)
    ensures s.batches <= CompressPhase(s, it).0.batches
  {
    hide Split, FirstOrphan, Validated, PutAll, CompressionEdit;
  }

  lemma CheckAddsNoMessage(s: State, it: Iteration)
    ensures Created(CompressPhase(s, it).0.trace) == Created(s.trace)
  {
    hide Split, Consult, Created;
    var check := CompressCheck(Due(s, it.overBudget), Trigger(s, it.overBudget));
    var s1 := Emit(s, check);
    ProjectionsOfEmit(s.trace, check);
    if Due(s, it.overBudget) {
      var (moved, kept) := Split(s1.live, KEEP_RECENT_USER_TURNS);
      HistoryPairing.ConsultShape(s1, it.strategy, moved, kept, Trigger(s, it.overBudget), it.now);
      var t := Consult(s1, it.strategy, moved, kept, Trigger(s, it.overBudget), it.now).0.trace;
      if t != s1.trace {
        var e :| HistoryPairing.Neutral(e) && t == s1.trace + [e];
        ProjectionsOfEmit(s1.trace, e);
      }
    }
  }

  lemma RequestKeepsBatches(s: State, it: Iteration)
    ensures RequestPhase(s, it).0.batches == s.batches
  {
  }

  /** A pass that raises has added no message, and a batch exactly if its check recorded one. */
  lemma RaisingPass(s: State, it: Iteration)
    requires ValidIteration(it) && Iterate(s, it, s.userTurn).1 == Aborted
    ensures var s' := Iterate(s, it, s.userTurn).0;
      && Created(s'.trace) == Created(s.trace)
      && |s'.batches| == |s.batches| + (if Records(s, it) then 1 else 0) && s.batches <= s'.batches
  {
    hide CompressPhase, RequestPhase, ReplyPhase, Created, Records;
    CheckRecords(s, it);
    CheckAddsNoMessage(s, it);
    var (s1, raised) := CompressPhase(s, it);
    HistoryWindow.RequestSent(s1, it);
    ProjectionsOfEmit(s1.trace, ProviderRequest(MessagesForModel(s1)));
    RequestKeepsBatches(s1, it);
    var (s2, answer) := RequestPhase(s1, it);
    if !raised && answer.Answered? {
      ReplyGoesOn(s2, it, answer.response, s.userTurn);
    }
  }

  /** The file of a loop that raised: as before when its first pass did, and otherwise the head of the pass that did. */
  lemma {:induction false} RaisedLoop(s: State, file: Option<State>, its: seq<Iteration>)
    requires Inv(s) && s.userTurn >= 1 && ValidScript(its) && RunLoop(s, its, s.userTurn).1 == Aborted
    ensures |its| > 0
    ensures var s' := RunLoop(s, its, s.userTurn).0;
      var (head, it) := LastHead(s, its);
      && Inv(head) && head.userTurn == s.userTurn && Inv(s') && s'.userTurn == s.userTurn
      && Created(s'.trace) == Created(head.trace)
      && |s'.batches| == |head.batches| + (if Records(head, it) then 1 else 0) && head.batches <= s'.batches
      && LoopFile(s, file, its) == (if Iterate(s, its[0], s.userTurn).1 == Aborted then file
                                    else Some(Filed(Live(head, Head))))
      && (Iterate(s, its[0], s.userTurn).1 == Aborted ==> head == s)
    decreases |its|
  {
    hide Inv, Iterate, Created, Records, Filed;
    IterateKeeps(s, its[0]);
    var (s1, status) := Iterate(s, its[0], s.userTurn);
    if status == Continue {
      RaisedLoop(s1, Some(Filed(Live(s1, Head))), its[1..]);
    } else {
      RaisingPass(s, its[0]);
    }
  }

  /** All the messages of a session. */
  function Log(s: State): seq<Message> { s.compressed + s.live }

  lemma StartedLog(s: State, text: string)
    ensures Log(StartChat(s, text)) == Log(s) + [NextMessage(s, s.userTurn + 1, User, Str(text))]
    ensures StartChat(s, text).batches == s.batches && StartChat(s, text).userTurn == s.userTurn + 1
  {
  }

  lemma LogIsCreated(s: State)
    requires Inv(s)
    ensures Log(s) == Created(s.trace)
  {
  }

  /**
   A chat that an exception ends, on a session whose file was up to date, and the resume of that file. The user's
   message is lost if and only if the first pass raised, and then it is all that is lost; otherwise no message is.
   A batch is lost if and only if the pass that raised had recorded one.
   */
  lemma {:induction false} ResumeAfterFailedChat(s: State, text: string, its: seq<Iteration>)
    requires Inv(s) && ValidScript(its)
    requires RunLoop(StartChat(s, text), its, s.userTurn + 1).1 == Aborted
    ensures |its| > 0 && ValidMoves(ChatMoves(text, its))
    ensures FileAfter(Live(s, Idle), Some(Filed(Live(s, Idle))), ChatMoves(text, its)).Some?
    ensures var s0, s' := StartChat(s, text), Chat(s, text, its);
      var r := FileAfter(Live(s, Idle), Some(Filed(Live(s, Idle))), ChatMoves(text, its)).value;
      var (head, it) := LastHead(s0, its);
      && MoveAll(Live(s, Idle), ChatMoves(text, its)) == Live(s', Idle)
      && (Log(r) != Log(s') <==> Iterate(s0, its[0], s0.userTurn).1 == Aborted)
      && (Log(r) != Log(s') ==>
            Log(r) == Log(s) && Log(s') == Log(s) + [NextMessage(s, s.userTurn + 1, User, Str(text))])
      && (r.batches != s'.batches <==> Records(head, it)) && r.batches <= s'.batches
  {
    hide Inv, LoopFile, RunLoop, LastHead, MoveAll, FileAfter, Iterate, ChatMoves, Records, ValidIteration;
    var s0 := StartChat(s, text);
    StartChatKeeps(s, text);
    StartedLog(s, text);
    ChatIsMoves(s, text, its);
    ChatFile(s, Some(Filed(Live(s, Idle))), text, its);
    RaisedLoop(s0, Some(Filed(Live(s, Idle))), its);
    var s' := RunLoop(s0, its, s0.userTurn).0;
    var (head, it) := LastHead(s0, its);
    LogIsCreated(s');
    LogIsCreated(head);
    LogIsCreated(s0);
  }

  // ---- The same on the shared bus, in between the moves of other sessions.

  function OwnMoves(acts: seq<Act>, id: string): seq<Move> {
    if |acts| == 0 then []
    else
      var before, act := OwnMoves(acts[..|acts| - 1], id), acts[|acts| - 1];
      if act.id == id && act.Go? then before + [act.move] else before
  }

  predicate OnlyGoes(acts: seq<Act>, id: string) { forall i :: 0 <= i < |acts| && acts[i].id == id ==> acts[i].Go? }

  function FileBehind(id: string, b: Option<Branch>): Option<State>
    requires ValidBranch(b)
  {
    if b.Some? then Some(LiveOf(id, b.value).state) else None
  }

  lemma ReloadsFile(id: string, b: Branch)
    requires ValidMoves(b.moves)
    ensures ValidMoves(Longer(b, Reload).moves) && LiveOf(id, Longer(b, Reload)) == Live(Filed(LiveOf(id, b)), Idle)
  {
    hide Filed;
    OneMoreMove(id, b, Reload);
  }

  lemma FileTaken(b: Branches, id: string, act: Act)
    requires ValidBranches(b) && ValidAct(act) && b.current.Some? && act.id == id && act.Go?
    ensures var l, b' := LiveOf(id, b.current.value), Taken(b, id, act);
      && b'.current.Some? && LiveOf(id, b'.current.value) == Moved(l, act.move)
      && FileBehind(id, b'.saved)
         == if Saves(l, act.move) then Some(Filed(Moved(l, act.move))) else FileBehind(id, b.saved)
  {
    hide LiveOf, Moved, Saves, Filed, ValidMove;
    var now := b.current.value;
    OneMoreMove(id, now, act.move);
    ReloadsFile(id, Longer(now, act.move));
  }

  lemma OtherTaken(b: Branches, id: string, act: Act)
    requires ValidBranches(b) && ValidAct(act) && act.id != id
    ensures Taken(b, id, act) == b
  {
  }

  /** A session and its file follow its own moves, whatever the others do in between. */
  lemma {:induction false} FileFollows(acts: seq<Act>, more: seq<Act>, id: string)
    requires ValidActs(acts) && ValidActs(more) && Past(acts, id).current.Some? && OnlyGoes(more, id)
    ensures ValidActs(acts + more) && ValidMoves(OwnMoves(more, id))
    ensures var l, b := LiveOf(id, Past(acts, id).current.value), Past(acts + more, id);
      && b.current.Some? && LiveOf(id, b.current.value) == MoveAll(l, OwnMoves(more, id))
      && FileBehind(id, b.saved) == FileAfter(l, FileBehind(id, Past(acts, id).saved), OwnMoves(more, id))
    decreases |more|
  {
    hide LiveOf, Moved, Saves, Filed, ValidMove, Taken, FileBehind, ValidLive;
    if |more| == 0 {
      assert acts + more == acts;
    } else {
      var front, act := more[..|more| - 1], more[|more| - 1];
      assert (acts + more)[..|acts + more| - 1] == acts + front;
      FileFollows(acts, front, id);
      if act.id == id {
        FileTaken(Past(acts + front, id), id, act);
        FileNext(LiveOf(id, Past(acts, id).current.value), FileBehind(id, Past(acts, id).saved), OwnMoves(front, id),
                 act.move);
      } else {
        OtherTaken(Past(acts + front, id), id, act);
      }
    }
  }

  /** A session on the shared bus and by itself have the same messages and batches. */
  lemma AloneLog(l: Live)
    ensures Log(Alone(l).state) == Log(l.state) && Alone(l).state.batches == l.state.batches
  {
  }

  lemma Resumes(acts: seq<Act>, id: string)
    requires ValidActs(acts) && Past(acts, id).saved.Some?
    ensures ValidActs(acts + [Resume(id)]) && id in After(acts + [Resume(id)]).sessions
    ensures After(acts + [Resume(id)]).sessions[id] == Alone(LiveOf(id, Past(acts, id).saved.value))
  {
    hide LiveOf, Past;
    AllSessionsStand(acts, id);
    assert (acts + [Resume(id)])[..|acts|] == acts;
  }

  lemma Stands(acts: seq<Act>, id: string)
    requires ValidActs(acts) && Past(acts, id).current.Some?
    ensures id in After(acts).sessions && After(acts).sessions[id] == Alone(LiveOf(id, Past(acts, id).current.value))
  {
    hide LiveOf, Past, After;
    AllSessionsStand(acts, id);
  }

  /**
   An agent resumes a session after a chat of it that an exception ended, with any moves of other sessions in
   between: it has all the messages it had before the resume if and only if a pass of that chat came to its end.
   */
  lemma {:induction false} AgentResumes(acts: seq<Act>, more: seq<Act>, id: string, text: string, its: seq<Iteration>)
    requires ValidActs(acts) && ValidActs(more) && Past(acts, id).current.Some? && OnlyGoes(more, id)
    requires ValidScript(its) && OwnMoves(more, id) == ChatMoves(text, its)
    requires var l := LiveOf(id, Past(acts, id).current.value);
      && l.stage.Idle? && Inv(l.state) && FileBehind(id, Past(acts, id).saved) == Some(Filed(l))
      && RunLoop(StartChat(l.state, text), its, l.state.userTurn + 1).1 == Aborted
    ensures |its| > 0 && ValidActs(acts + more) && ValidActs(acts + more + [Resume(id)])
    ensures id in After(acts + more).sessions && id in After(acts + more + [Resume(id)]).sessions
    ensures var s0 := StartChat(LiveOf(id, Past(acts, id).current.value).state, text);
      var before, after := After(acts + more).sessions[id].state, After(acts + more + [Resume(id)]).sessions[id].state;
      && (Log(after) == Log(before) <==> Iterate(s0, its[0], s0.userTurn).1 != Aborted)
      && (after.batches == before.batches <==> !Records(LastHead(s0, its).0, LastHead(s0, its).1))
  {
    hide LiveOf, Past, After, RunLoop, StartChat, Iterate, Inv, Filed, FileAfter, MoveAll, Log, Records, LastHead,
         OwnMoves, ChatMoves;
    var s := LiveOf(id, Past(acts, id).current.value).state;
    FileFollows(acts, more, id);
    ResumeAfterFailedChat(s, text, its);
    Stands(acts + more, id);
    Resumes(acts + more, id);
    AloneLog(LiveOf(id, Past(acts + more, id).current.value));
    AloneLog(LiveOf(id, Past(acts + more, id).saved.value));
  }
}
