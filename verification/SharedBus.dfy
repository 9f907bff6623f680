/** One agent whose sessions take turns, move by move, on one event bus, and the saved file of each. */
module SharedBus {
  import opened Prelude
  import opened Types
  import opened IdGenerator
  import opened Splitting
  import opened WorkingMemories
  import opened OneShot
  import opened CompressedStore
  import opened History
  import opened HistoryLog
  import HistoryWindow
  import opened SessionMoves

  // ---- A session does not read the bus.

  /** The session on a bus that carried other events, and asked the provider other things, before. */
  function Behind(s: State, bus: seq<Event>, asked: seq<seq<Message>>): State {
    s.(trace := bus + s.trace, received := asked + s.received)
  }

  lemma EmitBehind(s: State, e: Event, bus: seq<Event>, asked: seq<seq<Message>>)
    ensures Emit(Behind(s, bus, asked), e) == Behind(Emit(s, e), bus, asked)
  {
    assert bus + s.trace + [e] == bus + (s.trace + [e]);
  }

  lemma AppendBehind(s: State, turn: int, role: Role, content: Content, source: Source,
                     bus: seq<Event>, asked: seq<seq<Message>>)
    ensures AppendMessage(Behind(s, bus, asked), turn, role, content, source)
         == Behind(AppendMessage(s, turn, role, content, source), bus, asked)
  {
    var e := MessageCreated(NextMessage(s, turn, role, content), source);
    assert bus + s.trace + [e] == bus + (s.trace + [e]);
  }

  lemma AcceptBehind(s: State, delta: Delta, moved: seq<Message>, kept: seq<Message>, trigger: string, now: DateTime,
                     bus: seq<Event>, asked: seq<seq<Message>>)
    ensures Accept(Behind(s, bus, asked), delta, moved, kept, trigger, now)
         == var (s', o) := Accept(s, delta, moved, kept, trigger, now); (Behind(s', bus, asked), o)
  {
    hide PutAll, CompressionEdit;
    var e := BatchCreated(NewBatch(s, delta, trigger, now));
    assert bus + s.trace + [e] == bus + (s.trace + [e]);
  }

  lemma ConsultBehind(s: State, strategy: StrategyReply, moved: seq<Message>, kept: seq<Message>, trigger: string,
                      now: DateTime, bus: seq<Event>, asked: seq<seq<Message>>)
    ensures Consult(Behind(s, bus, asked), strategy, moved, kept, trigger, now)
         == var (s', o) := Consult(s, strategy, moved, kept, trigger, now); (Behind(s', bus, asked), o)
  {
    hide Accept, FirstOrphan, Validated;
    if strategy.Fails? {
      EmitBehind(s, CompressionFailed(strategy.reason), bus, asked);
    } else if !strategy.StrategyRaises? {
      var delta := DeltaOf(strategy, moved);
      var orphan := FirstOrphan(delta.members, s.msgCounter);
      if orphan.Some? {
        EmitBehind(s, CompressionFailed("orphan_id:" + orphan.value), bus, asked);
      } else {
        AcceptBehind(s, delta, moved, kept, trigger, now, bus, asked);
      }
    }
  }

  lemma CompressPhaseBehind(s: State, it: Iteration, bus: seq<Event>, asked: seq<seq<Message>>)
    ensures CompressPhase(Behind(s, bus, asked), it)
         == var (s', raised) := CompressPhase(s, it); (Behind(s', bus, asked), raised)
  {
    hide Split, Consult;
    var check := CompressCheck(Due(s, it.overBudget), Trigger(s, it.overBudget));
    EmitBehind(s, check, bus, asked);
    var s1 := Emit(s, check);
    var (moved, kept) := Split(s1.live, KEEP_RECENT_USER_TURNS);
    ConsultBehind(s1, it.strategy, moved, kept, Trigger(s, it.overBudget), it.now, bus, asked);
  }

  lemma RequestBehind(s: State, it: Iteration, bus: seq<Event>, asked: seq<seq<Message>>)
    ensures RequestPhase(Behind(s, bus, asked), it)
         == var (s', a) := RequestPhase(s, it); (Behind(s', bus, asked), a)
  {
    hide ApplyFreed;
    EmitBehind(s, ProviderRequest(MessagesForModel(s)), bus, asked);
    var sent := Sent(s, it.preHook);
    assert asked + s.received + [sent] == asked + (s.received + [sent]);
    assert asked + s.received + [sent] + [sent] == asked + (s.received + [sent] + [sent]);
  }

  lemma EndBehind(s: State, it: Iteration, r: Response, turn: int, bus: seq<Event>, asked: seq<seq<Message>>)
    ensures EndOfTurn(Behind(s, bus, asked), it, r, turn) == Behind(EndOfTurn(s, it, r, turn), bus, asked)
  {
    hide AppendMessage;
    var snap := Snapshot(s, it.now);
    if s.memory.Some? {
      EmitBehind(s.(memory := snap.memory), WorkingMemoryUpdated(snap.memory.value), bus, asked);
    }
    EmitBehind(snap, TurnComplete(0), bus, asked);
    AppendBehind(Emit(snap, TurnComplete(0)), turn, Assistant, Blocks(r.content), AssistantReply, bus, asked);
  }

  lemma ToolsBehind(s: State, it: Iteration, r: Response, turn: int, bus: seq<Event>, asked: seq<seq<Message>>)
    requires ValidIteration(it)
    ensures ToolsRan(Behind(s, bus, asked), it, r, turn) == Behind(ToolsRan(s, it, r, turn), bus, asked)
  {
    hide AppendMessage, ToolUseIdsOf, ToolResults, EditMemory;
    var s1 := ToolEffects(s, it);
    AppendBehind(s1, turn, Assistant, Blocks(r.content), AssistantReply, bus, asked);
    var s2 := AppendMessage(s1, turn, Assistant, Blocks(r.content), AssistantReply);
    var results := Blocks(ToolResults(r.content, it.outputs));
    AppendBehind(s2, turn, User, results, ToolResultSource, bus, asked);
    var s3 := AppendMessage(s2, turn, User, results, ToolResultSource);
    EmitBehind(s3, TurnComplete(|ToolUseIdsOf(r.content)|), bus, asked);
  }

  function BehindLive(l: Live, bus: seq<Event>, asked: seq<seq<Message>>): Live {
    l.(state := Behind(l.state, bus, asked))
  }

  lemma AnswerBehind(s: State, it: Iteration, a: History.Answer, bus: seq<Event>, asked: seq<seq<Message>>)
    ensures AfterAnswer(Behind(s, bus, asked), it, a) == BehindLive(AfterAnswer(s, it, a), bus, asked)
  {
    if a.Answered? {
      EmitBehind(s, ProviderResponse(a.response.content, a.response.stop), bus, asked);
    }
  }

  lemma FinishBehind(s: State, it: Iteration, r: Response, bus: seq<Event>, asked: seq<seq<Message>>)
    requires ValidIteration(it)
    ensures AfterFinish(Behind(s, bus, asked), it, r) == BehindLive(AfterFinish(s, it, r), bus, asked)
  {
    hide EndOfTurn, ToolsRan, ToolUseIdsOf;
    EndBehind(s, it, r, s.userTurn, bus, asked);
    ToolsBehind(s, it, r, s.userTurn, bus, asked);
  }

  /** A move does to a session what it does on a bus of its own. */
  lemma {:induction false} MoveBehind(l: Live, m: Move, bus: seq<Event>, asked: seq<seq<Message>>)
    requires ValidLive(l) && ValidMove(m)
    ensures ValidLive(BehindLive(l, bus, asked))
    ensures Moved(BehindLive(l, bus, asked), m) == BehindLive(Moved(l, m), bus, asked)
    ensures Saves(BehindLive(l, bus, asked), m) == Saves(l, m)
  {
    hide CompressPhase, RequestPhase, AppendMessage, AfterAnswer, AfterFinish;
    var s := l.state;
    match m {
      case Begin(text) =>
        AppendBehind(s.(userTurn := s.userTurn + 1), s.userTurn + 1, User, Str(text), UserInput, bus, asked);
      case Check(it) => CompressPhaseBehind(s, it, bus, asked);
      case Request =>
        if l.stage.Checked? {
          RequestBehind(s, l.stage.it, bus, asked);
        }
      case Answer =>
        if l.stage.Requested? {
          AnswerBehind(s, l.stage.it, l.stage.answer, bus, asked);
        }
      case Finish =>
        if l.stage.Announced? {
          FinishBehind(s, l.stage.it, l.stage.response, bus, asked);
        }
      case _ =>
    }
  }

  function Alone(l: Live): Live { l.(state := l.state.(trace := [], received := [])) }

  /** What a move announces. */
  function News(l: Live, m: Move): seq<Event>
    requires ValidLive(l) && ValidMove(m)
  {
    Moved(Alone(l), m).state.trace
  }

  /** A move on a bus with other events, and on the bus of the session's own run. */
  lemma {:induction false} MoveAnywhere(l: Live, m: Move, bus: seq<Event>)
    requires ValidLive(l) && ValidMove(m)
    ensures var here := Alone(l).(state := Alone(l).state.(trace := bus));
      && ValidLive(here)
      && Alone(Moved(here, m)) == Alone(Moved(l, m)) && Saves(here, m) == Saves(l, m)
      && Moved(here, m).state.trace == bus + News(l, m)
      && Moved(l, m).state.trace == l.state.trace + News(l, m)
  {
    hide Moved, Saves;
    var here := Alone(l).(state := Alone(l).state.(trace := bus));
    assert here == BehindLive(Alone(l), bus, []);
    assert l == BehindLive(Alone(l), l.state.trace, l.state.received);
    MoveBehind(Alone(l), m, bus, []);
    MoveBehind(Alone(l), m, l.state.trace, l.state.received);
  }

  // ---- Several sessions.

  /** An event of the bus under the id of its session. */
  datatype Tagged = Tagged(sessionId: string, event: Event)

  /** The sessions and the saved file of each, both without the bus, and the bus that all of them share. */
  datatype Agent = Agent(sessions: map<string, Live>, saved: map<string, State>, bus: seq<Tagged>)

  /** new_session; a move of an open session; resume, also by a new process, of whatever its file holds. */
  datatype Act = Open(id: string, memory: Option<Memory>) | Go(id: string, move: Move) | Resume(id: string)

  predicate ValidAct(act: Act) { act.Go? ==> ValidMove(act.move) }

  predicate ValidActs(acts: seq<Act>) { forall i :: 0 <= i < |acts| ==> ValidAct(acts[i]) }

  predicate ValidAgent(a: Agent) { forall id :: id in a.sessions ==> ValidLive(a.sessions[id]) }

  function BusOf(bus: seq<Tagged>): seq<Event> { Map(bus, (t: Tagged) => t.event) }

  function Tag(id: string, es: seq<Event>): seq<Tagged> { Map(es, (e: Event) => Tagged(id, e)) }

  /** The file of a session; the bus is not part of it. */
  function FileOf(l: Live): State { Filed(Alone(l)) }

  /** A move on the shared bus; its new events carry the session's id. */
  function GoOn(a: Agent, id: string, m: Move): (a': Agent)
    requires ValidAgent(a) && ValidMove(m) && id in a.sessions
    ensures ValidAgent(a')
  {
    var l := a.sessions[id].(state := a.sessions[id].state.(trace := BusOf(a.bus), received := []));
    var l' := Moved(l, m);
    var news := if |l'.state.trace| < |a.bus| then [] else l'.state.trace[|a.bus|..];
    Agent(a.sessions[id := Alone(l')], if Saves(l, m) then a.saved[id := FileOf(l')] else a.saved,
          a.bus + Tag(id, news))
  }

  function Acted(a: Agent, act: Act): (a': Agent)
    requires ValidAgent(a) && ValidAct(act)
    ensures ValidAgent(a')
  {
    match act
    case Open(id, memory) => a.(sessions := a.sessions[id := NewLive(id, memory)])
    case Go(id, m) => if id in a.sessions then GoOn(a, id, m) else a
    case Resume(id) => if id in a.saved then a.(sessions := a.sessions[id := Live(a.saved[id], Idle)]) else a
  }

  function After(acts: seq<Act>): (a: Agent)
    requires ValidActs(acts)
    ensures ValidAgent(a)
  {
    if |acts| == 0 then Agent(map[], map[], []) else Acted(After(acts[..|acts| - 1]), acts[|acts| - 1])
  }

  // ---- Each session by itself.

  /** The moves behind a session, from its opening on; a resume goes back to those behind its file. */
  datatype Branch = Branch(memory: Option<Memory>, moves: seq<Move>)

  /** The moves behind a session, and those behind its file. */
  datatype Branches = Branches(current: Option<Branch>, saved: Option<Branch>)

  predicate ValidBranch(b: Option<Branch>) { b.Some? ==> ValidMoves(b.value.moves) }

  predicate ValidBranches(b: Branches) { ValidBranch(b.current) && ValidBranch(b.saved) }

  function LiveOf(id: string, b: Branch): (l: Live)
    requires ValidMoves(b.moves)
    ensures ValidLive(l)
  {
    MoveAll(NewLive(id, b.memory), b.moves)
  }

  function Longer(b: Branch, m: Move): Branch { b.(moves := b.moves + [m]) }

  function Taken(b: Branches, id: string, act: Act): (b': Branches)
    requires ValidBranches(b) && ValidAct(act)
    ensures ValidBranches(b')
  {
    if act.id != id then b
    else
      match act
      case Open(_, memory) => b.(current := Some(Branch(memory, [])))
      case Go(_, m) =>
        if b.current.None? then b
        else
          var now := Longer(b.current.value, m);
          if Saves(LiveOf(id, b.current.value), m) then Branches(Some(now), Some(Longer(now, Reload)))
          else b.(current := Some(now))
      case Resume(_) => if b.saved.None? then b else b.(current := b.saved)
  }

  /** What a session has been through, whatever the agent's other sessions did in between. */
  function Past(acts: seq<Act>, id: string): (b: Branches)
    requires ValidActs(acts)
    ensures ValidBranches(b)
  {
    if |acts| == 0 then Branches(None, None) else Taken(Past(acts[..|acts| - 1], id), id, acts[|acts| - 1])
  }

  lemma OneMoreMove(id: string, b: Branch, m: Move)
    requires ValidMoves(b.moves) && ValidMove(m)
    ensures ValidMoves(Longer(b, m).moves) && LiveOf(id, Longer(b, m)) == Moved(LiveOf(id, b), m)
  {
    hide Moved;
    assert (b.moves + [m])[..|b.moves|] == b.moves;
  }

  ghost predicate SessionStands(a: Agent, id: string, b: Option<Branch>)
    requires ValidBranch(b)
  {
    && (id in a.sessions <==> b.Some?)
    && (b.Some? ==> a.sessions[id] == Alone(LiveOf(id, b.value)))
  }

  ghost predicate FileStands(a: Agent, id: string, b: Option<Branch>)
    requires ValidBranch(b)
  {
    && (id in a.saved <==> b.Some?)
    && (b.Some? ==> Live(a.saved[id], Idle) == Alone(LiveOf(id, b.value)))
  }

  ghost predicate AllStand(a: Agent, id: string, b: Branches)
    requires ValidBranches(b)
  {
    SessionStands(a, id, b.current) && FileStands(a, id, b.saved)
  }

  lemma FileIsAlone(a: Live, b: Live)
    requires Alone(a) == Alone(b)
    ensures FileOf(a) == FileOf(b)
  {
  }

  /** What a move on the shared bus leaves, in terms of the session by itself. */
  lemma GoOnIs(a: Agent, id: string, l: Live, m: Move)
    requires ValidAgent(a) && ValidLive(l) && ValidMove(m) && id in a.sessions && a.sessions[id] == Alone(l)
    ensures var a', l' := GoOn(a, id, m), Moved(l, m);
      && a'.sessions == a.sessions[id := Alone(l')]
      && a'.saved == (if Saves(l, m) then a.saved[id := FileOf(l')] else a.saved)
      && a'.bus == a.bus + Tag(id, News(l, m))
  {
    hide Moved, Saves, Filed;
    MoveAnywhere(l, m, BusOf(a.bus));
    var here := Alone(l).(state := Alone(l).state.(trace := BusOf(a.bus)));
    assert here == a.sessions[id].(state := a.sessions[id].state.(trace := BusOf(a.bus), received := []));
    assert Moved(here, m).state.trace[|a.bus|..] == News(l, m);
    FileIsAlone(Moved(here, m), Moved(l, m));
  }

  /** Loading a file that was just written. */
  lemma ReloadIsFile(l: Live)
    requires ValidLive(l)
    ensures Alone(Moved(l, Reload)) == Live(FileOf(l), Idle)
  {
  }

  /** A move of the session itself. */
  lemma GoStands(a: Agent, id: string, b: Branches, m: Move)
    requires ValidAgent(a) && ValidBranches(b) && ValidMove(m) && AllStand(a, id, b)
    ensures AllStand(Acted(a, Go(id, m)), id, Taken(b, id, Go(id, m)))
  {
    hide Moved, Saves, GoOn, LiveOf, Filed, ValidLive;
    if b.current.Some? {
      var now := b.current.value;
      GoOnIs(a, id, LiveOf(id, now), m);
      OneMoreMove(id, now, m);
      OneMoreMove(id, Longer(now, m), Reload);
      ReloadIsFile(LiveOf(id, Longer(now, m)));
    }
  }

  /** A move of another session. */
  lemma OtherGoes(a: Agent, id: string, b: Branches, other: string, m: Move)
    requires ValidAgent(a) && ValidBranches(b) && ValidMove(m) && AllStand(a, id, b) && other != id
    ensures AllStand(Acted(a, Go(other, m)), id, b)
  {
    hide Moved, Saves, LiveOf, Filed, ValidMove, ValidLive;
  }

  lemma OpenStands(a: Agent, id: string, b: Branches, other: string, memory: Option<Memory>)
    requires ValidAgent(a) && ValidBranches(b) && AllStand(a, id, b)
    ensures AllStand(Acted(a, Open(other, memory)), id, Taken(b, id, Open(other, memory)))
  {
  }

  lemma ResumeStands(a: Agent, id: string, b: Branches, other: string)
    requires ValidAgent(a) && ValidBranches(b) && AllStand(a, id, b)
    ensures AllStand(Acted(a, Resume(other)), id, Taken(b, id, Resume(other)))
  {
    hide LiveOf;
  }

  lemma ActStands(a: Agent, id: string, b: Branches, act: Act)
    requires ValidAgent(a) && ValidBranches(b) && ValidAct(act) && AllStand(a, id, b)
    ensures AllStand(Acted(a, act), id, Taken(b, id, act))
  {
    hide AllStand, Acted, ValidMove, ValidLive, LiveOf, Saves;
    match act {
      case Open(other, memory) => OpenStands(a, id, b, other, memory);
      case Go(other, m) =>
        if other == id {
          GoStands(a, id, b, m);
        } else {
          OtherGoes(a, id, b, other, m);
        }
      case Resume(other) => ResumeStands(a, id, b, other);
    }
  }

  lemma {:induction false} AllSessionsStand(acts: seq<Act>, id: string)
    requires ValidActs(acts)
    ensures AllStand(After(acts), id, Past(acts, id))
  {
    hide Acted, Taken, LiveOf, ValidAct, ValidAgent;
    if |acts| > 0 {
      var before := acts[..|acts| - 1];
      AllSessionsStand(before, id);
      ActStands(After(before), id, Past(before, id), acts[|acts| - 1]);
    }
  }

  /**
   Whatever an agent's sessions do, move by move in any order on their shared bus, each is at every moment where its
   own moves alone would have brought it: those since it was opened or, after a resume, those behind its file; and so
   is its file.
   */
  lemma {:induction false} SessionsDoNotInterfere(acts: seq<Act>, id: string)
    requires ValidActs(acts)
    ensures var b := Past(acts, id);
      && (id in After(acts).sessions <==> b.current.Some?) && (id in After(acts).saved <==> b.saved.Some?)
      && (b.current.Some? ==>
            After(acts).sessions[id] == Alone(MoveAll(NewLive(id, b.current.value.memory), b.current.value.moves)))
      && (b.saved.Some? ==>
            Live(After(acts).saved[id], Idle) == Alone(MoveAll(NewLive(id, b.saved.value.memory), b.saved.value.moves)))
  {
    AllSessionsStand(acts, id);
    hide After, Past, MoveAll;
  }

  // ---- The events of one session.

  function EventsOf(bus: seq<Tagged>, id: string): seq<Event> {
    if |bus| == 0 then []
    else
      var before := EventsOf(bus[..|bus| - 1], id);
      if bus[|bus| - 1].sessionId == id then before + [bus[|bus| - 1].event] else before
  }

  lemma OneEvent(bus: seq<Tagged>, t: Tagged, id: string)
    ensures EventsOf(bus + [t], id) == EventsOf(bus, id) + (if t.sessionId == id then [t.event] else [])
  {
    assert (bus + [t])[..|bus|] == bus;
  }

  lemma {:induction false} EventsAppend(bus: seq<Tagged>, news: seq<Event>, who: string, id: string)
    ensures EventsOf(bus + Tag(who, news), id) == EventsOf(bus, id) + (if who == id then news else [])
  {
    hide EventsOf;
    if |news| == 0 {
      assert bus + Tag(who, news) == bus;
    } else {
      var front, last := news[..|news| - 1], news[|news| - 1];
      EventsAppend(bus, front, who, id);
      assert bus + Tag(who, news) == bus + Tag(who, front) + [Tagged(who, last)];
      OneEvent(bus + Tag(who, front), Tagged(who, last), id);
      assert news == front + [last];
    }
  }

  /** What an act announces for a session. */
  function Said(b: Branches, id: string, act: Act): seq<Event>
    requires ValidBranches(b) && ValidAct(act)
  {
    if act.id == id && act.Go? && b.current.Some? then News(LiveOf(id, b.current.value), act.move) else []
  }

  lemma {:induction false} ActSays(a: Agent, id: string, b: Branches, act: Act)
    requires ValidAgent(a) && ValidBranches(b) && ValidAct(act) && AllStand(a, id, b)
    requires act.id in a.sessions ==> exists l :: ValidLive(l) && a.sessions[act.id] == Alone(l)
    ensures EventsOf(Acted(a, act).bus, id) == EventsOf(a.bus, id) + Said(b, id, act)
  {
    hide Moved, GoOn, LiveOf, EventsOf, News, ValidLive, ValidMove;
    if act.Go? && act.id in a.sessions {
      var l :| ValidLive(l) && a.sessions[act.id] == Alone(l);
      if act.id == id {
        l := LiveOf(id, b.current.value);
      }
      GoOnIs(a, act.id, l, act.move);
      EventsAppend(a.bus, News(l, act.move), act.id, id);
    }
  }

  lemma {:induction false} NextSays(acts: seq<Act>, act: Act, id: string)
    requires ValidActs(acts) && ValidAct(act)
    ensures ValidActs(acts + [act]) && Past(acts + [act], id) == Taken(Past(acts, id), id, act)
    ensures EventsOf(After(acts + [act]).bus, id) == EventsOf(After(acts).bus, id) + Said(Past(acts, id), id, act)
  {
    hide Acted, Taken, LiveOf, ValidAgent, Said, EventsOf;
    assert (acts + [act])[..|acts|] == acts;
    AllSessionsStand(acts, id);
    AllSessionsStand(acts, act.id);
    ActSays(After(acts), id, Past(acts, id), act);
  }

  /** What the session has announced, as far as its present state goes back; nothing before it is opened. */
  function TraceOf(id: string, b: Option<Branch>): seq<Event>
    requires ValidBranch(b)
  {
    if b.Some? then LiveOf(id, b.value).state.trace else []
  }

  /** The act takes back nothing that the session has announced. */
  predicate Keeps(b: Branches, id: string, act: Act)
    requires ValidBranches(b) && ValidAct(act)
  {
    match act
    case Open(other, _) => other == id ==> TraceOf(id, b.current) == []
    case Go(_, _) => true
    case Resume(other) => other == id && b.saved.Some? ==> TraceOf(id, b.saved) == TraceOf(id, b.current)
  }

  predicate NothingTakenBack(acts: seq<Act>, id: string)
    requires ValidActs(acts)
  {
    |acts| > 0 ==>
      && NothingTakenBack(acts[..|acts| - 1], id)
      && Keeps(Past(acts[..|acts| - 1], id), id, acts[|acts| - 1])
  }

  lemma FreshBranch(id: string, memory: Option<Memory>)
    ensures LiveOf(id, Branch(memory, [])).state.trace == []
  {
  }

  lemma TakenTrace(b: Branches, id: string, act: Act)
    requires ValidBranches(b) && ValidAct(act) && Keeps(b, id, act)
    ensures TraceOf(id, Taken(b, id, act).current) == TraceOf(id, b.current) + Said(b, id, act)
  {
    hide LiveOf, News, Saves, Moved;
    if act.id == id {
      match act {
        case Open(_, memory) => FreshBranch(id, memory);
        case Go(_, m) =>
          if b.current.Some? {
            OneMoreMove(id, b.current.value, m);
            MoveAnywhere(LiveOf(id, b.current.value), m, []);
          }
        case Resume(_) =>
      }
    }
  }

  lemma NothingAnnounced(id: string)
    ensures EventsOf(After([]).bus, id) == TraceOf(id, Past([], id).current) == []
  {
  }

  /** Unless announced things are taken back, a session's events on the shared bus are those of its own moves. */
  lemma {:induction false} EventsAreItsOwn(acts: seq<Act>, id: string)
    requires ValidActs(acts) && NothingTakenBack(acts, id)
    ensures EventsOf(After(acts).bus, id) == TraceOf(id, Past(acts, id).current)
  {
    hide Acted, Taken, Keeps, Said, TraceOf;
    if |acts| == 0 {
      NothingAnnounced(id);
    } else {
      var before, act := acts[..|acts| - 1], acts[|acts| - 1];
      assert acts == before + [act];
      EventsAreItsOwn(before, id);
      NextSays(before, act, id);
      TakenTrace(Past(before, id), id, act);
    }
  }

  lemma LogIsNumbered(s: State)
    requires Inv(s)
    ensures s.compressed + s.live == Created(s.trace) && |s.compressed + s.live| == s.msgCounter
    ensures forall i :: 0 <= i < s.msgCounter ==> (s.compressed + s.live)[i].id == Some(MsgId(i + 1))
  {
    forall i | 0 <= i < s.msgCounter ensures (s.compressed + s.live)[i].id == Some(MsgId(i + 1)) {
      assert HistoryLog.Stamped(Created(s.trace)[i], i, s.userTurn);
    }
  }

  lemma GoodIsSound(l: Live)
    requires Good(l)
    ensures Inv(l.state) && HistoryWindow.Turns(l.state.live) <= 5 + l.state.turnsSince + l.state.aborted
  {
    hide Inv;
  }

  /**
   At every moment each session of the agent has its whole history, numbered without gaps, in its store and its
   window, and a window within its bound; and the history is what the shared bus announced under the session's id,
   unless announced things were taken back.
   */
  lemma {:induction false} EachHistoryIsComplete(acts: seq<Act>, id: string)
    requires ValidActs(acts) && id in After(acts).sessions
    ensures var s := After(acts).sessions[id].state;
      && |s.compressed + s.live| == s.msgCounter
      && (forall i :: 0 <= i < s.msgCounter ==> (s.compressed + s.live)[i].id == Some(MsgId(i + 1)))
      && HistoryWindow.Turns(s.live) <= 5 + s.turnsSince + s.aborted
      && (NothingTakenBack(acts, id) ==> Created(EventsOf(After(acts).bus, id)) == s.compressed + s.live)
  {
    hide MoveAll, After, Past, NothingTakenBack, Created, EventsOf, Good, Inv;
    SessionsDoNotInterfere(acts, id);
    var b := Past(acts, id).current.value;
    MovesAreGood(id, b.memory, b.moves);
    GoodIsSound(LiveOf(id, b));
    LogIsNumbered(LiveOf(id, b).state);
    if NothingTakenBack(acts, id) {
      EventsAreItsOwn(acts, id);
    }
  }
}
