/** What a recorded batch says against the strategy's answer, and what listing every moved message is good for. */
module Recording {
  import opened Prelude
  import opened Types
  import opened IdGenerator
  import opened Splitting
  import opened WorkingMemories
  import opened OneShot
  import opened CompressedStore
  import opened History
  import opened HistoryLog
  import opened HistoryBatches
  import opened FailedChat
  import opened Replay
  import opened ReplayOfRun

  // ---- One batch.

  /** A member that the bundled strategy's contract accepts. */
  predicate Acceptable(item: RawMember, shown: seq<Message>) {
    && ((forall m :: m in shown ==> !HasId(m)) || exists m :: m in shown && HasId(m) && m.id.value == item.id)
    && item.role in {"user", "assistant", "tool"}
  }

  /** The turn that a member gets when the answer gives none: that of the last shown message with its id. */
  ghost predicate TurnLookedUp(id: string, turn: Option<int>, shown: seq<Message>) {
    if exists m :: m in shown && HasId(m) && m.id.value == id then
      exists j :: 0 <= j < |shown| && shown[j].id == Some(id) && turn == shown[j].turn
                  && forall k :: j < k < |shown| ==> shown[k].id != Some(id)
    else turn == None
  }

  /** The members are the longest acceptable beginning of those in the answer. */
  ghost predicate Beginning(raw: seq<RawMember>, members: seq<BatchMember>, shown: seq<Message>) {
    && |members| <= |raw| && (|members| < |raw| ==> !Acceptable(raw[|members|], shown))
    && forall i :: 0 <= i < |members| ==>
         && Acceptable(raw[i], shown)
         && members[i].id == raw[i].id && members[i].role == raw[i].role && members[i].preview == raw[i].preview
         && if raw[i].turn.Some? then members[i].turn == raw[i].turn
            else TurnLookedUp(raw[i].id, members[i].turn, shown)
  }

  /** What the strategy's answer, given for the shown messages, puts into a batch. */
  ghost predicate AnswerTold(strategy: StrategyReply, shown: seq<Message>, b: Batch) {
    match strategy
    case OneShotAnswer(raw) => Beginning(raw.members, b.members, shown) && b.summary == JNull
    case CustomAnswer(delta) => b.members == delta.members && b.summary == delta.summary
    case _ => false
  }

  /** All the operations of a bundled answer are taken, or none if any part of it breaks the contract. */
  ghost predicate OpsTaken(raw: RawDelta, shown: seq<Message>, ops: seq<Op>) {
    ops == if (forall item :: item in raw.members ==> Acceptable(item, shown))
              && (forall op :: op in raw.ops ==> ValidOp(op)) then raw.ops else []
  }

  predicate EditTold(m: Memory, ops: seq<Op>, now: DateTime, after: Option<Memory>, raised: bool) {
    CompressionEdit(m, ops, now) == (if after.Some? then after.value else m, raised) && after.Some?
  }

  /** The working memory after an accepted answer is the one before with the answer's operations. */
  ghost predicate MemoryTold(strategy: StrategyReply, shown: seq<Message>, before: Option<Memory>, now: DateTime,
                             after: Option<Memory>, raised: bool)
  {
    if before.None? then after.None? && !raised
    else
      match strategy
      case OneShotAnswer(raw) =>
        exists ops :: OpsTaken(raw, shown, ops) && EditTold(before.value, ops, now, after, raised)
      case CustomAnswer(delta) => EditTold(before.value, delta.ops, now, after, raised)
      case _ => false
  }

  lemma AcceptableIsValid(item: RawMember, shown: seq<Message>)
    ensures Acceptable(item, shown) <==> ValidMember(item, shown)
  {
    if m :| m in shown && HasId(m) {
      assert m.id.value in Ids(shown);
    }
    if Ids(shown) != {} {
      var id :| id in Ids(shown);
    }
  }

  lemma {:induction false} TurnIsLookedUp(shown: seq<Message>, id: string)
    ensures TurnLookedUp(id, TurnOf(shown, id), shown)
  {
    if |shown| > 0 {
      var front, last := shown[..|shown| - 1], shown[|shown| - 1];
      TurnIsLookedUp(front, id);
      assert shown == front + [last];
      if id != "" && last.id == Some(id) {
        assert last in shown && shown[|front|].id == Some(id);
      } else if m :| m in shown && HasId(m) && m.id.value == id {
        assert m in front;
        var j :| 0 <= j < |front| && front[j].id == Some(id) && TurnOf(shown, id) == front[j].turn
                 && forall k :: j < k < |front| ==> front[k].id != Some(id);
        assert shown[j] == front[j];
      }
    }
  }

  lemma ValidatedIsBeginning(raw: RawDelta, shown: seq<Message>)
    ensures Beginning(raw.members, Validated(raw, shown).members, shown)
  {
    hide Acceptable, TurnLookedUp, ValidMember, TurnOf;
    var n := ValidPrefix(raw.members, shown);
    forall i | 0 <= i < |raw.members|
      ensures Acceptable(raw.members[i], shown) <==> ValidMember(raw.members[i], shown)
    {
      AcceptableIsValid(raw.members[i], shown);
    }
    forall i | 0 <= i < n ensures raw.members[i].turn.None? ==>
      TurnLookedUp(raw.members[i].id, TurnOf(shown, raw.members[i].id), shown)
    {
      TurnIsLookedUp(shown, raw.members[i].id);
    }
  }

  /** A recorded answer moves what was split off and resets the count, unless one of its operations raised. */
  ghost predicate MovedTold(s: State, s': State, raised: bool) {
    var (moved, kept) := Split(s.live, KEEP_RECENT_USER_TURNS);
    if raised then s'.live == s.live && s'.compressed == s.compressed && s'.turnsSince == s.turnsSince
    else s'.live == kept && s'.compressed == PutAll(s.compressed, moved) && s'.turnsSince == 0
  }

  /** What a check adds to a session when it records a batch, and when it does not. */
  ghost predicate Recorded(s: State, it: Iteration, s': State, raised: bool) {
    if Records(s, it) then
      && MovedTold(s, s', raised)
      && |s'.trace| == |s.trace| + 2 && s'.trace[..|s.trace|] == s.trace
      && s'.trace[|s.trace|].CompressCheck? && s'.trace[|s.trace|].should && s'.trace[|s.trace| + 1].BatchCreated?
      && var b := s'.trace[|s.trace| + 1].batch;
      && s'.batches == s.batches + [b] && b.sessionId == s.sessionId && b.batchId == BatchId(s.batchCounter + 1)
      && b.trigger == s'.trace[|s.trace|].reason && b.createdAt == it.now
      && AnswerTold(it.strategy, Split(s.live, KEEP_RECENT_USER_TURNS).0, b)
      && MemoryTold(it.strategy, Split(s.live, KEEP_RECENT_USER_TURNS).0, s.memory, it.now, s'.memory, raised)
    else s'.batches == s.batches
  }

  lemma ConsultRecords(
      s: State, strategy: StrategyReply, moved: seq<Message>, kept: seq<Message>, trigger: string, now: DateTime)
    ensures var s' := Consult(s, strategy, moved, kept, trigger, now).0;
      if (strategy.OneShotAnswer? || strategy.CustomAnswer?)
         && FirstOrphan(DeltaOf(strategy, moved).members, s.msgCounter).None?
      then
        var b := NewBatch(s, DeltaOf(strategy, moved), trigger, now);
        && s'.batches == s.batches + [b] && s'.trace == s.trace + [BatchCreated(b)]
        && s'.memory == if s.memory.None? then None
                        else Some(CompressionEdit(s.memory.value, DeltaOf(strategy, moved).ops, now).0)
      else s'.batches == s.batches
    ensures var (s', o) := Consult(s, strategy, moved, kept, trigger, now);
      (strategy.OneShotAnswer? || strategy.CustomAnswer?)
      && FirstOrphan(DeltaOf(strategy, moved).members, s.msgCounter).None? ==>
        && s'.live == s.live
        && (o.Raised? <==> s.memory.Some? && CompressionEdit(s.memory.value, DeltaOf(strategy, moved).ops, now).1)
        && (o.Raised? ==> s'.compressed == s.compressed && s'.turnsSince == s.turnsSince)
        && (!o.Raised? ==> o == Replace(kept) && s'.compressed == PutAll(s.compressed, moved) && s'.turnsSince == 0)
  {
    hide FirstOrphan, PutAll, CompressionEdit, Validated;
  }

  lemma ValidatedSummary(raw: RawDelta, shown: seq<Message>)
    ensures Validated(raw, shown).summary == JNull
  {
  }

  lemma ValidatedOps(raw: RawDelta, shown: seq<Message>)
    ensures OpsTaken(raw, shown, Validated(raw, shown).ops)
  {
    hide Acceptable, ValidMember, ValidOp;
    var n := ValidPrefix(raw.members, shown);
    forall i | 0 <= i < |raw.members|
      ensures Acceptable(raw.members[i], shown) <==> ValidMember(raw.members[i], shown)
    {
      AcceptableIsValid(raw.members[i], shown);
    }
    if n < |raw.members| {
      assert raw.members[n] in raw.members;
    }
    if i :| 0 <= i < |raw.ops| && !ValidOp(raw.ops[i]) {
      assert raw.ops[i] in raw.ops;
    }
  }

  /**
   An accepted answer records exactly one batch, under the session and the next number, with the reason that the check
   gave and with what the answer says: of a bundled answer the longest acceptable beginning, of another one all.
   */
  lemma {:induction false} BatchIsTheAnswers(s: State, it: Iteration)
    ensures Recorded(s, it, CompressPhase(s, it).0, CompressPhase(s, it).1)
  {
    hide Consult, Split, FirstOrphan, Validated, Beginning, OpsTaken, CompressionEdit;
    var s1 := Emit(s, CompressCheck(Due(s, it.overBudget), Trigger(s, it.overBudget)));
    if Due(s, it.overBudget) {
      var (moved, kept) := Split(s1.live, KEEP_RECENT_USER_TURNS);
      ConsultRecords(s1, it.strategy, moved, kept, Trigger(s, it.overBudget), it.now);
      if it.strategy.OneShotAnswer? {
        ValidatedIsBeginning(it.strategy.raw, moved);
        ValidatedSummary(it.strategy.raw, moved);
        ValidatedOps(it.strategy.raw, moved);
      }
    }
  }

  /** With the bundled strategy every answer to a due check with something to move is recorded. */
  lemma BundledAnswersAreRecorded(s: State, it: Iteration)
    requires Inv(s) && it.strategy.OneShotAnswer?
    ensures Records(s, it) <==> Due(s, it.overBudget) && Split(s.live, KEEP_RECENT_USER_TURNS).0 != []
  {
    hide Split, Validated, FirstOrphan;
    BundledIsNeverOrphaned(s, it.strategy.raw);
  }

  // ---- Answers that are not taken.

  /** The orphan check names the first member whose id looks like a message's and was never given out. */
  lemma {:induction false} FirstOrphanIs(members: seq<BatchMember>, counter: nat)
    ensures FirstOrphan(members, counter).Some? <==>
      counter > 0 && exists i :: 0 <= i < |members| && Orphan(members[i].id, counter)
    ensures FirstOrphan(members, counter).Some? ==>
      exists i :: 0 <= i < |members| && members[i].id == FirstOrphan(members, counter).value
                  && Orphan(members[i].id, counter) && forall j :: 0 <= j < i ==> !Orphan(members[j].id, counter)
  {
    hide Orphan;
    if |members| > 0 && counter > 0 && !Orphan(members[0].id, counter) {
      FirstOrphanIs(members[1..], counter);
      assert forall i :: 1 <= i < |members| ==> members[i] == members[1..][i - 1];
      if FirstOrphan(members[1..], counter).Some? {
        var i :| 0 <= i < |members[1..]| && members[1..][i].id == FirstOrphan(members[1..], counter).value
                 && Orphan(members[1..][i].id, counter)
                 && forall j :: 0 <= j < i ==> !Orphan(members[1..][j].id, counter);
        assert members[i + 1].id == FirstOrphan(members, counter).value;
      }
    }
  }

  /** The session is as it was but for the announcements. */
  predicate OnlyAnnounced(s: State, s': State) { s' == s.(trace := s'.trace) }

  /**
   A due check that records no batch leaves the session as it was. It announces why: the strategy's own reason, or the
   first orphan of its answer; with nothing to move it is quiet and the turn count begins anew.
   */
  lemma {:induction false} RefusalsAreTold(s: State, it: Iteration)
    requires Due(s, it.overBudget) && !Records(s, it)
    ensures var (s', raised) := CompressPhase(s, it);
      var moved := Split(s.live, KEEP_RECENT_USER_TURNS).0;
      && |s'.trace| > |s.trace| && s'.trace[..|s.trace|] == s.trace
      && (moved == [] ==>
            !raised && OnlyAnnounced(s.(turnsSince := 0, aborted := 0), s') && |s'.trace| == |s.trace| + 1)
      && (moved != [] ==> OnlyAnnounced(s, s') && (raised <==> it.strategy.StrategyRaises?))
      && (moved != [] && it.strategy.Fails? ==>
            |s'.trace| == |s.trace| + 2 && s'.trace[|s.trace| + 1] == CompressionFailed(it.strategy.reason))
      && (moved != [] && (it.strategy.OneShotAnswer? || it.strategy.CustomAnswer?) ==>
            var orphan := FirstOrphan(DeltaOf(it.strategy, moved).members, s.msgCounter);
            orphan.Some? && |s'.trace| == |s.trace| + 2
            && s'.trace[|s.trace| + 1] == CompressionFailed("orphan_id:" + orphan.value))
  {
    hide Split, FirstOrphan, Validated;
  }

  // ---- Answers that list all that is moved.

  /** If the check of this pass records a batch, its answer lists every moved message and has no bad member. */
  predicate ListsAll(s: State, it: Iteration) {
    Records(s, it) ==>
      && it.strategy.OneShotAnswer?
      && var moved := Split(s.live, KEEP_RECENT_USER_TURNS).0;
      && (forall item :: item in it.strategy.raw.members ==> Acceptable(item, moved))
      && forall m :: m in moved && HasId(m) ==> exists item :: item in it.strategy.raw.members && item.id == m.id.value
  }

  predicate ListsAllInLoop(s: State, its: seq<Iteration>)
    requires ValidScript(its)
    decreases |its|
  {
    |its| > 0 ==>
      && ListsAll(s, its[0])
      && var (s1, status) := Iterate(s, its[0], s.userTurn);
         (status == Continue ==> ListsAllInLoop(s1, its[1..]))
  }

  predicate ListsAllInStep(s: State, st: Step)
    requires ValidStep(st)
  {
    st.ChatStep? ==> ListsAllInLoop(StartChat(s, st.text), st.script)
  }

  predicate ListsAllInRun(s: State, steps: seq<Step>)
    requires ValidRun(steps)
  {
    |steps| > 0 ==>
      && ListsAllInRun(s, steps[..|steps| - 1])
      && ListsAllInStep(Run(s, steps[..|steps| - 1]), steps[|steps| - 1])
  }

  /** Every stored message is a member of some batch. */
  predicate AllListed(s: State) {
    forall i :: 0 <= i < |s.compressed| ==> Listed(s.compressed[i], MemberIds(s.batches))
  }

  lemma MembersOfMore(bs: seq<Batch>, b: Batch)
    ensures MemberIds(bs + [b]) == MemberIds(bs) + (set m | m in b.members :: m.id)
  {
    forall id | id in MemberIds(bs + [b]) ensures id in MemberIds(bs) + (set m | m in b.members :: m.id) {
      var x, m :| x in bs + [b] && m in x.members && m.id == id;
    }
    forall id | id in MemberIds(bs) ensures id in MemberIds(bs + [b]) {
      var x, m :| x in bs && m in x.members && m.id == id;
      assert x in bs + [b];
    }
    forall id | id in (set m | m in b.members :: m.id) ensures id in MemberIds(bs + [b]) {
      assert b in bs + [b];
    }
  }

  lemma ConsultMoves(
      s: State, strategy: StrategyReply, moved: seq<Message>, kept: seq<Message>, trigger: string, now: DateTime)
    ensures var s' := Consult(s, strategy, moved, kept, trigger, now).0;
      s'.compressed == s.compressed
      || (s'.compressed == PutAll(s.compressed, moved) && (strategy.OneShotAnswer? || strategy.CustomAnswer?)
          && FirstOrphan(DeltaOf(strategy, moved).members, s.msgCounter).None?)
  {
    hide FirstOrphan, PutAll, CompressionEdit, Validated;
  }

  lemma SplitMoves(s: State)
    requires Inv(s)
    ensures var (moved, kept) := Split(s.live, KEEP_RECENT_USER_TURNS);
      moved + kept == s.live && PutAll(s.compressed, moved) == s.compressed + moved
  {
    hide LogOk, Created, BatchesIn, Split;
    LiveIsNumbered(s);
    SplitOfNumbered(s.live, KEEP_RECENT_USER_TURNS);
    var (moved, kept) := Split(s.live, KEEP_RECENT_USER_TURNS);
    MoveKeeps(s, moved, kept);
  }

  /** What the check may move: nothing, or all that the split would. */
  lemma CheckMoves(s: State, it: Iteration)
    requires Inv(s)
    ensures var s', moved := CompressPhase(s, it).0, Split(s.live, KEEP_RECENT_USER_TURNS).0;
      s'.compressed == s.compressed || (Records(s, it) && s'.compressed == s.compressed + moved)
  {
    hide Inv, Consult, Split, FirstOrphan, Validated, PutAll;
    SplitMoves(s);
    var s1 := Emit(s, CompressCheck(Due(s, it.overBudget), Trigger(s, it.overBudget)));
    var (moved, kept) := Split(s1.live, KEEP_RECENT_USER_TURNS);
    ConsultMoves(s1, it.strategy, moved, kept, Trigger(s, it.overBudget), it.now);
  }

  /** A batch whose answer lists all the moved messages. */
  lemma AnswerCovers(raw: RawDelta, moved: seq<Message>, b: Batch)
    requires Beginning(raw.members, b.members, moved)
    requires forall item :: item in raw.members ==> Acceptable(item, moved)
    requires forall m :: m in moved && HasId(m) ==> exists item :: item in raw.members && item.id == m.id.value
    ensures forall m :: m in moved && HasId(m) ==> m.id.value in (set x | x in b.members :: x.id)
  {
    hide Acceptable, TurnLookedUp;
    assert forall i :: 0 <= i < |raw.members| ==> raw.members[i] in raw.members;
    assert |b.members| == |raw.members|;
    forall m | m in moved && HasId(m) ensures m.id.value in (set x | x in b.members :: x.id) {
      var item :| item in raw.members && item.id == m.id.value;
      var i :| 0 <= i < |raw.members| && raw.members[i] == item;
      assert b.members[i] in b.members && b.members[i].id == m.id.value;
    }
  }

  lemma LiveHaveIds(s: State)
    requires LogInv(s)
    ensures forall m :: m in s.live ==> HasId(m)
  {
    LiveIsNumbered(s);
    forall i | 0 <= i < |s.live| ensures HasId(s.live[i]) {
      assert HistoryLog.Stamped(Created(s.trace)[|s.compressed| + i], |s.compressed| + i, s.userTurn);
    }
  }

  lemma MovedAreLive(s: State)
    requires Inv(s)
    ensures forall m :: m in Split(s.live, KEEP_RECENT_USER_TURNS).0 ==> HasId(m)
  {
    hide LogOk, Created, BatchesIn, Split, HasId, PutAll;
    SplitMoves(s);
    LiveHaveIds(s);
    var (moved, kept) := Split(s.live, KEEP_RECENT_USER_TURNS);
    assert forall m :: m in moved ==> m in moved + kept;
  }

  lemma CheckLists(s: State, it: Iteration)
    requires Inv(s) && AllListed(s) && ListsAll(s, it)
    ensures AllListed(CompressPhase(s, it).0)
  {
    hide Inv, CompressPhase, Records, Split, MemberIds, Beginning, Acceptable;
    BatchIsTheAnswers(s, it);
    CheckMoves(s, it);
    var s', moved := CompressPhase(s, it).0, Split(s.live, KEEP_RECENT_USER_TURNS).0;
    if Records(s, it) {
      var b := s'.batches[|s.batches|];
      MembersOfMore(s.batches, b);
      AnswerCovers(it.strategy.raw, moved, b);
      MovedAreLive(s);
      forall i | 0 <= i < |s'.compressed| ensures Listed(s'.compressed[i], MemberIds(s'.batches)) {
        if i < |s.compressed| {
          assert Listed(s.compressed[i], MemberIds(s.batches));
        } else {
          assert moved[i - |s.compressed|] in moved;
        }
      }
    }
  }

  lemma RestLists(s: State, it: Iteration, r: Response, turn: int)
    requires ValidIteration(it)
    ensures RequestPhase(s, it).0.compressed == s.compressed && RequestPhase(s, it).0.batches == s.batches
    ensures ReplyPhase(s, it, r, turn).0.compressed == s.compressed && ReplyPhase(s, it, r, turn).0.batches == s.batches
  {
    hide MessagesForModel, Sent, ToolUseIdsOf, ToolResults, EditMemory;
  }

  lemma PassLists(s: State, it: Iteration)
    requires Inv(s) && ValidIteration(it) && AllListed(s) && ListsAll(s, it)
    ensures AllListed(Iterate(s, it, s.userTurn).0)
  {
    hide Inv, CompressPhase, RequestPhase, ReplyPhase, ListsAll, MemberIds;
    CheckLists(s, it);
    var (s1, raised) := CompressPhase(s, it);
    var (s2, answer) := RequestPhase(s1, it);
    var r := if answer.Answered? then answer.response else Response([], EndTurn);
    RestLists(s1, it, r, s.userTurn);
    RestLists(s2, it, r, s.userTurn);
  }

  lemma {:induction false} LoopLists(s: State, its: seq<Iteration>)
    requires Inv(s) && s.userTurn >= 1 && ValidScript(its) && AllListed(s) && ListsAllInLoop(s, its)
    ensures AllListed(RunLoop(s, its, s.userTurn).0)
    decreases |its|
  {
    hide Inv, Iterate, AllListed, ListsAll;
    if |its| > 0 {
      PassLists(s, its[0]);
      IterateKeeps(s, its[0]);
      var (s1, status) := Iterate(s, its[0], s.userTurn);
      if status == Continue {
        LoopLists(s1, its[1..]);
      }
    }
  }

  lemma StepLists(s: State, st: Step)
    requires Inv(s) && ValidStep(st) && AllListed(s) && ListsAllInStep(s, st)
    ensures AllListed(Perform(s, st))
  {
    hide Inv, RunLoop, ListsAllInLoop, MemberIds;
    if st.ChatStep? {
      StartChatKeeps(s, st.text);
      LoopLists(StartChat(s, st.text), st.script);
    }
  }

  lemma NewLists(id: string, memory: Option<Memory>)
    ensures AllListed(NewSession(id, memory))
  {
  }

  lemma {:induction false} RunLists(id: string, memory: Option<Memory>, steps: seq<Step>)
    requires ValidRun(steps) && ListsAllInRun(NewSession(id, memory), steps)
    ensures AllListed(Run(NewSession(id, memory), steps))
  {
    hide Inv, Perform, AllListed, ListsAllInStep, NewSession;
    if |steps| == 0 {
      NewLists(id, memory);
    } else {
      var before := steps[..|steps| - 1];
      RunLists(id, memory, before);
      RunKeeps(id, memory, before);
      StepLists(Run(NewSession(id, memory), before), steps[|steps| - 1]);
    }
  }

  /** When every accepted answer lists all that it moves, replaying a log of the run gives back its window. */
  lemma {:induction false} WindowComesBack(
      id: string, memory: Option<Memory>, steps: seq<Step>, states: seq<State>, n: nat, rs: seq<Record>)
    requires RunsThrough(id, memory, steps, states) && n <= |steps| && ValidRun(steps[..n])
    requires ListsAllInRun(NewSession(id, memory), steps[..n])
    requires BundledRun(steps) && id != "" && (memory.Some? ==> WellFormed(memory.value))
    requires states[n].msgCounter > 0 && Logs(rs, states[n])
    ensures Rebuild(rs).Ok? && Rebuild(rs).value.live == states[n].live
  {
    hide NextState, ListsAllInRun, Run, BundledRun, Rebuild, Logs, WellFormed, NewSession;
    RunReaches(id, memory, steps, states, n);
    RunLists(id, memory, steps[..n]);
    LiveStaysLive(id, memory, steps, states, n, [], states[n], rs);
  }
}
