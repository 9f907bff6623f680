/** Runs in which every delta comes from the bundled strategy. */
module HistoryBatches {
  import opened Prelude
  import opened Types
  import opened IdGenerator
  import opened Splitting
  import opened WorkingMemories
  import opened OneShot
  import opened CompressedStore
  import opened History
  import opened HistoryLog

  predicate Bundled(it: Iteration) { !it.strategy.CustomAnswer? }

  predicate BundledScript(its: seq<Iteration>) { forall i :: 0 <= i < |its| ==> Bundled(its[i]) }

  predicate BundledRun(steps: seq<Step>) {
    forall i :: 0 <= i < |steps| && steps[i].ChatStep? ==> BundledScript(steps[i].script)
  }

  predicate MemberIn(m: BatchMember, ids: set<string>) { m.id in ids }

  /** Every recorded member names a message that has been moved to the store. */
  predicate MembersMoved(batches: seq<Batch>, ids: set<string>) {
    forall i, j :: 0 <= i < |batches| && 0 <= j < |batches[i].members| ==> MemberIn(batches[i].members[j], ids)
  }

  predicate MemoryOk(s: State) { s.memory.Some? ==> WellFormed(s.memory.value) }

  predicate BatchesOk(s: State) { Inv(s) && MemoryOk(s) && MembersMoved(s.batches, Ids(s.compressed)) }

  // ---- The bundled strategy's delta.

  /** Its members are among the messages it was shown. */
  lemma MembersWereShown(raw: RawDelta, shown: seq<Message>)
    requires Ids(shown) != {}
    ensures var members := Validated(raw, shown).members;
      forall j :: 0 <= j < |members| ==> MemberIn(members[j], Ids(shown))
  {
    var n := ValidPrefix(raw.members, shown);
    forall j | 0 <= j < n ensures Validated(raw, shown).members[j].id in Ids(shown) {
      assert ValidMember(raw.members[..n][j], shown);
    }
  }

  /** What moves out of the live window is part of the log, so its ids are tracked. */
  lemma MovedIdsTracked(s: State, n: nat, id: string)
    requires LogInv(s) && n <= |s.live| && id in Ids(s.live[..n])
    ensures Tracked(id, s.msgCounter)
  {
    var m :| m in s.live[..n] && HasId(m) && m.id.value == id;
    var i :| 0 <= i < n && s.live[i] == m;
    LiveIsNumbered(s);
    assert HistoryLog.Stamped(Created(s.trace)[|s.compressed| + i], |s.compressed| + i, s.userTurn);
    assert MsgId(|s.compressed| + i + 1) == id;
  }

  lemma {:induction false} NoOrphan(members: seq<BatchMember>, counter: nat)
    requires forall j :: 0 <= j < |members| ==> Tracked(members[j].id, counter)
    ensures FirstOrphan(members, counter) == None
  {
    if |members| > 0 {
      NoOrphan(members[1..], counter);
    }
  }

  lemma MovedHaveIds(s: State, n: nat)
    requires LogInv(s) && 0 < n <= |s.live|
    ensures Ids(s.live[..n]) != {}
  {
    LiveIsNumbered(s);
    var m := s.live[..n][0];
    assert HistoryLog.Stamped(Created(s.trace)[|s.compressed|], |s.compressed|, s.userTurn);
    assert HasId(m);
    assert m.id.value in Ids(s.live[..n]);
  }

  /** A delta the bundled strategy builds never fails the orphan check. */
  lemma BundledIsNeverOrphaned(s: State, raw: RawDelta)
    requires LogInv(s)
    ensures var moved := Split(s.live, KEEP_RECENT_USER_TURNS).0;
      moved != [] ==> FirstOrphan(Validated(raw, moved).members, s.msgCounter) == None
  {
    var moved := Split(s.live, KEEP_RECENT_USER_TURNS).0;
    LiveIsNumbered(s);
    SplitOfNumbered(s.live, KEEP_RECENT_USER_TURNS);
    if moved != [] {
      MovedHaveIds(s, SplitIndex(s.live, KEEP_RECENT_USER_TURNS));
      MembersWereShown(raw, moved);
      var members := Validated(raw, moved).members;
      forall j | 0 <= j < |members| ensures Tracked(members[j].id, s.msgCounter) {
        assert MemberIn(members[j], Ids(moved));
        MovedIdsTracked(s, SplitIndex(s.live, KEEP_RECENT_USER_TURNS), members[j].id);
      }
      NoOrphan(members, s.msgCounter);
    }
  }

  // ---- Preservation.

  lemma AcceptShape(s: State, delta: Delta, moved: seq<Message>, kept: seq<Message>, trigger: string, now: DateTime)
    requires s.memory.Some? ==> !ApplyOps(s.memory.value, delta.ops).1
    ensures var (s', o) := Accept(s, delta, moved, kept, trigger, now);
      && o == Replace(kept)
      && s'.batches == s.batches + [NewBatch(s, delta, trigger, now)]
      && s'.compressed == PutAll(s.compressed, moved)
      && (s'.memory.Some? <==> s.memory.Some?)
      && (s.memory.Some? && WellFormed(ApplyOps(s.memory.value, delta.ops).0) ==> WellFormed(s'.memory.value))
  {
  }

  lemma IdsGrow(a: seq<Message>, b: seq<Message>)
    ensures Ids(a + b) == Ids(a) + Ids(b)
  {
  }

  lemma MembersAppend(batches: seq<Batch>, b: Batch, oldIds: set<string>, ids: set<string>, moved: set<string>)
    requires MembersMoved(batches, oldIds) && oldIds <= ids && moved <= ids
    requires forall j :: 0 <= j < |b.members| ==> MemberIn(b.members[j], moved)
    ensures MembersMoved(batches + [b], ids)
  {
    var bs := batches + [b];
    forall i, j | 0 <= i < |bs| && 0 <= j < |bs[i].members| ensures MemberIn(bs[i].members[j], ids) {
      if i < |batches| {
        assert bs[i] == batches[i];
        assert MemberIn(batches[i].members[j], oldIds);
      } else {
        assert MemberIn(b.members[j], moved);
      }
    }
  }

  lemma BatchMembersMoved(s: State, raw: RawDelta, trigger: string, now: DateTime)
    requires BatchesOk(s) && Split(s.live, KEEP_RECENT_USER_TURNS).0 != []
    ensures var moved := Split(s.live, KEEP_RECENT_USER_TURNS).0;
      && PutAll(s.compressed, moved) == s.compressed + moved
      && MembersMoved(s.batches + [NewBatch(s, Validated(raw, moved), trigger, now)], Ids(s.compressed + moved))
  {
    var (moved, kept) := Split(s.live, KEEP_RECENT_USER_TURNS);
    LiveIsNumbered(s);
    SplitOfNumbered(s.live, KEEP_RECENT_USER_TURNS);
    MoveKeeps(s, moved, kept);
    MovedHaveIds(s, SplitIndex(s.live, KEEP_RECENT_USER_TURNS));
    MembersWereShown(raw, moved);
    IdsGrow(s.compressed, moved);
    MembersAppend(s.batches, NewBatch(s, Validated(raw, moved), trigger, now),
                  Ids(s.compressed), Ids(s.compressed + moved), Ids(moved));
  }

  lemma AcceptBatches(s: State, raw: RawDelta, trigger: string, now: DateTime)
    requires BatchesOk(s) && Split(s.live, KEEP_RECENT_USER_TURNS).0 != []
    ensures var (moved, kept) := Split(s.live, KEEP_RECENT_USER_TURNS);
      var (s', o) := Accept(s, Validated(raw, moved), moved, kept, trigger, now);
      && o == Replace(kept) && MemoryOk(s') && s'.compressed == s.compressed + moved
      && MembersMoved(s'.batches, Ids(s'.compressed))
  {
    var (moved, kept) := Split(s.live, KEEP_RECENT_USER_TURNS);
    if s.memory.Some? {
      ValidOpsKeepForm(s.memory.value, Validated(raw, moved).ops);
    }
    BatchMembersMoved(s, raw, trigger, now);
    AcceptShape(s, Validated(raw, moved), moved, kept, trigger, now);
  }

  lemma CompressPhaseBatches(s: State, it: Iteration)
    requires BatchesOk(s) && Bundled(it)
    ensures BatchesOk(CompressPhase(s, it).0)
  {
    hide Inv, MembersMoved, WellFormed, Accept, FirstOrphan, Validated;
    CompressPhaseKeeps(s, it);
    var check := CompressCheck(Due(s, it.overBudget), Trigger(s, it.overBudget));
    var s1 := Emit(s, check);
    EmitKeeps(s, check);
    if Due(s, it.overBudget) && Split(s1.live, KEEP_RECENT_USER_TURNS).0 != [] && it.strategy.OneShotAnswer? {
      BundledIsNeverOrphaned(s1, it.strategy.raw);
      AcceptBatches(s1, it.strategy.raw, Trigger(s, it.overBudget), it.now);
    }
  }

  lemma {:induction false} EditMemoryKeepsForm(m: Memory, inputs: seq<ToolInput>, now: DateTime)
    requires WellFormed(m) && forall i :: 0 <= i < |inputs| ==> ValidInput(inputs[i])
    ensures WellFormed(EditMemory(m, inputs, now))
  {
    if |inputs| > 0 {
      var front := inputs[..|inputs| - 1];
      EditMemoryKeepsForm(m, front, now);
      var before := EditMemory(m, front, now);
      if ToolEdit(before, inputs[|inputs| - 1], now).Some? {
        ToolKeepsForm(before, inputs[|inputs| - 1], now);
      }
    }
  }

  lemma ReplyFrame(s: State, it: Iteration, r: Response)
    requires ValidIteration(it)
    ensures var s' := ReplyPhase(s, it, r, s.userTurn).0;
      && s'.batches == s.batches && s'.compressed == s.compressed
      && (s'.memory.Some? <==> s.memory.Some?)
      && (s.memory.Some? && WellFormed(s.memory.value) && WellFormed(EditMemory(s.memory.value, it.memoryEdits, it.now))
          ==> WellFormed(s'.memory.value))
  {
  }

  lemma ReplyBatches(s: State, it: Iteration, r: Response)
    requires BatchesOk(s) && ValidIteration(it) && s.userTurn >= 1
    ensures BatchesOk(ReplyPhase(s, it, r, s.userTurn).0)
  {
    ReplyPhaseKeeps(s, it, r);
    if s.memory.Some? {
      EditMemoryKeepsForm(s.memory.value, it.memoryEdits, it.now);
    }
    ReplyFrame(s, it, r);
  }

  lemma RequestBatches(s: State, it: Iteration)
    requires BatchesOk(s)
    ensures BatchesOk(RequestPhase(s, it).0)
  {
    hide Inv, MembersMoved, WellFormed;
    RequestPhaseKeeps(s, it);
  }

  lemma IterateBatches(s: State, it: Iteration)
    requires BatchesOk(s) && ValidIteration(it) && s.userTurn >= 1 && Bundled(it)
    ensures BatchesOk(Iterate(s, it, s.userTurn).0)
    ensures Iterate(s, it, s.userTurn).0.userTurn == s.userTurn
  {
    IterateKeepsTurn(s, it);
    hide BatchesOk, CompressPhase, RequestPhase, ReplyPhase;
    CompressPhaseBatches(s, it);
    var (s1, raised) := CompressPhase(s, it);
    if !raised {
      RequestBatches(s1, it);
      var (s2, answer) := RequestPhase(s1, it);
      if answer.Answered? {
        ReplyBatches(s2, it, answer.response);
      }
    }
  }

  lemma {:induction false} RunLoopBatches(s: State, its: seq<Iteration>)
    requires BatchesOk(s) && ValidScript(its) && s.userTurn >= 1 && BundledScript(its)
    ensures BatchesOk(RunLoop(s, its, s.userTurn).0)
    decreases |its|
  {
    if |its| > 0 {
      IterateBatches(s, its[0]);
      var (s1, status) := Iterate(s, its[0], s.userTurn);
      if status == Continue {
        RunLoopBatches(s1, its[1..]);
      }
    }
  }

  lemma ChatBatches(s: State, text: string, its: seq<Iteration>)
    requires BatchesOk(s) && ValidScript(its) && BundledScript(its)
    ensures BatchesOk(Chat(s, text, its))
  {
    hide RunLoop, LogInv, BatchInv, MembersMoved, WellFormed;
    StartChatKeeps(s, text);
    RunLoopBatches(StartChat(s, text), its);
    InvIgnoresCounters(RunLoop(StartChat(s, text), its, s.userTurn + 1).0);
  }

  lemma {:induction false} RunBatches(id: string, memory: Option<Memory>, steps: seq<Step>)
    requires ValidRun(steps) && BundledRun(steps) && (memory.Some? ==> WellFormed(memory.value))
    ensures BatchesOk(Run(NewSession(id, memory), steps))
  {
    if |steps| > 0 {
      RunBatches(id, memory, steps[..|steps| - 1]);
      var st := steps[|steps| - 1];
      if st.ChatStep? {
        ChatBatches(Run(NewSession(id, memory), steps[..|steps| - 1]), st.text, st.script);
      }
    }
  }

  lemma StoredIdsTracked(s: State, id: string)
    requires LogInv(s) && id in Ids(s.compressed)
    ensures Tracked(id, s.msgCounter)
  {
    var m :| m in s.compressed && HasId(m) && m.id.value == id;
    var i :| 0 <= i < |s.compressed| && s.compressed[i] == m;
    assert (s.compressed + s.live)[i] == m;
    assert HistoryLog.Stamped(Created(s.trace)[i], i, s.userTurn);
    assert MsgId(i + 1) == id;
  }

  lemma {:induction false} HeadBatches(s: State, its: seq<Iteration>, passes: seq<Pass>, k: nat)
    requires BatchesOk(s) && s.userTurn >= 1 && PassesThrough(s, its, passes) && k < |passes| && BundledScript(its)
    ensures BatchesOk(passes[k].head) && passes[k].head.userTurn == s.userTurn
  {
    hide BatchesOk, Iterate, PassFrom;
    if k > 0 {
      HeadBatches(s, its, passes, k - 1);
      assert NextPass(its, passes, s.userTurn, k - 1);
      IterateBatches(passes[k - 1].head, its[k - 1]);
    }
  }

  lemma EmitBatches(s: State, e: Event)
    requires BatchesOk(s) && !e.MessageCreated? && !e.BatchCreated?
    ensures BatchesOk(Emit(s, e))
  {
    hide Inv, MembersMoved, WellFormed;
    EmitKeeps(s, e);
  }

  lemma {:induction false} PassBatches(s: State, it: Iteration, seen: State)
    requires BatchesOk(s) && Shows(PassFrom(s, it), seen) && Bundled(it)
    ensures BatchesOk(seen)
  {
    hide BatchesOk, CompressPhase, RequestPhase;
    var (s1, raised) := CompressPhase(s, it);
    CompressPhaseBatches(s, it);
    RequestBatches(s1, it);
    var (s2, answer) := RequestPhase(s1, it);
    if answer.Answered? {
      EmitBatches(s2, ProviderResponse(answer.response.content, answer.response.stop));
    }
  }

  lemma StartChatBatches(s: State, text: string)
    requires BatchesOk(s)
    ensures BatchesOk(StartChat(s, text)) && StartChat(s, text).userTurn >= 1
  {
    hide Inv, MembersMoved, WellFormed;
    StartChatKeeps(s, text);
  }

  /**
   In every state that a run with the bundled strategy reaches from a well-formed memory, the
   members of the batches are in the store and the working memory's entries keep their form.
   */
  lemma {:induction false} ReachedBatches(id: string, memory: Option<Memory>, steps: seq<Step>, states: seq<State>,
                                          n: nat, passes: seq<Pass>, s: State)
    requires Reached(id, memory, steps, states, n, passes, s)
    requires BundledRun(steps) && (memory.Some? ==> WellFormed(memory.value))
    ensures BatchesOk(s)
  {
    hide BatchesOk, Perform, StartChat, PassFrom, Run, WellFormed;
    RunReaches(id, memory, steps, states, n);
    RunBatches(id, memory, steps[..n]);
    if s != states[n] {
      var s0 := StartChat(states[n], steps[n].text);
      StartChatBatches(states[n], steps[n].text);
      var k :| 0 <= k < |passes| && Shows(passes[k], s);
      HeadBatches(s0, steps[n].script, passes, k);
      assert NextPass(steps[n].script, passes, s0.userTurn, k);
      PassBatches(passes[k].head, steps[n].script[k], s);
    }
  }
}
