/** What replaying the log of a run gives back. */
module ReplayOfRun {
  import opened Prelude
  import opened Types
  import opened IdGenerator
  import opened Splitting
  import opened WorkingMemories
  import opened CompressedStore
  import opened History
  import opened HistoryLog
  import opened HistoryBatches
  import opened Replay

  function Events(rs: seq<Record>): seq<Event> { Map(rs, (r: Record) => r.event) }

  predicate NamesSession(r: Record, id: string) {
    && (r.sessionId.Some? ==> r.sessionId.value == id)
    && (r.event.MessageCreated? ==> r.sessionId.Some?)
  }

  /** The log holds the run's message and batch events in order, and names no other session. */
  predicate Logs(rs: seq<Record>, s: State) {
    && Created(Events(rs)) == Created(s.trace)
    && BatchesIn(Events(rs)) == BatchesIn(s.trace)
    && forall i :: 0 <= i < |rs| ==> NamesSession(rs[i], s.sessionId)
  }

  lemma EventsFront(rs: seq<Record>)
    requires |rs| > 0
    ensures Events(rs)[..|Events(rs)| - 1] == Events(rs[..|rs| - 1])
    ensures Events(rs)[|Events(rs)| - 1] == rs[|rs| - 1].event
  {
  }

  // ---- Messages.

  lemma LogOkPrefix(log: seq<Message>, n: nat, userTurn: nat)
    requires LogOk(log, userTurn) && n <= |log|
    ensures LogOk(log[..n], userTurn)
  {
    forall i | 0 <= i < n ensures HistoryLog.Stamped(log[..n][i], i, userTurn) {
      assert HistoryLog.Stamped(log[i], i, userTurn);
    }
  }

  /** The next message of a well-formed log has not been seen. */
  lemma NextIsNew(log: seq<Message>, m: Message, userTurn: nat)
    requires LogOk(log + [m], userTurn)
    ensures HasId(m) && m.id.value !in Ids(log)
  {
    var l := log + [m];
    forall i | 0 <= i < |log| ensures log[i].id != m.id {
      IdsDistinct(l, userTurn, i, |log|);
      assert l[i] == log[i];
    }
    assert HistoryLog.Stamped(l[|log|], |log|, userTurn);
  }

  lemma {:induction false} FirstSeenIsCreated(rs: seq<Record>, userTurn: nat)
    requires LogOk(Created(Events(rs)), userTurn)
    ensures FirstSeen(rs) == Created(Events(rs))
  {
    if |rs| > 0 {
      EventsFront(rs);
      var front := rs[..|rs| - 1];
      var log := Created(Events(rs));
      var before := Created(Events(front));
      assert before == log[..|before|];
      LogOkPrefix(log, |before|, userTurn);
      FirstSeenIsCreated(front, userTurn);
      var e := rs[|rs| - 1].event;
      if e.MessageCreated? {
        NextIsNew(before, e.message, userTurn);
      }
    }
  }

  lemma NumberAfterM(n: nat)
    ensures NumberAfter("m", MsgId(n)) == n
  {
    ParseOfDecimal(n);
    assert MsgId(n)[1..] == Decimal(n) && MsgId(n)[..1] == "m";
  }

  lemma {:induction false} MaxMsgOfLog(log: seq<Message>, userTurn: nat)
    requires LogOk(log, userTurn)
    ensures MaxMsgNumber(log) == |log|
  {
    if |log| > 0 {
      LogOkPrefix(log, |log| - 1, userTurn);
      MaxMsgOfLog(log[..|log| - 1], userTurn);
      assert HistoryLog.Stamped(log[|log| - 1], |log| - 1, userTurn);
      NumberAfterM(|log|);
    }
  }

  // ---- Batches.

  predicate SameBatch(a: Batch, b: Batch) {
    a.batchId == b.batchId && a.members == b.members && a.summary == b.summary
    && a.turnsFrom == b.turnsFrom && a.turnsTo == b.turnsTo
  }

  predicate SameBatches(a: seq<Batch>, b: seq<Batch>) {
    |a| == |b| && forall i :: 0 <= i < |a| ==> SameBatch(a[i], b[i])
  }

  predicate Numbered(bs: seq<Batch>) { forall i :: 0 <= i < |bs| ==> bs[i].batchId == BatchId(i + 1) }

  /** No batch goes without an id. */
  predicate Named(bs: seq<Batch>) { forall i :: 0 <= i < |bs| ==> bs[i].batchId != "" }

  lemma NumberedAreNamed(bs: seq<Batch>)
    requires Numbered(bs)
    ensures Named(bs)
  {
  }

  lemma {:induction false} BatchesComeBack(rs: seq<Record>)
    requires Named(BatchesIn(Events(rs)))
    ensures SameBatches(BatchesFrom(rs), BatchesIn(Events(rs)))
  {
    if |rs| > 0 {
      EventsFront(rs);
      var bs := BatchesIn(Events(rs));
      var before := BatchesIn(Events(rs[..|rs| - 1]));
      assert forall i :: 0 <= i < |before| ==> before[i] == bs[i];
      BatchesComeBack(rs[..|rs| - 1]);
      var e := rs[|rs| - 1].event;
      if e.BatchCreated? {
        assert bs[|before|] == e.batch;
      }
    }
  }

  lemma NumberAfterCm(n: nat)
    ensures NumberAfter("cm_", BatchId(n)) == n
  {
    ParseOfDecimal(n);
    assert BatchId(n)[3..] == Decimal(n) && BatchId(n)[..3] == "cm_";
  }

  lemma {:induction false} MaxBatchOfNumbered(bs: seq<Batch>)
    requires Numbered(bs)
    ensures MaxBatchNumber(bs) == |bs|
  {
    if |bs| > 0 {
      MaxBatchOfNumbered(bs[..|bs| - 1]);
      NumberAfterCm(|bs|);
    }
  }

  lemma SameMemberIds(a: seq<Batch>, b: seq<Batch>)
    requires SameBatches(a, b)
    ensures MemberIds(a) == MemberIds(b)
  {
    forall id | id in MemberIds(a) ensures id in MemberIds(b) {
      var x, m :| x in a && m in x.members && m.id == id;
      var i :| 0 <= i < |a| && a[i] == x;
      assert SameBatch(a[i], b[i]) && b[i] in b;
    }
    forall id | id in MemberIds(b) ensures id in MemberIds(a) {
      var x, m :| x in b && m in x.members && m.id == id;
      var i :| 0 <= i < |b| && b[i] == x;
      assert SameBatch(a[i], b[i]) && a[i] in a;
    }
  }

  // ---- The session id.

  lemma {:induction false} SessionComesBack(rs: seq<Record>, id: string)
    requires id != "" && forall i :: 0 <= i < |rs| ==> NamesSession(rs[i], id)
    ensures FirstSession(rs) == Some(id) || (FirstSession(rs) == None && Created(Events(rs)) == [])
  {
    if |rs| > 0 {
      EventsFront(rs);
      SessionComesBack(rs[..|rs| - 1], id);
    }
  }

  // ---- Runs.

  lemma CompressKeepsId(s: State, it: Iteration)
    ensures CompressPhase(s, it).0.sessionId == s.sessionId
  {
    hide Split, FirstOrphan, PutAll, ApplyOps;
  }

  lemma PassKeepsId(s: State, it: Iteration, turn: int)
    requires ValidIteration(it)
    ensures Iterate(s, it, turn).0.sessionId == s.sessionId
  {
    hide CompressPhase;
    CompressKeepsId(s, it);
  }

  lemma {:induction false} LoopKeepsId(s: State, its: seq<Iteration>, turn: int)
    requires ValidScript(its)
    ensures RunLoop(s, its, turn).0.sessionId == s.sessionId
    decreases |its|
  {
    if |its| > 0 {
      CompressKeepsId(s, its[0]);
      var (s1, status) := Iterate(s, its[0], turn);
      PassKeepsId(s, its[0], turn);
      if status == Continue {
        LoopKeepsId(s1, its[1..], turn);
      }
    }
  }

  lemma ChatKeepsId(s: State, text: string, its: seq<Iteration>)
    requires ValidScript(its)
    ensures Chat(s, text, its).sessionId == s.sessionId
  {
    hide RunLoop;
    LoopKeepsId(StartChat(s, text), its, s.userTurn + 1);
  }

  lemma {:induction false} SessionIdStays(id: string, memory: Option<Memory>, steps: seq<Step>)
    requires ValidRun(steps)
    ensures Run(NewSession(id, memory), steps).sessionId == id
  {
    hide StartChat;
    if |steps| > 0 {
      SessionIdStays(id, memory, steps[..|steps| - 1]);
      var st := steps[|steps| - 1];
      if st.ChatStep? {
        ChatKeepsId(Run(NewSession(id, memory), steps[..|steps| - 1]), st.text, st.script);
      }
    }
  }

  lemma SameNumbers(a: seq<Batch>, b: seq<Batch>)
    requires SameBatches(a, b) && Numbered(b)
    ensures Numbered(a)
  {
    forall i | 0 <= i < |a| ensures a[i].batchId == BatchId(i + 1) {
      assert SameBatch(a[i], b[i]);
    }
  }

  lemma RebuildsState(s: State, rs: seq<Record>)
    requires Inv(s) && s.sessionId != "" && s.msgCounter > 0 && Logs(rs, s)
    ensures var ids := MemberIds(s.batches);
      && Rebuild(rs).Ok? && Rebuild(rs).value.sessionId == s.sessionId
      && Rebuild(rs).value.live == Filter(s.compressed + s.live, (m: Message) => !Listed(m, ids))
      && Rebuild(rs).value.compressed == Filter(s.compressed + s.live, (m: Message) => Listed(m, ids))
      && SameBatches(Rebuild(rs).value.batches, s.batches)
      && Rebuild(rs).value.msgCounter == s.msgCounter
      && Rebuild(rs).value.batchCounter == s.batchCounter
  {
    hide LogOk, FirstSeen, BatchesFrom, MaxMsgNumber, MaxBatchNumber, FirstSession, Filter, MemberIds, Created,
         BatchesIn, MaxReplTurn, LastCompression, LastMemory, Listed;
    FirstSeenIsCreated(rs, s.userTurn);
    MaxMsgOfLog(Created(s.trace), s.userTurn);
    NumberedAreNamed(s.batches);
    BatchesComeBack(rs);
    SameMemberIds(BatchesFrom(rs), s.batches);
    SameNumbers(BatchesFrom(rs), s.batches);
    MaxBatchOfNumbered(BatchesFrom(rs));
    SessionComesBack(rs, s.sessionId);
  }

  lemma {:induction false} PassKeepsIds(s: State, it: Iteration, seen: State)
    requires Shows(PassFrom(s, it), seen)
    ensures seen.sessionId == s.sessionId
  {
    hide CompressPhase, MessagesForModel, Sent;
    CompressKeepsId(s, it);
  }

  lemma {:induction false} HeadKeepsId(s: State, its: seq<Iteration>, passes: seq<Pass>, k: nat)
    requires PassesThrough(s, its, passes) && k < |passes|
    ensures passes[k].head.sessionId == s.sessionId
  {
    hide Iterate, PassFrom;
    if k > 0 {
      HeadKeepsId(s, its, passes, k - 1);
      assert NextPass(its, passes, s.userTurn, k - 1);
      PassKeepsId(passes[k - 1].head, its[k - 1], s.userTurn);
    }
  }

  lemma {:induction false} ReachedId(id: string, memory: Option<Memory>, steps: seq<Step>, states: seq<State>, n: nat,
                                     passes: seq<Pass>, s: State)
    requires Reached(id, memory, steps, states, n, passes, s)
    ensures s.sessionId == id
  {
    hide Perform, PassFrom, Run;
    RunReaches(id, memory, steps, states, n);
    SessionIdStays(id, memory, steps[..n]);
    if s != states[n] {
      var s0 := StartChat(states[n], steps[n].text);
      var k :| 0 <= k < |passes| && Shows(passes[k], s);
      HeadKeepsId(s0, steps[n].script, passes, k);
      assert NextPass(steps[n].script, passes, s0.userTurn, k);
      PassKeepsIds(passes[k].head, steps[n].script[k], s);
    }
  }

  /**
   Replaying the log of a run, taken at any state it reaches: the messages in first-seen order are
   the full log, live and compressed partition it in order by whether a batch lists the message,
   every batch comes back with its id and members, and both id counters equal the session's.
   */
  lemma {:induction false} ReplayRebuildsRun(
      id: string, memory: Option<Memory>, steps: seq<Step>, states: seq<State>, n: nat, passes: seq<Pass>, s: State,
      rs: seq<Record>)
    requires Reached(id, memory, steps, states, n, passes, s)
    requires id != "" && s.msgCounter > 0 && Logs(rs, s)
    ensures var ids := MemberIds(s.batches);
      && Rebuild(rs).Ok? && Rebuild(rs).value.sessionId == id
      && Rebuild(rs).value.live == Filter(s.compressed + s.live, (m: Message) => !Listed(m, ids))
      && Rebuild(rs).value.compressed == Filter(s.compressed + s.live, (m: Message) => Listed(m, ids))
      && SameBatches(Rebuild(rs).value.batches, s.batches)
      && Rebuild(rs).value.msgCounter == s.msgCounter
      && Rebuild(rs).value.batchCounter == s.batchCounter
  {
    ReachedKeeps(id, memory, steps, states, n, passes, s);
    ReachedId(id, memory, steps, states, n, passes, s);
    hide Reached;
    RebuildsState(s, rs);
  }

  lemma {:induction false} LiveIsUnlisted(s: State)
    requires BatchesOk(s)
    ensures forall i :: 0 <= i < |s.live| ==> !Listed(s.live[i], MemberIds(s.batches))
  {
    hide LogOk, Created, BatchesIn, WellFormed;
    forall i | 0 <= i < |s.live| ensures !Listed(s.live[i], MemberIds(s.batches)) {
      if Listed(s.live[i], MemberIds(s.batches)) {
        var b, m :| b in s.batches && m in b.members && m.id == s.live[i].id.value;
        var bi :| 0 <= bi < |s.batches| && s.batches[bi] == b;
        var mi :| 0 <= mi < |b.members| && b.members[mi] == m;
        assert MemberIn(s.batches[bi].members[mi], Ids(s.compressed));
        var oldCopy :| oldCopy in s.compressed && HasId(oldCopy) && oldCopy.id.value == m.id;
        var k :| 0 <= k < |s.compressed| && s.compressed[k] == oldCopy;
        var log := s.compressed + s.live;
        assert log[k] == oldCopy && log[|s.compressed| + i] == s.live[i];
        IdsDistinct(log, s.userTurn, k, |s.compressed| + i);
      }
    }
  }

  lemma SplitByListing(s: State, ids: set<string>)
    requires BatchesOk(s) && ids == MemberIds(s.batches)
    ensures Filter(s.compressed + s.live, (m: Message) => !Listed(m, ids))
      == Filter(s.compressed, (m: Message) => !Listed(m, ids)) + s.live
    ensures Filter(s.compressed + s.live, (m: Message) => Listed(m, ids))
      == Filter(s.compressed, (m: Message) => Listed(m, ids))
    ensures Filter(s.compressed, (m: Message) => !Listed(m, ids)) + s.live == s.live
      <==> forall i :: 0 <= i < |s.compressed| ==> Listed(s.compressed[i], ids)
  {
    LiveIsUnlisted(s);
    hide BatchesOk, MemberIds;
    FilterAppend(s.compressed, s.live, (m: Message) => !Listed(m, ids));
    FilterAppend(s.compressed, s.live, (m: Message) => Listed(m, ids));
    FilterAll(s.live, (m: Message) => !Listed(m, ids));
    FilterNone(s.live, (m: Message) => Listed(m, ids));
    FilterMembers(s.compressed, (m: Message) => !Listed(m, ids));
    var unlisted := Filter(s.compressed, (m: Message) => !Listed(m, ids));
    if unlisted + s.live == s.live {
      assert |unlisted| == 0;
      forall i | 0 <= i < |s.compressed| ensures Listed(s.compressed[i], ids) {
        assert s.compressed[i] in s.compressed;
      }
    } else {
      assert unlisted != [];
      assert unlisted[0] in unlisted;
    }
  }

  /**
   With the bundled strategy everything really live stays live, in order, behind those stored
   messages that no batch lists; and the rebuilt window is the real one exactly when every
   stored message is listed.
   */
  lemma {:induction false} LiveStaysLive(
      id: string, memory: Option<Memory>, steps: seq<Step>, states: seq<State>, n: nat, passes: seq<Pass>, s: State,
      rs: seq<Record>)
    requires Reached(id, memory, steps, states, n, passes, s)
    requires BundledRun(steps) && id != "" && (memory.Some? ==> WellFormed(memory.value))
    requires s.msgCounter > 0 && Logs(rs, s)
    ensures var ids := MemberIds(s.batches);
      var r := Rebuild(rs);
      && r.Ok?
      && r.value.live == Filter(s.compressed, (m: Message) => !Listed(m, ids)) + s.live
      && r.value.compressed == Filter(s.compressed, (m: Message) => Listed(m, ids))
      && (r.value.live == s.live <==> forall i :: 0 <= i < |s.compressed| ==> Listed(s.compressed[i], ids))
  {
    hide Reached, Rebuild, BatchesOk;
    ReachedBatches(id, memory, steps, states, n, passes, s);
    ReplayRebuildsRun(id, memory, steps, states, n, passes, s, rs);
    SplitByListing(s, MemberIds(s.batches));
  }

  // ---- The turn counter.

  /** The turn the session is in after the first `n` records. */
  function TurnAt(rs: seq<Record>, n: nat): int
    requires n <= |rs|
  {
    LastTurn(Created(Events(rs[..n])))
  }

  /** Where the records of the p-th process end. */
  function EndOf(rs: seq<Record>, starts: seq<nat>, p: nat): nat
    requires p < |starts|
  {
    if p + 1 < |starts| then starts[p + 1] else |rs|
  }

  predicate Wrote(rs: seq<Record>, from: nat, to: nat) {
    from <= to <= |rs| ==> forall i :: from <= i < to ==> rs[i].replTurn == TurnAt(rs, i + 1) - TurnAt(rs, from)
  }

  /**
   The log was written by one process after another, the p-th from record starts[p] on. Each counts
   its own turns: a record carries the number of turns its process has begun.
   */
  predicate Processes(rs: seq<Record>, starts: seq<nat>) {
    && |starts| > 0 && starts[0] == 0
    && (forall p :: 0 <= p < |starts| ==> starts[p] <= EndOf(rs, starts, p) <= |rs|)
    && forall p :: 0 <= p < |starts| ==> Wrote(rs, starts[p], EndOf(rs, starts, p))
  }

  /** The turns begun in the p-th process. */
  function ChatsOf(rs: seq<Record>, starts: seq<nat>, p: nat): int
    requires Processes(rs, starts) && p < |starts|
  {
    TurnAt(rs, EndOf(rs, starts, p)) - TurnAt(rs, starts[p])
  }

  lemma LastTurnGrows(log: seq<Message>, n: nat, m: nat, userTurn: nat)
    requires LogOk(log, userTurn) && n <= m <= |log|
    ensures 0 <= LastTurn(log[..n]) <= LastTurn(log[..m])
  {
    if n > 0 {
      assert HistoryLog.Stamped(log[n - 1], n - 1, userTurn);
    }
    if m > 0 {
      assert HistoryLog.Stamped(log[m - 1], m - 1, userTurn);
    }
  }

  lemma {:induction false} CreatedPrefix(rs: seq<Record>, n: nat)
    requires n <= |rs|
    ensures |Created(Events(rs[..n]))| <= |Created(Events(rs))|
    ensures Created(Events(rs[..n])) == Created(Events(rs))[..|Created(Events(rs[..n]))|]
  {
    if n == |rs| {
      assert rs[..n] == rs;
    } else {
      EventsFront(rs);
      var front := rs[..|rs| - 1];
      CreatedPrefix(front, n);
      assert front[..n] == rs[..n];
    }
  }

  lemma TurnGrows(rs: seq<Record>, n: nat, m: nat, userTurn: nat)
    requires n <= m <= |rs| && LogOk(Created(Events(rs)), userTurn)
    ensures 0 <= TurnAt(rs, n) <= TurnAt(rs, m)
  {
    CreatedPrefix(rs, n);
    CreatedPrefix(rs, m);
    CreatedPrefix(rs[..m], n);
    assert rs[..m][..n] == rs[..n];
    LastTurnGrows(Created(Events(rs)), |Created(Events(rs[..n]))|, |Created(Events(rs[..m]))|, userTurn);
  }

  lemma {:induction false} MaxReplAtMost(rs: seq<Record>, most: nat)
    requires forall i :: 0 <= i < |rs| ==> rs[i].replTurn <= most
    ensures MaxReplTurn(rs) <= most
  {
    if |rs| > 0 {
      MaxReplAtMost(rs[..|rs| - 1], most);
    }
  }

  lemma {:induction false} MaxReplAtLeast(rs: seq<Record>, i: nat)
    requires i < |rs|
    ensures MaxReplTurn(rs) >= rs[i].replTurn
  {
    if i < |rs| - 1 {
      MaxReplAtLeast(rs[..|rs| - 1], i);
    }
  }

  lemma NoTurnYet(rs: seq<Record>)
    ensures TurnAt(rs, 0) == 0
  {
    assert Events(rs[..0]) == [];
  }

  /** Every record was written by some process. */
  lemma {:induction false} WriterOf(rs: seq<Record>, starts: seq<nat>, i: nat, upTo: nat) returns (p: nat)
    requires Processes(rs, starts) && upTo < |starts| && i < EndOf(rs, starts, upTo)
    ensures p < |starts| && starts[p] <= i < EndOf(rs, starts, p)
  {
    hide TurnAt, Wrote;
    if starts[upTo] <= i {
      p := upTo;
    } else {
      p := WriterOf(rs, starts, i, upTo - 1);
    }
  }

  lemma ChatsAreCounted(rs: seq<Record>, starts: seq<nat>, userTurn: nat, p: nat, i: nat)
    requires Processes(rs, starts) && LogOk(Created(Events(rs)), userTurn) && p < |starts|
    requires starts[p] <= i < EndOf(rs, starts, p)
    ensures rs[i].replTurn <= ChatsOf(rs, starts, p)
    ensures i == EndOf(rs, starts, p) - 1 ==> rs[i].replTurn == ChatsOf(rs, starts, p)
  {
    hide TurnAt, LogOk, Created, Events;
    assert Wrote(rs, starts[p], EndOf(rs, starts, p));
    TurnGrows(rs, i + 1, EndOf(rs, starts, p), userTurn);
  }

  lemma {:induction false} MaxReplReached(rs: seq<Record>) returns (i: nat)
    requires |rs| > 0
    ensures i < |rs| && rs[i].replTurn == MaxReplTurn(rs)
  {
    var last := |rs| - 1;
    if |rs| == 1 || rs[last].replTurn >= MaxReplTurn(rs[..last]) {
      i := last;
    } else {
      i := MaxReplReached(rs[..last]);
    }
  }

  /** The largest number of a log is the largest number of turns that one process began. */
  lemma MaxReplIsLongest(rs: seq<Record>, starts: seq<nat>, userTurn: nat) returns (longest: nat)
    requires Processes(rs, starts) && LogOk(Created(Events(rs)), userTurn)
    ensures longest < |starts| && MaxReplTurn(rs) == ChatsOf(rs, starts, longest)
    ensures forall p :: 0 <= p < |starts| ==> 0 <= ChatsOf(rs, starts, p) <= MaxReplTurn(rs)
  {
    hide TurnAt, LogOk, Created, Events, Wrote, MaxReplTurn;
    forall p | 0 <= p < |starts| ensures 0 <= ChatsOf(rs, starts, p) <= MaxReplTurn(rs) {
      TurnGrows(rs, starts[p], EndOf(rs, starts, p), userTurn);
      if starts[p] < EndOf(rs, starts, p) {
        ChatsAreCounted(rs, starts, userTurn, p, EndOf(rs, starts, p) - 1);
        MaxReplAtLeast(rs, EndOf(rs, starts, p) - 1);
      }
    }
    if |rs| == 0 {
      longest := 0;
      MaxReplAtMost(rs, 0);
    } else {
      var i := MaxReplReached(rs);
      longest := WriterOf(rs, starts, i, |starts| - 1);
      ChatsAreCounted(rs, starts, userTurn, longest, i);
    }
  }

  /** Two processes together began no more turns than the session had. */
  lemma {:induction false} LaterStart(rs: seq<Record>, starts: seq<nat>, p: nat, q: nat)
    requires Processes(rs, starts) && p < q < |starts|
    ensures EndOf(rs, starts, p) <= starts[q]
  {
    hide TurnAt, Wrote;
    if p + 1 < q {
      LaterStart(rs, starts, p, q - 1);
    }
  }

  lemma TwoProcesses(rs: seq<Record>, starts: seq<nat>, userTurn: nat, p: nat, q: nat)
    requires Processes(rs, starts) && LogOk(Created(Events(rs)), userTurn) && p < q < |starts|
    ensures ChatsOf(rs, starts, p) + ChatsOf(rs, starts, q) <= TurnAt(rs, |rs|)
  {
    hide TurnAt, LogOk, Created, Events, Wrote;
    LaterStart(rs, starts, p, q);
    TurnGrows(rs, 0, starts[p], userTurn);
    TurnGrows(rs, EndOf(rs, starts, p), starts[q], userTurn);
    TurnGrows(rs, EndOf(rs, starts, q), |rs|, userTurn);
  }

  /** Processes without a chat leave the turn where it was. */
  lemma {:induction false} IdleBefore(rs: seq<Record>, starts: seq<nat>, p: nat)
    requires Processes(rs, starts) && p < |starts|
    requires forall q :: 0 <= q < p ==> ChatsOf(rs, starts, q) == 0
    ensures TurnAt(rs, starts[p]) == 0
  {
    NoTurnYet(rs);
    hide TurnAt, Wrote;
    if p > 0 {
      IdleBefore(rs, starts, p - 1);
      assert ChatsOf(rs, starts, p - 1) == 0;
    }
  }

  lemma {:induction false} IdleAfter(rs: seq<Record>, starts: seq<nat>, p: nat)
    requires Processes(rs, starts) && p < |starts|
    requires forall q :: p < q < |starts| ==> ChatsOf(rs, starts, q) == 0
    ensures TurnAt(rs, EndOf(rs, starts, p)) == TurnAt(rs, |rs|)
    decreases |starts| - p
  {
    hide TurnAt, Wrote;
    if p + 1 < |starts| {
      IdleAfter(rs, starts, p + 1);
      assert ChatsOf(rs, starts, p + 1) == 0;
    }
  }

  /** At most one of the processes had a chat. */
  predicate OneBusyProcess(rs: seq<Record>, starts: seq<nat>)
    requires Processes(rs, starts)
  {
    forall p, q :: 0 <= p < q < |starts| ==> ChatsOf(rs, starts, p) == 0 || ChatsOf(rs, starts, q) == 0
  }

  lemma LongestWithin(rs: seq<Record>, starts: seq<nat>, userTurn: nat, p: nat)
    requires Processes(rs, starts) && LogOk(Created(Events(rs)), userTurn) && p < |starts|
    ensures ChatsOf(rs, starts, p) <= TurnAt(rs, |rs|)
  {
    hide TurnAt, LogOk, Created, Events, Wrote;
    TurnGrows(rs, 0, starts[p], userTurn);
    TurnGrows(rs, EndOf(rs, starts, p), |rs|, userTurn);
  }

  lemma LongestIsAll(rs: seq<Record>, starts: seq<nat>, userTurn: nat)
    requires Processes(rs, starts) && LogOk(Created(Events(rs)), userTurn)
    ensures MaxReplTurn(rs) <= TurnAt(rs, |rs|)
    ensures MaxReplTurn(rs) == TurnAt(rs, |rs|) <==> OneBusyProcess(rs, starts)
  {
    hide TurnAt, LogOk, Created, Events, Wrote, MaxReplTurn, Processes;
    var longest := MaxReplIsLongest(rs, starts, userTurn);
    LongestWithin(rs, starts, userTurn, longest);
    if OneBusyProcess(rs, starts) && ChatsOf(rs, starts, longest) > 0 {
      assert forall q :: 0 <= q < |starts| && q != longest ==> ChatsOf(rs, starts, q) == 0;
      IdleBefore(rs, starts, longest);
      IdleAfter(rs, starts, longest);
    } else if OneBusyProcess(rs, starts) {
      assert forall q :: 0 <= q < |starts| ==> ChatsOf(rs, starts, q) == 0;
      IdleBefore(rs, starts, |starts| - 1);
      assert ChatsOf(rs, starts, |starts| - 1) == 0;
    } else {
      var p, q :| 0 <= p < q < |starts| && ChatsOf(rs, starts, p) > 0 && ChatsOf(rs, starts, q) > 0;
      TwoProcesses(rs, starts, userTurn, p, q);
      if longest < p {
        TwoProcesses(rs, starts, userTurn, longest, p);
      } else if p < longest {
        TwoProcesses(rs, starts, userTurn, p, longest);
      }
    }
  }

  lemma TurnAtEnd(rs: seq<Record>, s: State)
    requires LogInv(s) && Logs(rs, s)
    ensures TurnAt(rs, |rs|) == s.userTurn
  {
    hide LogOk, Created;
    assert rs[..|rs|] == rs;
  }

  /**
   The rebuilt turn counter of a log that any number of processes wrote one after another: it is the
   largest number of chats that one of them had, never more than the session's counter, and equal to
   it exactly when at most one of them had a chat.
   */
  lemma {:induction false} RestartsLoseTurns(
      id: string, memory: Option<Memory>, steps: seq<Step>, states: seq<State>, n: nat, passes: seq<Pass>, s: State,
      rs: seq<Record>, starts: seq<nat>)
    requires Reached(id, memory, steps, states, n, passes, s)
    requires id != "" && s.msgCounter > 0 && Logs(rs, s) && Processes(rs, starts)
    ensures Rebuild(rs).Ok? && Rebuild(rs).value.userTurn <= s.userTurn
    ensures exists p :: 0 <= p < |starts| && Rebuild(rs).value.userTurn == ChatsOf(rs, starts, p)
    ensures forall p :: 0 <= p < |starts| ==> ChatsOf(rs, starts, p) <= Rebuild(rs).value.userTurn
    ensures Rebuild(rs).value.userTurn == s.userTurn <==> OneBusyProcess(rs, starts)
  {
    hide Reached, Processes, TurnAt, OneBusyProcess, LogOk, FirstSeen, BatchesFrom, MaxReplTurn, MemberIds, Filter;
    ReachedKeeps(id, memory, steps, states, n, passes, s);
    ReplayRebuildsRun(id, memory, steps, states, n, passes, s, rs);
    var longest := MaxReplIsLongest(rs, starts, s.userTurn);
    LongestIsAll(rs, starts, s.userTurn);
    TurnAtEnd(rs, s);
  }

  // ---- The memory and the turns since the last batch.

  /** The memory that comes back is the last one announced, if any. */
  lemma {:induction false} LastMemoryComesBack(rs: seq<Record>)
    ensures LastMemory(rs).None? <==> forall i :: 0 <= i < |rs| ==> !rs[i].event.WorkingMemoryUpdated?
    ensures LastMemory(rs).Some? ==>
      exists i :: 0 <= i < |rs| && rs[i].event == WorkingMemoryUpdated(LastMemory(rs).value)
                  && forall j :: i < j < |rs| ==> !rs[j].event.WorkingMemoryUpdated?
  {
    if |rs| > 0 && !rs[|rs| - 1].event.WorkingMemoryUpdated? {
      var front := rs[..|rs| - 1];
      LastMemoryComesBack(front);
      if LastMemory(rs).Some? {
        var i :| 0 <= i < |front| && front[i].event == WorkingMemoryUpdated(LastMemory(rs).value)
                 && forall j :: i < j < |front| ==> !front[j].event.WorkingMemoryUpdated?;
        assert rs[i] == front[i];
      }
    }
  }

  /** Record j holds the last batch. */
  predicate LastBatchAt(rs: seq<Record>, j: nat) {
    j < |rs| && IsBatch(rs[j].event) && forall k :: j < k < |rs| ==> !IsBatch(rs[k].event)
  }

  lemma {:induction false} LastBatchCounts(rs: seq<Record>, j: nat)
    requires LastBatchAt(rs, j)
    ensures LastCompression(rs) == rs[j].replTurn
  {
    if j < |rs| - 1 {
      LastBatchCounts(rs[..|rs| - 1], j);
    }
  }

  lemma {:induction false} NoBatchCounts(rs: seq<Record>)
    requires forall k :: 0 <= k < |rs| ==> !IsBatch(rs[k].event)
    ensures LastCompression(rs) == 0
  {
    if |rs| > 0 {
      NoBatchCounts(rs[..|rs| - 1]);
    }
  }

  lemma TurnsWithinLog(
      id: string, memory: Option<Memory>, steps: seq<Step>, states: seq<State>, n: nat, passes: seq<Pass>, s: State,
      rs: seq<Record>, j: nat)
    requires Reached(id, memory, steps, states, n, passes, s) && Logs(rs, s) && j < |rs|
    ensures TurnAt(rs, j + 1) <= s.userTurn
  {
    hide Reached, TurnAt, LogOk;
    ReachedKeeps(id, memory, steps, states, n, passes, s);
    TurnAtEnd(rs, s);
    TurnGrows(rs, j + 1, |rs|, s.userTurn);
  }

  /**
   The log of one process: the rebuilt turns since the last compression are the chats that were begun after the one
   in which the last batch was recorded, or all of them when there is no batch; and the rebuilt memory is the last
   one announced.
   */
  lemma {:induction false} TurnsSinceLastBatch(
      id: string, memory: Option<Memory>, steps: seq<Step>, states: seq<State>, n: nat, passes: seq<Pass>, s: State,
      rs: seq<Record>, j: nat)
    requires Reached(id, memory, steps, states, n, passes, s)
    requires id != "" && s.msgCounter > 0 && Logs(rs, s) && Processes(rs, [0])
    ensures Rebuild(rs).Ok? && Rebuild(rs).value.memory == LastMemory(rs)
    ensures LastBatchAt(rs, j) ==> Rebuild(rs).value.turnsSince == s.userTurn - TurnAt(rs, j + 1)
    ensures (forall k :: 0 <= k < |rs| ==> !IsBatch(rs[k].event)) ==> Rebuild(rs).value.turnsSince == s.userTurn
  {
    hide Reached, TurnAt, LogOk, FirstSeen, BatchesFrom, MaxReplTurn, LastCompression, LastMemory, MemberIds, Filter,
         Logs, IsBatch;
    RestartsLoseTurns(id, memory, steps, states, n, passes, s, rs, [0]);
    assert OneBusyProcess(rs, [0]);
    if LastBatchAt(rs, j) {
      LastBatchCounts(rs, j);
      NoTurnYet(rs);
      assert Wrote(rs, 0, EndOf(rs, [0], 0));
      TurnsWithinLog(id, memory, steps, states, n, passes, s, rs, j);
    }
    if forall k :: 0 <= k < |rs| ==> !IsBatch(rs[k].event) {
      NoBatchCounts(rs);
    }
  }

  predicate Migrated(rs: seq<Record>, j: nat, b: Batch)
    requires j < |rs|
  {
    && IsBatch(rs[j].event) && b.batchId == rs[j].event.batch.batchId && b.trigger == "migrated"
    && b.createdAt == b.timeFrom == b.timeTo == rs[j].ts
    && var named := FirstSession(rs[..j + 1]);
       b.sessionId == if named.Some? && named.value != "" then named.value else "unknown"
  }

  /** Some record is what the batch was rebuilt from. */
  predicate HasRecord(rs: seq<Record>, b: Batch) { exists j :: 0 <= j < |rs| && Migrated(rs, j, b) }

  /** A rebuilt batch is stamped by the migration: with the record's time, and with the session named by then. */
  lemma {:induction false} BatchesAreMigrated(rs: seq<Record>)
    ensures forall b :: b in BatchesFrom(rs) ==> HasRecord(rs, b)
  {
    if |rs| > 0 {
      var front := rs[..|rs| - 1];
      BatchesAreMigrated(front);
      forall b | b in BatchesFrom(rs) ensures HasRecord(rs, b) {
        if b in BatchesFrom(front) {
          var j :| 0 <= j < |front| && Migrated(front, j, b);
          assert front[..j + 1] == rs[..j + 1] && Migrated(rs, j, b);
        } else {
          assert rs[..|rs|] == rs && Migrated(rs, |rs| - 1, b);
        }
      }
    }
  }
}
