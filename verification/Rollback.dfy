/**
 What replay makes of a session's events on an agent's bus, when resumes may have taken chats back: message and batch
 ids are then used again.
 */
module Rollback {
  import opened Prelude
  import opened Types
  import opened IdGenerator
  import opened WorkingMemories
  import opened CompressedStore
  import opened History
  import opened HistoryLog
  import opened SessionMoves
  import opened SharedBus
  import opened Replay
  import opened ReplayOfRun

  lemma {:induction false} CreatedAppend(a: seq<Event>, b: seq<Event>)
    ensures Created(a + b) == Created(a) + Created(b)
    ensures BatchesIn(a + b) == BatchesIn(a) + BatchesIn(b)
  {
    if |b| == 0 {
      assert a + b == a;
    } else {
      assert (a + b)[..|a + b| - 1] == a + b[..|b| - 1];
      CreatedAppend(a, b[..|b| - 1]);
    }
  }

  // ---- Messages under numbers that may be used again.

  /** Message i carries number k + i + 1. */
  predicate NumberedFrom(ms: seq<Message>, k: nat) { forall i :: 0 <= i < |ms| ==> ms[i].id == Some(MsgId(k + i + 1)) }

  function Larger(a: nat, b: nat): nat { if a < b then b else a }

  /** In a numbered list the numbers up to its length are taken. */
  lemma NumbersTaken(seen: seq<Message>, n: nat)
    requires NumberedFrom(seen, 0) && n >= 1
    ensures MsgId(n) in Ids(seen) <==> n <= |seen|
  {
    if n <= |seen| {
      assert seen[n - 1] in seen;
    }
    forall m | m in seen && m.id == Some(MsgId(n)) ensures n <= |seen| {
      var i :| 0 <= i < |seen| && seen[i] == m;
      MsgIdInjective(i + 1, n);
    }
  }

  /** Of messages numbered from k on, those beyond the end of the list are new. */
  lemma {:induction false} PutNumbered(seen: seq<Message>, ms: seq<Message>, k: nat)
    requires NumberedFrom(seen, 0) && NumberedFrom(ms, k) && k <= |seen|
    ensures NumberedFrom(PutAll(seen, ms), 0) && |PutAll(seen, ms)| == Larger(|seen|, k + |ms|)
  {
    hide Ids;
    if |ms| > 0 {
      var rest := PutAll(seen, ms[..|ms| - 1]);
      PutNumbered(seen, ms[..|ms| - 1], k);
      NumbersTaken(rest, k + |ms|);
    }
  }

  lemma {:induction false} PutAllAppend(bucket: seq<Message>, a: seq<Message>, b: seq<Message>)
    ensures PutAll(bucket, a + b) == PutAll(PutAll(bucket, a), b)
  {
    if |b| == 0 {
      assert a + b == a;
    } else {
      assert (a + b)[..|a + b| - 1] == a + b[..|b| - 1];
      PutAllAppend(bucket, a, b[..|b| - 1]);
    }
  }

  /** Messages that appear under an id for the first time are kept, as the store keeps them. */
  lemma {:induction false} FirstSeenIsPutAll(rs: seq<Record>)
    requires forall m :: m in Created(Events(rs)) ==> HasId(m)
    ensures FirstSeen(rs) == PutAll([], Created(Events(rs)))
  {
    if |rs| > 0 {
      EventsFront(rs);
      var front := rs[..|rs| - 1];
      FirstSeenIsPutAll(front);
      var e := rs[|rs| - 1].event;
      if e.MessageCreated? {
        assert e.message in Created(Events(rs));
        assert Created(Events(rs))[..|Created(Events(front))|] == Created(Events(front));
      }
    }
  }

  // ---- What a session has announced at any time.

  function Announced(acts: seq<Act>, id: string): seq<Message>
    requires ValidActs(acts)
  {
    Created(EventsOf(After(acts).bus, id))
  }

  function Recorded(acts: seq<Act>, id: string): seq<Batch>
    requires ValidActs(acts)
  {
    BatchesIn(EventsOf(After(acts).bus, id))
  }

  function Counter(id: string, b: Option<Branch>): nat
    requires ValidBranch(b)
  {
    if b.Some? then LiveOf(id, b.value).state.msgCounter else 0
  }

  function BatchCount(id: string, b: Option<Branch>): nat
    requires ValidBranch(b)
  {
    if b.Some? then LiveOf(id, b.value).state.batchCounter else 0
  }

  function LogOf(s: State): seq<Message> { s.compressed + s.live }

  lemma NumbersGoOn(log: seq<Message>, more: seq<Message>)
    requires NumberedFrom(log + more, 0)
    ensures NumberedFrom(more, |log|)
  {
    forall i | 0 <= i < |more| ensures more[i].id == Some(MsgId(|log| + i + 1)) {
      assert more[i] == (log + more)[|log| + i];
    }
  }

  /** A move's new messages and batches carry the next numbers and are what it adds to the session. */
  lemma {:induction false} MoveAdds(id: string, b: Branch, m: Move)
    requires ValidMoves(b.moves) && ValidMove(m)
    ensures var l := LiveOf(id, b);
      var l', news := Moved(l, m), News(l, m);
      && LogOf(l'.state) == LogOf(l.state) + Created(news)
      && NumberedFrom(LogOf(l.state), 0) && |LogOf(l.state)| == l.state.msgCounter
      && NumberedFrom(Created(news), l.state.msgCounter)
      && l'.state.msgCounter == l.state.msgCounter + |Created(news)|
      && l'.state.batches == l.state.batches + BatchesIn(news)
      && |l.state.batches| == l.state.batchCounter && |l'.state.batches| == l'.state.batchCounter
      && ReplayOfRun.Numbered(l.state.batches) && ReplayOfRun.Numbered(l'.state.batches)
  {
    hide Moved, News, Good, MoveAll, Created, BatchesIn, LogOk;
    var l := LiveOf(id, b);
    MovesAreGood(id, b.memory, b.moves);
    MoveIsGood(l, m);
    GoodIsSound(l);
    GoodIsSound(Moved(l, m));
    LogIsNumbered(l.state);
    LogIsNumbered(Moved(l, m).state);
    MoveAnywhere(l, m, []);
    CreatedAppend(l.state.trace, News(l, m));
    NumbersGoOn(LogOf(l.state), Created(News(l, m)));
  }

  // ---- The highest numbers.

  /** The announced messages, each number at its first appearance. */
  function Seen(acts: seq<Act>, id: string): seq<Message>
    requires ValidActs(acts)
  {
    PutAll([], Announced(acts, id))
  }

  predicate AllHaveIds(ms: seq<Message>) { forall m :: m in ms ==> HasId(m) }

  /** The announced numbers have no gaps, and reach as far as the session and its file do. */
  predicate Marks(announced: seq<Message>, id: string, b: Branches)
    requires ValidBranches(b)
  {
    var seen := PutAll([], announced);
    && AllHaveIds(announced) && NumberedFrom(seen, 0)
    && Counter(id, b.current) <= |seen| && Counter(id, b.saved) <= |seen|
  }

  predicate BatchMarks(recorded: seq<Batch>, id: string, b: Branches)
    requires ValidBranches(b)
  {
    && Named(recorded)
    && BatchCount(id, b.current) <= MaxBatchNumber(recorded) && BatchCount(id, b.saved) <= MaxBatchNumber(recorded)
  }

  lemma FreshCounts(id: string, memory: Option<Memory>)
    ensures Counter(id, Some(Branch(memory, []))) == 0 && BatchCount(id, Some(Branch(memory, []))) == 0
  {
  }

  /** Loading a file keeps the counters. */
  lemma ReloadCounts(id: string, b: Branch)
    requires ValidMoves(b.moves)
    ensures ValidMoves(Longer(b, Reload).moves)
    ensures Counter(id, Some(Longer(b, Reload))) == Counter(id, Some(b))
    ensures BatchCount(id, Some(Longer(b, Reload))) == BatchCount(id, Some(b))
    ensures LogOf(LiveOf(id, Longer(b, Reload)).state) == LogOf(LiveOf(id, b).state)
  {
    hide MoveAll;
    OneMoreMove(id, b, Reload);
  }

  lemma NumberedHaveIds(ms: seq<Message>, k: nat)
    requires NumberedFrom(ms, k)
    ensures AllHaveIds(ms)
  {
  }

  lemma NothingCreated()
    ensures Created([]) == [] && BatchesIn([]) == []
  {
  }

  lemma MarksNext(announced: seq<Message>, id: string, b: Branches, act: Act)
    requires ValidBranches(b) && ValidAct(act) && Marks(announced, id, b)
    ensures Marks(announced + Created(Said(b, id, act)), id, Taken(b, id, act))
  {
    hide LiveOf, News, Saves, Moved, NumberedFrom, PutAll, Created;
    NothingCreated();
    assert announced + [] == announced;
    if act.id == id {
      match act {
        case Open(_, memory) => FreshCounts(id, memory);
        case Go(_, m) =>
          if b.current.Some? {
            var now := b.current.value;
            var more := Created(News(LiveOf(id, now), m));
            MoveAdds(id, now, m);
            OneMoreMove(id, now, m);
            ReloadCounts(id, Longer(now, m));
            PutAllAppend([], announced, more);
            PutNumbered(PutAll([], announced), more, Counter(id, b.current));
            NumberedHaveIds(more, Counter(id, b.current));
          }
        case Resume(_) =>
      }
    }
  }

  lemma NoMarks(id: string)
    ensures Marks(Announced([], id), id, Past([], id)) && BatchMarks(Recorded([], id), id, Past([], id))
  {
  }

  lemma {:induction false} MarksHold(acts: seq<Act>, id: string)
    requires ValidActs(acts)
    ensures Marks(Announced(acts, id), id, Past(acts, id))
  {
    hide Marks, Taken, Said, Created, Acted;
    if |acts| == 0 {
      NoMarks(id);
    } else {
      var before, act := acts[..|acts| - 1], acts[|acts| - 1];
      assert acts == before + [act];
      MarksHold(before, id);
      NextSays(before, act, id);
      CreatedAppend(EventsOf(After(before).bus, id), Said(Past(before, id), id, act));
      MarksNext(Announced(before, id), id, Past(before, id), act);
    }
  }

  // ---- The batch numbers.

  lemma {:induction false} MaxBatchAppend(a: seq<Batch>, b: seq<Batch>)
    ensures MaxBatchNumber(a + b) == Larger(MaxBatchNumber(a), MaxBatchNumber(b))
  {
    if |b| == 0 {
      assert a + b == a;
    } else {
      assert (a + b)[..|a + b| - 1] == a + b[..|b| - 1];
      MaxBatchAppend(a, b[..|b| - 1]);
    }
  }

  lemma {:induction false} MaxBatchAtLeast(bs: seq<Batch>, i: nat)
    requires i < |bs|
    ensures NumberAfter("cm_", bs[i].batchId) <= MaxBatchNumber(bs)
  {
    if i < |bs| - 1 {
      MaxBatchAtLeast(bs[..|bs| - 1], i);
    }
  }

  lemma NamedTail(a: seq<Batch>, b: seq<Batch>)
    requires Named(a + b)
    ensures Named(b)
  {
    forall i | 0 <= i < |b| ensures b[i].batchId != "" {
      assert b[i] == (a + b)[|a| + i];
    }
  }

  lemma BatchMarksNext(recorded: seq<Batch>, id: string, b: Branches, act: Act)
    requires ValidBranches(b) && ValidAct(act) && BatchMarks(recorded, id, b)
    ensures BatchMarks(recorded + BatchesIn(Said(b, id, act)), id, Taken(b, id, act))
  {
    hide LiveOf, News, Saves, Moved, BatchesIn, MaxBatchNumber, ReplayOfRun.Numbered;
    NothingCreated();
    assert recorded + [] == recorded;
    if act.id == id {
      match act {
        case Open(_, memory) => FreshCounts(id, memory);
        case Go(_, m) =>
          if b.current.Some? {
            var now := b.current.value;
            var had, more := LiveOf(id, now).state.batches, BatchesIn(News(LiveOf(id, now), m));
            MoveAdds(id, now, m);
            OneMoreMove(id, now, m);
            ReloadCounts(id, Longer(now, m));
            MaxBatchAppend(recorded, more);
            MaxBatchAppend(had, more);
            MaxBatchOfNumbered(had);
            MaxBatchOfNumbered(had + more);
            NumberedAreNamed(had + more);
            NamedTail(had, more);
          }
        case Resume(_) =>
      }
    }
  }

  lemma {:induction false} BatchMarksHold(acts: seq<Act>, id: string)
    requires ValidActs(acts)
    ensures BatchMarks(Recorded(acts, id), id, Past(acts, id))
  {
    hide BatchMarks, Taken, Said, BatchesIn, Acted;
    if |acts| == 0 {
      NoMarks(id);
    } else {
      var before, act := acts[..|acts| - 1], acts[|acts| - 1];
      assert acts == before + [act];
      BatchMarksHold(before, id);
      NextSays(before, act, id);
      CreatedAppend(EventsOf(After(before).bus, id), Said(Past(before, id), id, act));
      BatchMarksNext(Recorded(before, id), id, Past(before, id), act);
    }
  }

  // ---- What replay rebuilds.

  /** The log holds what the bus announced for the session, in order, and names no other one. */
  predicate LogsBus(rs: seq<Record>, acts: seq<Act>, id: string)
    requires ValidActs(acts)
  {
    && Created(Events(rs)) == Announced(acts, id) && BatchesIn(Events(rs)) == Recorded(acts, id)
    && forall i :: 0 <= i < |rs| ==> NamesSession(rs[i], id)
  }

  lemma {:induction false} MaxMsgOfNumbered(ms: seq<Message>)
    requires NumberedFrom(ms, 0)
    ensures MaxMsgNumber(ms) == |ms|
  {
    if |ms| > 0 {
      MaxMsgOfNumbered(ms[..|ms| - 1]);
      NumberAfterM(|ms|);
    }
  }

  /** An announced id is among those seen. */
  lemma {:induction false} PutAllCovers(ms: seq<Message>, m: Message)
    requires m in ms && HasId(m)
    ensures m.id.value in Ids(PutAll([], ms))
  {
    var front := ms[..|ms| - 1];
    if m in front {
      PutAllCovers(front, m);
    } else {
      assert m == ms[|ms| - 1];
    }
  }

  lemma NextIsFresh(announced: seq<Message>, m: Message)
    requires AllHaveIds(announced) && NumberedFrom(PutAll([], announced), 0) && m in announced
    ensures m.id != Some(MsgId(|PutAll([], announced)| + 1))
  {
    PutAllCovers(announced, m);
    NumbersTaken(PutAll([], announced), |PutAll([], announced)| + 1);
  }

  lemma NextBatchIsFresh(bs: seq<Batch>, i: nat)
    requires i < |bs|
    ensures bs[i].batchId != BatchId(MaxBatchNumber(bs) + 1)
  {
    hide MaxBatchNumber, NumberAfter, BatchId;
    MaxBatchAtLeast(bs, i);
    NumberAfterCm(MaxBatchNumber(bs) + 1);
  }

  lemma {:induction false} SameMaxBatch(a: seq<Batch>, b: seq<Batch>)
    requires SameBatches(a, b)
    ensures MaxBatchNumber(a) == MaxBatchNumber(b)
  {
    if |a| > 0 {
      assert SameBatch(a[|a| - 1], b[|b| - 1]);
      assert forall i :: 0 <= i < |a| - 1 ==> SameBatch(a[i], b[i]);
      SameMaxBatch(a[..|a| - 1], b[..|b| - 1]);
    }
  }

  /** The highest numbers reach as far as the session does, and the numbers after them have not been used. */
  lemma {:induction false} HighestAreFresh(acts: seq<Act>, id: string)
    requires ValidActs(acts)
    ensures Counter(id, Past(acts, id).current) <= |Seen(acts, id)|
    ensures BatchCount(id, Past(acts, id).current) <= MaxBatchNumber(Recorded(acts, id))
    ensures forall m :: m in Announced(acts, id) ==> m.id != Some(MsgId(|Seen(acts, id)| + 1))
    ensures forall b :: b in Recorded(acts, id) ==> b.batchId != BatchId(MaxBatchNumber(Recorded(acts, id)) + 1)
  {
    MarksHold(acts, id);
    BatchMarksHold(acts, id);
    hide NumberedFrom, PutAll, MaxBatchNumber, Announced, Recorded, Past, Counter, BatchCount;
    forall m | m in Announced(acts, id) ensures m.id != Some(MsgId(|Seen(acts, id)| + 1)) {
      NextIsFresh(Announced(acts, id), m);
    }
    var bs := Recorded(acts, id);
    forall b | b in bs ensures b.batchId != BatchId(MaxBatchNumber(bs) + 1) {
      var i :| 0 <= i < |bs| && bs[i] == b;
      NextBatchIsFresh(bs, i);
    }
  }

  lemma RebuildsParts(rs: seq<Record>, id: string, all: seq<Message>, bs: seq<Batch>)
    requires id != "" && FirstSession(rs) == Some(id) && FirstSeen(rs) == all && NumberedFrom(all, 0)
    requires SameBatches(BatchesFrom(rs), bs)
    ensures var ids := MemberIds(bs);
      && Rebuild(rs).Ok? && Rebuild(rs).value.sessionId == id
      && Rebuild(rs).value.live == Filter(all, (m: Message) => !Listed(m, ids))
      && Rebuild(rs).value.compressed == Filter(all, (m: Message) => Listed(m, ids))
      && SameBatches(Rebuild(rs).value.batches, bs)
      && Rebuild(rs).value.msgCounter == |all| && Rebuild(rs).value.batchCounter == MaxBatchNumber(bs)
  {
    hide NumberedFrom, FirstSeen, BatchesFrom, FirstSession, MemberIds, Filter, LastMemory, MaxReplTurn,
         LastCompression, MaxMsgNumber, MaxBatchNumber, SameBatches, Listed;
    MaxMsgOfNumbered(all);
    SameMemberIds(BatchesFrom(rs), bs);
    SameMaxBatch(BatchesFrom(rs), bs);
  }

  /**
   Replaying what an agent's bus announced for a session, whatever was taken back: each number's first message, in
   order and without gaps; live is what no announced batch lists, lost batches included; every announced batch comes
   back. The counters are the highest numbers ever used, at least the session's, and the numbers after them are new.
   */
  lemma {:induction false} RebuildOfBus(acts: seq<Act>, id: string, rs: seq<Record>)
    requires ValidActs(acts) && LogsBus(rs, acts, id) && id != "" && Announced(acts, id) != []
    ensures var all, bs := Seen(acts, id), Recorded(acts, id);
      && Rebuild(rs).Ok? && Rebuild(rs).value.sessionId == id
      && NumberedFrom(all, 0) && Rebuild(rs).value.msgCounter == |all|
      && Rebuild(rs).value.live == Filter(all, (m: Message) => !Listed(m, MemberIds(bs)))
      && Rebuild(rs).value.compressed == Filter(all, (m: Message) => Listed(m, MemberIds(bs)))
      && SameBatches(Rebuild(rs).value.batches, bs)
      && Counter(id, Past(acts, id).current) <= Rebuild(rs).value.msgCounter
      && BatchCount(id, Past(acts, id).current) <= Rebuild(rs).value.batchCounter
      && (forall m :: m in Announced(acts, id) ==> m.id != Some(MsgId(Rebuild(rs).value.msgCounter + 1)))
      && (forall b :: b in bs ==> b.batchId != BatchId(Rebuild(rs).value.batchCounter + 1))
  {
    MarksHold(acts, id);
    BatchMarksHold(acts, id);
    HighestAreFresh(acts, id);
    hide NumberedFrom, PutAll, Rebuild, FirstSeen, BatchesFrom, FirstSession, MemberIds, Filter, Announced, Recorded,
         Past, Counter, BatchCount, NamesSession, Events, MaxBatchNumber, SameBatches, Named, Created, BatchesIn;
    FirstSeenIsPutAll(rs);
    BatchesComeBack(rs);
    SessionComesBack(rs, id);
    RebuildsParts(rs, id, Seen(acts, id), Recorded(acts, id));
  }

  // ---- The first and the last message under a number.

  function FirstWith(ms: seq<Message>, id: string): Option<Message> {
    if |ms| == 0 then None
    else
      var before := FirstWith(ms[..|ms| - 1], id);
      if before.None? && ms[|ms| - 1].id == Some(id) then Some(ms[|ms| - 1]) else before
  }

  function LastWith(ms: seq<Message>, id: string): Option<Message> {
    if |ms| == 0 then None
    else if ms[|ms| - 1].id == Some(id) then Some(ms[|ms| - 1])
    else LastWith(ms[..|ms| - 1], id)
  }

  /** What is seen under an id is the first message with it. */
  lemma {:induction false} SeenIsFirst(ms: seq<Message>, id: string)
    requires AllHaveIds(ms) && id != ""
    ensures FirstWith(ms, id).Some? <==> id in Ids(PutAll([], ms))
    ensures forall m :: m in PutAll([], ms) && m.id == Some(id) ==> FirstWith(ms, id) == Some(m)
  {
    if |ms| > 0 {
      SeenIsFirst(ms[..|ms| - 1], id);
    }
  }

  lemma {:induction false} LastAppend(a: seq<Message>, b: seq<Message>, id: string)
    ensures LastWith(a + b, id) == if LastWith(b, id).Some? then LastWith(b, id) else LastWith(a, id)
  {
    if |b| == 0 {
      assert a + b == a;
    } else {
      assert (a + b)[..|a + b| - 1] == a + b[..|b| - 1];
      LastAppend(a, b[..|b| - 1], id);
    }
  }

  lemma MsgIdDiffer(a: nat, b: nat)
    requires a != b
    ensures MsgId(a) != MsgId(b)
  {
    if MsgId(a) == MsgId(b) {
      MsgIdInjective(a, b);
    }
  }

  lemma {:induction false} LastOfNumbered(ms: seq<Message>, k: nat, n: nat)
    requires NumberedFrom(ms, k) && n >= 1
    ensures LastWith(ms, MsgId(n)) == if k < n <= k + |ms| then Some(ms[n - k - 1]) else None
  {
    if |ms| > 0 {
      if k + |ms| != n {
        MsgIdDiffer(k + |ms|, n);
      }
      LastOfNumbered(ms[..|ms| - 1], k, n);
    }
  }

  /** Message i of the history is the last one announced under its number. */
  predicate IsLatest(announced: seq<Message>, log: seq<Message>) {
    NumberedFrom(log, 0) && forall i :: 0 <= i < |log| ==> LastWith(announced, MsgId(i + 1)) == Some(log[i])
  }

  lemma LatestGoesOn(announced: seq<Message>, log: seq<Message>, more: seq<Message>)
    requires IsLatest(announced, log) && NumberedFrom(more, |log|)
    ensures IsLatest(announced + more, log + more)
  {
    forall i | 0 <= i < |log + more|
      ensures (log + more)[i].id == Some(MsgId(i + 1))
      ensures LastWith(announced + more, MsgId(i + 1)) == Some((log + more)[i])
    {
      LastAppend(announced, more, MsgId(i + 1));
      LastOfNumbered(more, |log|, i + 1);
    }
  }

  /** A shorter history stays the latest when later numbers are announced. */
  lemma LatestStays(announced: seq<Message>, log: seq<Message>, more: seq<Message>, k: nat)
    requires IsLatest(announced, log) && NumberedFrom(more, k) && |log| <= k
    ensures IsLatest(announced + more, log)
  {
    forall i | 0 <= i < |log| ensures LastWith(announced + more, MsgId(i + 1)) == Some(log[i]) {
      LastAppend(announced, more, MsgId(i + 1));
      LastOfNumbered(more, k, i + 1);
    }
  }

  function LogBehind(id: string, b: Option<Branch>): seq<Message>
    requires ValidBranch(b)
  {
    if b.Some? then LogOf(LiveOf(id, b.value).state) else []
  }

  /** The session id is given out once. */
  ghost predicate OpenedOnce(acts: seq<Act>, id: string)
    requires ValidActs(acts)
  {
    |acts| > 0 ==>
      && OpenedOnce(acts[..|acts| - 1], id)
      && var act := acts[|acts| - 1];
         (act.Open? && act.id == id ==> Past(acts[..|acts| - 1], id) == Branches(None, None))
  }

  predicate BothLatest(announced: seq<Message>, id: string, b: Branches)
    requires ValidBranches(b)
  {
    && IsLatest(announced, LogBehind(id, b.current)) && IsLatest(announced, LogBehind(id, b.saved))
    && |LogBehind(id, b.saved)| <= |LogBehind(id, b.current)| && (b.current.None? ==> b.saved.None?)
  }

  lemma FreshLog(id: string, memory: Option<Memory>)
    ensures LogBehind(id, Some(Branch(memory, []))) == []
  {
  }

  lemma LatestNext(announced: seq<Message>, id: string, b: Branches, act: Act)
    requires ValidBranches(b) && ValidAct(act) && BothLatest(announced, id, b)
    requires act.Open? && act.id == id ==> b == Branches(None, None)
    ensures BothLatest(announced + Created(Said(b, id, act)), id, Taken(b, id, act))
  {
    hide LiveOf, News, Saves, Moved, NumberedFrom, Created, IsLatest;
    NothingCreated();
    assert announced + [] == announced;
    if act.id == id {
      match act {
        case Open(_, memory) => FreshLog(id, memory);
        case Go(_, m) =>
          if b.current.Some? {
            var now := b.current.value;
            var more := Created(News(LiveOf(id, now), m));
            MoveAdds(id, now, m);
            OneMoreMove(id, now, m);
            ReloadCounts(id, Longer(now, m));
            LatestGoesOn(announced, LogBehind(id, b.current), more);
            LatestStays(announced, LogBehind(id, b.saved), more, |LogBehind(id, b.current)|);
          }
        case Resume(_) =>
      }
    }
  }

  lemma NothingLatest(id: string)
    ensures BothLatest(Announced([], id), id, Past([], id))
  {
  }

  lemma {:induction false} SessionIsLatest(acts: seq<Act>, id: string)
    requires ValidActs(acts) && OpenedOnce(acts, id)
    ensures BothLatest(Announced(acts, id), id, Past(acts, id))
  {
    hide BothLatest, Taken, Said, Created, Acted;
    if |acts| == 0 {
      NothingLatest(id);
    } else {
      var before, act := acts[..|acts| - 1], acts[|acts| - 1];
      assert acts == before + [act];
      SessionIsLatest(before, id);
      NextSays(before, act, id);
      CreatedAppend(EventsOf(After(before).bus, id), Said(Past(before, id), id, act));
      LatestNext(Announced(before, id), id, Past(before, id), act);
    }
  }

  /** The first and the last message announced under a number are the same. */
  predicate Unambiguous(announced: seq<Message>, n: nat) {
    FirstWith(announced, MsgId(n)) == LastWith(announced, MsgId(n))
  }

  lemma SeenIsHistory(announced: seq<Message>, seen: seq<Message>, log: seq<Message>)
    requires IsLatest(announced, log)
    requires forall i :: 0 <= i < |seen| ==> FirstWith(announced, MsgId(i + 1)) == Some(seen[i])
    ensures seen == log <==> |log| == |seen| && forall n :: 1 <= n <= |log| ==> Unambiguous(announced, n)
  {
    hide FirstWith, LastWith;
    if seen == log {
      forall n | 1 <= n <= |log| ensures Unambiguous(announced, n) {
        assert FirstWith(announced, MsgId((n - 1) + 1)) == Some(seen[n - 1]);
      }
    }
    if |log| == |seen| && forall n :: 1 <= n <= |log| ==> Unambiguous(announced, n) {
      forall i | 0 <= i < |log| ensures log[i] == seen[i] {
        assert Unambiguous(announced, i + 1);
      }
    }
  }

  lemma SeenAreFirst(announced: seq<Message>)
    requires AllHaveIds(announced) && NumberedFrom(PutAll([], announced), 0)
    ensures forall i :: 0 <= i < |PutAll([], announced)| ==>
              FirstWith(announced, MsgId(i + 1)) == Some(PutAll([], announced)[i])
  {
    hide PutAll, FirstWith;
    var seen := PutAll([], announced);
    forall i | 0 <= i < |seen| ensures FirstWith(announced, MsgId(i + 1)) == Some(seen[i]) {
      SeenIsFirst(announced, MsgId(i + 1));
      assert seen[i] in seen;
    }
  }

  /**
   Replay finds the history of a session that was opened once exactly when the session has gone as far as it ever had,
   and under no number the first and the last announced message differ: when the chats that were taken back, if there
   are any, have been repeated.
   */
  lemma {:induction false} ReplayFindsHistory(acts: seq<Act>, id: string, rs: seq<Record>)
    requires ValidActs(acts) && LogsBus(rs, acts, id) && OpenedOnce(acts, id)
    ensures var log := LogBehind(id, Past(acts, id).current);
      (FirstSeen(rs) == log)
        <==> (|log| == |Seen(acts, id)| && forall n :: 1 <= n <= |log| ==> Unambiguous(Announced(acts, id), n))
  {
    MarksHold(acts, id);
    SessionIsLatest(acts, id);
    hide PutAll, FirstSeen, Announced, Past, LogBehind, NamesSession, Events, Unambiguous, Counter, Recorded, IsLatest,
         NumberedFrom;
    FirstSeenIsPutAll(rs);
    SeenAreFirst(Announced(acts, id));
    SeenIsHistory(Announced(acts, id), Seen(acts, id), LogBehind(id, Past(acts, id).current));
  }
}
