/** Reading back compressed messages: neoagent/tools/builtin/recall_turn.py. */
module RecallTurn {
  import opened Prelude
  import opened Types
  import opened IdGenerator
  import opened WorkingMemories
  import opened CompressedStore
  import opened History
  import opened HistoryLog
  import opened HistoryBatches

  datatype Recalled = Recalled(id: string, role: Role, content: Content)

  /** The tool's answer; an absent "missing" field is an empty list. */
  datatype Payload = Payload(recalled: seq<Recalled>, missing: seq<string>)

  /** The live copy wins over the compressed one. */
  function Lookup(live: seq<Message>, compressed: seq<Message>, id: string): Option<Message> {
    if id in Index(live) then Some(Index(live)[id])
    else if id in Index(compressed) then Some(Index(compressed)[id])
    else None
  }

  function Answer(live: seq<Message>, compressed: seq<Message>, ids: seq<string>): Payload {
    if |ids| == 0 then Payload([], [])
    else
      var id := ids[|ids| - 1];
      var rest := Answer(live, compressed, ids[..|ids| - 1]);
      match Lookup(live, compressed, id)
      case None => rest.(missing := rest.missing + [id])
      case Some(m) => rest.(recalled := rest.recalled + [Recalled(id, m.role, m.content)])
  }

  /** RecallTurnTool.execute with a store wired. */
  method Execute(live: MessageList, store: InMemoryCompressedMessageStore, sessionId: string, ids: seq<string>)
    returns (payload: Payload)
    ensures payload == Answer(
      live.items, if sessionId in store.buckets then store.buckets[sessionId].items else [], ids)
  {
    ghost var bucket := if sessionId in store.buckets then store.buckets[sessionId].items else [];
    var liveIndex := Index(live.items);
    var compressedIndex: map<string, Message> := map[];
    if ids != [] {
      compressedIndex := store.GetMany(sessionId, ids);
    }
    var index := compressedIndex + liveIndex;
    if ids == [] {
      return Payload([], []);
    }
    var recalled: seq<Recalled> := [];
    var missing: seq<string> := [];
    for i := 0 to |ids|
      invariant Payload(recalled, missing) == Answer(live.items, bucket, ids[..i])
    {
      var id := ids[i];
      assert ids[..i + 1][..i] == ids[..i];
      assert id in index <==> Lookup(live.items, bucket, id).Some?;
      if id !in index {
        missing := missing + [id];
      } else {
        var m := index[id];
        recalled := recalled + [Recalled(id, m.role, m.content)];
      }
    }
    assert ids[..|ids|] == ids;
    payload := Payload(recalled, missing);
  }

  // ---- What it returns in a reachable state.

  /** The K of an id mK. */
  function Number(id: string): nat {
    if |id| == 0 || ParseDecimal(id[1..]).None? then 0 else ParseDecimal(id[1..]).value
  }

  lemma NumberOfMsgId(n: nat)
    ensures Number(MsgId(n)) == n
  {
    ParseOfDecimal(n);
    assert MsgId(n)[1..] == Decimal(n);
  }

  /** The K-th message of the log, for an id mK. */
  function Entry(log: seq<Message>, id: string): Recalled {
    var n := Number(id);
    if 1 <= n <= |log| then Recalled(id, log[n - 1].role, log[n - 1].content) else Recalled(id, User, Str(""))
  }

  lemma IdNonEmpty(n: nat)
    ensures MsgId(n) != ""
  {
    assert |MsgId(n)| == 1 + |Decimal(n)|;
  }

  /** One half of a well-formed log finds exactly the ids whose number falls in it. */
  lemma HalfFinds(log: seq<Message>, userTurn: nat, lo: nat, hi: nat, n: nat)
    requires LogOk(log, userTurn) && lo <= hi <= |log| && 1 <= n
    ensures MsgId(n) in Index(log[lo..hi]) <==> lo < n <= hi
    ensures lo < n <= hi ==> Index(log[lo..hi])[MsgId(n)] == log[n - 1]
  {
    var half := log[lo..hi];
    IdNonEmpty(n);
    forall j | 0 <= j < |half| ensures half[j].id == Some(MsgId(n)) <==> lo + j == n - 1 {
      assert HistoryLog.Stamped(log[lo + j], lo + j, userTurn);
      MsgIdInjective(lo + j + 1, n);
    }
    if lo < n <= hi {
      assert half[n - 1 - lo] == log[n - 1];
      IndexOfUnique(half, n - 1 - lo);
    } else {
      IndexOfAbsent(half, MsgId(n));
    }
  }

  lemma HalfMisses(log: seq<Message>, userTurn: nat, lo: nat, hi: nat, id: string)
    requires LogOk(log, userTurn) && lo <= hi <= |log| && !Tracked(id, |log|)
    ensures id !in Index(log[lo..hi])
  {
    var half := log[lo..hi];
    forall j | 0 <= j < |half| ensures half[j].id != Some(id) {
      assert HistoryLog.Stamped(log[lo + j], lo + j, userTurn);
    }
    IndexOfAbsent(half, id);
  }

  lemma {:induction false} LookupInLog(s: State, id: string)
    requires LogInv(s)
    ensures Lookup(s.live, s.compressed, id).Some? <==> Tracked(id, s.msgCounter)
    ensures Tracked(id, s.msgCounter) ==>
      Recalled(id, Lookup(s.live, s.compressed, id).value.role, Lookup(s.live, s.compressed, id).value.content)
        == Entry(Created(s.trace), id)
  {
    hide LogOk, Created;
    var log := Created(s.trace);
    var k := |s.compressed|;
    assert log[..k] == log[0..k] == s.compressed && log[k..] == log[k..|log|] == s.live;
    if Tracked(id, s.msgCounter) {
      var n :| 1 <= n <= s.msgCounter && MsgId(n) == id;
      NumberOfMsgId(n);
      HalfFinds(log, s.userTurn, 0, k, n);
      HalfFinds(log, s.userTurn, k, |log|, n);
    } else {
      HalfMisses(log, s.userTurn, 0, k, id);
      HalfMisses(log, s.userTurn, k, |log|, id);
    }
  }

  lemma {:induction false} AnswerInLog(s: State, ids: seq<string>)
    requires LogInv(s)
    ensures var p := Answer(s.live, s.compressed, ids);
      && p.missing == Filter(ids, id => !Tracked(id, s.msgCounter))
      && p.recalled == Map(Filter(ids, id => Tracked(id, s.msgCounter)), id => Entry(Created(s.trace), id))
  {
    if |ids| > 0 {
      AnswerInLog(s, ids[..|ids| - 1]);
      LookupInLog(s, ids[|ids| - 1]);
    }
  }

  /**
   In every state that a run reaches, those in which a tool runs among them, and for any list of
   ids, in request order: mK with 1 <= K <= counter gives the K-th message ever created, and every
   other id is listed as missing.
   */
  lemma {:induction false} RecallIsExact(id: string, memory: Option<Memory>, steps: seq<Step>, states: seq<State>,
                                         n: nat, passes: seq<Pass>, s: State, ids: seq<string>)
    requires Reached(id, memory, steps, states, n, passes, s)
    ensures Answer(s.live, s.compressed, ids).missing == Filter(ids, id => !Tracked(id, s.msgCounter))
    ensures Answer(s.live, s.compressed, ids).recalled
         == Map(Filter(ids, id => Tracked(id, s.msgCounter)), id => Entry(Created(s.trace), id))
  {
    hide Reached;
    ReachedKeeps(id, memory, steps, states, n, passes, s);
    AnswerInLog(s, ids);
  }

  /** ... where the entry for mK is the K-th message of the log. */
  lemma EntryOfMsgId(log: seq<Message>, n: nat)
    requires 1 <= n <= |log|
    ensures Entry(log, MsgId(n)) == Recalled(MsgId(n), log[n - 1].role, log[n - 1].content)
  {
    NumberOfMsgId(n);
  }

  /**
   In every state that a run with the bundled strategy reaches, each member of each recorded batch
   is recallable: looking it up finds the message created under its number, and it is in the store.
   */
  lemma {:induction false} MembersAreRecallable(
      id: string, memory: Option<Memory>, steps: seq<Step>, states: seq<State>, n: nat, passes: seq<Pass>, s: State,
      i: nat, j: nat)
    requires Reached(id, memory, steps, states, n, passes, s)
    requires BundledRun(steps) && (memory.Some? ==> WellFormed(memory.value))
    requires i < |s.batches| && j < |s.batches[i].members|
    ensures var member := s.batches[i].members[j].id;
      && member in Ids(s.compressed) && Tracked(member, s.msgCounter)
      && Lookup(s.live, s.compressed, member).Some?
      && Answer(s.live, s.compressed, [member]) == Payload([Entry(Created(s.trace), member)], [])
  {
    hide Reached;
    ReachedBatches(id, memory, steps, states, n, passes, s);
    var member := s.batches[i].members[j].id;
    assert MemberIn(s.batches[i].members[j], Ids(s.compressed));
    StoredIdsTracked(s, member);
    LookupInLog(s, member);
    assert [member][..0] == [];
    assert Answer(s.live, s.compressed, []) == Payload([], []);
  }
}
