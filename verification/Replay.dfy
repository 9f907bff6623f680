/** Rebuilding a session from its event log: examples/migrate_log_to_session.py. */
module Replay {
  import opened Prelude
  import opened Types
  import opened IdGenerator
  import opened WorkingMemories
  import opened CompressedStore
  import opened History

  /** One line of events.jsonl; `replTurn` counts the chats of the process that wrote it. */
  datatype Record = Record(replTurn: nat, ts: DateTime, sessionId: Option<string>, event: Event)

  datatype Rebuilt = Rebuilt(
    sessionId: string, live: seq<Message>, compressed: seq<Message>, batches: seq<Batch>,
    memory: Option<Memory>, userTurn: nat, turnsSince: nat, msgCounter: nat, batchCounter: nat)

  function Max(a: nat, b: nat): nat { if a < b then b else a }

  /** The number in an id with this prefix; 0 when there is none. */
  function NumberAfter(prefix: string, id: string): nat {
    if !StartsWith(id, prefix) then 0
    else
      match ParseDecimal(id[|prefix|..])
      case None => 0
      case Some(n) => n
  }

  predicate IsNew(e: Event, seen: seq<Message>) {
    e.MessageCreated? && HasId(e.message) && e.message.id.value !in Ids(seen)
  }

  /** The messages with an id, each at its first appearance. */
  function FirstSeen(rs: seq<Record>): seq<Message> {
    if |rs| == 0 then []
    else
      var rest := FirstSeen(rs[..|rs| - 1]);
      var e := rs[|rs| - 1].event;
      if IsNew(e, rest) then rest + [e.message] else rest
  }

  predicate IsBatch(e: Event) { e.BatchCreated? && e.batch.batchId != "" }

  function FirstSession(rs: seq<Record>): Option<string> {
    if |rs| == 0 then None
    else
      var before := FirstSession(rs[..|rs| - 1]);
      if before.Some? && before.value != "" then before else rs[|rs| - 1].sessionId
  }

  function SessionOr(id: Option<string>): string { if id.Some? && id.value != "" then id.value else "unknown" }

  function MigratedBatch(b: Batch, sessionId: string, ts: DateTime): Batch {
    Batch(sessionId, b.batchId, b.turnsFrom, b.turnsTo, ts, ts, b.summary, b.members, "migrated", ts)
  }

  function BatchesFrom(rs: seq<Record>): seq<Batch> {
    if |rs| == 0 then []
    else
      var rest := BatchesFrom(rs[..|rs| - 1]);
      var r := rs[|rs| - 1];
      if IsBatch(r.event) then rest + [MigratedBatch(r.event.batch, SessionOr(FirstSession(rs)), r.ts)] else rest
  }

  function LastMemory(rs: seq<Record>): Option<Memory> {
    if |rs| == 0 then None
    else if rs[|rs| - 1].event.WorkingMemoryUpdated? then Some(rs[|rs| - 1].event.memory)
    else LastMemory(rs[..|rs| - 1])
  }

  function MaxReplTurn(rs: seq<Record>): nat {
    if |rs| == 0 then 0 else Max(MaxReplTurn(rs[..|rs| - 1]), rs[|rs| - 1].replTurn)
  }

  function LastCompression(rs: seq<Record>): nat {
    if |rs| == 0 then 0
    else if IsBatch(rs[|rs| - 1].event) then rs[|rs| - 1].replTurn
    else LastCompression(rs[..|rs| - 1])
  }

  function MaxMsgNumber(ms: seq<Message>): nat {
    if |ms| == 0 then 0
    else
      var m := ms[|ms| - 1];
      Max(MaxMsgNumber(ms[..|ms| - 1]), if HasId(m) then NumberAfter("m", m.id.value) else 0)
  }

  function MaxBatchNumber(bs: seq<Batch>): nat {
    if |bs| == 0 then 0
    else Max(MaxBatchNumber(bs[..|bs| - 1]), NumberAfter("cm_", bs[|bs| - 1].batchId))
  }

  function MemberIds(bs: seq<Batch>): set<string> {
    set b, m | b in bs && m in b.members :: m.id
  }

  predicate Listed(m: Message, ids: set<string>) { m.id.Some? && m.id.value in ids }

  function Rebuild(rs: seq<Record>): Result<Rebuilt, ()> {
    var sessionId := FirstSession(rs);
    if sessionId.None? || sessionId.value == "" then Err(())
    else
      var all := FirstSeen(rs);
      var ids := MemberIds(BatchesFrom(rs));
      var turn := MaxReplTurn(rs);
      Ok(Rebuilt(
        sessionId.value,
        Filter(all, (m: Message) => !Listed(m, ids)), Filter(all, (m: Message) => Listed(m, ids)),
        BatchesFrom(rs), LastMemory(rs), turn,
        if turn > LastCompression(rs) then turn - LastCompression(rs) else 0,
        MaxMsgNumber(all), MaxBatchNumber(BatchesFrom(rs))))
  }

  lemma Nothing()
    ensures FirstSeen([]) == [] && BatchesFrom([]) == [] && LastMemory([]) == None && FirstSession([]) == None
    ensures MaxReplTurn([]) == LastCompression([]) == MaxMsgNumber([]) == MaxBatchNumber([]) == 0
  {
  }

  /** The projections of one more record. */
  lemma OneMore(rs: seq<Record>, i: nat)
    requires i < |rs|
    ensures FirstSeen(rs[..i + 1])
      == FirstSeen(rs[..i]) + (if IsNew(rs[i].event, FirstSeen(rs[..i])) then [rs[i].event.message] else [])
    ensures FirstSession(rs[..i + 1]) == var before := FirstSession(rs[..i]);
      if before.Some? && before.value != "" then before else rs[i].sessionId
    ensures BatchesFrom(rs[..i + 1]) == BatchesFrom(rs[..i])
      + (if IsBatch(rs[i].event)
         then [MigratedBatch(rs[i].event.batch, SessionOr(FirstSession(rs[..i + 1])), rs[i].ts)] else [])
    ensures LastMemory(rs[..i + 1])
      == if rs[i].event.WorkingMemoryUpdated? then Some(rs[i].event.memory) else LastMemory(rs[..i])
    ensures MaxReplTurn(rs[..i + 1]) == Max(MaxReplTurn(rs[..i]), rs[i].replTurn)
    ensures LastCompression(rs[..i + 1]) == if IsBatch(rs[i].event) then rs[i].replTurn else LastCompression(rs[..i])
  {
    assert rs[..i + 1][..i] == rs[..i];
  }

  lemma MaxMsgOfAppend(ms: seq<Message>, m: Message)
    requires HasId(m)
    ensures MaxMsgNumber(ms + [m]) == Max(MaxMsgNumber(ms), NumberAfter("m", m.id.value))
  {
    assert (ms + [m])[..|ms|] == ms;
  }

  lemma MaxBatchOfAppend(bs: seq<Batch>, b: Batch)
    ensures MaxBatchNumber(bs + [b]) == Max(MaxBatchNumber(bs), NumberAfter("cm_", b.batchId))
  {
    assert (bs + [b])[..|bs|] == bs;
  }

  /** The two comprehensions over the message order. */
  method PickMessages(order: seq<string>, all: map<string, Message>, ids: set<string>, ghost seen: seq<Message>)
    returns (live: seq<Message>, compressed: seq<Message>)
    requires |order| == |seen|
    requires forall k :: 0 <= k < |order| ==>
               order[k] in all && all[order[k]] == seen[k] && seen[k].id == Some(order[k])
    ensures live == Filter(seen, (m: Message) => !Listed(m, ids))
    ensures compressed == Filter(seen, (m: Message) => Listed(m, ids))
  {
    live, compressed := [], [];
    for i := 0 to |order|
      invariant live == Filter(seen[..i], (m: Message) => !Listed(m, ids))
      invariant compressed == Filter(seen[..i], (m: Message) => Listed(m, ids))
    {
      assert seen[..i + 1][..i] == seen[..i];
      if order[i] in ids {
        compressed := compressed + [all[order[i]]];
      } else {
        live := live + [all[order[i]]];
      }
    }
    assert seen[..|seen|] == seen;
  }

  /** The replay loop; Err stands for the error raised when no event names a session. */
  method ReplayLog(rs: seq<Record>) returns (result: Result<Rebuilt, ()>)
    ensures result == Rebuild(rs)
  {
    hide FirstSeen, BatchesFrom, LastMemory, FirstSession, MaxReplTurn, LastCompression, MaxMsgNumber, MaxBatchNumber,
         NumberAfter;
    Nothing();
    var all: map<string, Message> := map[];
    var order: seq<string> := [];
    var batches: seq<Batch> := [];
    var memory: Option<Memory> := None;
    var sessionId: Option<string> := None;
    var maxReplTurn, lastCompression, maxMsg, maxBatch := 0, 0, 0, 0;
    ghost var seen: seq<Message> := [];
    for i := 0 to |rs|
      invariant seen == FirstSeen(rs[..i])
      invariant |order| == |seen| && all.Keys == Ids(seen)
      invariant forall k :: 0 <= k < |seen| ==> HasId(seen[k]) && seen[k].id.value == order[k]
      invariant forall k :: 0 <= k < |order| ==> order[k] in all && all[order[k]] == seen[k]
      invariant batches == BatchesFrom(rs[..i]) && memory == LastMemory(rs[..i])
      invariant sessionId == FirstSession(rs[..i])
      invariant maxReplTurn == MaxReplTurn(rs[..i]) && lastCompression == LastCompression(rs[..i])
      invariant maxMsg == MaxMsgNumber(seen) && maxBatch == MaxBatchNumber(batches)
    {
      var r := rs[i];
      OneMore(rs, i);
      maxReplTurn := if maxReplTurn < r.replTurn then r.replTurn else maxReplTurn;
      if !(sessionId.Some? && sessionId.value != "") {
        sessionId := r.sessionId;
      }
      match r.event {
        case MessageCreated(m, _) =>
          if m.id.Some? && m.id.value != "" && m.id.value !in all {
            all := all[m.id.value := m];
            order := order + [m.id.value];
            seen := seen + [m];
            MaxMsgOfAppend(FirstSeen(rs[..i]), m);
            maxMsg := Max(maxMsg, NumberAfter("m", m.id.value));
          }
        case BatchCreated(b) =>
          if b.batchId != "" {
            batches := batches + [MigratedBatch(b, SessionOr(sessionId), r.ts)];
            MaxBatchOfAppend(BatchesFrom(rs[..i]), MigratedBatch(b, SessionOr(sessionId), r.ts));
            lastCompression := r.replTurn;
            maxBatch := Max(maxBatch, NumberAfter("cm_", b.batchId));
          }
        case WorkingMemoryUpdated(m) =>
          memory := Some(m);
        case _ =>
      }
    }
    assert rs[..|rs|] == rs;
    if sessionId.None? || sessionId.value == "" {
      return Err(());
    }
    var ids := MemberIds(batches);
    var live, compressed := PickMessages(order, all, ids, seen);
    result := Ok(Rebuilt(
      sessionId.value, live, compressed, batches, memory, maxReplTurn,
      if maxReplTurn > lastCompression then maxReplTurn - lastCompression else 0, maxMsg, maxBatch));
  }
}
