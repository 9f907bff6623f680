/** The strategy path of the context compressor: neoagent/core/compress.py. */
module Compressors {
  import opened Prelude
  import opened Types
  import opened IdGenerator
  import opened Splitting
  import opened WorkingMemories
  import opened CompressedStore
  import opened History
  import opened Sessions

  class ContextCompressor {
    const bus: EventBus
    const provider: Provider
    const store: InMemoryCompressedMessageStore

    constructor (bus: EventBus, provider: Provider, store: InMemoryCompressedMessageStore)
      ensures this.bus == bus && this.provider == provider && this.store == store
    {
      this.bus, this.provider, this.store := bus, provider, store;
    }

    method ShouldCompress(turnsSince: nat, overBudget: bool) returns (due: bool, reason: string)
      ensures forall s: State :: s.turnsSince == turnsSince ==>
                due == Due(s, overBudget) && reason == Trigger(s, overBudget)
    {
      if turnsSince >= 10 {
        return true, "turn_count";
      }
      if overBudget {
        return true, "token_threshold";
      }
      return false, "";
    }

    method FindOrphanId(members: seq<BatchMember>, counter: nat) returns (orphan: Option<string>)
      ensures orphan == FirstOrphan(members, counter)
    {
      if counter == 0 {
        return None;
      }
      var validIds: set<string> := {};
      for i := 1 to counter + 1
        invariant validIds == set n | 1 <= n < i :: MsgId(n)
      {
        validIds := validIds + {MsgId(i)};
      }
      for i := 0 to |members|
        invariant FirstOrphan(members, counter) == FirstOrphan(members[i..], counter)
      {
        var id := members[i].id;
        assert id in validIds <==> Tracked(id, counter);
        assert members[i..][1..] == members[i + 1..];
        if |id| > 0 && id[0] == 'm' && AllDigits(id[1..]) {
          if id !in validIds {
            return Some(id);
          }
        }
      }
      orphan := None;
    }

    method RecordBatch(session: Session, delta: OneShot.Delta, trigger: string, now: DateTime)
      requires session.Valid()
      modifies session.state`batches, session.state.idGen`batchCounter, bus
      ensures View(session, bus, provider)
        == History.RecordBatch(old(View(session, bus, provider)), delta, trigger, now)
    {
      var state := session.state;
      var batchId := state.idGen.NextBatchId();
      var batch := Batch(session.id, batchId, 0, 0, now, now, delta.summary, delta.members, trigger, now);
      state.batches := state.batches + [batch];
      bus.Emit(BatchCreated(batch));
    }

    method EditMemory(session: Session, ops: seq<Op>, now: DateTime) returns (raised: bool)
      requires session.Valid()
      modifies if session.state.memory == null then {} else {session.state.memory}
      ensures View(session, bus, provider) == EditByDelta(old(View(session, bus, provider)), ops, now).0
      ensures raised == EditByDelta(old(View(session, bus, provider)), ops, now).1
    {
      raised := false;
      if session.state.memory != null {
        raised := session.state.memory.EditByCompression(ops, now);
      }
    }

    /** Records the batch and edits the working memory; `raised` when an operation raises. */
    method ApplyDelta(session: Session, delta: OneShot.Delta, trigger: string, now: DateTime) returns (raised: bool)
      requires session.Valid()
      modifies session.state`batches, session.state.idGen`batchCounter, bus
      modifies if session.state.memory == null then {} else {session.state.memory}
      ensures View(session, bus, provider)
        == History.ApplyDelta(old(View(session, bus, provider)), delta, trigger, now).0
      ensures raised == History.ApplyDelta(old(View(session, bus, provider)), delta, trigger, now).1
    {
      RecordBatch(session, delta, trigger, now);
      raised := EditMemory(session, delta.ops, now);
    }

    /** _compress_with_strategy on a bound session. */
    method CompressWithStrategy(session: Session, strategy: StrategyReply, trigger: string, now: DateTime)
      returns (outcome: CompressOutcome)
      requires session.Valid() && Bound(session, store)
      modifies session.state`batches, session.state`turnsSince, session.state.idGen`batchCounter, bus
      modifies session.state.compressedMessages, session`aborted
      modifies if session.state.memory == null then {} else {session.state.memory}
      ensures View(session, bus, provider) == Compress(old(View(session, bus, provider)), strategy, trigger, now).0
      ensures outcome == Compress(old(View(session, bus, provider)), strategy, trigger, now).1
    {
      var moved, kept := SplitMessagesForCompression(session.messages.items, KEEP_RECENT_USER_TURNS);
      if moved == [] {
        return Nothing;
      }
      outcome := Consult(session, strategy, moved, kept, trigger, now);
    }

    method Consult(
        session: Session, strategy: StrategyReply, moved: seq<Message>, kept: seq<Message>, trigger: string,
        now: DateTime)
      returns (outcome: CompressOutcome)
      requires session.Valid() && Bound(session, store)
      modifies session.state`batches, session.state`turnsSince, session.state.idGen`batchCounter, bus
      modifies session.state.compressedMessages, session`aborted
      modifies if session.state.memory == null then {} else {session.state.memory}
      ensures View(session, bus, provider)
        == History.Consult(old(View(session, bus, provider)), strategy, moved, kept, trigger, now).0
      ensures outcome == History.Consult(old(View(session, bus, provider)), strategy, moved, kept, trigger, now).1
    {
      match strategy {
        case Fails(reason) =>
          bus.Emit(CompressionFailed(reason));
          outcome := Replace(session.messages.items);
        case StrategyRaises =>
          outcome := Raised;
        case OneShotAnswer(raw) =>
          var delta := OneShot.ValidateAndBuild(raw, moved);
          outcome := Judge(session, delta, moved, kept, trigger, now);
        case CustomAnswer(delta) =>
          outcome := Judge(session, delta, moved, kept, trigger, now);
      }
    }

    method Judge(
        session: Session, delta: OneShot.Delta, moved: seq<Message>, kept: seq<Message>, trigger: string, now: DateTime)
      returns (outcome: CompressOutcome)
      requires session.Valid() && Bound(session, store)
      modifies session.state`batches, session.state`turnsSince, session.state.idGen`batchCounter, bus
      modifies session.state.compressedMessages, session`aborted
      modifies if session.state.memory == null then {} else {session.state.memory}
      ensures View(session, bus, provider)
        == History.Judge(old(View(session, bus, provider)), delta, moved, kept, trigger, now).0
      ensures outcome == History.Judge(old(View(session, bus, provider)), delta, moved, kept, trigger, now).1
    {
      var orphan := FindOrphanId(delta.members, session.state.idGen.msgCounter);
      if orphan.Some? {
        bus.Emit(CompressionFailed("orphan_id:" + orphan.value));
        return Replace(session.messages.items);
      }
      var raised := ApplyDelta(session, delta, trigger, now);
      if raised {
        return Raised;
      }
      Move(session, moved);
      outcome := Replace(kept);
    }

    /** The moved messages go to the session's bucket, which is its own compressed list. */
    method Move(session: Session, moved: seq<Message>)
      requires session.Valid() && Bound(session, store)
      modifies session.state`turnsSince, session.state.compressedMessages, session`aborted
      ensures View(session, bus, provider) == old(View(session, bus, provider)).(
        compressed := PutAll(old(session.state.compressedMessages.items), moved), turnsSince := 0, aborted := 0)
    {
      var ok := store.PutMany(session.id, moved);
      session.state.turnsSince := 0;
      session.aborted := 0;
    }
  }
}
