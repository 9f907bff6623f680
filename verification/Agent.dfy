/** The query loop and the chat call: neoagent/core/loop.py and neoagent/agent.py. */
module Agents {
  import opened Prelude
  import opened Types
  import opened IdGenerator
  import opened WorkingMemories
  import opened CompressedStore
  import opened History
  import opened Sessions
  import opened Compressors

  /** The copy of the messages in which freed, not recalled results are replaced. */
  method ApplyFreedToMessages(ms: seq<Message>, freed: map<string, FreedToolResult>, recalled: set<string>)
    returns (out: seq<Message>)
    ensures out == ApplyFreed(ms, freed, recalled)
  {
    out := [];
    for i := 0 to |ms|
      invariant |out| == i && forall j :: 0 <= j < i ==> out[j] == FreedMessage(ms[j], freed, recalled)
    {
      var msg := ms[i];
      if msg.content.Str? {
        out := out + [msg];
      } else {
        var blocks := msg.content.blocks;
        var newBlocks: seq<Block> := [];
        var changed := false;
        for k := 0 to |blocks|
          invariant |newBlocks| == k
          invariant forall j :: 0 <= j < k ==> newBlocks[j] == FreedBlock(blocks[j], freed, recalled)
          invariant changed <==> exists j :: 0 <= j < k && IsFreed(blocks[j], freed, recalled)
        {
          var b := blocks[k];
          if b.ToolResult? && b.toolUseId in freed && b.toolUseId !in recalled {
            newBlocks := newBlocks + [ToolResult(b.toolUseId, Placeholder(freed[b.toolUseId]), b.isError)];
            changed := true;
          } else {
            newBlocks := newBlocks + [b];
          }
        }
        if changed {
          assert newBlocks == Map(blocks, b => FreedBlock(b, freed, recalled));
          out := out + [Message(None, None, msg.role, Blocks(newBlocks))];
        } else {
          out := out + [msg];
        }
      }
    }
  }

  class QueryLoop {
    const bus: EventBus
    const provider: Provider
    const compressor: ContextCompressor

    constructor (bus: EventBus, provider: Provider, compressor: ContextCompressor)
      ensures this.bus == bus && this.provider == provider && this.compressor == compressor
    {
      this.bus, this.provider, this.compressor := bus, provider, compressor;
    }

    ghost predicate Wired() { compressor.bus == bus && compressor.provider == provider }

    /** The check at the head of a pass; `raised` when the compression raised. */
    method CheckCompression(session: Session, it: Iteration) returns (raised: bool)
      requires Wired() && session.Valid() && Bound(session, compressor.store)
      modifies session.state`batches, session.state`turnsSince, session.state.idGen`batchCounter, bus
      modifies session.state.compressedMessages, session.messages, session`aborted
      modifies if session.state.memory == null then {} else {session.state.memory}
      ensures View(session, bus, provider) == CompressPhase(old(View(session, bus, provider)), it).0
      ensures raised == CompressPhase(old(View(session, bus, provider)), it).1
    {
      ghost var s := View(session, bus, provider);
      var due, reason := compressor.ShouldCompress(session.state.turnsSince, it.overBudget);
      assert due == Due(s, it.overBudget) && reason == Trigger(s, it.overBudget);
      bus.Emit(CompressCheck(due, reason));
      raised := false;
      if due {
        raised := CompressNow(session, it, reason);
      }
    }

    method CompressNow(session: Session, it: Iteration, reason: string) returns (raised: bool)
      requires Wired() && session.Valid() && Bound(session, compressor.store)
      modifies session.state`batches, session.state`turnsSince, session.state.idGen`batchCounter, bus
      modifies session.state.compressedMessages, session.messages, session`aborted
      modifies if session.state.memory == null then {} else {session.state.memory}
      ensures View(session, bus, provider)
        == Settle(Compress(old(View(session, bus, provider)), it.strategy, reason, it.now)).0
      ensures raised == Settle(Compress(old(View(session, bus, provider)), it.strategy, reason, it.now)).1
    {
      var outcome := compressor.CompressWithStrategy(session, it.strategy, reason, it.now);
      raised := false;
      match outcome {
        case Nothing =>
          session.state.turnsSince := 0;
          session.aborted := 0;
        case Replace(ms) => session.messages.items := ms;
        case Raised => raised := true;
      }
    }

    /** One request, up to the pre_provider_call hook. */
    method Request(session: Session, it: Iteration) returns (answer: Answer)
      requires session.Valid()
      modifies bus, provider
      ensures View(session, bus, provider) == RequestPhase(old(View(session, bus, provider)), it).0
      ensures answer == RequestPhase(old(View(session, bus, provider)), it).1
    {
      hide ApplyFreed, Ask;
      var msgs := session.messages.items;
      var msgsForLlm := msgs;
      if session.state.freed != map[] {
        msgsForLlm := ApplyFreedToMessages(msgs, session.state.freed, session.state.recalled);
      }
      bus.Emit(ProviderRequest(msgsForLlm));
      var sent := msgsForLlm;
      if it.preHook.Deny? {
        return Denied;
      }
      if it.preHook.Modify? {
        sent := if it.preHook.messages.Some? then it.preHook.messages.value else msgs;
      }
      answer := AskProvider(session, it, sent);
    }

    /** The provider's answer, with the retry after a truncated reply and the post_provider_call hook. */
    method AskProvider(session: Session, it: Iteration, sent: seq<Message>) returns (answer: Answer)
      requires session.Valid()
      modifies provider
      ensures View(session, bus, provider) == Ask(old(View(session, bus, provider)), it, sent).0
      ensures answer == Ask(old(View(session, bus, provider)), it, sent).1
    {
      var reply := provider.Create(sent, it.reply);
      if reply.ProviderRaises? {
        return AnswerRaised;
      }
      if reply.response.stop == MaxTokens {
        reply := provider.Create(sent, it.retry);
        if reply.ProviderRaises? {
          return AnswerRaised;
        }
      }
      var response := reply.response;
      if response.stop != MaxTokens && it.postHook.Some? {
        response := it.postHook.value;
      }
      answer := Answered(response);
    }

    /** Allocates an id, announces the message and appends it to the live list. */
    method AddMessage(session: Session, turn: int, role: Role, content: Content, source: Source)
      requires session.Valid()
      modifies session.state.idGen`msgCounter, session.messages, bus
      ensures View(session, bus, provider)
        == AppendMessage(old(View(session, bus, provider)), turn, role, content, source)
    {
      var id := session.state.idGen.NextMsgId();
      var msg := Message(Some(id), Some(turn), role, content);
      bus.Emit(MessageCreated(msg, source));
      session.messages.items := session.messages.items + [msg];
    }

    /** The working-memory snapshot of an ended turn. */
    method TakeSnapshot(session: Session, now: DateTime)
      requires session.Valid()
      modifies bus
      modifies if session.state.memory == null then {} else {session.state.memory}
      ensures View(session, bus, provider) == Snapshot(old(View(session, bus, provider)), now)
    {
      var wm := session.state.memory;
      if wm != null {
        wm.version := wm.version + 1;
        wm.atTurn := wm.version;
        wm.updatedAt := now;
        bus.Emit(WorkingMemoryUpdated(wm.Value()));
      }
    }

    method FinishTurn(session: Session, it: Iteration, r: Response, turn: int)
      requires session.Valid()
      modifies session.state.idGen`msgCounter, session.messages, bus, session.state`recalled
      modifies if session.state.memory == null then {} else {session.state.memory}
      ensures View(session, bus, provider) == EndOfTurn(old(View(session, bus, provider)), it, r, turn)
    {
      TakeSnapshot(session, it.now);
      bus.Emit(TurnComplete(0));
      AddMessage(session, turn, Assistant, Blocks(r.content), AssistantReply);
      session.state.recalled := {};
    }

    /** The tools run: they free results and edit the working memory. */
    method RunTools(session: Session, it: Iteration)
      requires session.Valid() && ValidIteration(it)
      modifies session.state`freed
      modifies if session.state.memory == null then {} else {session.state.memory}
      ensures View(session, bus, provider) == ToolEffects(old(View(session, bus, provider)), it)
    {
      session.state.freed := it.freed;
      var wm := session.state.memory;
      if wm != null {
        wm.EditByTools(it.memoryEdits, it.now);
      }
    }

    method ToolRound(session: Session, it: Iteration, r: Response, turn: int)
      requires session.Valid() && ValidIteration(it)
      modifies session.state.idGen`msgCounter, session.messages, bus, session.state`recalled, session.state`freed
      modifies if session.state.memory == null then {} else {session.state.memory}
      ensures View(session, bus, provider) == ToolsRan(old(View(session, bus, provider)), it, r, turn)
    {
      RunTools(session, it);
      AddMessage(session, turn, Assistant, Blocks(r.content), AssistantReply);
      AddMessage(session, turn, User, Blocks(ToolResults(r.content, it.outputs)), ToolResultSource);
      bus.Emit(TurnComplete(|ToolUseIdsOf(r.content)|));
      session.state.recalled := {};
    }

    method Accept(session: Session, it: Iteration, r: Response, turn: int) returns (status: Status)
      requires session.Valid() && ValidIteration(it)
      modifies session.state.idGen`msgCounter, session.messages, bus, session.state`recalled, session.state`freed
      modifies if session.state.memory == null then {} else {session.state.memory}
      ensures View(session, bus, provider) == ReplyPhase(old(View(session, bus, provider)), it, r, turn).0
      ensures status == ReplyPhase(old(View(session, bus, provider)), it, r, turn).1
    {
      if r.stop == MaxTokens {
        return Done;
      }
      bus.Emit(ProviderResponse(r.content, r.stop));
      if r.stop == EndTurn || ToolUseIdsOf(r.content) == [] {
        FinishTurn(session, it, r, turn);
        return Done;
      }
      ToolRound(session, it, r, turn);
      status := Continue;
    }

    method Pass(session: Session, it: Iteration, turn: int) returns (status: Status)
      requires Wired() && session.Valid() && Bound(session, compressor.store) && ValidIteration(it)
      modifies session.Frame(), bus, provider
      ensures session.state.memory == old(session.state.memory)
      ensures View(session, bus, provider) == Iterate(old(View(session, bus, provider)), it, turn).0
      ensures status == Iterate(old(View(session, bus, provider)), it, turn).1
    {
      var raised := CheckCompression(session, it);
      if raised {
        return Aborted;
      }
      var answer := Request(session, it);
      match answer {
        case AnswerRaised => status := Aborted;
        case Denied => status := Done;
        case Answered(r) => status := Accept(session, it, r, turn);
      }
    }

    /** QueryLoop.run on a session; the script holds one entry per allowed pass. */
    method Run(session: Session, script: seq<Iteration>, turn: int) returns (status: Status)
      requires Wired() && session.Valid() && Bound(session, compressor.store) && ValidScript(script)
      modifies session.Frame(), bus, provider
      ensures session.state.memory == old(session.state.memory)
      ensures View(session, bus, provider) == RunLoop(old(View(session, bus, provider)), script, turn).0
      ensures status == RunLoop(old(View(session, bus, provider)), script, turn).1
    {
      for i := 0 to |script|
        invariant session.state.memory == old(session.state.memory)
        invariant RunLoop(View(session, bus, provider), script[i..], turn)
               == RunLoop(old(View(session, bus, provider)), script, turn)
      {
        assert script[i..][0] == script[i] && script[i..][1..] == script[i + 1..];
        status := Pass(session, script[i], turn);
        if status != Continue {
          return;
        }
      }
      status := Done;
    }
  }

  class NeoAgent {
    const bus: EventBus
    const provider: Provider
    const store: InMemoryCompressedMessageStore
    const queryLoop: QueryLoop

    constructor ()
      ensures Wired() && bus.events == [] && provider.received == [] && store.buckets == map[]
      ensures fresh(bus) && fresh(provider) && fresh(store) && fresh(queryLoop) && fresh(queryLoop.compressor)
    {
      var b := new EventBus();
      var p := new Provider();
      var st := new InMemoryCompressedMessageStore();
      var c := new ContextCompressor(b, p, st);
      var q := new QueryLoop(b, p, c);
      bus, provider, store, queryLoop := b, p, st, q;
    }

    ghost predicate Wired() {
      queryLoop.bus == bus && queryLoop.provider == provider && queryLoop.compressor.store == store && queryLoop.Wired()
    }

    /** An empty session whose compressed list is the store's bucket. */
    method NewSession(id: string, memory: Option<Memory>) returns (session: Session)
      requires Wired()
      modifies store
      ensures session.Valid() && Bound(session, store) && fresh(session.Frame())
      ensures View(session, bus, provider)
        == History.NewSession(id, memory).(trace := bus.events, received := provider.received)
    {
      var wm: WorkingMemory? := null;
      if memory.Some? {
        wm := new WorkingMemory(memory.value);
      }
      var compressed := new MessageList([]);
      var messages := new MessageList([]);
      var gen := new SessionIdGenerator();
      var state := new SessionState(gen, compressed, wm);
      session := new Session(id, messages, state, 0);
      store.BindSession(id, compressed);
    }

    /** Saving a session, loading it into new objects, and binding the loaded list to the store. */
    method SaveAndResume(session: Session) returns (resumed: Session)
      requires Wired() && session.Valid()
      modifies store
      ensures resumed.Valid() && Bound(resumed, store) && fresh(resumed.Frame())
      ensures View(resumed, bus, provider) == old(View(session, bus, provider)).(recalled := {})
    {
      resumed := Reload(session);
      store.BindSession(resumed.id, resumed.state.compressedMessages);
    }

    /** The objects that loading a saved session builds. */
    method Reload(session: Session) returns (loaded: Session)
      requires session.Valid()
      ensures loaded.Valid() && loaded.id == session.id && fresh(loaded.Frame())
      ensures View(loaded, bus, provider) == View(session, bus, provider).(recalled := {})
    {
      var wm: WorkingMemory? := null;
      if session.state.memory != null {
        wm := new WorkingMemory(session.state.memory.Value());
      }
      var compressed := new MessageList(session.state.compressedMessages.items);
      var messages := new MessageList(session.messages.items);
      var saved := session.state.idGen;
      var gen := new SessionIdGenerator.Restored(saved.msgCounter, saved.batchCounter, saved.decisionCounter);
      var state := new SessionState.Restored(session.state, gen, compressed, wm);
      loaded := new Session(session.id, messages, state, session.aborted);
    }

    method BeginChat(session: Session, text: string) returns (turn: int)
      requires Wired() && session.Valid()
      modifies session.state`userTurn, session.state.idGen`msgCounter, session.messages, bus
      ensures View(session, bus, provider) == StartChat(old(View(session, bus, provider)), text)
      ensures turn == session.state.userTurn
    {
      session.state.userTurn := session.state.userTurn + 1;
      turn := session.state.userTurn;
      queryLoop.AddMessage(session, turn, User, Str(text), UserInput);
    }

    /** chat on a bound session; `completed` is false when the loop ended in an exception. */
    method Chat(session: Session, text: string, script: seq<Iteration>) returns (completed: bool)
      requires Wired() && session.Valid() && Bound(session, store) && ValidScript(script)
      modifies session.Frame(), bus, provider
      ensures session.Valid() && Bound(session, store)
      ensures View(session, bus, provider) == History.Chat(old(View(session, bus, provider)), text, script)
    {
      hide RunLoop, StartChat, CountChat;
      var turn := BeginChat(session, text);
      var status := queryLoop.Run(session, script, turn);
      completed := status != Aborted;
      EndChat(session, completed);
    }

    method EndChat(session: Session, completed: bool)
      requires session.Valid()
      modifies session, session.state`turnsSince
      ensures View(session, bus, provider) == CountChat(old(View(session, bus, provider)), completed)
    {
      if completed {
        session.state.turnsSince := session.state.turnsSince + 1;
      } else {
        session.aborted := session.aborted + 1;
      }
    }
  }
}
