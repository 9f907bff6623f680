/** The mutable objects of one agent: neoagent/session.py, neoagent/events.py, neoagent/providers/base.py. */
module Sessions {
  import opened Prelude
  import opened Types
  import opened IdGenerator
  import opened WorkingMemories
  import opened CompressedStore
  import opened History

  class EventBus {
    var events: seq<Event>

    constructor ()
      ensures events == []
    {
      events := [];
    }

    method Emit(e: Event)
      modifies this
      ensures events == old(events) + [e]
    {
      events := events + [e];
    }
  }

  /** The model behind the agent; it answers with the reply it is given and remembers what it received. */
  class Provider {
    var received: seq<seq<Message>>

    constructor ()
      ensures received == []
    {
      received := [];
    }

    method Create(messages: seq<Message>, scripted: ProviderReply) returns (reply: ProviderReply)
      modifies this
      ensures received == old(received) + [messages] && reply == scripted
    {
      received := received + [messages];
      reply := scripted;
    }
  }

  class SessionState {
    const idGen: SessionIdGenerator
    const compressedMessages: MessageList
    var memory: WorkingMemory?
    var freed: map<string, FreedToolResult>
    var recalled: set<string>
    var batches: seq<Batch>
    var turnsSince: nat
    var userTurn: nat

    constructor (idGen: SessionIdGenerator, compressed: MessageList, memory: WorkingMemory?)
      ensures this.idGen == idGen && this.compressedMessages == compressed && this.memory == memory
      ensures freed == map[] && recalled == {} && batches == [] && turnsSince == 0 && userTurn == 0
    {
      this.idGen, this.compressedMessages, this.memory := idGen, compressed, memory;
      freed, recalled, batches, turnsSince, userTurn := map[], {}, [], 0, 0;
    }

    /** A state with the persisted fields of `saved`; recalled ids are not persisted. */
    constructor Restored(
        saved: SessionState, idGen: SessionIdGenerator, compressed: MessageList, memory: WorkingMemory?)
      ensures this.idGen == idGen && this.compressedMessages == compressed && this.memory == memory
      ensures freed == saved.freed && recalled == {} && batches == saved.batches
      ensures turnsSince == saved.turnsSince && userTurn == saved.userTurn
    {
      this.idGen, this.compressedMessages, this.memory := idGen, compressed, memory;
      freed, recalled, batches := saved.freed, {}, saved.batches;
      turnsSince, userTurn := saved.turnsSince, saved.userTurn;
    }
  }

  class Session {
    const id: string
    const messages: MessageList
    const state: SessionState
    ghost var aborted: nat

    constructor (id: string, messages: MessageList, state: SessionState, ghost aborted: nat)
      ensures this.id == id && this.messages == messages && this.state == state && this.aborted == aborted
    {
      this.id, this.messages, this.state := id, messages, state;
      this.aborted := aborted;
    }

    /** The objects a chat may change, besides the bus and the provider. */
    ghost function Frame(): set<object>
      reads state
    {
      {this, messages, state, state.idGen, state.compressedMessages}
      + (if state.memory == null then {} else {state.memory})
    }

    /** The live window and the compressed list are two lists. */
    predicate Valid() { messages != state.compressedMessages }
  }

  ghost function View(session: Session, bus: EventBus, provider: Provider): State
    reads session, bus, provider, session.messages, session.state, session.state.idGen, session.state.compressedMessages
    reads if session.state.memory == null then {} else {session.state.memory}
  {
    State(session.id, session.messages.items, session.state.compressedMessages.items,
          session.state.idGen.msgCounter, session.state.idGen.batchCounter, session.state.batches,
          session.state.turnsSince, session.state.userTurn,
          if session.state.memory == null then None else Some(session.state.memory.Value()),
          session.state.freed, session.state.recalled, bus.events, provider.received, session.aborted)
  }

  /** The store's bucket for the session is the session's own list, as bind_session makes it. */
  ghost predicate Bound(session: Session, store: InMemoryCompressedMessageStore)
    reads store
  {
    session.id in store.buckets && store.buckets[session.id] == session.state.compressedMessages
  }
}
