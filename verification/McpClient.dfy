/** Matching requests and replies over one MCP connection: neoagent/mcp/client.py. */
module McpClient {
  import opened Prelude
  import opened Types

  /** A reply's id, as its sender wrote it. */
  datatype Id = Number(n: int) | Name(name: string) | Null

  datatype Response = Response(id: Id, body: Json)

  /** Incoming messages; a notification has no id. */
  datatype Incoming = Notification | Reply(response: Response)

  /** The client's fields: the next request id, and the replies read on behalf of other requests. */
  datatype Client = Client(nextId: int, pending: map<Id, Response>)

  function NewClient(): Client { Client(1, map[]) }

  /** _request up to its first await: the new id, and a reply that is there already. */
  function Begun(c: Client): (Client, Option<Response>) {
    var id := Number(c.nextId);
    if id in c.pending then (Client(c.nextId + 1, c.pending - {id}), Some(c.pending[id]))
    else (Client(c.nextId + 1, c.pending), None)
  }

  /** One message read while waiting for request `id`. */
  function Delivered(c: Client, id: Id, m: Incoming): (Client, Option<Response>) {
    if m.Notification? then (c, None)
    else if m.response.id == id then (c, Some(m.response))
    else (c.(pending := c.pending[m.response.id := m.response]), None)
  }

  // ---- Interleaved requests.

  /** Where one call of _request stands; `Answered` names the reply by its place among all that were read. */
  datatype Stage = Sending | Receiving | Answered(reply: nat) | Broken

  /** `held` says which reply each entry of the client's pending dict is. */
  datatype System = System(client: Client, calls: seq<Stage>, received: seq<Response>, held: map<Id, nat>)

  /** Start a call; let a send complete; hand a message to a waiting call; let the transport fail for one. */
  datatype Step = Start | Sent(call: nat) | Read(call: nat, message: Incoming) | Break(call: nat)

  function Initial(): System { System(NewClient(), [], [], map[]) }

  /** The k-th call made has request id k + 1. */
  function IdOf(call: nat): Id { Number(call + 1) }

  predicate Enabled(s: System, step: Step) {
    match step
    case Start => true
    case Sent(c) => c < |s.calls| && s.calls[c] == Sending
    case Read(c, _) => c < |s.calls| && s.calls[c] == Receiving
    case Break(c) => c < |s.calls| && (s.calls[c] == Sending || s.calls[c] == Receiving)
  }

  predicate Wellformed(s: System) {
    s.client.nextId == |s.calls| + 1 && s.held.Keys == s.client.pending.Keys
  }

  function Perform(s: System, step: Step): System
    requires Enabled(s, step) && Wellformed(s)
  {
    match step
    case Start =>
      var (client, reply) := Begun(s.client);
      if reply.Some? then
        System(client, s.calls + [Answered(s.held[Number(s.client.nextId)])], s.received,
               s.held - {Number(s.client.nextId)})
      else System(client, s.calls + [Sending], s.received, s.held)
    case Sent(c) => s.(calls := s.calls[c := Receiving])
    case Read(_, Notification) => s
    case Read(c, Reply(r)) =>
      var (client, reply) := Delivered(s.client, IdOf(c), Reply(r));
      System(client, if reply.Some? then s.calls[c := Answered(|s.received|)] else s.calls, s.received + [r],
             if reply.Some? then s.held else s.held[r.id := |s.received|])
    case Break(c) => s.(calls := s.calls[c := Broken])
  }

  lemma StaysWellformed(s: System, step: Step)
    requires Enabled(s, step) && Wellformed(s)
    ensures Wellformed(Perform(s, step))
  {
  }

  function Run(steps: seq<Step>): (s: System)
    ensures Wellformed(s)
  {
    if |steps| == 0 then Initial()
    else
      var s := Run(steps[..|steps| - 1]);
      var step := steps[|steps| - 1];
      if Enabled(s, step) then
        StaysWellformed(s, step);
        Perform(s, step)
      else s
  }

  /** A reply for another request is read while one with its id is still held. */
  predicate Overwrites(s: System, step: Step) {
    Enabled(s, step) && step.Read? && step.message.Reply?
    && step.message.response.id != IdOf(step.call) && step.message.response.id in s.client.pending
  }

  predicate EverOverwrites(steps: seq<Step>) {
    |steps| > 0
    && (EverOverwrites(steps[..|steps| - 1])
        || Overwrites(Run(steps[..|steps| - 1]), steps[|steps| - 1]))
  }

  predicate ReturnedBy(s: System, call: nat, k: nat) { call < |s.calls| && s.calls[call] == Answered(k) }

  predicate Held(s: System, k: nat) {
    k < |s.received| && s.received[k].id in s.held && s.held[s.received[k].id] == k
  }

  /** What is held is a reply that was read; what is returned carries the caller's id; nothing is in two places. */
  ghost predicate Inv(s: System) {
    && Wellformed(s)
    && (forall id :: id in s.held ==>
          s.held[id] < |s.received| && s.received[s.held[id]] == s.client.pending[id] && s.client.pending[id].id == id)
    && (forall c: nat, k: nat :: ReturnedBy(s, c, k) ==> k < |s.received| && s.received[k].id == IdOf(c) && !Held(s, k))
    && (forall c: nat, d: nat, k: nat :: ReturnedBy(s, c, k) && ReturnedBy(s, d, k) ==> c == d)
  }

  /** No reply that was read has gone missing. */
  ghost predicate NothingLost(s: System) {
    forall k: nat :: k < |s.received| ==> Held(s, k) || exists c: nat :: ReturnedBy(s, c, k)
  }

  lemma StartKeeps(s: System)
    requires Inv(s)
    ensures Inv(Perform(s, Start))
    ensures NothingLost(Perform(s, Start)) <==> NothingLost(s)
  {
    var s' := Perform(s, Start);
    var n := |s.calls|;
    assert forall c: nat, k: nat :: c < n ==> (ReturnedBy(s', c, k) <==> ReturnedBy(s, c, k));
    forall k: nat | k < |s.received|
      ensures Held(s', k) || (exists c: nat :: ReturnedBy(s', c, k))
         <==> Held(s, k) || exists c: nat :: ReturnedBy(s, c, k)
    {
      if Number(s.client.nextId) in s.held && s.held[Number(s.client.nextId)] == k {
        assert Held(s, k) && ReturnedBy(s', n, k);
      } else {
        assert Held(s', k) <==> Held(s, k);
        if c: nat :| ReturnedBy(s, c, k) {
          assert ReturnedBy(s', c, k);
        }
        if c: nat :| ReturnedBy(s', c, k) {
          assert c < n;
          assert ReturnedBy(s, c, k);
        }
      }
    }
  }

  lemma QuietKeeps(s: System, c: nat, stage: Stage)
    requires Inv(s) && c < |s.calls| && !s.calls[c].Answered? && !stage.Answered?
    ensures Inv(s.(calls := s.calls[c := stage]))
    ensures NothingLost(s.(calls := s.calls[c := stage])) <==> NothingLost(s)
  {
    var s' := s.(calls := s.calls[c := stage]);
    assert forall d: nat, k: nat :: ReturnedBy(s', d, k) <==> ReturnedBy(s, d, k);
    assert forall k: nat :: Held(s', k) <==> Held(s, k);
  }

  /** The reply the caller waits for is returned. */
  lemma OwnReplyKeeps(s: System, c: nat, r: Response)
    requires Inv(s) && Enabled(s, Read(c, Reply(r))) && r.id == IdOf(c)
    ensures Inv(Perform(s, Read(c, Reply(r))))
    ensures NothingLost(Perform(s, Read(c, Reply(r)))) <==> NothingLost(s)
  {
    var s' := Perform(s, Read(c, Reply(r)));
    var n := |s.received|;
    assert ReturnedBy(s', c, n) && !Held(s', n);
    assert forall d: nat, k: nat :: ReturnedBy(s', d, k) <==> ReturnedBy(s, d, k) || (d == c && k == n);
    assert forall d: nat, k: nat :: k < n ==> (ReturnedBy(s', d, k) <==> ReturnedBy(s, d, k));
    assert forall k: nat :: k < n ==> (Held(s', k) <==> Held(s, k));
    if NothingLost(s') {
      forall k: nat | k < n ensures Held(s, k) || exists d: nat :: ReturnedBy(s, d, k) {
        assert Held(s', k) || exists d: nat :: ReturnedBy(s', d, k);
      }
    }
  }

  /** What is held and what is returned once a reply for another request is held. */
  lemma OtherReplyHeld(s: System, c: nat, r: Response)
    requires Inv(s) && Enabled(s, Read(c, Reply(r))) && r.id != IdOf(c)
    ensures var s' := Perform(s, Read(c, Reply(r)));
      && s'.received == s.received + [r] && Held(s', |s.received|)
      && (forall d: nat, k: nat :: ReturnedBy(s', d, k) <==> ReturnedBy(s, d, k))
      && (forall k: nat :: k < |s.received| ==> (Held(s', k) <==> Held(s, k) && s.received[k].id != r.id))
  {
  }

  lemma OtherReplyInv(s: System, c: nat, r: Response)
    requires Inv(s) && Enabled(s, Read(c, Reply(r))) && r.id != IdOf(c)
    ensures Inv(Perform(s, Read(c, Reply(r))))
  {
    OtherReplyHeld(s, c, r);
  }

  /** A reply for another request is held, in the place of the one with its id if there is one. */
  lemma OtherReplyKeeps(s: System, c: nat, r: Response)
    requires Inv(s) && Enabled(s, Read(c, Reply(r))) && r.id != IdOf(c)
    ensures Inv(Perform(s, Read(c, Reply(r))))
    ensures NothingLost(Perform(s, Read(c, Reply(r)))) <==> NothingLost(s) && r.id !in s.client.pending
  {
    OtherReplyInv(s, c, r);
    OtherReplyHeld(s, c, r);
    hide Perform, ReturnedBy;
    var s' := Perform(s, Read(c, Reply(r)));
    if r.id in s.client.pending {
      var k := s.held[r.id];
      assert Held(s, k) && !Held(s', k);
    } else {
      assert forall k: nat :: k < |s.received| ==> (Held(s', k) <==> Held(s, k));
      if NothingLost(s') {
        forall k: nat | k < |s.received| ensures Held(s, k) || exists d: nat :: ReturnedBy(s, d, k) {
          assert Held(s', k) || exists d: nat :: ReturnedBy(s', d, k);
        }
      }
    }
  }

  /**
   * Under any interleaving and any replies: a returned reply has the caller's id, none is returned twice, and none
   * goes missing exactly as long as no reply is read for another request while one with its id is held.
   */
  lemma {:induction false} RepliesAreKept(steps: seq<Step>)
    ensures Inv(Run(steps))
    ensures NothingLost(Run(steps)) <==> !EverOverwrites(steps)
  {
    if |steps| > 0 {
      var s, step := Run(steps[..|steps| - 1]), steps[|steps| - 1];
      RepliesAreKept(steps[..|steps| - 1]);
      if Enabled(s, step) {
        match step {
          case Start => StartKeeps(s);
          case Sent(c) => QuietKeeps(s, c, Receiving);
          case Break(c) => QuietKeeps(s, c, Broken);
          case Read(_, Notification) =>
          case Read(c, Reply(r)) =>
            if r.id == IdOf(c) {
              OwnReplyKeeps(s, c, r);
            } else {
              OtherReplyKeeps(s, c, r);
            }
        }
      }
    }
  }

  lemma FirstState()
    ensures Run([]) == Initial()
  {
  }

  lemma OneMore(steps: seq<Step>, step: Step)
    requires Enabled(Run(steps), step)
    ensures Run(steps + [step]) == Perform(Run(steps), step)
    ensures EverOverwrites(steps + [step]) <==> EverOverwrites(steps) || Overwrites(Run(steps), step)
  {
    assert (steps + [step])[..|steps|] == steps;
  }

  /** Two replies under the same other id arrive while the first call waits for its own: the one read first is gone. */
  lemma SecondReplyOverwrites(first: Response, second: Response)
    requires first.id == second.id != IdOf(0)
    ensures var steps := [Start] + [Sent(0)] + [Read(0, Reply(first))] + [Read(0, Reply(second))];
      && EverOverwrites(steps) && !Held(Run(steps), 0) && forall c: nat :: !ReturnedBy(Run(steps), c, 0)
  {
    hide Run, EverOverwrites;
    FirstState();
    assert [] + [Start] == [Start];
    OneMore([], Start);
    OneMore([Start], Sent(0));
    OneMore([Start] + [Sent(0)], Read(0, Reply(first)));
    OneMore([Start] + [Sent(0)] + [Read(0, Reply(first))], Read(0, Reply(second)));
  }

  predicate DistinctIds(received: seq<Response>) {
    forall i, j :: 0 <= i < j < |received| ==> received[i].id != received[j].id
  }

  lemma {:induction false} DistinctNeverOverwrite(steps: seq<Step>)
    requires DistinctIds(Run(steps).received)
    ensures !EverOverwrites(steps)
  {
    if |steps| > 0 {
      var front := steps[..|steps| - 1];
      var s, step := Run(front), steps[|steps| - 1];
      RepliesAreKept(front);
      assert Run(steps).received[..|s.received|] == s.received;
      assert forall k :: 0 <= k < |s.received| ==> Run(steps).received[k] == s.received[k];
      DistinctNeverOverwrite(front);
      assert Enabled(s, step) && step.Read? && step.message.Reply? ==>
        Run(steps).received[|s.received|] == step.message.response;
    }
  }

  /** With replies of distinct ids, each one read is returned to the call that asked for it, once, or held for it. */
  lemma {:induction false} DistinctRepliesReachTheirCallers(steps: seq<Step>)
    requires DistinctIds(Run(steps).received)
    ensures var s := Run(steps);
            forall k: nat :: k < |s.received| ==>
              (Held(s, k) && s.client.pending[s.received[k].id] == s.received[k]
               && forall c: nat :: !ReturnedBy(s, c, k))
              || (!Held(s, k) && exists c: nat :: ReturnedBy(s, c, k) && IdOf(c) == s.received[k].id
                                                 && forall d: nat :: ReturnedBy(s, d, k) ==> d == c)
  {
    var s := Run(steps);
    RepliesAreKept(steps);
    DistinctNeverOverwrite(steps);
    forall k: nat | k < |s.received|
      ensures (Held(s, k) && s.client.pending[s.received[k].id] == s.received[k]
               && forall c: nat :: !ReturnedBy(s, c, k))
              || (!Held(s, k) && exists c: nat :: ReturnedBy(s, c, k) && IdOf(c) == s.received[k].id
                                                 && forall d: nat :: ReturnedBy(s, d, k) ==> d == c)
    {
      if !Held(s, k) {
        var c: nat :| ReturnedBy(s, c, k);
        assert IdOf(c) == s.received[k].id;
      }
    }
  }

  // ---- The client's own code.

  function Buffered(pending: map<Id, Response>, id: Id, read: seq<Incoming>): map<Id, Response> {
    if |read| == 0 then pending
    else
      var before := Buffered(pending, id, read[..|read| - 1]);
      var m := read[|read| - 1];
      if m.Reply? && m.response.id != id then before[m.response.id := m.response] else before
  }

  class MCPClient {
    var nextId: int
    var pending: map<Id, Response>

    ghost function View(): Client
      reads this
    {
      Client(nextId, pending)
    }

    constructor ()
      ensures View() == NewClient()
    {
      nextId, pending := 1, map[];
    }

    method NextRequestId() returns (id: int)
      modifies this`nextId
      ensures id == old(nextId) && nextId == old(nextId) + 1
    {
      id := nextId;
      nextId := nextId + 1;
    }

    /** _request up to its first await. */
    method Begin() returns (id: Id, reply: Option<Response>)
      modifies this
      ensures id == Number(old(nextId))
      ensures View() == Begun(old(View())).0 && reply == Begun(old(View())).1
    {
      var n := NextRequestId();
      id := Number(n);
      if id in pending {
        reply := Some(pending[id]);
        pending := pending - {id};
        return;
      }
      reply := None;
    }

    /** The body of the receive loop. */
    method Deliver(id: Id, m: Incoming) returns (reply: Option<Response>)
      modifies this`pending
      ensures View() == Delivered(old(View()), id, m).0 && reply == Delivered(old(View()), id, m).1
    {
      if m.Notification? {
        return None;
      }
      if m.response.id == id {
        return Some(m.response);
      }
      pending := pending[m.response.id := m.response];
      reply := None;
    }

    /**
     * A call by itself: `inbox` is what the transport yields. It returns the reply already held under its id, or
     * the first with its id to come in, and holds all the others it read; None means it is still waiting.
     */
    method Request(inbox: seq<Incoming>) returns (reply: Option<Response>, used: nat)
      modifies this
      ensures used <= |inbox| && nextId == old(nextId) + 1
      ensures var id := Number(old(nextId));
              if id in old(pending) then reply == Some(old(pending)[id]) && used == 0 && pending == old(pending) - {id}
              else pending == Buffered(old(pending), id, inbox[..used])
                   && (forall k :: 0 <= k < used - 1 ==> inbox[k].Reply? ==> inbox[k].response.id != id)
                   && (if reply.Some?
                       then used > 0 && inbox[used - 1] == Reply(reply.value) && reply.value.id == id
                       else used == |inbox|
                            && forall k :: 0 <= k < |inbox| && inbox[k].Reply? ==> inbox[k].response.id != id)
    {
      var id;
      id, reply := Begin();
      used := 0;
      if reply.Some? {
        return;
      }
      ghost var start := pending;
      while used < |inbox|
        invariant used <= |inbox| && nextId == old(nextId) + 1 && id == Number(old(nextId)) && reply.None?
        invariant pending == Buffered(start, id, inbox[..used])
        invariant forall k :: 0 <= k < used ==> inbox[k].Reply? ==> inbox[k].response.id != id
      {
        assert inbox[..used + 1][..used] == inbox[..used];
        reply := Deliver(id, inbox[used]);
        used := used + 1;
        if reply.Some? {
          return;
        }
      }
      assert inbox[..used] == inbox;
    }
  }
}
