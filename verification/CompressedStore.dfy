/** The store for compressed messages: neoagent/v2/compressed_store.py. */
module CompressedStore {
  import opened Prelude
  import opened Types

  predicate HasId(m: Message) { m.id.Some? && m.id.value != "" }

  /** The non-empty ids of the messages. */
  function Ids(ms: seq<Message>): set<string> {
    set m | m in ms && HasId(m) :: m.id.value
  }

  /** put_many on a list: a message whose id is already there is skipped. */
  function PutAll(bucket: seq<Message>, ms: seq<Message>): seq<Message> {
    if |ms| == 0 then bucket
    else
      var m := ms[|ms| - 1];
      var rest := PutAll(bucket, ms[..|ms| - 1]);
      if HasId(m) && m.id.value in Ids(rest) then rest else rest + [m]
  }

  /** {m.id: m for m in ms if m.id}: on equal ids the last message wins. */
  function Index(ms: seq<Message>): map<string, Message> {
    if |ms| == 0 then map[]
    else
      var m := ms[|ms| - 1];
      var rest := Index(ms[..|ms| - 1]);
      if HasId(m) then rest[m.id.value := m] else rest
  }

  /** A Python list of messages: a reference that several owners may share. */
  class MessageList {
    var items: seq<Message>

    constructor (items: seq<Message>)
      ensures this.items == items
    {
      this.items := items;
    }
  }

  lemma FilterHolds(named: seq<Message>, ms: seq<Message>)
    requires named == Filter(ms, HasId)
    ensures forall i :: 0 <= i < |named| ==> HasId(named[i])
  {
    FilterMembers(ms, HasId);
    forall i | 0 <= i < |named| ensures HasId(named[i]) {
      assert named[i] in named;
    }
  }

  /** Wraps each bound session's own compressed_messages list. */
  class InMemoryCompressedMessageStore {
    var buckets: map<string, MessageList>

    constructor ()
      ensures buckets == map[]
    {
      buckets := map[];
    }

    method BindSession(sessionId: string, list: MessageList)
      modifies this
      ensures buckets == old(buckets)[sessionId := list]
    {
      buckets := buckets[sessionId := list];
    }

    /** `ok` is false when the session is not bound and the call raises. */
    method PutMany(sessionId: string, messages: seq<Message>) returns (ok: bool)
      modifies if sessionId in buckets then {buckets[sessionId]} else {}
      ensures ok == (sessionId in buckets)
      ensures ok ==> buckets[sessionId].items == PutAll(old(buckets[sessionId].items), messages)
    {
      if sessionId !in buckets {
        return false;
      }
      var bucket := buckets[sessionId];
      var existing := Ids(bucket.items);
      ghost var before := bucket.items;
      for i := 0 to |messages|
        invariant bucket.items == PutAll(before, messages[..i])
        invariant existing == Ids(bucket.items)
      {
        var m := messages[i];
        assert messages[..i + 1][..i] == messages[..i];
        if !(HasId(m) && m.id.value in existing) {
          bucket.items := bucket.items + [m];
          if HasId(m) {
            existing := existing + {m.id.value};
          }
        }
      }
      assert messages[..|messages|] == messages;
      ok := true;
    }

    /** Only ids that exist; an unbound session has none. */
    method GetMany(sessionId: string, ids: seq<string>) returns (found: map<string, Message>)
      ensures var bucket := if sessionId in buckets then buckets[sessionId].items else [];
        found == map id | id in ids && id in Index(bucket) :: Index(bucket)[id]
    {
      var index := Index(if sessionId in buckets then buckets[sessionId].items else []);
      found := map id | id in ids && id in index :: index[id];
    }

    method ListIds(sessionId: string) returns (ids: seq<string>)
      ensures |ids| == |Filter(if sessionId in buckets then buckets[sessionId].items else [], HasId)|
      ensures forall i :: 0 <= i < |ids| ==>
        Some(ids[i]) == Filter(if sessionId in buckets then buckets[sessionId].items else [], HasId)[i].id
    {
      var named := Filter(if sessionId in buckets then buckets[sessionId].items else [], HasId);
      FilterHolds(named, if sessionId in buckets then buckets[sessionId].items else []);
      ids := [];
      for i := 0 to |named|
        invariant |ids| == i && forall j :: 0 <= j < i ==> Some(ids[j]) == named[j].id
      {
        ids := ids + [named[i].id.value];
      }
    }

    /** Forgets the binding; the session keeps its list. */
    method DeleteSession(sessionId: string)
      modifies this
      ensures buckets == old(buckets) - {sessionId}
    {
      buckets := buckets - {sessionId};
    }
  }

  // ---- The index of a list.

  lemma {:induction false} IndexKeys(ms: seq<Message>)
    ensures Index(ms).Keys == Ids(ms)
  {
    if |ms| > 0 {
      IndexKeys(ms[..|ms| - 1]);
      assert ms == ms[..|ms| - 1] + [ms[|ms| - 1]];
    }
  }

  /** A message whose id occurs once is what its id finds. */
  lemma {:induction false} IndexOfUnique(ms: seq<Message>, i: nat)
    requires i < |ms| && HasId(ms[i])
    requires forall j :: 0 <= j < |ms| && j != i ==> ms[j].id != ms[i].id
    ensures ms[i].id.value in Index(ms) && Index(ms)[ms[i].id.value] == ms[i]
  {
    if i < |ms| - 1 {
      IndexOfUnique(ms[..|ms| - 1], i);
    }
  }

  lemma {:induction false} IndexOfAbsent(ms: seq<Message>, id: string)
    requires forall j :: 0 <= j < |ms| ==> ms[j].id != Some(id)
    ensures id !in Index(ms)
  {
    if |ms| > 0 {
      IndexOfAbsent(ms[..|ms| - 1], id);
    }
  }
}
