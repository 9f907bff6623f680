/** Registration and execution of lifecycle hooks: neoagent/hooks.py. */
module Hooks {
  import opened Prelude
  import opened Types
  import opened Sorting

  datatype HookType = PreToolCall | PostToolCall | PreProviderCall | PostProviderCall

  datatype HookResult = Allow | Deny(reason: string) | Modify(data: map<string, Json>)

  /** What awaiting a handler comes to. */
  datatype Outcome = Raised | Returned(result: HookResult)

  /** A frozen event, by field name. */
  type Event = map<string, Json>

  /** A handler is known by its identity. */
  datatype Entry = Entry(priority: int, seqNo: nat, handler: nat)

  /** What the handler called as the k-th of a run comes to; a handler may keep state of its own. */
  type Answers = (nat, nat, Event) -> Outcome

  function Fields(t: HookType): seq<string> {
    match t
    case PreToolCall => ["tool_name", "tool_input", "call_id"]
    case PostToolCall => ["tool_name", "tool_input", "call_id", "result", "is_error"]
    case PreProviderCall => ["system", "messages", "tools"]
    case PostProviderCall => ["response", "input_tokens", "output_tokens"]
  }

  ghost predicate HasFields(event: Event, fields: seq<string>) {
    forall f :: f in fields <==> f in event
  }

  // ---- Registration.

  datatype Registry = Registry(hooks: map<HookType, seq<Entry>>, next: nat)

  datatype Op = Register(t: HookType, handler: nat, priority: int) | Unregister(t: HookType, handler: nat)

  predicate ByKey(a: Entry, b: Entry) {
    a.priority < b.priority || (a.priority == b.priority && a.seqNo <= b.seqNo)
  }

  predicate ByPriority(a: Entry, b: Entry) { a.priority <= b.priority }

  function Handlers(r: Registry, t: HookType): seq<Entry> {
    if t in r.hooks then r.hooks[t] else []
  }

  function Without(entries: seq<Entry>, handler: nat): seq<Entry> {
    Filter(entries, (e: Entry) => e.handler != handler)
  }

  function Perform(r: Registry, op: Op): Registry {
    match op
    case Register(t, handler, priority) =>
      Registry(r.hooks[t := StableSort(Handlers(r, t) + [Entry(priority, r.next, handler)], ByKey)], r.next + 1)
    case Unregister(t, handler) =>
      if t in r.hooks then r.(hooks := r.hooks[t := Without(r.hooks[t], handler)]) else r
  }

  function PerformAll(ops: seq<Op>): Registry {
    if |ops| == 0 then Registry(map[], 0) else Perform(PerformAll(ops[..|ops| - 1]), ops[|ops| - 1])
  }

  function Registrations(ops: seq<Op>): nat {
    if |ops| == 0 then 0
    else Registrations(ops[..|ops| - 1]) + (if ops[|ops| - 1].Register? then 1 else 0)
  }

  /** The registrations for `t` not taken back since, in the order they were made. */
  function Live(ops: seq<Op>, t: HookType): seq<Entry> {
    if |ops| == 0 then []
    else
      var before := Live(ops[..|ops| - 1], t);
      var op := ops[|ops| - 1];
      if op.t != t then before
      else if op.Register? then before + [Entry(op.priority, Registrations(ops[..|ops| - 1]), op.handler)]
      else Without(before, op.handler)
  }

  ghost predicate StandsSince(ops: seq<Op>, t: HookType, e: Entry, i: nat)
    requires i < |ops|
  {
    ops[i] == Register(t, e.handler, e.priority) && Registrations(ops[..i]) == e.seqNo
    && forall j :: i < j < |ops| ==> ops[j] != Unregister(t, e.handler)
  }

  /** The entry was made by some registration that no later operation took back. */
  ghost predicate StillRegistered(ops: seq<Op>, t: HookType, e: Entry) {
    exists i :: 0 <= i < |ops| && StandsSince(ops, t, e, i)
  }

  lemma StandsBefore(ops: seq<Op>, t: HookType, e: Entry)
    requires |ops| > 0
    ensures var n := |ops| - 1;
            && (StandsSince(ops, t, e, n)
                <==> ops[n] == Register(t, e.handler, e.priority) && Registrations(ops[..n]) == e.seqNo)
            && forall i :: 0 <= i < n ==>
                 (StandsSince(ops, t, e, i) <==> StandsSince(ops[..n], t, e, i) && ops[n] != Unregister(t, e.handler))
  {
    hide Registrations;
    var n := |ops| - 1;
    assert forall i :: 0 <= i < n ==> ops[..n][..i] == ops[..i];
  }

  lemma RegisteredBefore(ops: seq<Op>, t: HookType, e: Entry)
    requires |ops| > 0
    ensures StillRegistered(ops, t, e) <==>
            (ops[|ops| - 1] == Register(t, e.handler, e.priority) && Registrations(ops[..|ops| - 1]) == e.seqNo)
            || (StillRegistered(ops[..|ops| - 1], t, e) && ops[|ops| - 1] != Unregister(t, e.handler))
  {
    StandsBefore(ops, t, e);
    hide Registrations, StandsSince;
  }

  lemma {:induction false} FilterKeepsSeqNos(s: seq<Entry>, p: Entry -> bool)
    requires forall i, j :: 0 <= i < j < |s| ==> s[i].seqNo < s[j].seqNo
    ensures forall i, j :: 0 <= i < j < |Filter(s, p)| ==> Filter(s, p)[i].seqNo < Filter(s, p)[j].seqNo
  {
    if |s| > 0 {
      var front := s[..|s| - 1];
      FilterKeepsSeqNos(front, p);
      FilterMembers(front, p);
      assert forall i :: 0 <= i < |Filter(front, p)| ==> Filter(front, p)[i] in front;
    }
  }

  /** Live lists exactly the registrations still standing, in ascending order of registration. */
  lemma {:induction false} LiveIsWhatStands(ops: seq<Op>, t: HookType)
    ensures forall e :: e in Live(ops, t) <==> StillRegistered(ops, t, e)
    ensures forall i, j :: 0 <= i < j < |Live(ops, t)| ==> Live(ops, t)[i].seqNo < Live(ops, t)[j].seqNo
    ensures forall e :: e in Live(ops, t) ==> e.seqNo < Registrations(ops)
  {
    if |ops| > 0 {
      var front, op := ops[..|ops| - 1], ops[|ops| - 1];
      LiveIsWhatStands(front, t);
      if op == Unregister(t, op.handler) {
        var keep := (e: Entry) => e.handler != op.handler;
        FilterMembers(Live(front, t), keep);
        FilterKeepsSeqNos(Live(front, t), keep);
      }
      forall e ensures e in Live(ops, t) <==> StillRegistered(ops, t, e) {
        RegisteredBefore(ops, t, e);
        assert e in Live(front, t) <==> StillRegistered(front, t, e);
      }
    }
  }

  /** Among older entries a newcomer takes the same place by (priority, number) as by priority alone. */
  lemma {:induction false} InsertNewest(s: seq<Entry>, e: Entry)
    requires forall x :: x in s ==> x.seqNo < e.seqNo
    ensures Insert(s, e, ByKey) == Insert(s, e, ByPriority)
  {
    if |s| > 0 {
      assert s[|s| - 1] in s;
      InsertNewest(s[..|s| - 1], e);
    }
  }

  lemma Orders()
    ensures Preorder(ByKey) && Preorder(ByPriority)
  {
  }

  lemma NewestSorts(entries: seq<Entry>, live: seq<Entry>, e: Entry)
    requires Ascending(entries, ByKey) && entries == StableSort(live, ByPriority)
    requires forall x :: x in live ==> x.seqNo < e.seqNo
    ensures StableSort(entries + [e], ByKey) == StableSort(live + [e], ByPriority)
    ensures Ascending(StableSort(entries + [e], ByKey), ByKey)
  {
    Orders();
    StableSortSorts(live, ByPriority);
    SortOfAscending(entries, ByKey);
    assert (entries + [e])[..|entries|] == entries && (live + [e])[..|live|] == live;
    forall x | x in entries ensures x.seqNo < e.seqNo {
      assert x in multiset(entries);
    }
    InsertNewest(entries, e);
    StableSortSorts(entries + [e], ByKey);
  }

  lemma {:induction false} FilterAscends(s: seq<Entry>, p: Entry -> bool)
    requires Ascending(s, ByKey)
    ensures Ascending(Filter(s, p), ByKey)
  {
    if |s| > 0 {
      var front := s[..|s| - 1];
      FilterAscends(front, p);
      FilterMembers(front, p);
      assert forall i :: 0 <= i < |Filter(front, p)| ==> Filter(front, p)[i] in front;
    }
  }

  lemma RemovalSorts(entries: seq<Entry>, live: seq<Entry>, handler: nat)
    requires Ascending(entries, ByKey) && entries == StableSort(live, ByPriority)
    ensures Without(entries, handler) == StableSort(Without(live, handler), ByPriority)
    ensures Ascending(Without(entries, handler), ByKey)
  {
    Orders();
    SortFiltered(live, ByPriority, (e: Entry) => e.handler != handler);
    FilterAscends(entries, (e: Entry) => e.handler != handler);
  }

  /** After any operations the handlers of a type are those still registered, stably sorted by priority. */
  lemma {:induction false} HandlersAreSorted(ops: seq<Op>, t: HookType)
    ensures Handlers(PerformAll(ops), t) == StableSort(Live(ops, t), ByPriority)
    ensures Ascending(Handlers(PerformAll(ops), t), ByKey)
    ensures PerformAll(ops).next == Registrations(ops)
  {
    if |ops| > 0 {
      var front, op := ops[..|ops| - 1], ops[|ops| - 1];
      HandlersAreSorted(front, t);
      LiveIsWhatStands(front, t);
      if op.t == t {
        if op.Register? {
          var entry := Entry(op.priority, Registrations(front), op.handler);
          NewestSorts(Handlers(PerformAll(front), t), Live(front, t), entry);
        } else {
          RemovalSorts(Handlers(PerformAll(front), t), Live(front, t), op.handler);
        }
      }
    }
  }

  // ---- Execution.

  function Updates(event: Event, data: map<string, Json>): map<string, Json> {
    map k | k in data && k in event :: data[k]
  }

  function Applied(event: Event, data: map<string, Json>): Event {
    if Updates(event, data) == map[] then event else event + Updates(event, data)
  }

  /** The fields that differ. */
  function Diff(original: Event, final: Event): map<string, Json>
    requires original.Keys <= final.Keys
  {
    map k | k in original && original[k] != final[k] :: final[k]
  }

  predicate Touches(event: Event, o: Outcome) {
    o.Returned? && o.result.Modify? && Updates(event, o.result.data) != map[]
  }

  function After(event: Event, o: Outcome): (next: Event)
    ensures next.Keys == event.Keys
  {
    if o.Returned? && o.result.Modify? then Applied(event, o.result.data) else event
  }

  /** The event that the k-th handler is given when the ones before it have run. */
  function SeenBy(entries: seq<Entry>, event: Event, answer: Answers, k: nat): (seen: Event)
    requires k <= |entries|
    ensures seen.Keys == event.Keys
  {
    if k == 0 then event
    else
      var seen := SeenBy(entries, event, answer, k - 1);
      After(seen, answer(k - 1, entries[k - 1].handler, seen))
  }

  function AnswerOf(entries: seq<Entry>, event: Event, answer: Answers, k: nat): Outcome
    requires k < |entries|
  {
    answer(k, entries[k].handler, SeenBy(entries, event, answer, k))
  }

  /** Some handler asked for a change of a known field. */
  ghost predicate Changed(entries: seq<Entry>, event: Event, answer: Answers, n: nat)
    requires n <= |entries|
  {
    exists k :: 0 <= k < n
                && Touches(SeenBy(entries, event, answer, k), AnswerOf(entries, event, answer, k))
  }

  lemma SeenNext(entries: seq<Entry>, event: Event, answer: Answers, k: nat)
    requires k < |entries|
    ensures AnswerOf(entries, event, answer, k) == answer(k, entries[k].handler, SeenBy(entries, event, answer, k))
    ensures SeenBy(entries, event, answer, k + 1)
         == After(SeenBy(entries, event, answer, k), AnswerOf(entries, event, answer, k))
    ensures Changed(entries, event, answer, k + 1)
         == (Changed(entries, event, answer, k)
             || Touches(SeenBy(entries, event, answer, k), AnswerOf(entries, event, answer, k)))
  {
  }

  predicate Denies(o: Outcome) { o.Returned? && o.result.Deny? }

  /** The result stands for `final`: applied to the original event it gives it back, and it names only real changes. */
  ghost predicate Conveys(result: HookResult, event: Event, final: Event, changed: bool) {
    match result
    case Deny(_) => false
    case Allow => !changed && final == event
    case Modify(data) =>
      changed && Applied(event, data) == final && forall f :: f in data ==> f in event && event[f] != data[f]
  }

  lemma {:induction false} UnchangedStays(entries: seq<Entry>, event: Event, answer: Answers, n: nat)
    requires n <= |entries| && !Changed(entries, event, answer, n)
    ensures SeenBy(entries, event, answer, n) == event
  {
    if n > 0 {
      assert !Changed(entries, event, answer, n - 1);
      UnchangedStays(entries, event, answer, n - 1);
      var o := AnswerOf(entries, event, answer, n - 1);
      assert !Touches(SeenBy(entries, event, answer, n - 1), o);
    }
  }

  /** The j-th handler asks for a value of the field. */
  predicate Writes(entries: seq<Entry>, event: Event, answer: Answers, j: nat, field: string)
    requires j < |entries|
  {
    var o := AnswerOf(entries, event, answer, j);
    o.Returned? && o.result.Modify? && field in o.result.data
  }

  /** The last of the first k handlers that asks for a value of the field. */
  function LastWriter(entries: seq<Entry>, event: Event, answer: Answers, k: nat, field: string): (w: Option<nat>)
    requires k <= |entries|
    ensures w.Some? ==> w.value < k && Writes(entries, event, answer, w.value, field)
    ensures forall i :: (if w.Some? then w.value + 1 else 0) <= i < k ==> !Writes(entries, event, answer, i, field)
  {
    if k == 0 then None
    else if Writes(entries, event, answer, k - 1, field) then Some(k - 1)
    else LastWriter(entries, event, answer, k - 1, field)
  }

  lemma AfterField(event: Event, o: Outcome, field: string)
    requires field in event
    ensures After(event, o)[field]
         == if o.Returned? && o.result.Modify? && field in o.result.data then o.result.data[field] else event[field]
  {
    if o.Returned? && o.result.Modify? && field in o.result.data {
      assert field in Updates(event, o.result.data);
    }
  }

  /** Each handler sees in a field what the last handler before it that wrote it put there, or the original value. */
  lemma {:induction false} LastWriterWins(
      entries: seq<Entry>, event: Event, answer: Answers, k: nat, field: string)
    requires k <= |entries| && field in event
    ensures SeenBy(entries, event, answer, k)[field]
         == match LastWriter(entries, event, answer, k, field)
            case None => event[field]
            case Some(j) => AnswerOf(entries, event, answer, j).result.data[field]
  {
    hide After;
    if k > 0 {
      LastWriterWins(entries, event, answer, k - 1, field);
      var seen, o := SeenBy(entries, event, answer, k - 1), AnswerOf(entries, event, answer, k - 1);
      AfterField(seen, o, field);
    }
  }

  /** Applying the extracted difference to the original event gives the final event. */
  lemma DiffRestores(original: Event, final: Event)
    requires original.Keys == final.Keys
    ensures Applied(original, Diff(original, final)) == final
  {
    var d := Diff(original, final);
    assert Updates(original, d) == d;
    if d == map[] {
      forall k | k in original ensures original[k] == final[k] {
        assert k in d <==> original[k] != final[k];
      }
    } else {
      assert original + d == final;
    }
  }

  /** A caller that takes one field from the difference, or the original where it is absent, has the final value. */
  lemma FieldOfDiff(original: Event, final: Event, field: string)
    requires original.Keys == final.Keys && field in original
    ensures (if field in Diff(original, final) then Diff(original, final)[field] else original[field]) == final[field]
  {
  }

  lemma NothingSeen(entries: seq<Entry>, event: Event, answer: Answers)
    ensures SeenBy(entries, event, answer, 0) == event && !Changed(entries, event, answer, 0)
  {
  }

  lemma NothingRegistered(event: Event, answer: Answers)
    ensures Conveys(Allow, event, SeenBy([], event, answer, 0), Changed([], event, answer, 0))
  {
  }

  lemma ConveysChange(result: HookResult, entries: seq<Entry>, event: Event, answer: Answers, changed: bool)
    requires changed == Changed(entries, event, answer, |entries|)
    requires if changed then Conveys(result, event, SeenBy(entries, event, answer, |entries|), true)
             else result == Allow
    ensures Conveys(result, event, SeenBy(entries, event, answer, |entries|), changed)
  {
    if !changed {
      UnchangedStays(entries, event, answer, |entries|);
    }
  }

  method ExtractModifiedData(fields: seq<string>, original: Event, final: Event) returns (diff: map<string, Json>)
    requires HasFields(original, fields) && original.Keys == final.Keys
    ensures diff == Diff(original, final)
  {
    diff := map[];
    for i := 0 to |fields|
      invariant diff == map k | k in original && k in fields[..i] && original[k] != final[k] :: final[k]
    {
      var f := fields[i];
      assert f in fields;
      assert fields[..i + 1] == fields[..i] + [f];
      if original[f] != final[f] {
        diff := diff[f := final[f]];
      }
    }
    assert fields[..|fields|] == fields;
  }

  class HookManager {
    var hooks: map<HookType, seq<Entry>>
    var next: nat

    ghost function View(): Registry
      reads this
    {
      Registry(hooks, next)
    }

    constructor ()
      ensures View() == PerformAll([])
    {
      hooks, next := map[], 0;
    }

    method RegisterHook(t: HookType, handler: nat, priority: int)
      modifies this
      ensures View() == Perform(old(View()), Register(t, handler, priority))
    {
      hide StableSort;
      ghost var was := View();
      var entry := Entry(priority, next, handler);
      next := next + 1;
      if t !in hooks {
        hooks := hooks[t := []];
      }
      assert hooks[t] == Handlers(was, t);
      hooks := hooks[t := hooks[t] + [entry]];
      hooks := hooks[t := StableSort(hooks[t], ByKey)];
    }

    method UnregisterHook(t: HookType, handler: nat)
      modifies this
      ensures View() == Perform(old(View()), Unregister(t, handler))
    {
      if t !in hooks {
        return;
      }
      hooks := hooks[t := Filter(hooks[t], (e: Entry) => e.handler != handler)];
    }

    /**
     * Each handler is given the event as the ones before it left it; the first deny ends the run and is its
     * result, and otherwise the result conveys the event after all of them.
     */
    method RunPre(t: HookType, event: Event, answer: Answers) returns (result: HookResult, given: seq<Event>)
      requires HasFields(event, Fields(t))
      ensures var entries := Handlers(View(), t);
              && |given| <= |entries|
              && (forall k :: 0 <= k < |given| ==> given[k] == SeenBy(entries, event, answer, k))
              && (forall k :: 0 <= k < |given| - 1 ==> !Denies(AnswerOf(entries, event, answer, k)))
              && (if |given| > 0 && Denies(AnswerOf(entries, event, answer, |given| - 1))
                  then result == AnswerOf(entries, event, answer, |given| - 1).result
                  else |given| == |entries|
                       && Conveys(result, event, SeenBy(entries, event, answer, |entries|),
                                  Changed(entries, event, answer, |entries|)))
    {
      hide SeenBy, AnswerOf, Changed, Updates, Applied, Conveys, HasFields, Fields;
      var entries := if t in hooks then hooks[t] else [];
      given := [];
      if |entries| == 0 {
        NothingRegistered(event, answer);
        return Allow, given;
      }
      var current, changed := event, false;
      NothingSeen(entries, event, answer);
      for i := 0 to |entries|
        invariant |given| == i && current == SeenBy(entries, event, answer, i)
        invariant forall k :: 0 <= k < i ==> given[k] == SeenBy(entries, event, answer, k)
        invariant forall k :: 0 <= k < i ==> !Denies(AnswerOf(entries, event, answer, k))
        invariant changed == Changed(entries, event, answer, i)
      {
        given := given + [current];
        var outcome := answer(i, entries[i].handler, current);
        SeenNext(entries, event, answer, i);
        match outcome {
          case Raised =>
          case Returned(Deny(_)) => return outcome.result, given;
          case Returned(Modify(data)) =>
            if Updates(current, data) != map[] {
              changed := true;
            }
            current := Applied(current, data);
          case Returned(Allow) =>
        }
      }
      result := Finish(t, event, current, changed);
      ConveysChange(result, entries, event, answer, changed);
    }

    /** As RunPre, except that every handler is called whatever the others return, and no deny is returned. */
    method RunPost(t: HookType, event: Event, answer: Answers) returns (result: HookResult, given: seq<Event>)
      requires HasFields(event, Fields(t))
      ensures var entries := Handlers(View(), t);
              && |given| == |entries|
              && (forall k :: 0 <= k < |given| ==> given[k] == SeenBy(entries, event, answer, k))
              && Conveys(result, event, SeenBy(entries, event, answer, |entries|),
                         Changed(entries, event, answer, |entries|))
    {
      hide SeenBy, AnswerOf, Changed, Updates, Applied, Conveys, HasFields, Fields;
      var entries := if t in hooks then hooks[t] else [];
      given := [];
      if |entries| == 0 {
        NothingRegistered(event, answer);
        return Allow, given;
      }
      var current, changed := event, false;
      NothingSeen(entries, event, answer);
      for i := 0 to |entries|
        invariant |given| == i && current == SeenBy(entries, event, answer, i)
        invariant forall k :: 0 <= k < i ==> given[k] == SeenBy(entries, event, answer, k)
        invariant changed == Changed(entries, event, answer, i)
      {
        given := given + [current];
        var outcome := answer(i, entries[i].handler, current);
        SeenNext(entries, event, answer, i);
        match outcome {
          case Raised =>
          case Returned(Deny(_)) => continue;
          case Returned(Modify(data)) =>
            if Updates(current, data) != map[] {
              changed := true;
            }
            current := Applied(current, data);
          case Returned(Allow) =>
        }
      }
      result := Finish(t, event, current, changed);
      ConveysChange(result, entries, event, answer, changed);
    }

    /** The common end of both runs: `changed` is the test that the working event is no longer the original object. */
    method Finish(t: HookType, event: Event, current: Event, changed: bool) returns (result: HookResult)
      requires HasFields(event, Fields(t)) && event.Keys == current.Keys
      ensures if changed then Conveys(result, event, current, true) else result == Allow
    {
      if changed {
        var diff := ExtractModifiedData(Fields(t), event, current);
        DiffRestores(event, current);
        return Modify(diff);
      }
      return Allow;
    }
  }
}
