/**
 Working memory and its two editors: the update_working_memory tool and the operations a
 compression delta carries (neoagent/tools/builtin/update_working_memory.py and
 _apply_wm_op in neoagent/core/compress.py).
 */
module WorkingMemories {
  import opened Prelude
  import opened Types
  import opened IdGenerator

  datatype Field =
    | Constraints | KeyDecisions | RelevantFiles | NextSteps
    | Progress | CriticalContext
    | UnknownField(name: string)
  {
    predicate IsList() { Constraints? || KeyDecisions? || RelevantFiles? || NextSteps? }

    predicate IsScalar() { Progress? || CriticalContext? }
  }

  datatype OpKind = Set | Append | Remove | OtherOp(name: string)

  /** One operation of a working_memory_delta; `value` is whatever JSON the model produced. */
  datatype Op = Op(field: Field, kind: OpKind, value: Json, itemId: Option<string>)

  /** What a WorkingMemory object holds. List entries are JSON values because nothing checks their type. */
  datatype Memory = Memory(
    sessionId: string, version: int, atTurn: int,
    constraints: seq<Json>, progress: Json, keyDecisions: seq<Json>, relevantFiles: seq<Json>,
    nextSteps: seq<Json>, criticalContext: Json, updatedBy: string, updatedAt: DateTime)
  {
    function List(f: Field): seq<Json>
      requires f.IsList()
    {
      match f
      case Constraints => constraints
      case KeyDecisions => keyDecisions
      case RelevantFiles => relevantFiles
      case NextSteps => nextSteps
    }

    function WithList(f: Field, items: seq<Json>): Memory
      requires f.IsList()
    {
      match f
      case Constraints => this.(constraints := items)
      case KeyDecisions => this.(keyDecisions := items)
      case RelevantFiles => this.(relevantFiles := items)
      case NextSteps => this.(nextSteps := items)
    }

    function WithScalar(f: Field, v: Json): Memory
      requires f.IsScalar()
    {
      match f
      case Progress => this.(progress := v)
      case CriticalContext => this.(criticalContext := v)
    }
  }

  // ---- Entry form: a letter, digits, a colon and a space.

  function DigitsEnd(s: string, from: nat): (e: nat)
    requires from <= |s|
    ensures from <= e <= |s|
    ensures forall i :: from <= i < e ==> IsDigit(s[i])
    ensures e < |s| ==> !IsDigit(s[e])
    decreases |s| - from
  {
    if from < |s| && IsDigit(s[from]) then DigitsEnd(s, from + 1) else from
  }

  /** A match of ^[letters]\d+: at the start of `s`, followed by a space. */
  predicate EntryForm(s: string, letters: string) {
    |s| > 0 && s[0] in letters && var e := DigitsEnd(s, 1);
    e > 1 && e + 1 < |s| && s[e] == ':' && s[e + 1] == ' '
  }

  const ENTRY_LETTERS := "cdfn"

  predicate Entry(v: Json) { v.JStr? && EntryForm(v.s, ENTRY_LETTERS) }

  predicate Entries(items: seq<Json>) { forall i :: 0 <= i < |items| ==> Entry(items[i]) }

  predicate WellFormed(m: Memory) {
    Entries(m.constraints) && Entries(m.keyDecisions) && Entries(m.relevantFiles) && Entries(m.nextSteps)
  }

  predicate StartsWith(s: string, prefix: string) { |prefix| <= |s| && s[..|prefix|] == prefix }

  predicate AllText(items: seq<Json>) { forall i :: 0 <= i < |items| ==> items[i].JStr? }

  /** [item for item in items if not item.startswith(prefix)] */
  function WithoutPrefix(items: seq<Json>, prefix: string): seq<Json> {
    Filter(items, (v: Json) => !(v.JStr? && StartsWith(v.s, prefix)))
  }

  // ---- Compression's editor.

  /** One delta operation; Err when startswith meets an entry that is not text. */
  function ApplyOp(m: Memory, op: Op): Result<Memory, ()> {
    if op.field.IsScalar() then
      Ok(if op.kind == Set then m.WithScalar(op.field, op.value) else m)
    else if op.field.IsList() then
      var current := m.List(op.field);
      match op.kind
      case Set => Ok(m.WithList(op.field, if op.value.JArr? then op.value.items else [op.value]))
      case Append => Ok(m.WithList(op.field, current + [op.value]))
      case Remove =>
        if op.itemId.None? || op.itemId.value == "" then Ok(m)
        else if !AllText(current) then Err(())
        else Ok(m.WithList(op.field, WithoutPrefix(current, op.itemId.value + ":")))
      case OtherOp(_) => Ok(m)
    else Ok(m)
  }

  /** The operations in order, up to the first that raises; the flag tells whether one did. */
  function ApplyOps(m: Memory, ops: seq<Op>): (Memory, bool)
    decreases |ops|
  {
    if |ops| == 0 then (m, false)
    else
      match ApplyOp(m, ops[0])
      case Err(_) => (m, true)
      case Ok(m') => ApplyOps(m', ops[1..])
  }

  /** All operations and then the stamp; nothing is stamped when one raises. */
  function CompressionEdit(m: Memory, ops: seq<Op>, now: DateTime): (Memory, bool) {
    var (m', raised) := ApplyOps(m, ops);
    (if raised then m'
     else m'.(version := m'.version + 1, atTurn := 0, updatedBy := "framework_compression", updatedAt := now),
     raised)
  }

  // ---- The tool's editor.

  datatype ToolInput = ToolInput(field: Field, value: Option<string>, kind: OpKind, itemId: Option<string>)

  /** What the tool's input model admits. */
  predicate ValidInput(i: ToolInput) { !i.field.UnknownField? && !i.kind.OtherOp? }

  function FieldLetter(f: Field): string
    requires f.IsList()
  {
    match f
    case Constraints => "c"
    case KeyDecisions => "d"
    case RelevantFiles => "f"
    case NextSteps => "n"
  }

  /** The memory after a tool call; None when the tool answers with an error and changes nothing. */
  function ToolEdit(m: Memory, i: ToolInput, now: DateTime): Option<Memory>
    requires ValidInput(i)
  {
    var stamped := m.(updatedBy := "llm_tool", updatedAt := now);
    if i.field.IsScalar() then
      if i.kind != Set then None
      else Some(stamped.WithScalar(i.field, JStr(if i.value.Some? then i.value.value else "")))
    else if i.kind == Remove then
      if i.itemId.None? || !AllText(m.List(i.field)) then None
      else
        var left := WithoutPrefix(m.List(i.field), i.itemId.value + ": ");
        if |left| == |m.List(i.field)| then None else Some(stamped.WithList(i.field, left))
    else if i.value.None? || !EntryForm(i.value.value, FieldLetter(i.field)) then None
    else
      var entry := JStr(i.value.value);
      Some(stamped.WithList(i.field, if i.kind == Set then [entry] else m.List(i.field) + [entry]))
  }

  /** Tool calls in order; a call answered with an error changes nothing. */
  function EditMemory(m: Memory, inputs: seq<ToolInput>, now: DateTime): Memory
    requires forall i :: 0 <= i < |inputs| ==> ValidInput(inputs[i])
  {
    if |inputs| == 0 then m
    else
      var before := EditMemory(m, inputs[..|inputs| - 1], now);
      var after := ToolEdit(before, inputs[|inputs| - 1], now);
      if after.Some? then after.value else before
  }

  // ---- The object both editors change in place.

  class WorkingMemory {
    var sessionId: string
    var version: int
    var atTurn: int
    var constraints: seq<Json>
    var progress: Json
    var keyDecisions: seq<Json>
    var relevantFiles: seq<Json>
    var nextSteps: seq<Json>
    var criticalContext: Json
    var updatedBy: string
    var updatedAt: DateTime

    function Value(): Memory
      reads this
    {
      Memory(sessionId, version, atTurn, constraints, progress, keyDecisions, relevantFiles,
             nextSteps, criticalContext, updatedBy, updatedAt)
    }

    constructor (m: Memory)
      ensures Value() == m
    {
      sessionId, version, atTurn := m.sessionId, m.version, m.atTurn;
      constraints, progress, keyDecisions := m.constraints, m.progress, m.keyDecisions;
      relevantFiles, nextSteps, criticalContext := m.relevantFiles, m.nextSteps, m.criticalContext;
      updatedBy, updatedAt := m.updatedBy, m.updatedAt;
    }

    method GetList(f: Field) returns (items: seq<Json>)
      requires f.IsList()
      ensures items == Value().List(f)
    {
      match f {
        case Constraints => items := constraints;
        case KeyDecisions => items := keyDecisions;
        case RelevantFiles => items := relevantFiles;
        case NextSteps => items := nextSteps;
      }
    }

    method SetList(f: Field, items: seq<Json>)
      requires f.IsList()
      modifies this`constraints, this`keyDecisions, this`relevantFiles, this`nextSteps
      ensures Value() == old(Value()).WithList(f, items)
    {
      match f {
        case Constraints => constraints := items;
        case KeyDecisions => keyDecisions := items;
        case RelevantFiles => relevantFiles := items;
        case NextSteps => nextSteps := items;
      }
    }

    method SetScalar(f: Field, v: Json)
      requires f.IsScalar()
      modifies this`progress, this`criticalContext
      ensures Value() == old(Value()).WithScalar(f, v)
    {
      match f {
        case Progress => progress := v;
        case CriticalContext => criticalContext := v;
      }
    }

    /** _apply_wm_op; `ok` is false when it raises. */
    method ApplyOperation(op: Op) returns (ok: bool)
      modifies this
      ensures ok == ApplyOp(old(Value()), op).Ok?
      ensures Value() == if ok then ApplyOp(old(Value()), op).value else old(Value())
    {
      ok := true;
      if op.field.IsScalar() {
        if op.kind == Set {
          SetScalar(op.field, op.value);
        }
      } else if op.field.IsList() {
        var current := GetList(op.field);
        if op.kind == Set {
          SetList(op.field, if op.value.JArr? then op.value.items else [op.value]);
        } else if op.kind == Append {
          SetList(op.field, current + [op.value]);
        } else if op.kind == Remove && op.itemId.Some? && op.itemId.value != "" {
          if !AllText(current) {
            return false;
          }
          SetList(op.field, WithoutPrefix(current, op.itemId.value + ":"));
        }
      }
    }

    /** A delta's operations in order, stopping where one raises, and the stamp. */
    method EditByCompression(ops: seq<Op>, now: DateTime) returns (raised: bool)
      modifies this
      ensures (Value(), raised) == CompressionEdit(old(Value()), ops, now)
    {
      for i := 0 to |ops|
        invariant ApplyOps(Value(), ops[i..]) == ApplyOps(old(Value()), ops)
      {
        var ok := ApplyOperation(ops[i]);
        assert ops[i..][1..] == ops[i + 1..];
        if !ok {
          return true;
        }
      }
      version, atTurn, updatedBy, updatedAt := version + 1, 0, "framework_compression", now;
      raised := false;
    }

    /** UpdateWorkingMemoryTool.execute on an initialised memory; `ok` is false for an error result. */
    method ExecuteTool(input: ToolInput, now: DateTime) returns (ok: bool)
      requires ValidInput(input)
      modifies this
      ensures ok == ToolEdit(old(Value()), input, now).Some?
      ensures Value() == if ok then ToolEdit(old(Value()), input, now).value else old(Value())
    {
      if input.field.IsScalar() && input.kind != Set {
        return false;
      }
      if input.field.IsList() && (input.kind == Set || input.kind == Append) {
        if input.value.None? || !EntryForm(input.value.value, FieldLetter(input.field)) {
          return false;
        }
      }
      if input.kind == Remove && input.itemId.None? {
        return false;
      }
      if input.kind == Set {
        if input.field.IsScalar() {
          SetScalar(input.field, JStr(if input.value.Some? then input.value.value else ""));
        } else {
          SetList(input.field, [JStr(input.value.value)]);
        }
      } else {
        var items := GetList(input.field);
        if input.kind == Append {
          SetList(input.field, items + [JStr(input.value.value)]);
        } else {
          if !AllText(items) {
            return false;
          }
          var left := WithoutPrefix(items, input.itemId.value + ": ");
          if |left| == |items| {
            return false;
          }
          SetList(input.field, left);
        }
      }
      updatedBy, updatedAt := "llm_tool", now;
      ok := true;
    }

    /** Several tool calls, one after the other. */
    method EditByTools(inputs: seq<ToolInput>, now: DateTime)
      requires forall i :: 0 <= i < |inputs| ==> ValidInput(inputs[i])
      modifies this
      ensures Value() == EditMemory(old(Value()), inputs, now)
    {
      for i := 0 to |inputs|
        invariant Value() == EditMemory(old(Value()), inputs[..i], now)
      {
        assert inputs[..i + 1][..i] == inputs[..i];
        var ok := ExecuteTool(inputs[i], now);
      }
      assert inputs[..|inputs|] == inputs;
    }
  }

  // ---- The two remove operations.

  lemma DigitsEndUnique(s: string, e: nat)
    requires 1 <= e <= |s|
    requires forall i :: 1 <= i < e ==> IsDigit(s[i])
    requires e < |s| ==> !IsDigit(s[e])
    ensures DigitsEnd(s, 1) == e
  {
  }

  /** On an entry, a prefix ending in a colon is followed by the space, unless the id is itself an entry. */
  lemma EntryPrefix(s: string, id: string)
    requires EntryForm(s, ENTRY_LETTERS) && !EntryForm(id, ENTRY_LETTERS)
    ensures StartsWith(s, id + ":") <==> StartsWith(s, id + ": ")
  {
    var e := DigitsEnd(s, 1);
    if StartsWith(s, id + ": ") {
      assert s[..|id| + 1] == s[..|id| + 2][..|id| + 1];
    }
    if StartsWith(s, id + ":") {
      assert s[..|id| + 1][..|id|] == id && s[|id|] == ':';
      assert forall i :: 0 <= i < |id| ==> id[i] == s[i];
      if |id| > e + 1 {
        DigitsEndUnique(id, e);
        assert false;
      }
      assert |id| == e;
      assert s[..|id| + 2] == s[..|id| + 1] + [' '];
      assert id + ": " == (id + ":") + [' '];
    }
  }

  /** Compression removes with "id:" and the tool with "id: "; on entries they agree unless the id is an entry. */
  lemma RemovalsAgree(items: seq<Json>, id: string)
    requires Entries(items) && !EntryForm(id, ENTRY_LETTERS)
    ensures WithoutPrefix(items, id + ":") == WithoutPrefix(items, id + ": ")
  {
    forall i | 0 <= i < |items| ensures StartsWith(items[i].s, id + ":") == StartsWith(items[i].s, id + ": ") {
      assert Entry(items[i]);
      EntryPrefix(items[i].s, id);
    }
    FilterSame(items, (v: Json) => !(v.JStr? && StartsWith(v.s, id + ":")),
                      (v: Json) => !(v.JStr? && StartsWith(v.s, id + ": ")));
  }

  lemma DigitsEndAppend(s: string, t: string)
    requires |s| >= 1 && DigitsEnd(s, 1) < |s|
    ensures DigitsEnd(s + t, 1) == DigitsEnd(s, 1)
  {
    DigitsEndUnique(s + t, DigitsEnd(s, 1));
  }

  lemma FilterOne<T>(x: T, p: T -> bool)
    ensures Filter([x], p) == if p(x) then [x] else []
  {
    assert [x][..0] == [];
  }

  /** When the id is itself an entry the two removals differ on a one-entry list. */
  lemma RemovalsDiffer(id: string)
    requires EntryForm(id, ENTRY_LETTERS)
    ensures Entries([JStr(id + ":")])
    ensures WithoutPrefix([JStr(id + ":")], id + ":") != WithoutPrefix([JStr(id + ":")], id + ": ")
  {
    DigitsEndAppend(id, ":");
    var item := JStr(id + ":");
    assert (id + ":")[..|id + ":"|] == id + ":";
    FilterOne(item, (v: Json) => !(v.JStr? && StartsWith(v.s, id + ":")));
    FilterOne(item, (v: Json) => !(v.JStr? && StartsWith(v.s, id + ": ")));
  }

  /** Exactly the ids that are not themselves entries make the two removals agree on every well-formed list. */
  lemma RemovalsAgreeExactlyWhen(id: string)
    ensures (forall items :: Entries(items) ==> WithoutPrefix(items, id + ":") == WithoutPrefix(items, id + ": "))
      <==> !EntryForm(id, ENTRY_LETTERS)
  {
    if EntryForm(id, ENTRY_LETTERS) {
      RemovalsDiffer(id);
    } else {
      forall items | Entries(items)
        ensures WithoutPrefix(items, id + ":") == WithoutPrefix(items, id + ": ")
      {
        RemovalsAgree(items, id);
      }
    }
  }
}
