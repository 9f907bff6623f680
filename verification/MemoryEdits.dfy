/** What an edit of the working memory changes and what it leaves, and when it is refused. */
module MemoryEdits {
  import opened Prelude
  import opened Types
  import opened WorkingMemories
  import History

  /** The memories agree on all entries and texts but those of one field. */
  predicate SameBut(m: Memory, m': Memory, f: Field) {
    && (f != Constraints ==> m'.constraints == m.constraints)
    && (f != KeyDecisions ==> m'.keyDecisions == m.keyDecisions)
    && (f != RelevantFiles ==> m'.relevantFiles == m.relevantFiles)
    && (f != NextSteps ==> m'.nextSteps == m.nextSteps)
    && (f != Progress ==> m'.progress == m.progress)
    && (f != CriticalContext ==> m'.criticalContext == m.criticalContext)
    && m'.sessionId == m.sessionId
  }

  predicate SameStamp(m: Memory, m': Memory) {
    m'.version == m.version && m'.atTurn == m.atTurn && m'.updatedBy == m.updatedBy && m'.updatedAt == m.updatedAt
  }

  predicate Begins(v: Json, prefix: string) { v.JStr? && |prefix| <= |v.s| && v.s[..|prefix|] == prefix }

  /** What stays of a list, in order: the items that do not begin with the prefix. */
  ghost predicate RemovedBy(before: seq<Json>, after: seq<Json>, prefix: string) {
    exists mask: seq<bool> :: |mask| == |before| && after == Select(before, mask, true)
                              && forall i :: 0 <= i < |before| ==> (mask[i] <==> !Begins(before[i], prefix))
  }

  function KeepMask(items: seq<Json>, prefix: string): (mask: seq<bool>)
    ensures |mask| == |items|
  {
    if |items| == 0 then []
    else KeepMask(items[..|items| - 1], prefix) + [!Begins(items[|items| - 1], prefix)]
  }

  lemma {:induction false} WithoutPrefixRemoves(items: seq<Json>, prefix: string)
    ensures WithoutPrefix(items, prefix) == Select(items, KeepMask(items, prefix), true)
    ensures forall i :: 0 <= i < |items| ==> (KeepMask(items, prefix)[i] <==> !Begins(items[i], prefix))
  {
    if |items| > 0 {
      WithoutPrefixRemoves(items[..|items| - 1], prefix);
      assert KeepMask(items, prefix)[..|items| - 1] == KeepMask(items[..|items| - 1], prefix);
    }
  }

  /** An operation of a delta, by its kind. */
  ghost predicate OpTold(m: Memory, op: Op, m': Memory) {
    && SameBut(m, m', op.field) && SameStamp(m, m')
    && (op.field == Progress ==> m'.progress == if op.kind == Set then op.value else m.progress)
    && (op.field == CriticalContext ==> m'.criticalContext == if op.kind == Set then op.value else m.criticalContext)
    && (op.field.IsList() ==>
          match op.kind
          case Set => m'.List(op.field) == if op.value.JArr? then op.value.items else [op.value]
          case Append => m'.List(op.field) == m.List(op.field) + [op.value]
          case Remove =>
            if op.itemId.Some? && op.itemId.value != ""
            then RemovedBy(m.List(op.field), m'.List(op.field), op.itemId.value + ":")
            else m' == m
          case OtherOp(_) => m' == m)
  }

  /**
   An operation changes only its field: it replaces a text or a list, adds one item at the end, or takes out the items
   of one id; it raises exactly when it is to take something out of a list that holds something else than text.
   */
  lemma {:induction false} OperationsAreTold(m: Memory, op: Op)
    ensures ApplyOp(m, op).Err? <==>
      op.field.IsList() && op.kind == Remove && op.itemId.Some? && op.itemId.value != ""
      && exists v :: v in m.List(op.field) && !v.JStr?
    ensures ApplyOp(m, op).Ok? ==> OpTold(m, op, ApplyOp(m, op).value)
  {
    if op.field.IsList() {
      var items := m.List(op.field);
      if op.kind == Remove && op.itemId.Some? {
        WithoutPrefixRemoves(items, op.itemId.value + ":");
      }
      if !AllText(items) {
        var i :| 0 <= i < |items| && !items[i].JStr?;
        assert items[i] in items;
      }
    }
  }

  /** The memories that the operations of a delta lead through, up to the end or to the one that raises. */
  ghost predicate Steps(m: Memory, ops: seq<Op>, states: seq<Memory>) {
    && 0 < |states| <= |ops| + 1 && states[0] == m
    && forall i :: 0 <= i < |states| - 1 ==>
         ApplyOp(states[i], ops[i]).Ok? && OpTold(states[i], ops[i], states[i + 1])
  }

  lemma {:induction false} OperationsInOrder(m: Memory, ops: seq<Op>) returns (states: seq<Memory>)
    ensures Steps(m, ops, states) && states[|states| - 1] == ApplyOps(m, ops).0
    ensures ApplyOps(m, ops).1 <==> |states| <= |ops|
    ensures ApplyOps(m, ops).1 ==> ApplyOp(states[|states| - 1], ops[|states| - 1]).Err?
    decreases |ops|
  {
    hide OpTold;
    if |ops| == 0 {
      states := [m];
    } else {
      OperationsAreTold(m, ops[0]);
      match ApplyOp(m, ops[0]) {
        case Err(_) => states := [m];
        case Ok(next) =>
          var rest := OperationsInOrder(next, ops[1..]);
          states := [m] + rest;
      }
    }
  }

  /**
   The operations of a delta are applied one by one up to the first that raises. If none does, the memory is stamped:
   one version on, at turn 0, by the compressor, now; if one does, what it had come to is left without a stamp.
   */
  lemma {:induction false} DeltasAreTold(m: Memory, ops: seq<Op>, now: DateTime) returns (states: seq<Memory>)
    ensures Steps(m, ops, states)
    ensures var (m', raised) := CompressionEdit(m, ops, now);
      var last := states[|states| - 1];
      && (raised <==> |states| <= |ops|)
      && (raised ==> ApplyOp(last, ops[|states| - 1]).Err? && m' == last)
      && (!raised ==> SameBut(last, m', UnknownField("")) && m'.version == last.version + 1 && m'.atTurn == 0
                      && m'.updatedBy == "framework_compression" && m'.updatedAt == now)
  {
    states := OperationsInOrder(m, ops);
  }

  // ---- The tool.

  /** The tool's input as the tool wants it: a text that is set, an entry in the field's form, or an id to take out. */
  predicate Wanted(m: Memory, i: ToolInput)
    requires ValidInput(i)
  {
    if i.field.IsScalar() then i.kind == Set
    else if i.kind == Remove then
      i.itemId.Some? && (forall v :: v in m.List(i.field) ==> v.JStr?)
      && exists v :: v in m.List(i.field) && Begins(v, i.itemId.value + ": ")
    else i.value.Some? && EntryForm(i.value.value, FieldLetter(i.field))
  }

  ghost predicate TakenOut(before: seq<Json>, after: seq<Json>, itemId: Option<string>) {
    itemId.Some? && RemovedBy(before, after, itemId.value + ": ")
  }

  predicate Entered(before: seq<Json>, after: seq<Json>, value: Option<string>) {
    value.Some? && after == before + [JStr(value.value)]
  }

  ghost predicate ListTold(before: seq<Json>, after: seq<Json>, i: ToolInput) {
    if i.kind == Set then Entered([], after, i.value)
    else if i.kind == Append then Entered(before, after, i.value)
    else TakenOut(before, after, i.itemId)
  }

  /** What an accepted input has done. */
  ghost predicate InputTold(m: Memory, i: ToolInput, now: DateTime, m': Memory)
    requires ValidInput(i)
  {
    && SameBut(m, m', i.field) && m'.version == m.version && m'.atTurn == m.atTurn
    && m'.updatedBy == "llm_tool" && m'.updatedAt == now
    && (i.field == Progress ==> m'.progress == JStr(if i.value.Some? then i.value.value else ""))
    && (i.field == CriticalContext ==> m'.criticalContext == JStr(if i.value.Some? then i.value.value else ""))
    && (i.field.IsList() ==> ListTold(m.List(i.field), m'.List(i.field), i))
  }

  lemma {:induction false} NothingTakenOut(items: seq<Json>, prefix: string)
    ensures |WithoutPrefix(items, prefix)| <= |items|
    ensures |WithoutPrefix(items, prefix)| == |items| <==> forall k :: 0 <= k < |items| ==> !Begins(items[k], prefix)
  {
    if |items| > 0 {
      NothingTakenOut(items[..|items| - 1], prefix);
    }
  }

  /** The items that a removal looks for. */
  lemma RemovalWanted(items: seq<Json>, prefix: string)
    ensures AllText(items) <==> forall v :: v in items ==> v.JStr?
    ensures |WithoutPrefix(items, prefix)| != |items| <==> exists v :: v in items && Begins(v, prefix)
    ensures RemovedBy(items, WithoutPrefix(items, prefix), prefix)
  {
    hide Begins, WithoutPrefix;
    WithoutPrefixRemoves(items, prefix);
    NothingTakenOut(items, prefix);
    if !AllText(items) {
      var k :| 0 <= k < |items| && !items[k].JStr?;
      assert items[k] in items;
    }
    if k :| 0 <= k < |items| && Begins(items[k], prefix) {
      assert items[k] in items;
    }
  }

  lemma RemovalTold(m: Memory, i: ToolInput, now: DateTime)
    requires ValidInput(i) && i.field.IsList() && i.kind == Remove
    ensures ToolEdit(m, i, now).Some? <==> Wanted(m, i)
    ensures ToolEdit(m, i, now).Some? ==> InputTold(m, i, now, ToolEdit(m, i, now).value)
  {
    hide EntryForm, WithoutPrefix, RemovedBy, AllText, Begins;
    if i.itemId.Some? {
      RemovalWanted(m.List(i.field), i.itemId.value + ": ");
    }
  }

  lemma SettingTold(m: Memory, i: ToolInput, now: DateTime)
    requires ValidInput(i) && (i.field.IsScalar() || i.kind != Remove)
    ensures ToolEdit(m, i, now).Some? <==> Wanted(m, i)
    ensures ToolEdit(m, i, now).Some? ==> InputTold(m, i, now, ToolEdit(m, i, now).value)
  {
    hide EntryForm, WithoutPrefix, RemovedBy, AllText, Begins;
  }

  /** The tool changes the memory when its input is as wanted and only then: the field and the author's stamp. */
  lemma {:induction false} InputsAreTold(m: Memory, i: ToolInput, now: DateTime)
    requires ValidInput(i)
    ensures ToolEdit(m, i, now).Some? <==> Wanted(m, i)
    ensures ToolEdit(m, i, now).Some? ==> InputTold(m, i, now, ToolEdit(m, i, now).value)
  {
    hide ToolEdit, Wanted, InputTold;
    if i.field.IsScalar() || i.kind != Remove {
      SettingTold(m, i, now);
    } else {
      RemovalTold(m, i, now);
    }
  }

  /** Tool calls take effect one after the other; one whose input is not as wanted has none. */
  lemma {:induction false} InputsInOrder(m: Memory, inputs: seq<ToolInput>, now: DateTime) returns (states: seq<Memory>)
    requires forall i :: 0 <= i < |inputs| ==> ValidInput(inputs[i])
    ensures |states| == |inputs| + 1 && states[0] == m && states[|inputs|] == EditMemory(m, inputs, now)
    ensures forall i :: 0 <= i < |inputs| ==>
      if Wanted(states[i], inputs[i]) then InputTold(states[i], inputs[i], now, states[i + 1])
      else states[i + 1] == states[i]
  {
    hide Wanted, InputTold, ToolEdit, ValidInput;
    if |inputs| == 0 {
      states := [m];
    } else {
      var front := inputs[..|inputs| - 1];
      states := InputsInOrder(m, front, now);
      InputsAreTold(states[|front|], inputs[|front|], now);
      states := states + [EditMemory(m, inputs, now)];
    }
  }

  /** The snapshot at the end of a turn: one version on, at the turn of its number, now; announced as it is. */
  lemma SnapshotIsTold(s: History.State, now: DateTime)
    ensures var s' := History.Snapshot(s, now);
      if s.memory.None? then s' == s
      else
        && s'.memory.Some? && SameBut(s.memory.value, s'.memory.value, UnknownField(""))
        && s'.memory.value.version == s'.memory.value.atTurn == s.memory.value.version + 1
        && s'.memory.value.updatedAt == now && s'.memory.value.updatedBy == s.memory.value.updatedBy
        && s'.trace == s.trace + [History.WorkingMemoryUpdated(s'.memory.value)]
  {
  }
}
