/**
 The compressor's output contract: _validate_and_build in
 neoagent/v2/strategies/oneshot_compression.py.
 */
module OneShot {
  import opened Prelude
  import opened Types
  import opened WorkingMemories
  import opened CompressedStore

  datatype RawMember = RawMember(id: string, role: string, preview: string, turn: Option<int>)

  /** The model's parsed answer, with the two keys every answer must have. */
  datatype RawDelta = RawDelta(members: seq<RawMember>, ops: seq<Op>)

  datatype Delta = Delta(members: seq<BatchMember>, ops: seq<Op>, summary: Json)

  const VALID_ROLES: set<string> := {"user", "assistant", "tool"}

  /** The turn of the last shown message with this id. */
  function TurnOf(shown: seq<Message>, id: string): Option<int> {
    if |shown| == 0 then None
    else if id != "" && shown[|shown| - 1].id == Some(id) then shown[|shown| - 1].turn
    else TurnOf(shown[..|shown| - 1], id)
  }

  /** Rules 1 and 2. */
  predicate ValidMember(item: RawMember, shown: seq<Message>) {
    (Ids(shown) == {} || item.id in Ids(shown)) && item.role in VALID_ROLES
  }

  function Member(item: RawMember, shown: seq<Message>): BatchMember {
    BatchMember(item.id, item.role, item.preview, if item.turn.Some? then item.turn else TurnOf(shown, item.id))
  }

  /** Rules 3, 4 and 5. */
  predicate ValidOp(op: Op) {
    if op.field.IsScalar() then op.kind == Set
    else if op.field.IsList() then
      match op.kind
      case Set => Entry(op.value)
      case Append => Entry(op.value)
      case Remove => op.itemId.Some? && op.itemId.value != ""
      case OtherOp(_) => false
    else false
  }

  /** Number of leading members that satisfy the contract. */
  function ValidPrefix(items: seq<RawMember>, shown: seq<Message>): (n: nat)
    ensures n <= |items|
    ensures forall i :: 0 <= i < n ==> ValidMember(items[i], shown)
    ensures n < |items| ==> !ValidMember(items[n], shown)
  {
    if |items| == 0 || !ValidMember(items[0], shown) then 0 else 1 + ValidPrefix(items[1..], shown)
  }

  /** The delta the contract leaves: members up to the first bad one, operations all or none. */
  function Validated(raw: RawDelta, shown: seq<Message>): Delta {
    var n := ValidPrefix(raw.members, shown);
    Delta(
      Map(raw.members[..n], (item: RawMember) => Member(item, shown)),
      if n == |raw.members| && (forall i :: 0 <= i < |raw.ops| ==> ValidOp(raw.ops[i])) then raw.ops else [],
      JNull)
  }

  lemma {:induction false} ValidPrefixIs(items: seq<RawMember>, shown: seq<Message>, n: nat)
    requires n <= |items| && forall i :: 0 <= i < n ==> ValidMember(items[i], shown)
    requires n < |items| ==> !ValidMember(items[n], shown)
    ensures ValidPrefix(items, shown) == n
  {
    if n > 0 {
      ValidPrefixIs(items[1..], shown, n - 1);
    }
  }

  /**
   The members that survive are a prefix of the raw ones, all valid, and the next raw one, if any, is not; the
   operations survive all together, exactly when nothing at all breaks the contract, and otherwise none does.
   */
  lemma {:induction false} DeltaIsWholeOrNothing(raw: RawDelta, shown: seq<Message>)
    ensures var d := Validated(raw, shown);
      && |d.members| <= |raw.members|
      && (forall i :: 0 <= i < |d.members| ==>
            ValidMember(raw.members[i], shown) && d.members[i] == Member(raw.members[i], shown))
      && (|d.members| < |raw.members| ==> !ValidMember(raw.members[|d.members|], shown))
      && (d.ops == raw.ops || d.ops == [])
      && (raw.ops != [] ==>
            (d.ops == raw.ops <==> (forall item :: item in raw.members ==> ValidMember(item, shown))
                                   && forall op :: op in raw.ops ==> ValidOp(op)))
  {
    var n := ValidPrefix(raw.members, shown);
    if n < |raw.members| {
      assert raw.members[n] in raw.members;
    }
    if exists i :: 0 <= i < |raw.ops| && !ValidOp(raw.ops[i]) {
      var i :| 0 <= i < |raw.ops| && !ValidOp(raw.ops[i]);
      assert raw.ops[i] in raw.ops;
    }
  }

  /** The ids of the shown messages and the turn each is looked up with. */
  method IndexShown(shown: seq<Message>) returns (existingIds: set<string>, idToTurn: map<string, Option<int>>)
    ensures existingIds == Ids(shown) == idToTurn.Keys
    ensures forall id :: TurnOf(shown, id) == if id in idToTurn then idToTurn[id] else None
  {
    existingIds, idToTurn := {}, map[];
    for i := 0 to |shown|
      invariant existingIds == Ids(shown[..i]) == idToTurn.Keys
      invariant forall id :: TurnOf(shown[..i], id) == if id in idToTurn then idToTurn[id] else None
    {
      var m := shown[i];
      assert shown[..i + 1] == shown[..i] + [m];
      assert shown[..i + 1][..i] == shown[..i];
      if m.id.Some? && m.id.value != "" {
        existingIds := existingIds + {m.id.value};
        idToTurn := idToTurn[m.id.value := m.turn];
      }
    }
    assert shown[..|shown|] == shown;
  }

  method ValidateAndBuild(raw: RawDelta, shown: seq<Message>) returns (delta: Delta)
    ensures delta == Validated(raw, shown)
  {
    var existingIds, idToTurn := IndexShown(shown);
    hide TurnOf, Ids;
    var members: seq<BatchMember> := [];
    var violated := false;
    var n := 0;
    while n < |raw.members| && !violated
      invariant n <= |raw.members|
      invariant |members| == n && forall i :: 0 <= i < n ==> members[i] == Member(raw.members[i], shown)
      invariant forall i :: 0 <= i < n ==> ValidMember(raw.members[i], shown)
      invariant violated ==> n < |raw.members| && !ValidMember(raw.members[n], shown)
      decreases |raw.members| - n, !violated
    {
      var item := raw.members[n];
      if existingIds != {} && item.id !in existingIds {
        violated := true;
      } else if item.role !in VALID_ROLES {
        violated := true;
      } else {
        var turn := if item.turn.Some? then item.turn
                    else if item.id in idToTurn then idToTurn[item.id] else None;
        members := members + [BatchMember(item.id, item.role, item.preview, turn)];
        n := n + 1;
      }
    }
    ValidPrefixIs(raw.members, shown, n);
    assert members == Validated(raw, shown).members;
    if violated {
      return Delta(members, [], JNull);
    }

    var ops: seq<Op> := [];
    for i := 0 to |raw.ops|
      invariant ops == raw.ops[..i] && forall j :: 0 <= j < i ==> ValidOp(raw.ops[j])
    {
      var op := raw.ops[i];
      var bad := false;
      if op.field.IsScalar() {
        bad := op.kind != Set;
      } else if op.field.IsList() {
        if op.kind.OtherOp? {
          bad := true;
        } else if op.kind == Set || op.kind == Append {
          bad := !Entry(op.value);
        } else {
          bad := op.itemId.None? || op.itemId.value == "";
        }
      } else {
        bad := true;
      }
      if bad {
        assert !ValidOp(raw.ops[i]);
        return Delta(members, [], JNull);
      }
      ops := ops + [op];
    }
    delta := Delta(members, ops, JNull);
  }

  // ---- What a validated delta does to the working memory.

  lemma {:induction false} FilterEntries(items: seq<Json>, p: Json -> bool)
    requires Entries(items)
    ensures Entries(Filter(items, p))
  {
    if |items| > 0 {
      FilterEntries(items[..|items| - 1], p);
    }
  }

  lemma ValidOpKeepsForm(m: Memory, op: Op)
    requires WellFormed(m) && ValidOp(op)
    ensures ApplyOp(m, op).Ok? && WellFormed(ApplyOp(m, op).value)
  {
    if op.field.IsList() {
      assert Entries(m.List(op.field));
      if op.kind == Remove {
        FilterEntries(m.List(op.field), (v: Json) => !(v.JStr? && StartsWith(v.s, op.itemId.value + ":")));
      }
    }
  }

  lemma {:induction false} ValidOpsKeepForm(m: Memory, ops: seq<Op>)
    requires WellFormed(m) && forall i :: 0 <= i < |ops| ==> ValidOp(ops[i])
    ensures !ApplyOps(m, ops).1 && WellFormed(ApplyOps(m, ops).0)
    decreases |ops|
  {
    if |ops| > 0 {
      ValidOpKeepsForm(m, ops[0]);
      ValidOpsKeepForm(ApplyOp(m, ops[0]).value, ops[1..]);
    }
  }

  lemma ToolKeepsForm(m: Memory, input: ToolInput, now: DateTime)
    requires WellFormed(m) && ValidInput(input) && ToolEdit(m, input, now).Some?
    ensures WellFormed(ToolEdit(m, input, now).value)
  {
    if input.field.IsList() {
      assert Entries(m.List(input.field));
      if input.kind == Remove {
        FilterEntries(m.List(input.field), (v: Json) => !(v.JStr? && StartsWith(v.s, input.itemId.value + ": ")));
      }
    }
  }

  /** Either editor at work: a tool call, or a delta built from any answer of the model. */
  datatype Edit = ByTool(input: ToolInput, now: DateTime) | ByDelta(raw: RawDelta, shown: seq<Message>)

  function Apply(m: Memory, e: Edit): Memory
    requires e.ByTool? ==> ValidInput(e.input)
  {
    match e
    case ByTool(input, now) => if ToolEdit(m, input, now).Some? then ToolEdit(m, input, now).value else m
    case ByDelta(raw, shown) => ApplyOps(m, Validated(raw, shown).ops).0
  }

  function ApplyAll(m: Memory, es: seq<Edit>): Memory
    requires forall e :: e in es && e.ByTool? ==> ValidInput(e.input)
  {
    if |es| == 0 then m else Apply(ApplyAll(m, es[..|es| - 1]), es[|es| - 1])
  }

  /** Under any interleaving of the two editors every list entry keeps its form, and no delta raises half-way. */
  lemma {:induction false} EditsKeepForm(m: Memory, es: seq<Edit>)
    requires WellFormed(m) && forall e :: e in es && e.ByTool? ==> ValidInput(e.input)
    ensures WellFormed(ApplyAll(m, es))
    ensures forall raw, shown :: !ApplyOps(ApplyAll(m, es), Validated(raw, shown).ops).1
  {
    if |es| > 0 {
      var e := es[|es| - 1];
      var before := ApplyAll(m, es[..|es| - 1]);
      EditsKeepForm(m, es[..|es| - 1]);
      match e {
        case ByTool(input, now) =>
          if ToolEdit(before, input, now).Some? {
            ToolKeepsForm(before, input, now);
          }
        case ByDelta(raw, shown) =>
          ValidOpsKeepForm(before, Validated(raw, shown).ops);
      }
    }
    forall raw, shown ensures !ApplyOps(ApplyAll(m, es), Validated(raw, shown).ops).1 {
      ValidOpsKeepForm(ApplyAll(m, es), Validated(raw, shown).ops);
    }
  }
}
