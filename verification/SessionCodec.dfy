/** The session's JSON form: _session_to_dict and _session_from_dict in neoagent/session.py. */
module SessionCodec {
  import opened Prelude
  import opened Types
  import opened WorkingMemories

  /** Every field of a session and its state. */
  datatype Session = Session(
    id: string, createdAt: DateTime, updatedAt: DateTime,
    messages: seq<Message>, metadata: Json, state: SessionState)

  datatype SessionState = SessionState(
    counters: Counters, turning: Turning,
    promotedTools: set<string>, freed: map<string, FreedToolResult>, toolNames: map<string, string>,
    memory: Option<Memory>, compressed: seq<Message>, batches: seq<Batch>,
    recalledThisTurn: set<string>)

  /** The integer fields that every saved session has had. */
  datatype Counters = Counters(
    previousSummary: Option<string>, compressionFailures: int, memoryToolCalls: int,
    memoryTokenBaseline: int, totalInputTokens: int, totalOutputTokens: int)

  /** The counters added with version 2. */
  datatype Turning = Turning(
    msgCounter: int, batchCounter: int, decisionCounter: int,
    nudgeThreshold: int, nudgeCount: int, turnsSince: int, userTurn: int)

  // ---- JSON access.

  /** d[key]; None stands for KeyError. */
  function Get(j: Json, key: string): Option<Json> {
    if j.JObj? && key in j.fields then Some(j.fields[key]) else None
  }

  /** d.get(key, default) */
  function GetOr(j: Json, key: string, default: Json): Json {
    if j.JObj? && key in j.fields then j.fields[key] else default
  }

  function EncodeStr(s: string): Json { JStr(s) }

  function EncodeInt(i: int): Json { JInt(i) }

  function AsStr(j: Json): Option<string> { if j.JStr? then Some(j.s) else None }

  function AsInt(j: Json): Option<int> { if j.JInt? then Some(j.i) else None }

  function AsBool(j: Json): Option<bool> { if j.JBool? then Some(j.b) else None }

  function AsList(j: Json): Option<seq<Json>> { if j.JArr? then Some(j.items) else None }

  function AsTime(j: Json): Option<DateTime> { if j.JStr? then Some(DateTime(j.s)) else None }

  function GetStr(j: Json, key: string): Option<string> {
    var v :- Get(j, key);
    AsStr(v)
  }

  function GetInt(j: Json, key: string): Option<int> {
    var v :- Get(j, key);
    AsInt(v)
  }

  function GetTime(j: Json, key: string): Option<DateTime> {
    var v :- Get(j, key);
    AsTime(v)
  }

  /** A value or null. */
  function Nullable<T>(v: Option<T>, enc: T -> Json): Json {
    if v.None? then JNull else enc(v.value)
  }

  function FromNullable<T>(j: Json, dec: Json -> Option<T>): Option<Option<T>> {
    if j.JNull? then Some(None)
    else
      var v :- dec(j);
      Some(Some(v))
  }

  function EncodeAll<T>(xs: seq<T>, enc: T -> Json): Json { JArr(Map(xs, enc)) }

  function DecodeSeq<T>(js: seq<Json>, dec: Json -> Option<T>): Option<seq<T>> {
    if |js| == 0 then Some([])
    else
      var front :- DecodeSeq(js[..|js| - 1], dec);
      var last :- dec(js[|js| - 1]);
      Some(front + [last])
  }

  function DecodeAll<T>(j: Json, dec: Json -> Option<T>): Option<seq<T>> {
    var js :- AsList(j);
    DecodeSeq(js, dec)
  }

  function EncodeMap<T>(m: map<string, T>, enc: T -> Json): Json {
    JObj(map k | k in m :: enc(m[k]))
  }

  function DecodeMap<T>(j: Json, dec: Json -> Option<T>): Option<map<string, T>> {
    if j.JObj? && (forall k :: k in j.fields ==> dec(j.fields[k]).Some?)
    then Some(map k | k in j.fields :: dec(j.fields[k]).value)
    else None
  }

  // ---- Messages.

  function EncodeBlock(b: Block): Json {
    match b
    case Text(text) => JObj(map["type" := JStr("text"), "text" := JStr(text)])
    case ToolUse(id, name, input) =>
      JObj(map["type" := JStr("tool_use"), "id" := JStr(id), "name" := JStr(name), "input" := input])
    case ToolResult(id, content, isError) =>
      JObj(map["type" := JStr("tool_result"), "tool_use_id" := JStr(id), "content" := JStr(content),
               "is_error" := JBool(isError)])
  }

  /** A block of unknown type is dropped: the inner None. */
  function DecodeBlock(j: Json): Option<Option<Block>> {
    var t :- Get(j, "type");
    if t == JStr("text") then
      var text :- GetStr(j, "text");
      Some(Some(Text(text)))
    else if t == JStr("tool_use") then
      var id :- GetStr(j, "id");
      var name :- GetStr(j, "name");
      var input :- Get(j, "input");
      Some(Some(ToolUse(id, name, input)))
    else if t == JStr("tool_result") then
      var id :- GetStr(j, "tool_use_id");
      var content :- GetStr(j, "content");
      var isError :- AsBool(GetOr(j, "is_error", JBool(false)));
      Some(Some(ToolResult(id, content, isError)))
    else Some(None)
  }

  function DecodeBlocks(js: seq<Json>): Option<seq<Block>> {
    if |js| == 0 then Some([])
    else
      var front :- DecodeBlocks(js[..|js| - 1]);
      var last :- DecodeBlock(js[|js| - 1]);
      Some(if last.Some? then front + [last.value] else front)
  }

  function EncodeRole(r: Role): Json { JStr(if r == User then "user" else "assistant") }

  function DecodeRole(j: Json): Option<Role> {
    if j == JStr("user") then Some(User) else if j == JStr("assistant") then Some(Assistant) else None
  }

  function EncodeContent(c: Content): Json {
    match c
    case Str(s) => JStr(s)
    case Blocks(blocks) => EncodeAll(blocks, EncodeBlock)
  }

  function DecodeContent(j: Json): Option<Content> {
    if j.JStr? then Some(Content.Str(j.s))
    else
      var js :- AsList(j);
      var blocks :- DecodeBlocks(js);
      Some(Blocks(blocks))
  }

  /** id and turn are written only when they are set. */
  function EncodeMessage(m: Message): Json {
    var base := map["role" := EncodeRole(m.role), "content" := EncodeContent(m.content)];
    var withId := if m.id.Some? then base["id" := JStr(m.id.value)] else base;
    JObj(if m.turn.Some? then withId["turn" := JInt(m.turn.value)] else withId)
  }

  function DecodeMessage(j: Json): Option<Message> {
    var id :- FromNullable(GetOr(j, "id", JNull), AsStr);
    var turn :- FromNullable(GetOr(j, "turn", JNull), AsInt);
    var c :- Get(j, "content");
    var content :- DecodeContent(c);
    var r :- Get(j, "role");
    var role :- DecodeRole(r);
    Some(Message(id, turn, role, content))
  }

  // ---- Working memory, freed results, batches.

  function EncodeMemory(m: Memory): Json {
    JObj(map[
      "session_id" := JStr(m.sessionId), "version" := JInt(m.version), "at_turn" := JInt(m.atTurn),
      "constraints_and_preferences" := JArr(m.constraints), "progress" := m.progress,
      "key_decisions" := JArr(m.keyDecisions), "relevant_files" := JArr(m.relevantFiles),
      "next_steps" := JArr(m.nextSteps), "critical_context" := m.criticalContext,
      "updated_by" := JStr(m.updatedBy), "updated_at" := JStr(m.updatedAt.iso)])
  }

  function DecodeMemory(j: Json): Option<Memory> {
    var sessionId :- GetStr(j, "session_id");
    var version :- GetInt(j, "version");
    var atTurn :- GetInt(j, "at_turn");
    var constraints :- AsList(GetOr(j, "constraints_and_preferences", JArr([])));
    var keyDecisions :- AsList(GetOr(j, "key_decisions", JArr([])));
    var relevantFiles :- AsList(GetOr(j, "relevant_files", JArr([])));
    var nextSteps :- AsList(GetOr(j, "next_steps", JArr([])));
    var updatedBy :- GetStr(j, "updated_by");
    var updatedAt :- GetTime(j, "updated_at");
    Some(Memory(sessionId, version, atTurn, constraints, GetOr(j, "progress", JStr("")), keyDecisions, relevantFiles,
                nextSteps, GetOr(j, "critical_context", JStr("")), updatedBy, updatedAt))
  }

  function EncodeFreed(f: FreedToolResult): Json {
    JObj(map["id" := JStr(f.id), "tool_name" := JStr(f.toolName), "size" := JInt(f.size),
             "preview" := JStr(f.preview), "original_content" := JStr(f.originalContent)])
  }

  function DecodeFreed(j: Json): Option<FreedToolResult> {
    var id :- GetStr(j, "id");
    var toolName :- GetStr(j, "tool_name");
    var size :- GetInt(j, "size");
    var preview :- GetStr(j, "preview");
    var original :- GetStr(j, "original_content");
    if size < 0 then None else Some(FreedToolResult(id, toolName, size, preview, original))
  }

  function EncodeMember(m: BatchMember): Json {
    JObj(map["id" := JStr(m.id), "role" := JStr(m.role), "preview" := JStr(m.preview),
             "turn" := Nullable(m.turn, EncodeInt)])
  }

  function DecodeMember(j: Json): Option<BatchMember> {
    var id :- GetStr(j, "id");
    var role :- GetStr(j, "role");
    var preview :- GetStr(j, "preview");
    var turn :- FromNullable(GetOr(j, "turn", JNull), AsInt);
    Some(BatchMember(id, role, preview, turn))
  }

  function EncodeSpan(b: Batch): map<string, Json> {
    map["turns_from" := JInt(b.turnsFrom), "turns_to" := JInt(b.turnsTo),
        "time_from" := JStr(b.timeFrom.iso), "time_to" := JStr(b.timeTo.iso)]
  }

  function EncodeBatch(b: Batch): Json {
    JObj(map["session_id" := JStr(b.sessionId), "batch_id" := JStr(b.batchId), "summary" := b.summary,
             "members" := EncodeAll(b.members, EncodeMember), "trigger" := JStr(b.trigger),
             "created_at" := JStr(b.createdAt.iso)]
         + EncodeSpan(b))
  }

  datatype Span = Span(turnsFrom: int, turnsTo: int, timeFrom: DateTime, timeTo: DateTime)

  function DecodeSpan(j: Json): Option<Span> {
    var turnsFrom :- GetInt(j, "turns_from");
    var turnsTo :- GetInt(j, "turns_to");
    var timeFrom :- GetTime(j, "time_from");
    var timeTo :- GetTime(j, "time_to");
    Some(Span(turnsFrom, turnsTo, timeFrom, timeTo))
  }

  function DecodeBatch(j: Json): Option<Batch> {
    var members :- DecodeAll(GetOr(j, "members", JArr([])), DecodeMember);
    var sessionId :- GetStr(j, "session_id");
    var batchId :- GetStr(j, "batch_id");
    var span :- DecodeSpan(j);
    var summary :- Get(j, "summary");
    var trigger :- GetStr(j, "trigger");
    var createdAt :- GetTime(j, "created_at");
    Some(Batch(sessionId, batchId, span.turnsFrom, span.turnsTo, span.timeFrom, span.timeTo, summary, members, trigger,
               createdAt))
  }

  // ---- sorted() of a set of texts.

  predicate Before(a: string, b: string) {
    if |b| == 0 then false
    else if |a| == 0 then true
    else a[0] < b[0] || (a[0] == b[0] && Before(a[1..], b[1..]))
  }

  predicate Sorted(xs: seq<string>) { forall i, j :: 0 <= i < j < |xs| ==> Before(xs[i], xs[j]) }

  lemma {:induction false} BeforeTotal(a: string, b: string)
    ensures a == b || Before(a, b) || Before(b, a)
  {
    if |a| > 0 && |b| > 0 && a[0] == b[0] {
      BeforeTotal(a[1..], b[1..]);
      assert a == [a[0]] + a[1..] && b == [b[0]] + b[1..];
    }
  }

  lemma {:induction false} BeforeTransitive(a: string, b: string, c: string)
    requires Before(a, b) && Before(b, c)
    ensures Before(a, c)
  {
    if |a| > 0 && a[0] == b[0] == c[0] {
      BeforeTransitive(a[1..], b[1..], c[1..]);
    }
  }

  ghost predicate Least(x: string, s: set<string>) {
    x in s && forall y :: y in s && y != x ==> Before(x, y)
  }

  lemma {:induction false} LeastExists(s: set<string>) returns (x: string)
    requires s != {}
    ensures Least(x, s)
    decreases |s|
  {
    x :| x in s;
    if s != {x} {
      var z := LeastExists(s - {x});
      BeforeTotal(x, z);
      if Before(z, x) {
        x := z;
      } else {
        forall y | y in s && y != x ensures Before(x, y) {
          if y != z {
            BeforeTransitive(x, z, y);
          }
        }
      }
    }
  }

  ghost function SortedList(s: set<string>): seq<string>
    decreases |s|
  {
    if s == {} then []
    else
      assert exists x :: Least(x, s) by {
        var x := LeastExists(s);
      }
      var x :| Least(x, s);
      [x] + SortedList(s - {x})
  }

  /** sorted() lists the set's elements once each, in ascending order. */
  lemma {:induction false} SortedListSorts(s: set<string>)
    ensures Sorted(SortedList(s)) && |SortedList(s)| == |s|
    ensures forall x :: x in s <==> x in SortedList(s)
    decreases |s|
  {
    hide Before;
    if s != {} {
      var x := SortedList(s)[0];
      var rest := s - {x};
      assert SortedList(s) == [x] + SortedList(rest);
      SortedListSorts(rest);
      forall i | 0 <= i < |SortedList(rest)| ensures Before(x, SortedList(rest)[i]) {
        assert SortedList(rest)[i] in SortedList(rest);
      }
    }
  }

  function DecodeSet(j: Json): Option<set<string>> {
    var xs :- DecodeAll(j, AsStr);
    Some(set x | x in xs)
  }

  // ---- The session.

  function EncodeCounters(c: Counters): map<string, Json> {
    map["previous_summary" := Nullable(c.previousSummary, EncodeStr),
        "compression_failures" := JInt(c.compressionFailures),
        "memory_tool_calls" := JInt(c.memoryToolCalls),
        "memory_token_baseline" := JInt(c.memoryTokenBaseline),
        "total_input_tokens" := JInt(c.totalInputTokens),
        "total_output_tokens" := JInt(c.totalOutputTokens)]
  }

  function DecodeCounters(j: Json): Option<Counters> {
    var summary :- FromNullable(GetOr(j, "previous_summary", JNull), AsStr);
    var failures :- AsInt(GetOr(j, "compression_failures", JInt(0)));
    var toolCalls :- AsInt(GetOr(j, "memory_tool_calls", JInt(0)));
    var baseline :- AsInt(GetOr(j, "memory_token_baseline", JInt(0)));
    var input :- AsInt(GetOr(j, "total_input_tokens", JInt(0)));
    var output :- AsInt(GetOr(j, "total_output_tokens", JInt(0)));
    Some(Counters(summary, failures, toolCalls, baseline, input, output))
  }

  function EncodeIdGen(p: Turning): Json {
    JObj(map["_msg_counter" := JInt(p.msgCounter), "_batch_counter" := JInt(p.batchCounter),
             "_decision_counter" := JInt(p.decisionCounter)])
  }

  function EncodeNudge(p: Turning): Json {
    JObj(map["threshold" := JInt(p.nudgeThreshold), "_count" := JInt(p.nudgeCount)])
  }

  function EncodeTurning(p: Turning): map<string, Json> {
    map["id_gen" := EncodeIdGen(p),
        "nudge_counter" := EncodeNudge(p),
        "turns_since_last_compression" := JInt(p.turnsSince),
        "user_turn_counter" := JInt(p.userTurn)]
  }

  function DecodeIdGen(j: Json): Option<(int, int, int)> {
    if j.JNull? then Some((0, 0, 0))
    else
      var m :- GetInt(j, "_msg_counter");
      var b :- GetInt(j, "_batch_counter");
      var d :- GetInt(j, "_decision_counter");
      Some((m, b, d))
  }

  function DecodeNudge(j: Json): Option<(int, int)> {
    if j.JNull? then Some((10, 0))
    else
      var t :- GetInt(j, "threshold");
      var c :- GetInt(j, "_count");
      Some((t, c))
  }

  function DecodeTurning(j: Json): Option<Turning> {
    var gen :- DecodeIdGen(GetOr(j, "id_gen", JNull));
    var nudge :- DecodeNudge(GetOr(j, "nudge_counter", JNull));
    var turnsSince :- AsInt(GetOr(j, "turns_since_last_compression", JInt(0)));
    var userTurn :- AsInt(GetOr(j, "user_turn_counter", JInt(0)));
    Some(Turning(gen.0, gen.1, gen.2, nudge.0, nudge.1, turnsSince, userTurn))
  }

  ghost function EncodeCollections(s: SessionState): map<string, Json> {
    map["promoted_tools" := EncodeAll(SortedList(s.promotedTools), EncodeStr),
        "freed_tool_results" := EncodeMap(s.freed, EncodeFreed),
        "tool_use_to_tool_name" := EncodeMap(s.toolNames, EncodeStr),
        "_current_wm" := Nullable(s.memory, EncodeMemory),
        "compressed_messages" := EncodeAll(s.compressed, EncodeMessage),
        "batches" := EncodeAll(s.batches, EncodeBatch)]
  }

  /** The collections with empty `counters` and `turning`, to be filled in by DecodeState. */
  function DecodeCollections(j: Json, counters: Counters, turning: Turning): Option<SessionState> {
    var promoted :- DecodeSet(GetOr(j, "promoted_tools", JArr([])));
    var freed :- DecodeMap(GetOr(j, "freed_tool_results", JObj(map[])), DecodeFreed);
    var toolNames :- DecodeMap(GetOr(j, "tool_use_to_tool_name", JObj(map[])), AsStr);
    var memory :- FromNullable(GetOr(j, "_current_wm", JNull), DecodeMemory);
    var compressed :- DecodeAll(GetOr(j, "compressed_messages", JArr([])), DecodeMessage);
    var batches :- DecodeAll(GetOr(j, "batches", JArr([])), DecodeBatch);
    Some(SessionState(counters, turning, promoted, freed, toolNames, memory, compressed, batches, {}))
  }

  ghost function EncodeState(s: SessionState): Json {
    JObj(EncodeCounters(s.counters) + EncodeTurning(s.turning) + EncodeCollections(s))
  }

  function DecodeState(j: Json): Option<SessionState> {
    var counters :- DecodeCounters(j);
    var turning :- DecodeTurning(j);
    DecodeCollections(j, counters, turning)
  }

  ghost function EncodeSession(s: Session): Json {
    JObj(map["id" := JStr(s.id), "created_at" := JStr(s.createdAt.iso), "updated_at" := JStr(s.updatedAt.iso),
             "state" := EncodeState(s.state), "messages" := EncodeAll(s.messages, EncodeMessage),
             "metadata" := s.metadata])
  }

  function DecodeSession(j: Json): Option<Session> {
    var state :- DecodeState(GetOr(j, "state", JObj(map[])));
    var messages :- DecodeAll(GetOr(j, "messages", JArr([])), DecodeMessage);
    var id :- GetStr(j, "id");
    var createdAt :- GetTime(j, "created_at");
    var updatedAt :- GetTime(j, "updated_at");
    Some(Session(id, createdAt, updatedAt, messages, GetOr(j, "metadata", JObj(map[])), state))
  }

  // ---- Round trips.

  lemma {:induction false} AllRoundTrip<T(!new)>(xs: seq<T>, enc: T -> Json, dec: Json -> Option<T>)
    requires forall x :: x in xs ==> dec(enc(x)) == Some(x)
    ensures DecodeAll(EncodeAll(xs, enc), dec) == Some(xs)
  {
    if |xs| > 0 {
      var front := xs[..|xs| - 1];
      AllRoundTrip(front, enc, dec);
      assert Map(xs, enc)[..|xs| - 1] == Map(front, enc);
      assert xs == front + [xs[|xs| - 1]];
    }
  }

  lemma BlockRoundTrip(b: Block)
    ensures DecodeBlock(EncodeBlock(b)) == Some(Some(b))
  {
  }

  lemma {:induction false} BlocksRoundTrip(blocks: seq<Block>)
    ensures DecodeBlocks(Map(blocks, EncodeBlock)) == Some(blocks)
  {
    hide EncodeBlock, DecodeBlock;
    if |blocks| > 0 {
      var front := blocks[..|blocks| - 1];
      BlocksRoundTrip(front);
      BlockRoundTrip(blocks[|blocks| - 1]);
      assert Map(blocks, EncodeBlock)[..|blocks| - 1] == Map(front, EncodeBlock);
      assert blocks == front + [blocks[|blocks| - 1]];
    }
  }

  lemma MessageRoundTrip(m: Message)
    ensures DecodeMessage(EncodeMessage(m)) == Some(m)
  {
    if m.content.Blocks? {
      BlocksRoundTrip(m.content.blocks);
    }
  }

  lemma MessagesRoundTrip(ms: seq<Message>)
    ensures DecodeAll(EncodeAll(ms, EncodeMessage), DecodeMessage) == Some(ms)
  {
    forall m | m in ms ensures DecodeMessage(EncodeMessage(m)) == Some(m) {
      MessageRoundTrip(m);
    }
    AllRoundTrip(ms, EncodeMessage, DecodeMessage);
  }

  lemma {:induction false} MemoryRoundTrip(m: Memory)
    ensures DecodeMemory(EncodeMemory(m)) == Some(m)
  {
  }

  lemma FreedRoundTrip(f: FreedToolResult)
    ensures DecodeFreed(EncodeFreed(f)) == Some(f)
  {
  }

  lemma MemberRoundTrip(m: BatchMember)
    ensures DecodeMember(EncodeMember(m)) == Some(m)
  {
  }

  lemma SpanRoundTrip(b: Batch)
    ensures DecodeSpan(EncodeBatch(b)) == Some(Span(b.turnsFrom, b.turnsTo, b.timeFrom, b.timeTo))
  {
    var span := EncodeSpan(b);
    assert forall k :: k in span ==> EncodeBatch(b).fields[k] == span[k];
  }

  lemma BatchRoundTrip(b: Batch)
    ensures DecodeBatch(EncodeBatch(b)) == Some(b)
  {
    SpanRoundTrip(b);
    hide DecodeSpan, DecodeMember, EncodeMember, DecodeAll;
    assert DecodeAll(EncodeAll(b.members, EncodeMember), DecodeMember) == Some(b.members) by {
      forall m | m in b.members ensures DecodeMember(EncodeMember(m)) == Some(m) {
        MemberRoundTrip(m);
      }
      AllRoundTrip(b.members, EncodeMember, DecodeMember);
    }
  }

  lemma PromotedRoundTrip(s: set<string>)
    ensures DecodeSet(EncodeAll(SortedList(s), EncodeStr)) == Some(s)
  {
    var xs := SortedList(s);
    AllRoundTrip(xs, EncodeStr, AsStr);
    SortedListSorts(s);
    assert (set x | x in xs) == s;
  }

  /** The object carries every entry of `part`. */
  predicate Carries(j: Json, part: map<string, Json>) {
    j.JObj? && forall k :: k in part ==> k in j.fields && j.fields[k] == part[k]
  }

  lemma CountersRoundTrip(j: Json, c: Counters)
    requires Carries(j, EncodeCounters(c))
    ensures DecodeCounters(j) == Some(c)
  {
  }

  lemma IdGenRoundTrip(p: Turning)
    ensures DecodeIdGen(EncodeIdGen(p)) == Some((p.msgCounter, p.batchCounter, p.decisionCounter))
  {
  }

  lemma NudgeRoundTrip(p: Turning)
    ensures DecodeNudge(EncodeNudge(p)) == Some((p.nudgeThreshold, p.nudgeCount))
  {
  }

  lemma TurningRoundTrip(j: Json, p: Turning)
    requires Carries(j, EncodeTurning(p))
    ensures DecodeTurning(j) == Some(p)
  {
    IdGenRoundTrip(p);
    NudgeRoundTrip(p);
    hide EncodeIdGen, EncodeNudge, DecodeIdGen, DecodeNudge;
  }

  lemma MapRoundTrip<T(!new)>(m: map<string, T>, enc: T -> Json, dec: Json -> Option<T>)
    requires forall k :: k in m ==> dec(enc(m[k])) == Some(m[k])
    ensures DecodeMap(EncodeMap(m, enc), dec) == Some(m)
  {
    var j := EncodeMap(m, enc);
    assert forall k :: k in j.fields ==> dec(j.fields[k]) == Some(m[k]);
    assert DecodeMap(j, dec).value == m;
  }

  lemma CollectionsPresent(j: Json, s: SessionState)
    requires Carries(j, EncodeCollections(s))
    ensures GetOr(j, "promoted_tools", JArr([])) == EncodeAll(SortedList(s.promotedTools), EncodeStr)
    ensures GetOr(j, "freed_tool_results", JObj(map[])) == EncodeMap(s.freed, EncodeFreed)
    ensures GetOr(j, "tool_use_to_tool_name", JObj(map[])) == EncodeMap(s.toolNames, EncodeStr)
    ensures GetOr(j, "_current_wm", JNull) == Nullable(s.memory, EncodeMemory)
    ensures GetOr(j, "compressed_messages", JArr([])) == EncodeAll(s.compressed, EncodeMessage)
    ensures GetOr(j, "batches", JArr([])) == EncodeAll(s.batches, EncodeBatch)
  {
    hide EncodeAll, EncodeMap, Nullable, SortedList;
  }

  lemma MemoryFieldRoundTrip(m: Option<Memory>)
    ensures FromNullable(Nullable(m, EncodeMemory), DecodeMemory) == Some(m)
  {
    if m.Some? {
      MemoryRoundTrip(m.value);
    }
    hide DecodeMemory;
  }

  lemma FreedMapRoundTrip(freed: map<string, FreedToolResult>)
    ensures DecodeMap(EncodeMap(freed, EncodeFreed), DecodeFreed) == Some(freed)
  {
    forall k | k in freed ensures DecodeFreed(EncodeFreed(freed[k])) == Some(freed[k]) {
      FreedRoundTrip(freed[k]);
    }
    MapRoundTrip(freed, EncodeFreed, DecodeFreed);
  }

  lemma BatchesRoundTrip(batches: seq<Batch>)
    ensures DecodeAll(EncodeAll(batches, EncodeBatch), DecodeBatch) == Some(batches)
  {
    forall b | b in batches ensures DecodeBatch(EncodeBatch(b)) == Some(b) {
      BatchRoundTrip(b);
    }
    AllRoundTrip(batches, EncodeBatch, DecodeBatch);
  }

  lemma CollectionsRoundTrip(j: Json, s: SessionState)
    requires Carries(j, EncodeCollections(s))
    ensures DecodeCollections(j, s.counters, s.turning) == Some(s.(recalledThisTurn := {}))
  {
    CollectionsPresent(j, s);
    PromotedRoundTrip(s.promotedTools);
    FreedMapRoundTrip(s.freed);
    MapRoundTrip(s.toolNames, EncodeStr, AsStr);
    MemoryFieldRoundTrip(s.memory);
    MessagesRoundTrip(s.compressed);
    BatchesRoundTrip(s.batches);
    hide GetOr, FromNullable, Nullable, DecodeSet, DecodeMap, DecodeAll, EncodeAll, EncodeMap, EncodeCollections;
  }

  lemma CountersApartFromTurning(c: Counters, p: Turning)
    ensures EncodeCounters(c).Keys !! EncodeTurning(p).Keys
  {
  }

  lemma CountersApartFromCollections(c: Counters, s: SessionState)
    ensures EncodeCounters(c).Keys !! EncodeCollections(s).Keys
  {
    hide EncodeAll, EncodeMap, Nullable, SortedList;
    forall k | k in EncodeCollections(s) ensures k !in EncodeCounters(c) {
      if k == "promoted_tools" || k == "freed_tool_results" || k == "tool_use_to_tool_name" {
      } else {
        assert k == "_current_wm" || k == "compressed_messages" || k == "batches";
      }
    }
  }

  lemma TurningApartFromCollections(p: Turning, s: SessionState)
    ensures EncodeTurning(p).Keys !! EncodeCollections(s).Keys
  {
  }

  lemma {:induction false} StateRoundTrip(s: SessionState)
    ensures DecodeState(EncodeState(s)) == Some(s.(recalledThisTurn := {}))
  {
    var j := EncodeState(s);
    CountersApartFromTurning(s.counters, s.turning);
    CountersApartFromCollections(s.counters, s);
    TurningApartFromCollections(s.turning, s);
    hide EncodeCounters, EncodeTurning, EncodeCollections, DecodeCounters, DecodeTurning, DecodeCollections;
    CountersRoundTrip(j, s.counters);
    TurningRoundTrip(j, s.turning);
    CollectionsRoundTrip(j, s);
  }

  /** Loading a saved session gives back the whole session, with only the ids recalled this turn forgotten. */
  lemma {:induction false} SessionRoundTrip(s: Session)
    ensures DecodeSession(EncodeSession(s)) == Some(s.(state := s.state.(recalledThisTurn := {})))
  {
    StateRoundTrip(s.state);
    MessagesRoundTrip(s.messages);
    hide EncodeState, DecodeState, EncodeAll, DecodeAll;
  }

  /** Hence what is saved after a load is what was saved before it. */
  lemma SavedAgain(s: Session)
    ensures DecodeSession(EncodeSession(s)).Some?
    ensures EncodeSession(DecodeSession(EncodeSession(s)).value) == EncodeSession(s)
  {
    SessionRoundTrip(s);
  }
}
