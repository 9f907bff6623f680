/** Streamed and whole responses of the OpenAI provider: neoagent/providers/openai.py. */
module OpenAIStream {
  import opened Prelude
  import opened Types

  datatype StopReason = EndTurn | ToolUseStop | MaxTokens

  datatype Response = Response(content: seq<Block>, stopReason: StopReason, inputTokens: int, outputTokens: int)

  /** One tool call of a whole response. */
  datatype ToolCall = ToolCall(id: string, name: string, arguments: string)

  datatype Usage = Usage(prompt: int, completion: int)

  /** A whole chat completion: its first choice and its usage. */
  datatype Completion = Completion(
    content: Option<string>, toolCalls: seq<ToolCall>, finishReason: Option<string>, usage: Option<Usage>)

  datatype ToolDelta = ToolDelta(index: int, id: Option<string>, name: Option<string>, arguments: Option<string>)

  datatype Choice = Choice(content: Option<string>, toolCalls: seq<ToolDelta>, finishReason: Option<string>)

  datatype Chunk = Chunk(usage: Option<Usage>, choice: Option<Choice>)

  /** json.loads; None stands for the exceptions the provider catches. */
  type Loads = string -> Option<Json>

  /** No JSON text is empty (section 2 of RFC 8259). */
  predicate RejectsEmpty(loads: Loads) { loads("").None? }

  /** A missing piece and an empty one are the same to the provider. */
  function Piece(p: Option<string>): string { if p.Some? then p.value else "" }

  function Stop(reason: string): StopReason {
    if reason == "stop" then EndTurn
    else if reason == "tool_calls" then ToolUseStop
    else if reason == "length" then MaxTokens
    else EndTurn
  }

  function Input(loads: Loads, arguments: string): Json {
    if loads(arguments).Some? then loads(arguments).value else JObj(map[])
  }

  function UseBlock(loads: Loads, c: ToolCall): Block { ToolUse(c.id, c.name, Input(loads, c.arguments)) }

  // ---- The whole response.

  function Parsed(loads: Loads, raw: Completion): Response {
    Response((if Piece(raw.content) != "" then [Text(raw.content.value)] else [])
             + Map(raw.toolCalls, (c: ToolCall) => UseBlock(loads, c)),
             if raw.finishReason.Some? then Stop(raw.finishReason.value) else EndTurn,
             if raw.usage.Some? then raw.usage.value.prompt else 0,
             if raw.usage.Some? then raw.usage.value.completion else 0)
  }

  method ParseResponse(loads: Loads, raw: Completion) returns (response: Response)
    ensures response == Parsed(loads, raw)
  {
    var content: seq<Block> := [];
    if raw.content.Some? && raw.content.value != "" {
      content := content + [Text(raw.content.value)];
    }
    ghost var text := content;
    for i := 0 to |raw.toolCalls|
      invariant content == text + Map(raw.toolCalls[..i], (c: ToolCall) => UseBlock(loads, c))
    {
      var call := raw.toolCalls[i];
      var input := loads(call.arguments);
      var data := if input.Some? then input.value else JObj(map[]);
      content := content + [ToolUse(call.id, call.name, data)];
      assert Map(raw.toolCalls[..i + 1], (c: ToolCall) => UseBlock(loads, c))
          == Map(raw.toolCalls[..i], (c: ToolCall) => UseBlock(loads, c)) + [UseBlock(loads, call)];
    }
    assert raw.toolCalls[..|raw.toolCalls|] == raw.toolCalls;
    var stop := if raw.finishReason.Some? then Stop(raw.finishReason.value) else EndTurn;
    response := Response(content, stop,
                         if raw.usage.Some? then raw.usage.value.prompt else 0,
                         if raw.usage.Some? then raw.usage.value.completion else 0);
  }

  lemma StopsAre(reason: Option<string>)
    ensures var stop := if reason.Some? then Stop(reason.value) else EndTurn;
      (stop == ToolUseStop <==> reason == Some("tool_calls")) && (stop == MaxTokens <==> reason == Some("length"))
  {
  }

  /** The block of a call: its id, its name and its arguments, parsed, or nothing when they do not parse. */
  predicate CallSays(loads: Loads, call: ToolCall, b: Block) {
    && b.ToolUse? && b.id == call.id && b.name == call.name
    && b.input == match loads(call.arguments)
                  case Some(parsed) => parsed
                  case None => JObj(map[])
  }

  /** The text of a completion, if there is any, and then its calls in order. */
  predicate ContentSays(loads: Loads, raw: Completion, content: seq<Block>) {
    var texts := if raw.content.Some? && raw.content.value != "" then [Text(raw.content.value)] else [];
    && |content| == |texts| + |raw.toolCalls| && content[..|texts|] == texts
    && forall i :: 0 <= i < |raw.toolCalls| ==> CallSays(loads, raw.toolCalls[i], content[|texts| + i])
  }

  lemma UseSays(loads: Loads, call: ToolCall)
    ensures CallSays(loads, call, UseBlock(loads, call))
  {
  }

  lemma ParsedContent(loads: Loads, raw: Completion)
    ensures ContentSays(loads, raw, Parsed(loads, raw).content)
  {
    hide CallSays, UseBlock, Stop, Map;
    var texts := if raw.content.Some? && raw.content.value != "" then [Text(raw.content.value)] else [];
    var calls := Map(raw.toolCalls, (c: ToolCall) => UseBlock(loads, c));
    assert Parsed(loads, raw).content == texts + calls;
    forall i | 0 <= i < |raw.toolCalls| ensures CallSays(loads, raw.toolCalls[i], (texts + calls)[|texts| + i]) {
      assert (texts + calls)[|texts| + i] == calls[i] == UseBlock(loads, raw.toolCalls[i]);
      UseSays(loads, raw.toolCalls[i]);
    }
  }

  /** What the parser says, read off the completion: its text, its calls in order, its stop reason and its usage. */
  lemma {:induction false} ParsedTells(loads: Loads, raw: Completion)
    ensures var r := Parsed(loads, raw);
      && ContentSays(loads, raw, r.content)
      && (r.stopReason == ToolUseStop <==> raw.finishReason == Some("tool_calls"))
      && (r.stopReason == MaxTokens <==> raw.finishReason == Some("length"))
      && (raw.usage.Some? ==> r.inputTokens == raw.usage.value.prompt && r.outputTokens == raw.usage.value.completion)
      && (raw.usage.None? ==> r.inputTokens == r.outputTokens == 0)
  {
    hide Stop, ContentSays;
    StopsAre(raw.finishReason);
    ParsedContent(loads, raw);
  }

  // ---- What the pieces of a stream add up to, each part of it by itself.

  function Deltas(chunks: seq<Chunk>): seq<ToolDelta> {
    if |chunks| == 0 then []
    else
      var c := chunks[|chunks| - 1];
      Deltas(chunks[..|chunks| - 1]) + (if c.choice.Some? then c.choice.value.toolCalls else [])
  }

  function TextOf(chunks: seq<Chunk>): string {
    if |chunks| == 0 then ""
    else
      var c := chunks[|chunks| - 1];
      TextOf(chunks[..|chunks| - 1]) + (if c.choice.Some? then Piece(c.choice.value.content) else "")
  }

  /** The last finish reason given. */
  function FinishOf(chunks: seq<Chunk>): Option<string> {
    if |chunks| == 0 then None
    else
      var c := chunks[|chunks| - 1];
      if c.choice.Some? && Piece(c.choice.value.finishReason) != "" then c.choice.value.finishReason
      else FinishOf(chunks[..|chunks| - 1])
  }

  function UsageOf(chunks: seq<Chunk>): Option<Usage> {
    if |chunks| == 0 then None
    else if chunks[|chunks| - 1].usage.Some? then chunks[|chunks| - 1].usage
    else UsageOf(chunks[..|chunks| - 1])
  }

  /** The indexes in the order they are first seen. */
  function Indexes(deltas: seq<ToolDelta>): seq<int> {
    if |deltas| == 0 then []
    else
      var before := Indexes(deltas[..|deltas| - 1]);
      var i := deltas[|deltas| - 1].index;
      if i in before then before else before + [i]
  }

  /** The pieces for one index put together: the last id, and the names and arguments end to end. */
  function CallAt(deltas: seq<ToolDelta>, index: int): ToolCall {
    if |deltas| == 0 then ToolCall("", "", "")
    else
      var before := CallAt(deltas[..|deltas| - 1], index);
      var d := deltas[|deltas| - 1];
      if d.index != index then before
      else ToolCall(if Piece(d.id) != "" then d.id.value else before.id,
                    before.name + Piece(d.name), before.arguments + Piece(d.arguments))
  }

  /**
   * The chunks are a way of cutting the response up: its text, its finish reason and its usage come in pieces, and
   * the j-th tool call comes in the pieces with index j.
   */
  predicate Cuts(chunks: seq<Chunk>, raw: Completion) {
    && TextOf(chunks) == Piece(raw.content)
    && FinishOf(chunks) == (if Piece(raw.finishReason) != "" then raw.finishReason else None)
    && UsageOf(chunks) == raw.usage
    && (forall i :: i in Indexes(Deltas(chunks)) ==> 0 <= i < |raw.toolCalls|)
    && (forall j :: 0 <= j < |raw.toolCalls| ==>
          j in Indexes(Deltas(chunks)) && CallAt(Deltas(chunks), j) == raw.toolCalls[j])
  }

  function UpTo(n: nat): seq<int> { seq(n, i => i) }

  // ---- The accumulator.

  /** A dict of entries, its keys in insertion order. */
  datatype Entries = Entries(keys: seq<int>, at: map<int, ToolCall>)

  ghost predicate Accumulates(e: Entries, deltas: seq<ToolDelta>) {
    && e.keys == Indexes(deltas)
    && (forall k :: 0 <= k < |e.keys| ==> e.keys[k] in e.at)
    && (forall i :: i in e.at ==> i in e.keys)
    && (forall i :: i in e.at ==> e.at[i] == CallAt(deltas, i))
  }

  lemma {:induction false} UnseenIsEmpty(deltas: seq<ToolDelta>, index: int)
    requires index !in Indexes(deltas)
    ensures CallAt(deltas, index) == ToolCall("", "", "")
  {
    if |deltas| > 0 {
      UnseenIsEmpty(deltas[..|deltas| - 1], index);
    }
  }

  lemma DeltaAdded(deltas: seq<ToolDelta>, d: ToolDelta)
    ensures Indexes(deltas + [d]) == if d.index in Indexes(deltas) then Indexes(deltas) else Indexes(deltas) + [d.index]
    ensures forall i :: i != d.index ==> CallAt(deltas + [d], i) == CallAt(deltas, i)
    ensures CallAt(deltas + [d], d.index)
         == ToolCall(if Piece(d.id) != "" then d.id.value else CallAt(deltas, d.index).id,
                     CallAt(deltas, d.index).name + Piece(d.name),
                     CallAt(deltas, d.index).arguments + Piece(d.arguments))
  {
    assert (deltas + [d])[..|deltas|] == deltas;
  }

  method Accumulate(start: Entries, d: ToolDelta, ghost deltas: seq<ToolDelta>) returns (e: Entries)
    requires Accumulates(start, deltas)
    ensures Accumulates(e, deltas + [d])
  {
    hide CallAt, Indexes;
    DeltaAdded(deltas, d);
    e := start;
    if d.index !in e.at {
      UnseenIsEmpty(deltas, d.index);
      e := Entries(e.keys + [d.index], e.at[d.index := ToolCall("", "", "")]);
    }
    var entry := e.at[d.index];
    if d.id.Some? && d.id.value != "" {
      entry := entry.(id := d.id.value);
    }
    if d.name.Some? && d.name.value != "" {
      entry := entry.(name := entry.name + d.name.value);
    }
    if d.arguments.Some? && d.arguments.value != "" {
      entry := entry.(arguments := entry.arguments + d.arguments.value);
    }
    e := e.(at := e.at[d.index := entry]);
  }

  /** The blocks of the calls with the given indexes. */
  function Uses(loads: Loads, deltas: seq<ToolDelta>, indexes: seq<int>): seq<Block> {
    if |indexes| == 0 then []
    else Uses(loads, deltas, indexes[..|indexes| - 1]) + [UseBlock(loads, CallAt(deltas, indexes[|indexes| - 1]))]
  }

  lemma {:induction false} UsesAre(loads: Loads, deltas: seq<ToolDelta>, indexes: seq<int>)
    ensures |Uses(loads, deltas, indexes)| == |indexes|
    ensures forall k :: 0 <= k < |indexes| ==>
              Uses(loads, deltas, indexes)[k] == UseBlock(loads, CallAt(deltas, indexes[k]))
  {
    hide CallAt, UseBlock;
    if |indexes| > 0 {
      UsesAre(loads, deltas, indexes[..|indexes| - 1]);
    }
  }

  /** What the streaming path builds from the pieces: the calls in the order their indexes were first seen. */
  function Streamed(loads: Loads, chunks: seq<Chunk>): Response {
    var deltas := Deltas(chunks);
    var finish := FinishOf(chunks);
    var usage := UsageOf(chunks);
    Response((if TextOf(chunks) != "" then [Text(TextOf(chunks))] else [])
             + Uses(loads, deltas, Indexes(deltas)),
             if finish.Some? then Stop(finish.value) else Stop("stop"),
             if usage.Some? then usage.value.prompt else 0,
             if usage.Some? then usage.value.completion else 0)
  }

  /** The chunk's tool deltas, one by one. */
  method AccumulateAll(start: Entries, more: seq<ToolDelta>, ghost deltas: seq<ToolDelta>) returns (e: Entries)
    requires Accumulates(start, deltas)
    ensures Accumulates(e, deltas + more)
  {
    e := start;
    assert deltas + more[..0] == deltas;
    for k := 0 to |more|
      invariant Accumulates(e, deltas + more[..k])
    {
      e := Accumulate(e, more[k], deltas + more[..k]);
      assert deltas + more[..k + 1] == deltas + more[..k] + [more[k]];
    }
    assert more[..|more|] == more;
  }

  lemma NoChunks()
    ensures Deltas([]) == [] && TextOf([]) == "" && FinishOf([]).None? && UsageOf([]).None? && Indexes([]) == []
  {
  }

  /** What one more chunk adds to each part. */
  lemma ChunkNext(chunks: seq<Chunk>, n: nat)
    requires n < |chunks|
    ensures var c, front := chunks[n], chunks[..n];
            && Deltas(chunks[..n + 1]) == Deltas(front) + (if c.choice.Some? then c.choice.value.toolCalls else [])
            && TextOf(chunks[..n + 1]) == TextOf(front) + (if c.choice.Some? then Piece(c.choice.value.content) else "")
            && FinishOf(chunks[..n + 1]) == (if c.choice.Some? && Piece(c.choice.value.finishReason) != ""
                                             then c.choice.value.finishReason else FinishOf(front))
            && UsageOf(chunks[..n + 1]) == if c.usage.Some? then c.usage else UsageOf(front)
  {
    assert chunks[..n + 1][..n] == chunks[..n];
  }

  lemma InputOf(loads: Loads, arguments: string)
    requires RejectsEmpty(loads)
    ensures var parsed := if arguments != "" then loads(arguments) else None;
            Input(loads, arguments) == if parsed.Some? then parsed.value else JObj(map[])
  {
  }

  lemma UsesNext(loads: Loads, deltas: seq<ToolDelta>, indexes: seq<int>, k: nat)
    requires k < |indexes|
    ensures Uses(loads, deltas, indexes[..k + 1])
         == Uses(loads, deltas, indexes[..k]) + [UseBlock(loads, CallAt(deltas, indexes[k]))]
  {
    hide CallAt, UseBlock;
    assert indexes[..k + 1][..k] == indexes[..k];
  }

  lemma NoUses(loads: Loads, deltas: seq<ToolDelta>)
    ensures Uses(loads, deltas, []) == []
  {
  }

  method BuildContent(loads: Loads, text: string, entries: Entries, ghost deltas: seq<ToolDelta>)
    returns (content: seq<Block>)
    requires RejectsEmpty(loads) && Accumulates(entries, deltas)
    ensures content == (if text != "" then [Text(text)] else []) + Uses(loads, deltas, Indexes(deltas))
  {
    hide CallAt, Indexes, Input, Uses;
    content := if text != "" then [Text(text)] else [];
    ghost var first := content;
    NoUses(loads, deltas);
    assert entries.keys[..0] == [];
    for k := 0 to |entries.keys|
      invariant content == first + Uses(loads, deltas, entries.keys[..k])
    {
      var entry := entries.at[entries.keys[k]];
      var parsed := if entry.arguments != "" then loads(entry.arguments) else None;
      var data := if parsed.Some? then parsed.value else JObj(map[]);
      InputOf(loads, entry.arguments);
      content := content + [ToolUse(entry.id, entry.name, data)];
      UsesNext(loads, deltas, entries.keys, k);
    }
    assert entries.keys[..|entries.keys|] == entries.keys;
  }

  /** The streaming path of create(); `shown` is what the text callback is given, piece by piece. */
  method CreateStreaming(loads: Loads, chunks: seq<Chunk>) returns (response: Response, shown: string)
    requires RejectsEmpty(loads)
    ensures response == Streamed(loads, chunks)
    ensures shown == TextOf(chunks)
  {
    NoChunks();
    hide Deltas, TextOf, FinishOf, UsageOf, Indexes, CallAt;
    var text, entries := "", Entries([], map[]);
    var finish := "stop";
    var prompt, completion := 0, 0;
    shown := "";
    for n := 0 to |chunks|
      invariant text == shown == TextOf(chunks[..n])
      invariant Accumulates(entries, Deltas(chunks[..n]))
      invariant finish == if FinishOf(chunks[..n]).Some? then FinishOf(chunks[..n]).value else "stop"
      invariant prompt == if UsageOf(chunks[..n]).Some? then UsageOf(chunks[..n]).value.prompt else 0
      invariant completion == if UsageOf(chunks[..n]).Some? then UsageOf(chunks[..n]).value.completion else 0
    {
      var chunk := chunks[n];
      ChunkNext(chunks, n);
      if chunk.usage.Some? {
        prompt, completion := chunk.usage.value.prompt, chunk.usage.value.completion;
      }
      if chunk.choice.None? {
        assert Deltas(chunks[..n]) + [] == Deltas(chunks[..n]);
        continue;
      }
      var choice := chunk.choice.value;
      if choice.content.Some? && choice.content.value != "" {
        text := text + choice.content.value;
        shown := shown + choice.content.value;
      }
      entries := AccumulateAll(entries, choice.toolCalls, Deltas(chunks[..n]));
      if choice.finishReason.Some? && choice.finishReason.value != "" {
        finish := choice.finishReason.value;
      }
    }
    assert chunks[..|chunks|] == chunks;
    var content := BuildContent(loads, text, entries, Deltas(chunks));
    response := Response(content, Stop(finish), prompt, completion);
  }

  // ---- Fragmentation does not matter.

  lemma {:induction false} IndexesDistinct(deltas: seq<ToolDelta>)
    ensures Distinct(Indexes(deltas))
  {
    if |deltas| > 0 {
      IndexesDistinct(deltas[..|deltas| - 1]);
    }
  }

  /** However a response is cut up, with its tool indexes first seen in ascending order, streaming rebuilds it. */
  lemma {:induction false} FragmentationDoesNotMatter(loads: Loads, chunks: seq<Chunk>, raw: Completion)
    requires Cuts(chunks, raw)
    requires Indexes(Deltas(chunks)) == UpTo(|raw.toolCalls|)
    ensures Streamed(loads, chunks) == Parsed(loads, raw)
  {
    hide CallAt, Indexes, Deltas, Input;
    var deltas := Deltas(chunks);
    UsesAre(loads, deltas, Indexes(deltas));
    assert Uses(loads, deltas, Indexes(deltas)) == Map(raw.toolCalls, (c: ToolCall) => UseBlock(loads, c));
  }

  /** Two ways of cutting up the same response come to the same, when both see the indexes in the same order. */
  lemma {:induction false} CutsAgree(loads: Loads, a: seq<Chunk>, b: seq<Chunk>, raw: Completion)
    requires Cuts(a, raw) && Cuts(b, raw)
    requires Indexes(Deltas(a)) == Indexes(Deltas(b))
    ensures Streamed(loads, a) == Streamed(loads, b)
  {
    hide CallAt, Indexes, Deltas, Input;
    var da, db := Deltas(a), Deltas(b);
    UsesAre(loads, da, Indexes(da));
    UsesAre(loads, db, Indexes(db));
    forall k | 0 <= k < |Indexes(da)| ensures CallAt(da, Indexes(da)[k]) == CallAt(db, Indexes(db)[k]) {
      assert Indexes(da)[k] in Indexes(da);
    }
    assert Uses(loads, da, Indexes(da)) == Uses(loads, db, Indexes(db));
  }

  lemma SameUses(text: string, a: seq<Block>, b: seq<Block>)
    requires (if text != "" then [Text(text)] else []) + a == (if text != "" then [Text(text)] else []) + b
    ensures a == b
  {
    var first := if text != "" then [Text(text)] else [];
    assert a == (first + a)[|first|..] && b == (first + b)[|first|..];
  }

  /**
   * When the calls have different ids, streaming rebuilds the response exactly when the indexes are first seen in
   * ascending order.
   */
  lemma {:induction false} StreamedExactlyWhen(loads: Loads, chunks: seq<Chunk>, raw: Completion)
    requires Cuts(chunks, raw)
    requires forall i, j :: 0 <= i < j < |raw.toolCalls| ==> raw.toolCalls[i].id != raw.toolCalls[j].id
    ensures Streamed(loads, chunks) == Parsed(loads, raw) <==> Indexes(Deltas(chunks)) == UpTo(|raw.toolCalls|)
  {
    hide CallAt, Indexes, Deltas, Input;
    if Indexes(Deltas(chunks)) == UpTo(|raw.toolCalls|) {
      FragmentationDoesNotMatter(loads, chunks, raw);
    }
    if Streamed(loads, chunks) == Parsed(loads, raw) {
      var deltas := Deltas(chunks);
      var streamed := Uses(loads, deltas, Indexes(deltas));
      var parsed := Map(raw.toolCalls, (c: ToolCall) => UseBlock(loads, c));
      UsesAre(loads, deltas, Indexes(deltas));
      SameUses(Piece(raw.content), streamed, parsed);
      forall k | 0 <= k < |streamed| ensures Indexes(deltas)[k] == k {
        assert Indexes(deltas)[k] in Indexes(deltas);
        assert streamed[k] == parsed[k];
        assert raw.toolCalls[Indexes(deltas)[k]].id == raw.toolCalls[k].id;
      }
      assert Indexes(deltas) == UpTo(|raw.toolCalls|);
    }
  }

  function WholeDeltas(calls: seq<ToolCall>): seq<ToolDelta> {
    seq(|calls|, j requires 0 <= j < |calls| =>
      ToolDelta(j, Some(calls[j].id), Some(calls[j].name), Some(calls[j].arguments)))
  }

  /** The response in one piece. */
  function WholeChunk(raw: Completion): Chunk {
    Chunk(raw.usage, Some(Choice(raw.content, WholeDeltas(raw.toolCalls), raw.finishReason)))
  }

  lemma NoDeltas(calls: seq<ToolCall>)
    ensures |calls| == 0 ==> Indexes(WholeDeltas(calls)) == UpTo(0)
  {
  }

  lemma {:induction false} WholeDeltasAre(calls: seq<ToolCall>)
    ensures Indexes(WholeDeltas(calls)) == UpTo(|calls|)
    ensures forall j :: 0 <= j < |calls| ==> CallAt(WholeDeltas(calls), j) == calls[j]
  {
    NoDeltas(calls);
    hide CallAt, Indexes;
    if |calls| > 0 {
      var front, last := calls[..|calls| - 1], calls[|calls| - 1];
      WholeDeltasAre(front);
      var d := ToolDelta(|front|, Some(last.id), Some(last.name), Some(last.arguments));
      assert WholeDeltas(calls) == WholeDeltas(front) + [d];
      DeltaAdded(WholeDeltas(front), d);
      UnseenIsEmpty(WholeDeltas(front), |front|);
      assert UpTo(|calls|) == UpTo(|front|) + [|front|];
    }
  }

  lemma OneChunk(c: Chunk)
    requires c.choice.Some?
    ensures Deltas([c]) == c.choice.value.toolCalls && TextOf([c]) == Piece(c.choice.value.content)
    ensures UsageOf([c]) == c.usage
    ensures FinishOf([c]) == if Piece(c.choice.value.finishReason) != "" then c.choice.value.finishReason else None
  {
    assert [c][..0] == [];
    assert [] + c.choice.value.toolCalls == c.choice.value.toolCalls;
    assert "" + Piece(c.choice.value.content) == Piece(c.choice.value.content);
  }

  lemma UpToAre(n: nat)
    ensures forall i :: i in UpTo(n) <==> 0 <= i < n
  {
    forall i | 0 <= i < n ensures i in UpTo(n) {
      assert UpTo(n)[i] == i;
    }
  }

  /** Sending everything at once is one way of cutting, and its indexes ascend. */
  lemma WholeIsACut(raw: Completion)
    ensures Cuts([WholeChunk(raw)], raw)
    ensures Indexes(Deltas([WholeChunk(raw)])) == UpTo(|raw.toolCalls|)
  {
    WholeDeltasAre(raw.toolCalls);
    OneChunk(WholeChunk(raw));
    UpToAre(|raw.toolCalls|);
    hide CallAt, Indexes, Deltas, TextOf, FinishOf, UsageOf, WholeDeltas, Piece, UpTo;
  }
}
