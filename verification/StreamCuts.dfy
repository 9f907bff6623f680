/** The ways a streamed response can be cut up, step by step from the response in one piece. */
module StreamCuts {
  import opened Prelude
  import opened OpenAIStream

  /** Split a chunk in two, split one tool delta of a chunk in two, or exchange two neighbouring deltas of a chunk. */
  datatype CutStep =
    | SplitChunk(at: nat, first: Chunk, second: Chunk)
    | SplitDelta(at: nat, k: nat, left: ToolDelta, right: ToolDelta)
    | Exchange(at: nat, k: nat)

  /** The later of two pieces, when it says anything. */
  function Later(a: string, b: string): string { if b != "" then b else a }

  function ToolCallsOf(c: Chunk): seq<ToolDelta> { if c.choice.Some? then c.choice.value.toolCalls else [] }

  function WordsOf(c: Chunk): string { if c.choice.Some? then Piece(c.choice.value.content) else "" }

  function ReasonOf(c: Chunk): string { if c.choice.Some? then Piece(c.choice.value.finishReason) else "" }

  /** `c` says what `first` and then `second` say. */
  predicate Splits(c: Chunk, first: Chunk, second: Chunk) {
    && WordsOf(c) == WordsOf(first) + WordsOf(second)
    && ToolCallsOf(c) == ToolCallsOf(first) + ToolCallsOf(second)
    && ReasonOf(c) == Later(ReasonOf(first), ReasonOf(second))
    && c.usage == (if second.usage.Some? then second.usage else first.usage)
  }

  predicate SplitsDelta(d: ToolDelta, left: ToolDelta, right: ToolDelta) {
    && d.index == left.index == right.index
    && Piece(d.id) == Later(Piece(left.id), Piece(right.id))
    && Piece(d.name) == Piece(left.name) + Piece(right.name)
    && Piece(d.arguments) == Piece(left.arguments) + Piece(right.arguments)
  }

  predicate Fits(chunks: seq<Chunk>, step: CutStep) {
    && step.at < |chunks|
    && var ds := ToolCallsOf(chunks[step.at]);
       match step
       case SplitChunk(at, first, second) => Splits(chunks[at], first, second)
       case SplitDelta(_, k, left, right) => k < |ds| && SplitsDelta(ds[k], left, right)
       case Exchange(_, k) => k + 1 < |ds| && ds[k].index != ds[k + 1].index
  }

  function WithDeltas(c: Chunk, ds: seq<ToolDelta>): Chunk
    requires c.choice.Some?
  {
    c.(choice := Some(c.choice.value.(toolCalls := ds)))
  }

  /** What stands in the place of the chunk that the step changes. */
  function Pieces(chunks: seq<Chunk>, step: CutStep): seq<Chunk>
    requires Fits(chunks, step)
  {
    var c := chunks[step.at];
    var ds := ToolCallsOf(c);
    match step
    case SplitChunk(_, first, second) => [first, second]
    case SplitDelta(_, k, left, right) => [WithDeltas(c, ds[..k] + [left, right] + ds[k + 1..])]
    case Exchange(_, k) => [WithDeltas(c, ds[..k] + [ds[k + 1], ds[k]] + ds[k + 2..])]
  }

  function Cut(chunks: seq<Chunk>, step: CutStep): seq<Chunk>
    requires Fits(chunks, step)
  {
    chunks[..step.at] + Pieces(chunks, step) + chunks[step.at + 1..]
  }

  /** The response after the steps; one that does not fit changes nothing. */
  function CutUp(raw: Completion, steps: seq<CutStep>): seq<Chunk> {
    if |steps| == 0 then [WholeChunk(raw)]
    else
      var chunks := CutUp(raw, steps[..|steps| - 1]);
      var step := steps[|steps| - 1];
      if Fits(chunks, step) then Cut(chunks, step) else chunks
  }

  // ---- Both ends of a list of pieces.

  /** The pieces of a call put behind others. */
  function Joined(a: ToolCall, b: ToolCall): ToolCall {
    ToolCall(if b.id != "" then b.id else a.id, a.name + b.name, a.arguments + b.arguments)
  }

  lemma {:induction false} DeltasAppend(a: seq<Chunk>, b: seq<Chunk>)
    ensures Deltas(a + b) == Deltas(a) + Deltas(b)
  {
    if |b| == 0 {
      assert a + b == a;
    } else {
      assert (a + b)[..|a + b| - 1] == a + b[..|b| - 1];
      DeltasAppend(a, b[..|b| - 1]);
    }
  }

  lemma {:induction false} TextAppend(a: seq<Chunk>, b: seq<Chunk>)
    ensures TextOf(a + b) == TextOf(a) + TextOf(b)
  {
    if |b| == 0 {
      assert a + b == a;
    } else {
      assert (a + b)[..|a + b| - 1] == a + b[..|b| - 1];
      TextAppend(a, b[..|b| - 1]);
    }
  }

  lemma {:induction false} LastAppend(a: seq<Chunk>, b: seq<Chunk>)
    ensures FinishOf(a + b) == if FinishOf(b).Some? then FinishOf(b) else FinishOf(a)
    ensures UsageOf(a + b) == if UsageOf(b).Some? then UsageOf(b) else UsageOf(a)
  {
    if |b| == 0 {
      assert a + b == a;
    } else {
      assert (a + b)[..|a + b| - 1] == a + b[..|b| - 1];
      LastAppend(a, b[..|b| - 1]);
    }
  }

  lemma ChunksAppend(a: seq<Chunk>, b: seq<Chunk>)
    ensures Deltas(a + b) == Deltas(a) + Deltas(b) && TextOf(a + b) == TextOf(a) + TextOf(b)
    ensures FinishOf(a + b) == if FinishOf(b).Some? then FinishOf(b) else FinishOf(a)
    ensures UsageOf(a + b) == if UsageOf(b).Some? then UsageOf(b) else UsageOf(a)
  {
    DeltasAppend(a, b);
    TextAppend(a, b);
    LastAppend(a, b);
  }

  lemma {:induction false} CallAppend(a: seq<ToolDelta>, b: seq<ToolDelta>, index: int)
    ensures CallAt(a + b, index) == Joined(CallAt(a, index), CallAt(b, index))
    ensures index in Indexes(a + b) <==> index in Indexes(a) || index in Indexes(b)
  {
    if |b| == 0 {
      assert a + b == a;
    } else {
      var front := b[..|b| - 1];
      assert (a + b)[..|a + b| - 1] == a + front;
      CallAppend(a, front, index);
    }
  }

  /** Two lists of pieces that come to the same calls. */
  ghost predicate SameCalls(a: seq<ToolDelta>, b: seq<ToolDelta>) {
    forall i :: CallAt(a, i) == CallAt(b, i) && (i in Indexes(a) <==> i in Indexes(b))
  }

  lemma SameInContext(l: seq<ToolDelta>, a: seq<ToolDelta>, b: seq<ToolDelta>, r: seq<ToolDelta>)
    requires SameCalls(a, b)
    ensures SameCalls(l + a + r, l + b + r)
  {
    hide CallAt, Indexes;
    forall i ensures CallAt(l + a + r, i) == CallAt(l + b + r, i)
                     && (i in Indexes(l + a + r) <==> i in Indexes(l + b + r))
    {
      CallAppend(l + a, r, i);
      CallAppend(l + b, r, i);
      CallAppend(l, a, i);
      CallAppend(l, b, i);
    }
  }

  lemma OneDelta(d: ToolDelta, index: int)
    ensures CallAt([d], index) == if d.index == index then ToolCall(Piece(d.id), Piece(d.name), Piece(d.arguments))
                                  else ToolCall("", "", "")
    ensures Indexes([d]) == [d.index]
  {
    assert [d][..0] == [];
  }

  lemma SplitSame(d: ToolDelta, left: ToolDelta, right: ToolDelta)
    requires SplitsDelta(d, left, right)
    ensures SameCalls([d], [left, right])
  {
    hide CallAt, Indexes;
    forall i ensures CallAt([d], i) == CallAt([left, right], i)
                     && (i in Indexes([d]) <==> i in Indexes([left, right]))
    {
      OneDelta(d, i);
      OneDelta(left, i);
      OneDelta(right, i);
      CallAppend([left], [right], i);
      assert [left] + [right] == [left, right];
    }
  }

  lemma ExchangeSame(a: ToolDelta, b: ToolDelta)
    requires a.index != b.index
    ensures SameCalls([a, b], [b, a])
  {
    hide CallAt, Indexes;
    forall i ensures CallAt([a, b], i) == CallAt([b, a], i) && (i in Indexes([a, b]) <==> i in Indexes([b, a])) {
      OneDelta(a, i);
      OneDelta(b, i);
      CallAppend([a], [b], i);
      CallAppend([b], [a], i);
      assert [a] + [b] == [a, b] && [b] + [a] == [b, a];
    }
  }

  // ---- One step.

  lemma OneChunkIs(c: Chunk)
    ensures Deltas([c]) == ToolCallsOf(c) && TextOf([c]) == WordsOf(c) && UsageOf([c]) == c.usage
    ensures FinishOf([c]) == if ReasonOf(c) != "" then Some(ReasonOf(c)) else None
  {
    assert [c][..0] == [];
  }

  /** Two lists of chunks that say the same. */
  ghost predicate SameChunks(a: seq<Chunk>, b: seq<Chunk>) {
    && TextOf(a) == TextOf(b) && FinishOf(a) == FinishOf(b) && UsageOf(a) == UsageOf(b)
    && SameCalls(Deltas(a), Deltas(b))
  }

  lemma SplitChunkSame(c: Chunk, first: Chunk, second: Chunk)
    requires Splits(c, first, second)
    ensures SameChunks([c], [first, second])
  {
    hide Deltas, TextOf, FinishOf, UsageOf, CallAt, Indexes;
    OneChunkIs(c);
    OneChunkIs(first);
    OneChunkIs(second);
    ChunksAppend([first], [second]);
    assert [first] + [second] == [first, second];
  }

  lemma WithDeltasSame(c: Chunk, l: seq<ToolDelta>, a: seq<ToolDelta>, b: seq<ToolDelta>, r: seq<ToolDelta>)
    requires c.choice.Some? && ToolCallsOf(c) == l + a + r && SameCalls(a, b)
    ensures SameChunks([c], [WithDeltas(c, l + b + r)])
  {
    hide Deltas, TextOf, FinishOf, UsageOf, SameCalls;
    OneChunkIs(c);
    OneChunkIs(WithDeltas(c, l + b + r));
    SameInContext(l, a, b, r);
  }

  /** The pieces say what the chunk said. */
  lemma PiecesSame(chunks: seq<Chunk>, step: CutStep)
    requires Fits(chunks, step)
    ensures SameChunks([chunks[step.at]], Pieces(chunks, step))
  {
    hide SameChunks, SameCalls, Splits, SplitsDelta;
    var c := chunks[step.at];
    var ds := ToolCallsOf(c);
    match step {
      case SplitChunk(_, first, second) => SplitChunkSame(c, first, second);
      case SplitDelta(_, k, left, right) =>
        SplitSame(ds[k], left, right);
        WithDeltasSame(c, ds[..k], [ds[k]], [left, right], ds[k + 1..]);
      case Exchange(_, k) =>
        ExchangeSame(ds[k], ds[k + 1]);
        WithDeltasSame(c, ds[..k], [ds[k], ds[k + 1]], [ds[k + 1], ds[k]], ds[k + 2..]);
    }
  }

  /** Cutting changes neither the text nor the finish reason, the usage or the calls. */
  lemma CutSame(chunks: seq<Chunk>, step: CutStep)
    requires Fits(chunks, step)
    ensures SameChunks(chunks, Cut(chunks, step))
  {
    hide Pieces, Splits, SplitsDelta, TextOf, FinishOf, UsageOf, Deltas, SameCalls;
    var l, c, p, r := chunks[..step.at], [chunks[step.at]], Pieces(chunks, step), chunks[step.at + 1..];
    PiecesSame(chunks, step);
    ChunksAppend(l, c);
    ChunksAppend(l + c, r);
    ChunksAppend(l, p);
    ChunksAppend(l + p, r);
    SameInContext(Deltas(l), Deltas(c), Deltas(p), Deltas(r));
    assert chunks == l + c + r;
  }

  /** Every way of cutting a response up, step by step, is one that the accumulator can be asked about. */
  lemma {:induction false} CutUpIsACut(raw: Completion, steps: seq<CutStep>)
    ensures Cuts(CutUp(raw, steps), raw)
  {
    hide Fits, Cut, TextOf, FinishOf, UsageOf, Deltas, CallAt, Indexes;
    if |steps| == 0 {
      WholeIsACut(raw);
    } else {
      var before := steps[..|steps| - 1];
      CutUpIsACut(raw, before);
      if Fits(CutUp(raw, before), steps[|steps| - 1]) {
        CutSame(CutUp(raw, before), steps[|steps| - 1]);
      }
    }
  }

  // ---- Splitting without exchanging.

  predicate NoExchange(steps: seq<CutStep>) { forall i :: 0 <= i < |steps| ==> !steps[i].Exchange? }

  lemma {:induction false} IndexesAppend(a: seq<ToolDelta>, b: seq<ToolDelta>, c: seq<ToolDelta>)
    requires Indexes(a) == Indexes(b)
    ensures Indexes(a + c) == Indexes(b + c)
  {
    if |c| == 0 {
      assert a + c == a && b + c == b;
    } else {
      var front := c[..|c| - 1];
      assert (a + c)[..|a + c| - 1] == a + front && (b + c)[..|b + c| - 1] == b + front;
      IndexesAppend(a, b, front);
    }
  }

  lemma LastIsSeen(l: seq<ToolDelta>, d: ToolDelta)
    ensures d.index in Indexes(l + [d])
  {
    assert (l + [d])[..|l|] == l;
  }

  lemma SplitIndexes(l: seq<ToolDelta>, d: ToolDelta, left: ToolDelta, right: ToolDelta, r: seq<ToolDelta>)
    requires SplitsDelta(d, left, right)
    ensures Indexes(l + [d] + r) == Indexes(l + [left, right] + r)
  {
    hide Indexes, CallAt;
    DeltaAdded(l, d);
    DeltaAdded(l, left);
    DeltaAdded(l + [left], right);
    LastIsSeen(l, left);
    assert l + [left] + [right] == l + [left, right];
    IndexesAppend(l + [d], l + [left, right], r);
  }

  /** The deltas before and after a step, around those of the chunk that it changes. */
  lemma CutDeltas(chunks: seq<Chunk>, step: CutStep)
    requires Fits(chunks, step)
    ensures var l, r := Deltas(chunks[..step.at]), Deltas(chunks[step.at + 1..]);
      && Deltas(chunks) == l + Deltas([chunks[step.at]]) + r
      && Deltas(Cut(chunks, step)) == l + Deltas(Pieces(chunks, step)) + r
  {
    hide Pieces, Splits, SplitsDelta, Deltas;
    var l, c, p, r := chunks[..step.at], [chunks[step.at]], Pieces(chunks, step), chunks[step.at + 1..];
    DeltasAppend(l, c);
    DeltasAppend(l + c, r);
    DeltasAppend(l, p);
    DeltasAppend(l + p, r);
    assert chunks == l + c + r;
  }

  lemma IndexesAround(l: seq<ToolDelta>, ds: seq<ToolDelta>, step: CutStep, r: seq<ToolDelta>)
    requires step.SplitDelta? && step.k < |ds| && SplitsDelta(ds[step.k], step.left, step.right)
    ensures Indexes(l + ds + r) == Indexes(l + (ds[..step.k] + [step.left, step.right] + ds[step.k + 1..]) + r)
  {
    hide Indexes, SplitsDelta;
    var k, two := step.k, [step.left, step.right];
    SplitIndexes(l + ds[..k], ds[k], step.left, step.right, ds[k + 1..] + r);
    assert l + ds + r == (l + ds[..k]) + [ds[k]] + (ds[k + 1..] + r);
    assert l + (ds[..k] + two + ds[k + 1..]) + r == (l + ds[..k]) + two + (ds[k + 1..] + r);
  }

  lemma SplitKeepsIndexes(chunks: seq<Chunk>, step: CutStep)
    requires Fits(chunks, step) && !step.Exchange?
    ensures Indexes(Deltas(Cut(chunks, step))) == Indexes(Deltas(chunks))
  {
    hide Indexes, Deltas, Cut;
    CutDeltas(chunks, step);
    var c, p := chunks[step.at], Pieces(chunks, step);
    OneChunkIs(c);
    OneChunkIs(p[0]);
    if step.SplitChunk? {
      OneChunkIs(step.second);
      DeltasAppend([step.first], [step.second]);
      assert p == [step.first] + [step.second];
    } else {
      IndexesAround(Deltas(chunks[..step.at]), ToolCallsOf(c), step, Deltas(chunks[step.at + 1..]));
    }
  }

  lemma {:induction false} SplitsAscend(raw: Completion, steps: seq<CutStep>)
    requires NoExchange(steps)
    ensures Indexes(Deltas(CutUp(raw, steps))) == UpTo(|raw.toolCalls|)
  {
    hide Fits, Cut, Deltas, Indexes, UpTo, WholeChunk;
    if |steps| == 0 {
      WholeIsACut(raw);
    } else {
      var before := steps[..|steps| - 1];
      SplitsAscend(raw, before);
      if Fits(CutUp(raw, before), steps[|steps| - 1]) {
        SplitKeepsIndexes(CutUp(raw, before), steps[|steps| - 1]);
      }
    }
  }

  /** However a response is split into pieces that arrive in order, streaming rebuilds it. */
  lemma {:induction false} SplittingDoesNotMatter(loads: Loads, raw: Completion, steps: seq<CutStep>)
    requires NoExchange(steps)
    ensures Streamed(loads, CutUp(raw, steps)) == Parsed(loads, raw)
  {
    hide Streamed, Parsed;
    CutUpIsACut(raw, steps);
    SplitsAscend(raw, steps);
    FragmentationDoesNotMatter(loads, CutUp(raw, steps), raw);
  }

  // ---- Exchanging.

  lemma {:induction false} IndexesHead(ds: seq<ToolDelta>)
    requires |ds| > 0
    ensures |Indexes(ds)| > 0 && Indexes(ds)[0] == ds[0].index
  {
    if |ds| > 1 {
      IndexesHead(ds[..|ds| - 1]);
    }
  }

  lemma FirstExchanged(c: Chunk)
    requires |ToolCallsOf(c)| >= 2 && ToolCallsOf(c)[0].index != ToolCallsOf(c)[1].index
    ensures Fits([c], Exchange(0, 0)) && |Deltas(Cut([c], Exchange(0, 0)))| > 0
    ensures Deltas(Cut([c], Exchange(0, 0)))[0] == ToolCallsOf(c)[1]
  {
    hide Deltas;
    CutDeltas([c], Exchange(0, 0));
    NoChunks();
    var ds := ToolCallsOf(c);
    assert Pieces([c], Exchange(0, 0)) == [WithDeltas(c, ds[..0] + [ds[1], ds[0]] + ds[2..])];
    OneChunkIs(Pieces([c], Exchange(0, 0))[0]);
    assert [c][..0] == [] && [c][1..] == [];
  }

  /** Exchanging the first two calls of any response: streaming then gives something else. */
  lemma {:induction false} ExchangingMatters(loads: Loads, raw: Completion)
    requires |raw.toolCalls| >= 2
    requires forall i, j :: 0 <= i < j < |raw.toolCalls| ==> raw.toolCalls[i].id != raw.toolCalls[j].id
    ensures Streamed(loads, CutUp(raw, [Exchange(0, 0)])) != Parsed(loads, raw)
  {
    hide Streamed, Parsed, Deltas, Indexes, Cuts, Cut, Fits;
    var steps := [Exchange(0, 0)];
    assert steps[..0] == [] && CutUp(raw, []) == [WholeChunk(raw)];
    FirstExchanged(WholeChunk(raw));
    CutUpIsACut(raw, steps);
    var cut := CutUp(raw, steps);
    IndexesHead(Deltas(cut));
    StreamedExactlyWhen(loads, cut, raw);
  }
}
