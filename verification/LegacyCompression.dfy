/** Compression without a strategy: the legacy path of neoagent/core/compress.py. */
module LegacyCompression {
  import opened Prelude
  import opened Types

  const KEEP_RECENT := 6
  const PLACEHOLDER := "(context removed during compression)"

  // ---- _sanitize_tool_pairs

  function CalledIn(blocks: seq<Block>): set<string> { set b | b in blocks && b.ToolUse? :: b.id }

  function AnsweredIn(blocks: seq<Block>): set<string> { set b | b in blocks && b.ToolResult? :: b.toolUseId }

  function Called(ms: seq<Message>): set<string> {
    if |ms| == 0 then {}
    else
      var m := ms[|ms| - 1];
      Called(ms[..|ms| - 1]) + if m.content.Blocks? then CalledIn(m.content.blocks) else {}
  }

  function Answered(ms: seq<Message>): set<string> {
    if |ms| == 0 then {}
    else
      var m := ms[|ms| - 1];
      Answered(ms[..|ms| - 1]) + if m.content.Blocks? then AnsweredIn(m.content.blocks) else {}
  }

  function Matched(ms: seq<Message>): set<string> { Called(ms) * Answered(ms) }

  predicate Kept(b: Block, matched: set<string>) {
    match b
    case Text(_) => true
    case ToolUse(id, _, _) => id in matched
    case ToolResult(id, _, _) => id in matched
  }

  function KeptBlocks(blocks: seq<Block>, matched: set<string>): seq<Block> {
    Filter(blocks, b => Kept(b, matched))
  }

  /** Unmatched tool blocks go, and with them the messages they leave empty. */
  function Cleaned(ms: seq<Message>, matched: set<string>): seq<Message> {
    if |ms| == 0 then []
    else
      var m := ms[|ms| - 1];
      var rest := Cleaned(ms[..|ms| - 1], matched);
      if m.content.Str? then rest + [m]
      else
        var clean := KeptBlocks(m.content.blocks, matched);
        if clean == [] then rest else rest + [Message(None, None, m.role, Blocks(clean))]
  }

  function Other(r: Role): Role { if r == Assistant then User else Assistant }

  function Filler(r: Role): Message { Message(None, None, r, Str(PLACEHOLDER)) }

  /** A placeholder of the other role stands between neighbours of equal role. */
  function Padded(ms: seq<Message>): seq<Message> {
    if |ms| == 0 then []
    else if |ms| > 1 && ms[|ms| - 2].role == ms[|ms| - 1].role then
      Padded(ms[..|ms| - 1]) + [Filler(Other(ms[|ms| - 1].role))] + [ms[|ms| - 1]]
    else Padded(ms[..|ms| - 1]) + [ms[|ms| - 1]]
  }

  function Sanitized(ms: seq<Message>): seq<Message> { Padded(Cleaned(ms, Matched(ms))) }

  method SanitizeToolPairs(ms: seq<Message>) returns (out: seq<Message>)
    ensures out == Sanitized(ms)
  {
    var useIds: set<string> := {};
    var resultIds: set<string> := {};
    for i := 0 to |ms|
      invariant useIds == Called(ms[..i]) && resultIds == Answered(ms[..i])
    {
      assert ms[..i + 1][..i] == ms[..i];
      if ms[i].content.Blocks? {
        useIds := useIds + CalledIn(ms[i].content.blocks);
        resultIds := resultIds + AnsweredIn(ms[i].content.blocks);
      }
    }
    assert ms[..|ms|] == ms;
    var matched := useIds * resultIds;
    var sanitized: seq<Message> := [];
    for i := 0 to |ms|
      invariant sanitized == Cleaned(ms[..i], matched)
    {
      var msg := ms[i];
      assert ms[..i + 1][..i] == ms[..i];
      if msg.content.Str? {
        sanitized := sanitized + [msg];
      } else {
        var clean := KeptBlocks(msg.content.blocks, matched);
        if clean != [] {
          sanitized := sanitized + [Message(None, None, msg.role, Blocks(clean))];
        }
      }
    }
    out := [];
    for i := 0 to |sanitized|
      invariant out == Padded(sanitized[..i])
      invariant i > 0 ==> out != [] && out[|out| - 1] == sanitized[i - 1]
    {
      var msg := sanitized[i];
      assert sanitized[..i + 1][..i] == sanitized[..i];
      if out != [] && msg.role == out[|out| - 1].role {
        out := out + [Filler(if msg.role == Assistant then User else Assistant)];
      }
      out := out + [msg];
    }
    assert sanitized[..|sanitized|] == sanitized;
  }

  // ---- What sanitizing yields.

  predicate Alternates(ms: seq<Message>) { forall i :: 0 <= i < |ms| - 1 ==> ms[i].role != ms[i + 1].role }

  lemma {:induction false} PaddedAlternates(ms: seq<Message>)
    ensures Alternates(Padded(ms))
    ensures ms != [] ==> Padded(ms) != [] && Padded(ms)[|Padded(ms)| - 1] == ms[|ms| - 1] && Padded(ms)[0] == ms[0]
    ensures ms == [] ==> Padded(ms) == []
    ensures |Padded(ms)| <= 2 * |ms| && (ms != [] ==> |Padded(ms)| <= 2 * |ms| - 1)
  {
    if |ms| > 0 {
      PaddedAlternates(ms[..|ms| - 1]);
    }
  }

  /** Which messages of the padded list are not padding. */
  function PadMask(ms: seq<Message>): (mask: seq<bool>)
    ensures |mask| == |Padded(ms)|
  {
    if |ms| == 0 then []
    else if |ms| > 1 && ms[|ms| - 2].role == ms[|ms| - 1].role then PadMask(ms[..|ms| - 1]) + [false] + [true]
    else PadMask(ms[..|ms| - 1]) + [true]
  }

  lemma SelectOneMore<T>(s: seq<T>, mask: seq<bool>, x: T, bit: bool)
    requires |s| == |mask|
    ensures forall b :: Select(s + [x], mask + [bit], b) == Select(s, mask, b) + (if b == bit then [x] else [])
  {
    assert (s + [x])[..|s|] == s && (mask + [bit])[..|mask|] == mask;
  }

  /** A message is preceded by a filler when the one before it has the same role. */
  predicate Repeats(front: seq<Message>, m: Message) { |front| > 0 && front[|front| - 1].role == m.role }

  lemma PaddedNext(front: seq<Message>, m: Message)
    ensures Repeats(front, m) ==> Padded(front + [m]) == Padded(front) + [Filler(Other(m.role))] + [m]
                                  && PadMask(front + [m]) == PadMask(front) + [false] + [true]
    ensures !Repeats(front, m) ==> Padded(front + [m]) == Padded(front) + [m]
                                   && PadMask(front + [m]) == PadMask(front) + [true]
  {
    var ms := front + [m];
    assert ms[..|ms| - 1] == front && ms[|ms| - 1] == m;
    assert |front| > 0 ==> ms[|ms| - 2] == front[|front| - 1];
  }

  /** Padding only inserts placeholders. */
  lemma {:induction false} PaddingOnlyInserts(ms: seq<Message>)
    ensures Select(Padded(ms), PadMask(ms), true) == ms
    ensures forall m :: m in Select(Padded(ms), PadMask(ms), false) ==> m == Filler(m.role)
  {
    if |ms| > 0 {
      hide Padded, PadMask, Select;
      var front, m := ms[..|ms| - 1], ms[|ms| - 1];
      PaddingOnlyInserts(front);
      assert ms == front + [m];
      PaddedNext(front, m);
      if Repeats(front, m) {
        var filler := Filler(Other(m.role));
        SelectOneMore(Padded(front), PadMask(front), filler, false);
        SelectOneMore(Padded(front) + [filler], PadMask(front) + [false], m, true);
      } else {
        SelectOneMore(Padded(front), PadMask(front), m, true);
      }
    }
  }

  datatype Item = Whole(role: Role, text: string) | Part(role: Role, block: Block)

  /** The texts and blocks of a list, in order. */
  function Items(ms: seq<Message>): seq<Item> {
    if |ms| == 0 then []
    else
      var m := ms[|ms| - 1];
      Items(ms[..|ms| - 1])
      + if m.content.Str? then [Whole(m.role, m.content.s)] else Map(m.content.blocks, (b: Block) => Part(m.role, b))
  }

  predicate KeptItem(i: Item, matched: set<string>) { i.Part? ==> Kept(i.block, matched) }

  lemma {:induction false} FilterParts(role: Role, blocks: seq<Block>, matched: set<string>)
    ensures Filter(Map(blocks, (b: Block) => Part(role, b)), (i: Item) => KeptItem(i, matched))
      == Map(KeptBlocks(blocks, matched), (b: Block) => Part(role, b))
  {
    var parts := Map(blocks, (b: Block) => Part(role, b));
    if |blocks| > 0 {
      FilterParts(role, blocks[..|blocks| - 1], matched);
      assert parts[..|parts| - 1] == Map(blocks[..|blocks| - 1], (b: Block) => Part(role, b));
    }
  }

  lemma ItemsOneMore(ms: seq<Message>, m: Message)
    ensures Items(ms + [m]) == Items(ms)
      + if m.content.Str? then [Whole(m.role, m.content.s)] else Map(m.content.blocks, (b: Block) => Part(m.role, b))
  {
    assert (ms + [m])[..|ms|] == ms;
  }

  /** Cleaning keeps every text and every matched block, in order, and nothing else. */
  lemma {:induction false} CleaningKeepsItems(ms: seq<Message>, matched: set<string>)
    ensures Items(Cleaned(ms, matched)) == Filter(Items(ms), (i: Item) => KeptItem(i, matched))
  {
    if |ms| > 0 {
      var front := ms[..|ms| - 1];
      var m := ms[|ms| - 1];
      var p := (i: Item) => KeptItem(i, matched);
      CleaningKeepsItems(front, matched);
      var own := if m.content.Str? then [Whole(m.role, m.content.s)]
                 else Map(m.content.blocks, (b: Block) => Part(m.role, b));
      FilterAppend(Items(front), own, p);
      if m.content.Str? {
        FilterAll(own, p);
        ItemsOneMore(Cleaned(front, matched), m);
      } else {
        FilterParts(m.role, m.content.blocks, matched);
        var clean := KeptBlocks(m.content.blocks, matched);
        ItemsOneMore(Cleaned(front, matched), Message(None, None, m.role, Blocks(clean)));
      }
    }
  }

  lemma KeptIds(blocks: seq<Block>, matched: set<string>)
    ensures CalledIn(KeptBlocks(blocks, matched)) == CalledIn(blocks) * matched
    ensures AnsweredIn(KeptBlocks(blocks, matched)) == AnsweredIn(blocks) * matched
  {
    FilterMembers(blocks, b => Kept(b, matched));
  }

  lemma IdsOneMore(ms: seq<Message>, m: Message)
    ensures Called(ms + [m]) == Called(ms) + if m.content.Blocks? then CalledIn(m.content.blocks) else {}
    ensures Answered(ms + [m]) == Answered(ms) + if m.content.Blocks? then AnsweredIn(m.content.blocks) else {}
  {
    assert (ms + [m])[..|ms|] == ms;
  }

  lemma NoBlocksNoIds()
    ensures CalledIn([]) == {} && AnsweredIn([]) == {}
  {
  }

  lemma {:induction false} CleanedIds(ms: seq<Message>, matched: set<string>)
    ensures Called(Cleaned(ms, matched)) == Called(ms) * matched
    ensures Answered(Cleaned(ms, matched)) == Answered(ms) * matched
  {
    hide CalledIn, AnsweredIn, KeptBlocks;
    if |ms| > 0 {
      var front := ms[..|ms| - 1];
      var m := ms[|ms| - 1];
      NoBlocksNoIds();
      CleanedIds(front, matched);
      if m.content.Str? {
        IdsOneMore(Cleaned(front, matched), m);
      } else {
        KeptIds(m.content.blocks, matched);
        IdsOneMore(Cleaned(front, matched), Message(None, None, m.role, Blocks(KeptBlocks(m.content.blocks, matched))));
      }
    }
  }

  lemma {:induction false} PaddedIds(ms: seq<Message>)
    ensures Called(Padded(ms)) == Called(ms) && Answered(Padded(ms)) == Answered(ms)
  {
    if |ms| > 0 {
      var front := ms[..|ms| - 1];
      var m := ms[|ms| - 1];
      PaddedIds(front);
      var filler := Filler(Other(m.role));
      IdsOneMore(Padded(front), filler);
      IdsOneMore(Padded(front) + [filler], m);
      IdsOneMore(Padded(front), m);
    }
  }

  /**
   Sanitizing any list leaves as many kinds of calls as of results, exactly the matched ids;
   roles alternate; what is not padding is the cleaned list, whose items are the texts and
   matched blocks of the input in order.
   */
  lemma SanitizedIsSound(ms: seq<Message>)
    ensures Called(Sanitized(ms)) == Answered(Sanitized(ms)) == Matched(ms)
    ensures Alternates(Sanitized(ms))
    ensures Items(Select(Sanitized(ms), PadMask(Cleaned(ms, Matched(ms))), true))
      == Filter(Items(ms), (i: Item) => KeptItem(i, Matched(ms)))
    ensures forall m :: m in Select(Sanitized(ms), PadMask(Cleaned(ms, Matched(ms))), false) ==> m == Filler(m.role)
  {
    var clean := Cleaned(ms, Matched(ms));
    CleanedIds(ms, Matched(ms));
    PaddedIds(clean);
    PaddedAlternates(clean);
    PaddingOnlyInserts(clean);
    CleaningKeepsItems(ms, Matched(ms));
  }

  // ---- Sanitizing twice.

  /** A message that cleaning leaves as it is. */
  predicate Clean(m: Message, matched: set<string>) {
    m.content.Blocks? ==>
      && m.id.None? && m.turn.None? && m.content.blocks != []
      && forall i :: 0 <= i < |m.content.blocks| ==> Kept(m.content.blocks[i], matched)
  }

  predicate AllClean(ms: seq<Message>, matched: set<string>) { forall i :: 0 <= i < |ms| ==> Clean(ms[i], matched) }

  lemma FilterIsKept(blocks: seq<Block>, matched: set<string>)
    ensures forall i :: 0 <= i < |KeptBlocks(blocks, matched)| ==> Kept(KeptBlocks(blocks, matched)[i], matched)
  {
    FilterMembers(blocks, b => Kept(b, matched));
    forall i | 0 <= i < |KeptBlocks(blocks, matched)| ensures Kept(KeptBlocks(blocks, matched)[i], matched) {
      assert KeptBlocks(blocks, matched)[i] in KeptBlocks(blocks, matched);
    }
  }

  lemma {:induction false} CleanedIsClean(ms: seq<Message>, matched: set<string>)
    ensures AllClean(Cleaned(ms, matched), matched)
  {
    if |ms| > 0 {
      CleanedIsClean(ms[..|ms| - 1], matched);
      if ms[|ms| - 1].content.Blocks? {
        FilterIsKept(ms[|ms| - 1].content.blocks, matched);
      }
    }
  }

  lemma {:induction false} PaddedIsClean(ms: seq<Message>, matched: set<string>)
    requires AllClean(ms, matched)
    ensures AllClean(Padded(ms), matched)
  {
    if |ms| > 0 {
      PaddedIsClean(ms[..|ms| - 1], matched);
    }
  }

  lemma {:induction false} CleanStays(ms: seq<Message>, matched: set<string>)
    requires AllClean(ms, matched)
    ensures Cleaned(ms, matched) == ms
  {
    if |ms| > 0 {
      var m := ms[|ms| - 1];
      CleanStays(ms[..|ms| - 1], matched);
      assert Clean(m, matched);
      if m.content.Blocks? {
        FilterAll(m.content.blocks, b => Kept(b, matched));
      }
      assert ms == ms[..|ms| - 1] + [m];
    }
  }

  lemma {:induction false} AlternatingStays(ms: seq<Message>)
    requires Alternates(ms)
    ensures Padded(ms) == ms
  {
    if |ms| > 0 {
      AlternatingStays(ms[..|ms| - 1]);
      assert ms == ms[..|ms| - 1] + [ms[|ms| - 1]];
    }
  }

  /** Sanitizing a sanitized list changes nothing. */
  lemma SanitizedTwice(ms: seq<Message>)
    ensures Sanitized(Sanitized(ms)) == Sanitized(ms)
  {
    hide Cleaned, Padded, Called, Answered, PadMask, Items, Filter, Select, AllClean, Alternates;
    SanitizedIsSound(ms);
    assert Matched(Sanitized(ms)) == Matched(ms);
    CleanedIsClean(ms, Matched(ms));
    PaddedIsClean(Cleaned(ms, Matched(ms)), Matched(ms));
    CleanStays(Sanitized(ms), Matched(ms));
    AlternatingStays(Sanitized(ms));
  }

  // ---- Truncation, summary and the circuit breaker.

  /** The summarizing provider's answer, its text already stripped. */
  datatype SummaryReply = Summary(text: string) | SummaryRaises

  function Truncated(ms: seq<Message>): seq<Message> {
    if |ms| < 3 then ms
    else
      var keep := if KEEP_RECENT < |ms| - 1 then KEEP_RECENT else |ms| - 1;
      Sanitized([ms[0]] + ms[|ms| - keep..])
  }

  function SummaryText(text: string): string { if text == "" then "(no summary)" else text }

  function Summarized(ms: seq<Message>, text: string): seq<Message>
    requires |ms| >= 3
  {
    var keep := if KEEP_RECENT < |ms| - 2 then KEEP_RECENT else |ms| - 2;
    var note := Message(None, None, User,
                        Str("[Context summary from earlier in the conversation]\n" + SummaryText(text)));
    Sanitized([ms[0], note] + ms[|ms| - keep..])
  }

  /** The provider is asked exactly when the list has three messages and the breaker is closed. */
  predicate Asks(ms: seq<Message>, failures: nat, cap: nat) { |ms| >= 3 && failures < cap }

  function Compressed(ms: seq<Message>, failures: nat, cap: nat, reply: SummaryReply): seq<Message> {
    if |ms| <= 1 then ms
    else if failures >= cap then Truncated(ms)
    else if |ms| < 3 then ms
    else if reply.SummaryRaises? then Truncated(ms)
    else Summarized(ms, reply.text)
  }

  /** A two-message list also closes the breaker: it returns without having asked anyone. */
  function FailuresAfter(ms: seq<Message>, failures: nat, cap: nat, reply: SummaryReply): nat {
    if |ms| <= 1 || failures >= cap then failures
    else if |ms| < 3 then 0
    else if reply.SummaryRaises? then failures + 1
    else 0
  }

  /** A failure count goes down without a request exactly on two messages, below the cap. */
  lemma {:induction false} ResetWithoutAsking(ms: seq<Message>, failures: nat, cap: nat, reply: SummaryReply)
    ensures FailuresAfter(ms, failures, cap, reply) < failures && !Asks(ms, failures, cap)
       <==> |ms| == 2 && 0 < failures < cap
  {
  }

  class LegacyCompressor {
    const maxFailures: nat
    var compressionFailures: nat
    var previousSummary: Option<string>
    var asked: nat                   // requests made to the provider

    constructor (maxFailures: nat)
      ensures this.maxFailures == maxFailures && compressionFailures == 0 && asked == 0 && previousSummary == None
    {
      this.maxFailures := maxFailures;
      compressionFailures, asked, previousSummary := 0, 0, None;
    }

    method TruncateOldest(ms: seq<Message>) returns (out: seq<Message>)
      ensures out == Truncated(ms)
    {
      if |ms| < 3 {
        return ms;
      }
      var keep := if KEEP_RECENT < |ms| - 1 then KEEP_RECENT else |ms| - 1;
      out := SanitizeToolPairs([ms[0]] + ms[|ms| - keep..]);
    }

    /** `raised` when the provider's exception escapes. */
    method LlmCompress(ms: seq<Message>, reply: SummaryReply) returns (raised: bool, out: seq<Message>)
      modifies this`asked, this`previousSummary
      ensures asked == old(asked) + if |ms| >= 3 then 1 else 0
      ensures raised == (|ms| >= 3 && reply.SummaryRaises?)
      ensures !raised ==> out == if |ms| < 3 then ms else Summarized(ms, reply.text)
      ensures previousSummary
        == if |ms| >= 3 && reply.Summary? then Some(SummaryText(reply.text)) else old(previousSummary)
    {
      hide Sanitized;
      if |ms| < 3 {
        return false, ms;
      }
      var keep := if KEEP_RECENT < |ms| - 2 then KEEP_RECENT else |ms| - 2;
      var middle := ms[1..|ms| - keep];
      var recent := ms[|ms| - keep..];
      if middle == [] {
        // The slice always holds a message, so the source's fallback is never taken.
        assert false;
      }
      asked := asked + 1;
      if reply.SummaryRaises? {
        return true, [];
      }
      var summary := SummaryText(reply.text);
      previousSummary := Some(summary);
      var note := Message(None, None, User, Str("[Context summary from earlier in the conversation]\n" + summary));
      raised := false;
      out := SanitizeToolPairs([ms[0], note] + recent);
    }

    method Compress(ms: seq<Message>, reply: SummaryReply) returns (out: seq<Message>)
      modifies this
      ensures out == Compressed(ms, old(compressionFailures), maxFailures, reply)
      ensures compressionFailures == FailuresAfter(ms, old(compressionFailures), maxFailures, reply)
      ensures asked == old(asked) + if Asks(ms, old(compressionFailures), maxFailures) then 1 else 0
    {
      if |ms| <= 1 {
        return ms;
      }
      if compressionFailures >= maxFailures {
        out := TruncateOldest(ms);
        return;
      }
      var raised, compressed := LlmCompress(ms, reply);
      if raised {
        compressionFailures := compressionFailures + 1;
        out := TruncateOldest(ms);
      } else {
        compressionFailures := 0;
        out := compressed;
      }
    }
  }

  lemma {:induction false} CleanedShrinks(ms: seq<Message>, matched: set<string>)
    ensures |Cleaned(ms, matched)| <= |ms|
    ensures ms != [] && ms[0].content.Str? ==> Cleaned(ms, matched) != [] && Cleaned(ms, matched)[0] == ms[0]
  {
    if |ms| > 0 {
      CleanedShrinks(ms[..|ms| - 1], matched);
    }
  }

  lemma SanitizedShape(ms: seq<Message>)
    requires ms != []
    ensures |Sanitized(ms)| <= 2 * |ms| - 1 && Alternates(Sanitized(ms))
    ensures ms[0].content.Str? ==> Sanitized(ms) != [] && Sanitized(ms)[0] == ms[0]
  {
    CleanedShrinks(ms, Matched(ms));
    PaddedAlternates(Cleaned(ms, Matched(ms)));
  }

  ghost predicate GoodShape(out: seq<Message>, ms: seq<Message>) {
    && |out| <= 15 && Alternates(out)
    && (ms != [] && ms[0].content.Str? ==> out != [] && out[0] == ms[0])
  }

  lemma TruncatedShape(ms: seq<Message>)
    requires |ms| >= 3
    ensures GoodShape(Truncated(ms), ms)
  {
    hide Sanitized, Alternates;
    var keep := if KEEP_RECENT < |ms| - 1 then KEEP_RECENT else |ms| - 1;
    SanitizedShape([ms[0]] + ms[|ms| - keep..]);
  }

  lemma SummarizedShape(ms: seq<Message>, text: string)
    requires |ms| >= 3
    ensures GoodShape(Summarized(ms, text), ms)
  {
    hide Sanitized, Alternates;
    var keep := if KEEP_RECENT < |ms| - 2 then KEEP_RECENT else |ms| - 2;
    var note := Message(None, None, User,
                        Str("[Context summary from earlier in the conversation]\n" + SummaryText(text)));
    SanitizedShape([ms[0], note] + ms[|ms| - keep..]);
  }

  /**
   For any list and either route: at most 15 messages come back, roles alternate when three or
   more went in, and a first message that is plain text stays first.
   */
  lemma CompressedShape(ms: seq<Message>, failures: nat, cap: nat, reply: SummaryReply)
    ensures var out := Compressed(ms, failures, cap, reply);
      && |out| <= 15
      && (|ms| >= 3 ==> Alternates(out))
      && (ms != [] && ms[0].content.Str? ==> out != [] && out[0] == ms[0])
  {
    if |ms| >= 3 {
      TruncatedShape(ms);
      if reply.Summary? {
        SummarizedShape(ms, reply.text);
      }
      hide Truncated, Summarized, Alternates;
    } else {
      hide Summarized, Alternates;
    }
  }

  datatype Call = Call(messages: seq<Message>, reply: SummaryReply)

  function FailuresOf(calls: seq<Call>, cap: nat): nat {
    if |calls| == 0 then 0
    else
      var c := calls[|calls| - 1];
      FailuresAfter(c.messages, FailuresOf(calls[..|calls| - 1], cap), cap, c.reply)
  }

  lemma {:induction false} FailuresStayWithin(calls: seq<Call>, cap: nat)
    ensures FailuresOf(calls, cap) <= cap
  {
    if |calls| > 0 {
      FailuresStayWithin(calls[..|calls| - 1], cap);
    }
  }

  /** In any sequence of calls, once the count has reached the cap it stays there and nobody is asked again. */
  lemma {:induction false} OpenBreakerStaysOpen(calls: seq<Call>, cap: nat, i: nat, j: nat)
    requires i <= j < |calls| && FailuresOf(calls[..i], cap) >= cap
    ensures FailuresOf(calls[..j], cap) == cap
    ensures !Asks(calls[j].messages, FailuresOf(calls[..j], cap), cap)
  {
    FailuresStayWithin(calls[..j], cap);
    if i < j {
      OpenBreakerStaysOpen(calls, cap, i, j - 1);
      assert calls[..j][..j - 1] == calls[..j - 1];
    }
  }

  // ---- What is kept, message by message.

  /** The last messages of a list, at most n of them. */
  function Last(ms: seq<Message>, n: nat): seq<Message> { if |ms| <= n then ms else ms[|ms| - n..] }

  /** Up to placeholders, and up to tool blocks without a partner, `out` says what `source` says. */
  ghost predicate Says(out: seq<Message>, source: seq<Message>) {
    exists mask: seq<bool> ::
      && |mask| == |out|
      && Items(Select(out, mask, true))
         == Filter(Items(source), (i: Item) => KeptItem(i, Called(source) * Answered(source)))
      && forall m :: m in Select(out, mask, false) ==> m == Message(None, None, m.role, Str(PLACEHOLDER))
  }

  lemma SanitizedSays(ms: seq<Message>)
    ensures Says(Sanitized(ms), ms)
  {
    hide Called, Answered, Items, Filter, Select, Cleaned;
    SanitizedIsSound(ms);
    var mask := PadMask(Cleaned(ms, Matched(ms)));
    assert |mask| == |Sanitized(ms)|;
  }

  /** Truncation says the first message and the six after which nothing comes, or all when there are not so many. */
  lemma {:induction false} TruncationKeepsRecent(ms: seq<Message>)
    requires |ms| >= 3
    ensures Says(Truncated(ms), ms[..1] + Last(ms[1..], 6))
  {
    hide Says, Sanitized;
    var keep := if 6 < |ms| - 1 then 6 else |ms| - 1;
    assert Last(ms[1..], 6) == ms[|ms| - keep..];
    assert [ms[0]] == ms[..1];
    SanitizedSays(ms[..1] + Last(ms[1..], 6));
  }

  /** A user's note that ends with the summary. */
  predicate SummaryNote(note: Message, text: string) {
    var shown := if text == "" then "(no summary)" else text;
    note.role == User && note.content.Str? && |note.content.s| >= |shown|
    && note.content.s[|note.content.s| - |shown|..] == shown
  }

  lemma NoteEnds(head: string, text: string)
    ensures SummaryNote(Message(None, None, User, Str(head + SummaryText(text))), text)
  {
    assert (head + SummaryText(text))[|head|..] == SummaryText(text);
  }

  /** A summary stands behind the first message, in a user's note, and before the last six or all but the first two. */
  lemma {:induction false} SummaryKeepsRecent(ms: seq<Message>, text: string) returns (note: Message)
    requires |ms| >= 3
    ensures SummaryNote(note, text) && Says(Summarized(ms, text), [ms[0], note] + Last(ms[2..], 6))
  {
    hide Says, Sanitized;
    var keep := if 6 < |ms| - 2 then 6 else |ms| - 2;
    var head := "[Context summary from earlier in the conversation]\n";
    note := Message(None, None, User, Str(head + SummaryText(text)));
    NoteEnds(head, text);
    assert Last(ms[2..], 6) == ms[|ms| - keep..];
    assert Summarized(ms, text) == Sanitized([ms[0], note] + Last(ms[2..], 6));
    SanitizedSays([ms[0], note] + Last(ms[2..], 6));
  }

  lemma ShortStays(ms: seq<Message>)
    requires |ms| <= 2
    ensures Truncated(ms) == ms
  {
  }

  /** What a call returns: the list, its truncation or its summary, and what becomes of the breaker. */
  lemma {:induction false} CallIsTold(ms: seq<Message>, failures: nat, cap: nat, reply: SummaryReply)
    returns (note: Message)
    ensures |ms| <= 2 ==> Compressed(ms, failures, cap, reply) == ms
    ensures |ms| >= 3 && (failures >= cap || reply.SummaryRaises?) ==>
      Says(Compressed(ms, failures, cap, reply), ms[..1] + Last(ms[1..], 6))
    ensures |ms| >= 3 && failures < cap && !reply.SummaryRaises? ==>
      SummaryNote(note, reply.text)
      && Says(Compressed(ms, failures, cap, reply), [ms[0], note] + Last(ms[2..], 6))
    ensures Asks(ms, failures, cap) ==>
      FailuresAfter(ms, failures, cap, reply) == if reply.SummaryRaises? then failures + 1 else 0
    ensures !Asks(ms, failures, cap) && |ms| != 2 ==> FailuresAfter(ms, failures, cap, reply) == failures
  {
    hide Says, Truncated, Summarized, SummaryNote;
    note := Filler(User);
    if |ms| <= 2 {
      ShortStays(ms);
    } else {
      TruncationKeepsRecent(ms);
      if !reply.SummaryRaises? {
        note := SummaryKeepsRecent(ms, reply.text);
      }
    }
  }
}
