/** What a request shows of the window, and which of the provider's replies a pass goes on with. */
module Requests {
  import opened Prelude
  import opened Types
  import opened IdGenerator
  import opened WorkingMemories
  import opened History
  import opened Transcript

  // ---- Freed results.

  /** A result that is freed and has not been recalled. */
  predicate Withheld(b: Block, s: State) { b.ToolResult? && b.toolUseId in s.freed && b.toolUseId !in s.recalled }

  predicate HasWithheld(m: Message, s: State) {
    m.content.Blocks? && exists i :: 0 <= i < |m.content.blocks| && Withheld(m.content.blocks[i], s)
  }

  /** `part` stands in `text` at `at`. */
  predicate StandsAt(text: string, part: string, at: nat) { at + |part| <= |text| && text[at..at + |part|] == part }

  /** The parts stand in the text one after the other, each with something before it. */
  ghost predicate InOrder(text: string, parts: seq<string>)
    decreases |parts|
  {
    |parts| == 0
    || exists i: nat :: StandsAt(text, parts[0], i) && i > 0 && InOrder(text[i + |parts[0]|..], parts[1..])
  }

  /** The text names the freed result's id, tool, size and preview. */
  ghost predicate Names(text: string, info: FreedToolResult) {
    InOrder(text, [info.id, info.toolName, Decimal(info.size), info.preview])
  }

  /** What stands for a block in a request. */
  ghost predicate BlockShown(b: Block, shown: Block, s: State) {
    if Withheld(b, s) then
      shown.ToolResult? && shown.toolUseId == b.toolUseId && shown.isError == b.isError
      && Names(shown.content, s.freed[b.toolUseId])
    else shown == b
  }

  ghost predicate MessageShown(m: Message, shown: Message, s: State) {
    if HasWithheld(m, s) then
      && shown.id == None && shown.turn == None && shown.role == m.role
      && shown.content.Blocks? && |shown.content.blocks| == |m.content.blocks|
      && forall i :: 0 <= i < |m.content.blocks| ==> BlockShown(m.content.blocks[i], shown.content.blocks[i], s)
    else shown == m
  }

  lemma OneMorePart(gap: string, part: string, rest: string, parts: seq<string>)
    requires |gap| > 0 && InOrder(rest, parts)
    ensures InOrder(gap + (part + rest), [part] + parts)
  {
    var text, all := gap + (part + rest), [part] + parts;
    assert all[0] == part && all[1..] == parts;
    assert text[|gap|..|gap| + |part|] == part;
    assert text[|gap| + |part|..] == rest;
    assert StandsAt(text, all[0], |gap|) && InOrder(text[|gap| + |all[0]|..], all[1..]);
  }

  lemma NoParts(text: string)
    ensures InOrder(text, [])
  {
  }

  lemma Regrouped(a: string, p: string, b: string, q: string, c: string, r: string, d: string, t: string, e: string)
    ensures a + p + b + q + c + r + d + t + e == a + (p + (b + (q + (c + (r + (d + (t + e)))))))
  {
  }

  lemma PlaceholderNames(info: FreedToolResult)
    ensures Names(Placeholder(info), info)
  {
    hide InOrder, Decimal;
    var size := Decimal(info.size);
    var a, b, c, d, e := "[freed: tool_use_id=", ", tool=", ", size=", "B, preview=", "]";
    Regrouped(a, info.id, b, info.toolName, c, size, d, info.preview, e);
    assert [info.preview] + [] == [info.preview] && [size] + [info.preview] == [size, info.preview];
    assert [info.toolName] + [size, info.preview] == [info.toolName, size, info.preview];
    assert [info.id] + [info.toolName, size, info.preview] == [info.id, info.toolName, size, info.preview];
    NoParts(e);
    OneMorePart(d, info.preview, e, []);
    OneMorePart(c, size, d + (info.preview + e), [info.preview]);
    OneMorePart(b, info.toolName, c + (size + (d + (info.preview + e))), [size, info.preview]);
    OneMorePart(a, info.id, b + (info.toolName + (c + (size + (d + (info.preview + e))))),
                [info.toolName, size, info.preview]);
  }

  lemma BlockIsShown(b: Block, s: State)
    ensures BlockShown(b, FreedBlock(b, s.freed, s.recalled), s)
  {
    if Withheld(b, s) {
      PlaceholderNames(s.freed[b.toolUseId]);
    }
    hide Placeholder, Names;
  }

  lemma MessageIsShown(m: Message, s: State)
    ensures MessageShown(m, FreedMessage(m, s.freed, s.recalled), s)
  {
    hide FreedBlock, BlockShown;
    if HasWithheld(m, s) {
      var i :| 0 <= i < |m.content.blocks| && Withheld(m.content.blocks[i], s);
      assert IsFreed(m.content.blocks[i], s.freed, s.recalled);
      forall j | 0 <= j < |m.content.blocks|
        ensures BlockShown(m.content.blocks[j], FreedBlock(m.content.blocks[j], s.freed, s.recalled), s)
      {
        BlockIsShown(m.content.blocks[j], s);
      }
    }
  }

  lemma NothingFreed(m: Message, s: State)
    requires s.freed == map[]
    ensures MessageShown(m, m, s)
  {
  }

  /**
   The request that is announced shows the window message by message: a freed result that was not recalled by its id,
   its error flag and a text that names id, tool, size and preview; everything else as it is.
   */
  lemma {:induction false} RequestShowsWindow(s: State, it: Iteration)
    ensures var t := RequestPhase(s, it).0.trace;
      && |t| == |s.trace| + 1 && t[..|s.trace|] == s.trace && t[|s.trace|].ProviderRequest?
      && var ms := t[|s.trace|].messages;
      |ms| == |s.live| && forall i :: 0 <= i < |ms| ==> MessageShown(s.live[i], ms[i], s)
  {
    hide FreedMessage, MessageShown, Sent;
    var ms := MessagesForModel(s);
    forall i | 0 <= i < |s.live| ensures |ms| == |s.live| && MessageShown(s.live[i], ms[i], s) {
      if s.freed == map[] {
        NothingFreed(s.live[i], s);
      } else {
        MessageIsShown(s.live[i], s);
      }
    }
  }

  /** Two records of freed results that differ in what was freed only. */
  predicate SameRecords(f: map<string, FreedToolResult>, g: map<string, FreedToolResult>) {
    f.Keys == g.Keys && forall id :: id in f ==> f[id].(originalContent := "") == g[id].(originalContent := "")
  }

  /** Two blocks that differ in the content of a withheld result only. */
  predicate SameBlock(a: Block, b: Block, s: State) {
    a == b || (Withheld(a, s) && b.ToolResult? && b.(content := a.content) == a)
  }

  predicate SameMessage(a: Message, b: Message, s: State) {
    a == b || (a.content.Blocks? && b.content.Blocks? && b.(content := a.content) == a
               && |a.content.blocks| == |b.content.blocks|
               && forall i :: 0 <= i < |a.content.blocks| ==> SameBlock(a.content.blocks[i], b.content.blocks[i], s))
  }

  lemma SameShown(a: Message, b: Message, s: State, t: State)
    requires SameMessage(a, b, s) && SameRecords(s.freed, t.freed) && s.recalled == t.recalled
    ensures FreedMessage(a, s.freed, s.recalled) == FreedMessage(b, t.freed, t.recalled)
  {
    forall x, y | SameBlock(x, y, s)
      ensures IsFreed(x, s.freed, s.recalled) == IsFreed(y, t.freed, t.recalled)
      ensures FreedBlock(x, s.freed, s.recalled) == FreedBlock(y, t.freed, t.recalled)
    {
      if IsFreed(x, s.freed, s.recalled) {
        assert s.freed[x.toolUseId].(originalContent := "") == t.freed[x.toolUseId].(originalContent := "");
      }
    }
    hide IsFreed, FreedBlock, Withheld;
    if a.content.Blocks? {
      assert b.content.Blocks?;
      forall i | 0 <= i < |a.content.blocks| ensures SameBlock(a.content.blocks[i], b.content.blocks[i], s) {
      }
      assert Map(a.content.blocks, x => FreedBlock(x, s.freed, s.recalled))
          == Map(b.content.blocks, x => FreedBlock(x, t.freed, t.recalled));
    }
  }

  lemma SameWithoutWithheld(a: Message, b: Message, s: State)
    requires s.freed == map[] && SameMessage(a, b, s)
    ensures a == b
  {
    if a.content.Blocks? && b.content.Blocks? {
      assert |a.content.blocks| == |b.content.blocks| ==>
        (forall i :: 0 <= i < |a.content.blocks| ==> SameBlock(a.content.blocks[i], b.content.blocks[i], s))
          ==> a.content.blocks == b.content.blocks;
    }
  }

  lemma NothingWithheld(s: State, t: State)
    requires s.freed == map[] && |s.live| == |t.live|
    requires forall i :: 0 <= i < |s.live| ==> SameMessage(s.live[i], t.live[i], s)
    ensures s.live == t.live
  {
    forall i | 0 <= i < |s.live| ensures s.live[i] == t.live[i] {
      SameWithoutWithheld(s.live[i], t.live[i], s);
    }
  }

  /** What was freed does not reach the provider: sessions that differ in it alone send the same request. */
  lemma {:induction false} FreedStaysHidden(s: State, t: State, it: Iteration)
    requires SameRecords(s.freed, t.freed) && s.recalled == t.recalled && |s.live| == |t.live|
    requires forall i :: 0 <= i < |s.live| ==> SameMessage(s.live[i], t.live[i], s)
    ensures RequestPhase(s, it).0.trace[|s.trace|..] == RequestPhase(t, it).0.trace[|t.trace|..]
  {
    hide FreedMessage, SameMessage, Sent;
    if s.freed == map[] {
      NothingWithheld(s, t);
    } else {
      forall i | 0 <= i < |s.live|
        ensures FreedMessage(s.live[i], s.freed, s.recalled) == FreedMessage(t.live[i], t.freed, t.recalled)
      {
        SameShown(s.live[i], t.live[i], s, t);
      }
    }
    assert MessagesForModel(s) == MessagesForModel(t);
  }

  // ---- The provider's replies.

  /** The reply to the k-th request of a pass. */
  function ReplyTo(it: Iteration, k: nat): ProviderReply { if k <= 1 then it.reply else it.retry }

  predicate CutShort(r: ProviderReply) { r.Reply? && r.response.stop == MaxTokens }

  /** The lists of messages that the provider received in a pass. */
  function Received(p: Pass): seq<seq<Message>> {
    if p.checked.Some? && p.requested.Some? && |p.requested.value.received| >= |p.checked.value.received|
    then p.requested.value.received[|p.checked.value.received|..] else []
  }

  /** What a pass sends when it sends anything: the hook's messages, the bare window or what was announced. */
  ghost predicate SendsWhatIsLeft(p: Pass, it: Iteration) {
    p.checked.Some? && p.requested.Some? ==>
      && |p.requested.value.trace| > 0 && p.requested.value.trace[|p.requested.value.trace| - 1].ProviderRequest?
      && forall ms :: ms in Received(p) ==>
           ms == match it.preHook
                 case Modify(Some(others)) => others
                 case Modify(None) => p.checked.value.live
                 case _ => p.requested.value.trace[|p.requested.value.trace| - 1].messages
  }

  /** How many requests there are, and which reply the pass goes on with. */
  ghost predicate LastReplyCounts(p: Pass, it: Iteration) {
    var k := |Received(p)|;
    p.checked.Some? ==>
      && p.requested.Some? && p.checked.value.received <= p.requested.value.received && k <= 2
      && (k == 0 <==> it.preHook.Deny?) && (k == 2 <==> !it.preHook.Deny? && CutShort(it.reply))
      && (p.replied.Some? ==>
            && k > 0 && it.reply.Reply? && ReplyTo(it, k).Reply? && !CutShort(ReplyTo(it, k)) && Announces(p)
            && Announced(p) == if it.postHook.Some? then it.postHook.value else ReplyTo(it, k).response)
      && (it.postHook.None? && k > 0 && it.reply.Reply? && ReplyTo(it, k).Reply? ==>
            (p.replied.None? <==> CutShort(it.reply) && CutShort(it.retry)))
  }

  /** What the call of the provider does, request by request. */
  lemma AskCounts(s: State, it: Iteration, sent: seq<Message>)
    ensures var (s', answer) := Ask(s, it, sent);
      && s'.received == s.received + (if CutShort(it.reply) then [sent, sent] else [sent]) && s'.trace == s.trace
      && (answer.AnswerRaised? <==> it.reply.ProviderRaises? || (CutShort(it.reply) && it.retry.ProviderRaises?))
      && !answer.Denied?
      && (answer.Answered? ==>
            var last := if CutShort(it.reply) then it.retry else it.reply;
            answer.response == if it.postHook.Some? && !CutShort(last) then it.postHook.value else last.response)
  {
  }

  lemma SameForModel(s: State, e: Event)
    ensures MessagesForModel(Emit(s, e)) == MessagesForModel(s)
  {
  }

  lemma OnlyAdded(before: seq<seq<Message>>, sent: seq<Message>)
    ensures (before + [sent])[|before|..] == [sent] && (before + [sent, sent])[|before|..] == [sent, sent]
  {
  }

  lemma PassCounts(s: State, it: Iteration)
    ensures LastReplyCounts(PassFrom(s, it), it) && SendsWhatIsLeft(PassFrom(s, it), it)
  {
    hide CompressPhase, MessagesForModel, Ask;
    var (s1, raised) := CompressPhase(s, it);
    if !raised && !it.preHook.Deny? {
      var s2 := Emit(s1, ProviderRequest(MessagesForModel(s1)));
      AskCounts(s2, it, Sent(s2, it.preHook));
      SameForModel(s1, ProviderRequest(MessagesForModel(s1)));
      OnlyAdded(s1.received, Sent(s2, it.preHook));
    }
  }

  /**
   In every pass of every run: a denied request is not made, and a second one follows the first, with the same messages,
   exactly when the first reply was cut short. What is announced is the post hook's response, or else the one to the
   last request made. Without a post hook a pass whose requests were answered announces nothing exactly when both
   replies were cut short.
   */
  lemma {:induction false} LastReplyIsTaken(
      id: string, memory: Option<Memory>, steps: seq<Step>, states: seq<State>, n: nat, passes: seq<Pass>, k: nat)
    requires RunsThrough(id, memory, steps, states) && n < |steps| && steps[n].ChatStep?
    requires PassesThrough(StartChat(states[n], steps[n].text), steps[n].script, passes) && k < |passes|
    ensures LastReplyCounts(passes[k], steps[n].script[k]) && SendsWhatIsLeft(passes[k], steps[n].script[k])
  {
    hide NextState, StartChat, PassFrom, LastReplyCounts, SendsWhatIsLeft, Iterate;
    assert NextPass(steps[n].script, passes, StartChat(states[n], steps[n].text).userTurn, k);
    PassCounts(passes[k].head, steps[n].script[k]);
  }
}
