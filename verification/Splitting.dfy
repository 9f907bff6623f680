/** Which messages compression moves: _split_messages_for_compression in neoagent/core/compress.py. */
module Splitting {
  import opened Prelude
  import opened Types

  predicate Numbered(m: Message) { m.turn.Some? }

  predicate Unnumbered(m: Message) { m.turn.None? }

  predicate IsUserTurn(m: Message) { m.role.User? && m.turn.Some? }

  predicate InTurns(m: Message, turns: seq<int>) { m.turn.Some? && m.turn.value in turns }

  /** The distinct turns of the numbered user messages, in first-seen order. */
  function SeenUserTurns(ms: seq<Message>): seq<int> {
    if |ms| == 0 then []
    else
      var m := ms[|ms| - 1];
      var seen := SeenUserTurns(ms[..|ms| - 1]);
      if IsUserTurn(m) && m.turn.value !in seen then seen + [m.turn.value] else seen
  }

  /** The list slice seen[-keep:], which is the whole list when keep is 0. */
  function RecentTurns(seen: seq<int>, keep: nat): seq<int>
    requires keep < |seen|
  {
    if keep == 0 then seen else seen[|seen| - keep..]
  }

  /** Index of the first message at or after `from` whose turn is kept, or the length. */
  function FirstKept(ms: seq<Message>, kept: seq<int>, from: nat): (k: nat)
    requires from <= |ms|
    ensures from <= k <= |ms|
    ensures forall i :: from <= i < k ==> !InTurns(ms[i], kept)
    ensures k < |ms| ==> InTurns(ms[k], kept)
    decreases |ms| - from
  {
    if from == |ms| || InTurns(ms[from], kept) then from else FirstKept(ms, kept, from + 1)
  }

  function SplitIndex(ms: seq<Message>, keep: nat): (k: nat)
    ensures k <= |ms|
  {
    var seen := SeenUserTurns(ms);
    if |seen| <= keep then 0 else FirstKept(ms, RecentTurns(seen, keep), 0)
  }

  /** (to_compress, to_keep). */
  function Split(ms: seq<Message>, keep: nat): (seq<Message>, seq<Message>) {
    var k := SplitIndex(ms, keep);
    (Filter(ms[..k], Numbered), Filter(ms[..k], Unnumbered) + ms[k..])
  }

  /** The first loop: the distinct user turns in the order they are first seen. */
  method CollectUserTurns(messages: seq<Message>) returns (seenUserTurns: seq<int>)
    ensures seenUserTurns == SeenUserTurns(messages)
  {
    seenUserTurns := [];
    var seenSet: set<int> := {};
    for i := 0 to |messages|
      invariant seenUserTurns == SeenUserTurns(messages[..i])
      invariant seenSet == set x | x in seenUserTurns
    {
      var msg := messages[i];
      assert messages[..i + 1][..i] == messages[..i];
      if msg.role.User? && msg.turn.Some? && msg.turn.value !in seenSet {
        seenUserTurns := seenUserTurns + [msg.turn.value];
        seenSet := seenSet + {msg.turn.value};
      }
    }
    assert messages[..|messages|] == messages;
  }

  /** The second loop: where the first message of a kept turn stands. */
  method FindSplit(messages: seq<Message>, turnsToKeep: seq<int>) returns (splitIdx: nat)
    ensures splitIdx == FirstKept(messages, turnsToKeep, 0)
  {
    var i := 0;
    while i < |messages|
      invariant 0 <= i <= |messages|
      invariant FirstKept(messages, turnsToKeep, i) == FirstKept(messages, turnsToKeep, 0)
    {
      if messages[i].turn.Some? && messages[i].turn.value in turnsToKeep {
        return i;
      }
      i := i + 1;
    }
    splitIdx := |messages|;
  }

  /** Where no message is without a turn, setting those aside changes nothing. */
  lemma AllNumbered(ms: seq<Message>)
    requires Filter(ms, Unnumbered) == []
    ensures Filter(ms, Numbered) == ms
  {
    FilterMembers(ms, Unnumbered);
    assert forall m :: m in ms ==> m !in Filter(ms, Unnumbered);
    FilterAll(ms, Numbered);
  }

  lemma NothingSplitOff(ms: seq<Message>)
    ensures Filter(ms[..0], Numbered) == [] && Filter(ms[..0], Unnumbered) + ms[0..] == ms
  {
    assert ms[..0] == [] && ms[0..] == ms;
  }

  method SplitMessagesForCompression(messages: seq<Message>, keep: nat)
    returns (toCompress: seq<Message>, toKeep: seq<Message>)
    ensures toCompress == Split(messages, keep).0 && toKeep == Split(messages, keep).1
  {
    hide SeenUserTurns, FirstKept, Filter;
    NothingSplitOff(messages);
    if messages == [] {
      return [], [];
    }
    var seenUserTurns := CollectUserTurns(messages);
    if |seenUserTurns| <= keep {
      return [], messages;
    }
    var turnsToKeep := if keep == 0 then seenUserTurns else seenUserTurns[|seenUserTurns| - keep..];
    var splitIdx := FindSplit(messages, turnsToKeep);
    toCompress, toKeep := messages[..splitIdx], messages[splitIdx..];
    var noneTurn := Filter(toCompress, Unnumbered);
    if noneTurn != [] {
      toCompress := Filter(toCompress, Numbered);
      toKeep := noneTurn + toKeep;
    } else {
      AllNumbered(toCompress);
    }
  }

  lemma {:induction false} SeenDistinct(ms: seq<Message>)
    ensures Distinct(SeenUserTurns(ms))
  {
    if |ms| > 0 {
      SeenDistinct(ms[..|ms| - 1]);
    }
  }

  lemma {:induction false} SeenHas(ms: seq<Message>, i: nat)
    requires i < |ms| && IsUserTurn(ms[i])
    ensures ms[i].turn.value in SeenUserTurns(ms)
  {
    if i < |ms| - 1 {
      SeenHas(ms[..|ms| - 1], i);
    }
  }

  lemma {:induction false} SeenFrom(ms: seq<Message>, t: int) returns (i: nat)
    requires t in SeenUserTurns(ms)
    ensures i < |ms| && IsUserTurn(ms[i]) && ms[i].turn == Some(t)
  {
    var front := ms[..|ms| - 1];
    if t in SeenUserTurns(front) {
      i := SeenFrom(front, t);
    } else {
      i := |ms| - 1;
    }
  }

  // ---- Arbitrary lists: a stable partition that keeps every recent turn.

  /** mask[i] says that message i is moved. */
  function MovedMask(ms: seq<Message>, keep: nat): (mask: seq<bool>)
    ensures |mask| == |ms|
  {
    var k := SplitIndex(ms, keep);
    seq(|ms|, i requires 0 <= i < |ms| => i < k && Numbered(ms[i]))
  }

  lemma {:induction false} SelectByTurn(ms: seq<Message>, mask: seq<bool>)
    requires |mask| == |ms|
    requires forall i :: 0 <= i < |ms| ==> mask[i] == Numbered(ms[i])
    ensures Select(ms, mask, true) == Filter(ms, Numbered)
    ensures Select(ms, mask, false) == Filter(ms, Unnumbered)
  {
    if |ms| > 0 {
      SelectByTurn(ms[..|ms| - 1], mask[..|ms| - 1]);
    }
  }

  lemma {:induction false} SelectNothing<T>(s: seq<T>, mask: seq<bool>)
    requires |mask| == |s| && forall i :: 0 <= i < |s| ==> !mask[i]
    ensures Select(s, mask, true) == [] && Select(s, mask, false) == s
  {
    if |s| > 0 {
      SelectNothing(s[..|s| - 1], mask[..|s| - 1]);
      assert s == s[..|s| - 1] + [s[|s| - 1]];
    }
  }

  lemma SelectSplit<T>(s: seq<T>, mask: seq<bool>, k: nat, bit: bool)
    requires |mask| == |s| && k <= |s|
    ensures Select(s, mask, bit) == Select(s[..k], mask[..k], bit) + Select(s[k..], mask[k..], bit)
  {
    assert s == s[..k] + s[k..] && mask == mask[..k] + mask[k..];
    SelectAppend(s[..k], mask[..k], s[k..], mask[k..], bit);
  }

  /** Both parts are the selections of one mask: nothing is lost, duplicated or reordered. */
  lemma SplitIsStablePartition(ms: seq<Message>, keep: nat)
    ensures Split(ms, keep).0 == Select(ms, MovedMask(ms, keep), true)
    ensures Split(ms, keep).1 == Select(ms, MovedMask(ms, keep), false)
    ensures multiset(Split(ms, keep).0) + multiset(Split(ms, keep).1) == multiset(ms)
  {
    var k := SplitIndex(ms, keep);
    var mask := MovedMask(ms, keep);
    SelectSplit(ms, mask, k, true);
    SelectSplit(ms, mask, k, false);
    SelectByTurn(ms[..k], mask[..k]);
    SelectNothing(ms[k..], mask[k..]);
    SelectPartition(ms, mask);
  }

  /** No turn-less message moves, and no message of the last `keep` user turns moves. */
  lemma RecentTurnsStay(ms: seq<Message>, keep: nat, i: nat)
    requires i < |ms|
    requires ms[i].turn.None? || |SeenUserTurns(ms)| <= keep
      || InTurns(ms[i], RecentTurns(SeenUserTurns(ms), keep))
    ensures !MovedMask(ms, keep)[i]
  {
  }

  // ---- Lists in turn order.

  /** Turn numbers never decrease along the list; turn-less messages may stand anywhere. */
  predicate TurnsAscend(ms: seq<Message>) {
    forall i, j :: 0 <= i < j < |ms| && Numbered(ms[i]) && Numbered(ms[j])
      ==> ms[i].turn.value <= ms[j].turn.value
  }

  predicate StrictlyAscends(s: seq<int>) {
    forall i, j :: 0 <= i < j < |s| ==> s[i] < s[j]
  }

  lemma {:induction false} SeenAscends(ms: seq<Message>)
    requires TurnsAscend(ms)
    ensures StrictlyAscends(SeenUserTurns(ms))
  {
    if |ms| > 0 {
      var front := ms[..|ms| - 1];
      SeenAscends(front);
      var seen := SeenUserTurns(front);
      var m := ms[|ms| - 1];
      if IsUserTurn(m) && m.turn.value !in seen {
        forall i | 0 <= i < |seen| ensures seen[i] < m.turn.value {
          var w := SeenFrom(front, seen[i]);
        }
      }
    }
  }

  lemma {:induction false} SeenAppend(a: seq<Message>, b: seq<Message>)
    requires forall x :: x in SeenUserTurns(b) ==> x !in SeenUserTurns(a)
    ensures SeenUserTurns(a + b) == SeenUserTurns(a) + SeenUserTurns(b)
  {
    if |b| == 0 {
      assert a + b == a;
    } else {
      var b' := b[..|b| - 1];
      assert (a + b)[..|a + b| - 1] == a + b';
      assert forall x :: x in SeenUserTurns(b') ==> x in SeenUserTurns(b);
      SeenAppend(a, b');
      assert (a + b)[|a + b| - 1] == b[|b| - 1];
      var m := b[|b| - 1];
      if IsUserTurn(m) {
        var t := m.turn.value;
        SeenHas(b, |b| - 1);
        assert t in SeenUserTurns(b') <==> t in SeenUserTurns(a + b');
        assert (SeenUserTurns(a) + SeenUserTurns(b')) + [t] == SeenUserTurns(a) + (SeenUserTurns(b') + [t]);
      }
    }
  }

  /** In turn order, every moved turn is older than every numbered turn that stays. */
  lemma MovedTurnsAreOlder(ms: seq<Message>, keep: nat, i: nat, j: nat)
    requires TurnsAscend(ms) && i < |ms| && j < |ms|
    requires MovedMask(ms, keep)[i] && !MovedMask(ms, keep)[j] && Numbered(ms[j])
    ensures ms[i].turn.value < ms[j].turn.value
  {
  }

  lemma {:induction false} UnnumberedSeesNothing(ms: seq<Message>)
    requires forall i :: 0 <= i < |ms| ==> Unnumbered(ms[i])
    ensures SeenUserTurns(ms) == []
  {
    if |ms| > 0 {
      UnnumberedSeesNothing(ms[..|ms| - 1]);
    }
  }

  lemma {:induction false} FilterUnnumbered(ms: seq<Message>)
    ensures forall i :: 0 <= i < |Filter(ms, Unnumbered)| ==> Unnumbered(Filter(ms, Unnumbered)[i])
  {
    if |ms| > 0 {
      FilterUnnumbered(ms[..|ms| - 1]);
    }
  }

  /** Two lists joined in ascending order, cut by value, are cut at the same place. */
  lemma CutByValue(s: seq<int>, a: seq<int>, b: seq<int>, n: nat)
    requires s == a + b && n < |s| && StrictlyAscends(s)
    requires forall x :: x in a ==> x < s[n]
    requires forall x :: x in b ==> x >= s[n]
    ensures |a| == n && s[n..] == b
  {
    var pivot := s[n];
    forall i | 0 <= i < |a| ensures s[i] < pivot {
      assert s[i] == a[i] && a[i] in a;
    }
    assert s[|a|] == b[0] && b[0] in b;
  }

  /** In turn order, message SplitIndex carries the oldest turn that is kept. */
  lemma SplitAtOldestKept(ms: seq<Message>, keep: nat)
    requires TurnsAscend(ms) && 0 < keep < |SeenUserTurns(ms)|
    ensures var k := SplitIndex(ms, keep); var seen := SeenUserTurns(ms);
      k < |ms| && ms[k].turn == Some(seen[|seen| - keep])
  {
    var seen := SeenUserTurns(ms);
    var recent := RecentTurns(seen, keep);
    var n := |seen| - keep;
    var k := SplitIndex(ms, keep);
    SeenAscends(ms);
    var w := SeenFrom(ms, seen[n]);
    assert recent[0] == seen[n];
    assert InTurns(ms[w], recent);
    var j :| 0 <= j < |recent| && recent[j] == ms[k].turn.value;
    assert recent[j] == seen[n + j];
  }

  /** Cutting a list in turn order at the oldest kept turn cuts its user turns there too. */
  lemma TurnsBeforeAndAfter(ms: seq<Message>, k: nat, t: int)
    requires TurnsAscend(ms) && k < |ms| && ms[k].turn == Some(t)
    requires forall i :: 0 <= i < k && Numbered(ms[i]) ==> ms[i].turn.value < t
    ensures forall x :: x in SeenUserTurns(ms[..k]) ==> x < t
    ensures forall x :: x in SeenUserTurns(ms[k..]) ==> x >= t
    ensures SeenUserTurns(ms) == SeenUserTurns(ms[..k]) + SeenUserTurns(ms[k..])
  {
    var a, b := ms[..k], ms[k..];
    hide SeenUserTurns;
    forall x | x in SeenUserTurns(a) ensures x < t {
      var i := SeenFrom(a, x);
      assert a[i] == ms[i];
    }
    forall x | x in SeenUserTurns(b) ensures x >= t {
      var i := SeenFrom(b, x);
      assert b[i] == ms[k + i];
    }
    SeenAppend(a, b);
    assert ms == a + b;
  }

  lemma OlderBeforeSplit(ms: seq<Message>, keep: nat)
    requires TurnsAscend(ms) && 0 < keep < |SeenUserTurns(ms)|
    ensures var k := SplitIndex(ms, keep);
      k < |ms| && ms[k].turn.Some?
      && forall i :: 0 <= i < k && Numbered(ms[i]) ==> ms[i].turn.value < ms[k].turn.value
  {
    SplitAtOldestKept(ms, keep);
  }

  /** In turn order, the messages from SplitIndex on hold exactly the last `keep` user turns. */
  lemma TailTurnsAreRecent(ms: seq<Message>, keep: nat)
    requires TurnsAscend(ms) && 0 < keep < |SeenUserTurns(ms)|
    ensures SeenUserTurns(ms[SplitIndex(ms, keep)..]) == RecentTurns(SeenUserTurns(ms), keep)
    ensures |SeenUserTurns(ms[..SplitIndex(ms, keep)])| == |SeenUserTurns(ms)| - keep
  {
    var seen, k := SeenUserTurns(ms), SplitIndex(ms, keep);
    SplitAtOldestKept(ms, keep);
    OlderBeforeSplit(ms, keep);
    TurnsBeforeAndAfter(ms, k, ms[k].turn.value);
    SeenAscends(ms);
    CutByValue(seen, SeenUserTurns(ms[..k]), SeenUserTurns(ms[k..]), |seen| - keep);
  }

  /** In turn order, what stays holds exactly the last `keep` user turns, and something moves. */
  lemma KeptTurnsAreRecent(ms: seq<Message>, keep: nat)
    requires TurnsAscend(ms) && 0 < keep < |SeenUserTurns(ms)|
    ensures SeenUserTurns(Split(ms, keep).1) == RecentTurns(SeenUserTurns(ms), keep)
    ensures |SeenUserTurns(Split(ms, keep).1)| == keep
    ensures Split(ms, keep).0 != []
  {
    var k := SplitIndex(ms, keep);
    TailTurnsAreRecent(ms, keep);
    var none := Filter(ms[..k], Unnumbered);
    FilterUnnumbered(ms[..k]);
    UnnumberedSeesNothing(none);
    SeenAppend(none, ms[k..]);
    var oldest := SeenFrom(ms[..k], SeenUserTurns(ms[..k])[0]);
    FilterMembers(ms[..k], Numbered);
    assert ms[..k][oldest] in Split(ms, keep).0;
  }

  lemma FewTurnsStay(ms: seq<Message>, keep: nat)
    requires |SeenUserTurns(ms)| <= keep
    ensures Split(ms, keep).0 == [] && Split(ms, keep).1 == ms
  {
    assert ms[..0] == [] && ms[0..] == ms;
  }

  /** In turn order, splitting what stays moves nothing. */
  lemma SplitAgainMovesNothing(ms: seq<Message>, keep: nat)
    requires TurnsAscend(ms) && 0 < keep
    ensures Split(Split(ms, keep).1, keep).0 == []
    ensures Split(Split(ms, keep).1, keep).1 == Split(ms, keep).1
  {
    var kept := Split(ms, keep).1;
    if keep < |SeenUserTurns(ms)| {
      KeptTurnsAreRecent(ms, keep);
    } else {
      FewTurnsStay(ms, keep);
    }
    FewTurnsStay(kept, keep);
  }

  /** Without turn-less messages the two parts are a prefix and the rest. */
  lemma SplitOfNumbered(ms: seq<Message>, keep: nat)
    requires forall i :: 0 <= i < |ms| ==> Numbered(ms[i])
    ensures Split(ms, keep).0 == ms[..SplitIndex(ms, keep)]
    ensures Split(ms, keep).1 == ms[SplitIndex(ms, keep)..]
    ensures Split(ms, keep).0 + Split(ms, keep).1 == ms
  {
    var k := SplitIndex(ms, keep);
    FilterAll(ms[..k], Numbered);
    FilterNone(ms[..k], Unnumbered);
  }
}
