/**
 * The two listings by user turn: the compressed history view in neoagent/core/prompt.py and the compressor's prompt
 * in neoagent/v2/strategies/oneshot_compression.py.
 */
module Grouping {
  import opened Prelude
  import opened Types
  import opened Sorting

  type Turn = Option<int>

  function MemberTurn(m: BatchMember): Turn { m.turn }

  function MessageTurn(m: Message): Turn { m.turn }

  /** The items without a turn come first. */
  predicate NoLater(a: Turn, b: Turn) { a.None? || (b.Some? && a.value <= b.value) }

  function ByTurn<T>(turn: T -> Turn): (T, T) -> bool { (a, b) => NoLater(turn(a), turn(b)) }

  predicate AtMost(a: int, b: int) { a <= b }

  function Group<T>(items: seq<T>, turn: T -> Turn, t: Turn): seq<T> { Filter(items, x => turn(x) == t) }

  /** The turns in the order they are first seen. */
  function Turns<T>(items: seq<T>, turn: T -> Turn): seq<Turn> {
    if |items| == 0 then []
    else
      var before := Turns(items[..|items| - 1], turn);
      var t := turn(items[|items| - 1]);
      if t in before then before else before + [t]
  }

  function Numbers(turns: seq<Turn>): seq<int> {
    Map(Filter(turns, (t: Turn) => t.Some?), (t: Turn) => if t.Some? then t.value else 0)
  }

  function SortedTurns(turns: seq<Turn>): seq<Turn> {
    (if None in turns then [None] else []) + Somes(StableSort(Numbers(turns), AtMost))
  }

  function Groups<T>(items: seq<T>, turn: T -> Turn, turns: seq<Turn>): seq<T> {
    if |turns| == 0 then []
    else Groups(items, turn, turns[..|turns| - 1]) + Group(items, turn, turns[|turns| - 1])
  }

  /** All the items, group by group. */
  function Listing<T>(items: seq<T>, turn: T -> Turn): seq<T> {
    Groups(items, turn, SortedTurns(Turns(items, turn)))
  }

  // ---- The turns, each once and in order.

  lemma {:induction false} TurnsAre<T(!new)>(items: seq<T>, turn: T -> Turn)
    ensures Distinct(Turns(items, turn))
    ensures forall t :: t in Turns(items, turn) <==> exists x :: x in items && turn(x) == t
  {
    if |items| > 0 {
      var front, last := items[..|items| - 1], items[|items| - 1];
      TurnsAre(front, turn);
      assert items == front + [last];
      forall t ensures t in Turns(items, turn) <==> exists x :: x in items && turn(x) == t {
        if x :| x in front && turn(x) == t {
          assert x in items;
        }
        if t == turn(last) {
          assert last in items;
        }
      }
    }
  }

  lemma {:induction false} NumbersAre(turns: seq<Turn>)
    requires Distinct(turns)
    ensures forall n :: n in Numbers(turns) <==> Some(n) in turns
    ensures Distinct(Numbers(turns))
  {
    if |turns| > 0 {
      var front, last := turns[..|turns| - 1], turns[|turns| - 1];
      NumbersAre(front);
      assert turns == front + [last];
      if last.Some? {
        assert Numbers(turns) == Numbers(front) + [last.value];
        assert last !in front;
        assert last.value !in Numbers(front);
      } else {
        assert Numbers(turns) == Numbers(front);
      }
    }
  }

  ghost predicate Strictly(turns: seq<Turn>) {
    forall i, j :: 0 <= i < j < |turns| ==> NoLater(turns[i], turns[j]) && turns[i] != turns[j]
  }

  lemma {:induction false} DistinctMultiplicity<T>(s: seq<T>, x: T)
    requires Distinct(s)
    ensures multiset(s)[x] <= 1
  {
    if |s| > 0 {
      DistinctMultiplicity(s[..|s| - 1], x);
      assert s == s[..|s| - 1] + [s[|s| - 1]];
      assert s[|s| - 1] !in s[..|s| - 1];
    }
  }

  lemma DistinctOfMultiset<T>(a: seq<T>, b: seq<T>)
    requires multiset(a) == multiset(b) && Distinct(b)
    ensures Distinct(a)
  {
    if !Distinct(a) {
      var i, j :| 0 <= i < j < |a| && a[i] == a[j];
      assert a == a[..i] + [a[i]] + a[i + 1..j] + [a[j]] + a[j + 1..];
      assert multiset(a)[a[i]] >= 2;
      DistinctMultiplicity(b, a[i]);
      assert false;
    }
  }

  function Somes(numbers: seq<int>): seq<Turn> { Map(numbers, (n: int) => Some(n)) }

  lemma SomesAre(numbers: seq<int>)
    ensures forall t :: t in Somes(numbers) <==> t.Some? && t.value in numbers
  {
    forall t ensures t in Somes(numbers) <==> t.Some? && t.value in numbers {
      if t.Some? && t.value in numbers {
        var i :| 0 <= i < |numbers| && numbers[i] == t.value;
        assert Somes(numbers)[i] == t;
      }
    }
  }

  lemma SortedNumbersAre(turns: seq<Turn>)
    requires Distinct(turns)
    ensures var sorted := StableSort(Numbers(turns), AtMost);
            (forall t: Turn :: t.Some? ==> (t.value in sorted <==> t in turns))
            && forall i, j :: 0 <= i < j < |sorted| ==> sorted[i] < sorted[j]
  {
    var numbers := Numbers(turns);
    var sorted := StableSort(numbers, AtMost);
    NumbersAre(turns);
    StableSortSorts(numbers, AtMost);
    DistinctOfMultiset(sorted, numbers);
    forall t: Turn | t.Some? ensures t.value in sorted <==> t in turns {
      var n := t.value;
      assert n in sorted <==> n in multiset(sorted);
      assert n in numbers <==> n in multiset(numbers);
      assert n in numbers <==> Some(n) in turns;
    }
  }

  lemma SortedTurnsAre(turns: seq<Turn>)
    requires Distinct(turns)
    ensures Strictly(SortedTurns(turns))
    ensures forall t :: t in SortedTurns(turns) <==> t in turns
  {
    hide StableSort, Numbers, Distinct;
    var sorted := StableSort(Numbers(turns), AtMost);
    SortedNumbersAre(turns);
    SomesAre(sorted);
    forall t ensures t in SortedTurns(turns) <==> t in turns {
      assert t in Somes(sorted) <==> t.Some? && t.value in sorted;
    }
  }

  // ---- The listing is the stable sort.

  lemma TurnOrder<T(!new)>(turn: T -> Turn)
    ensures Preorder(ByTurn(turn))
    ensures forall a, b :: Alike(ByTurn(turn), b)(a) <==> turn(a) == turn(b)
  {
  }

  lemma {:induction false} GroupsAscend<T(!new)>(items: seq<T>, turn: T -> Turn, turns: seq<Turn>)
    requires Strictly(turns)
    ensures Ascending(Groups(items, turn, turns), ByTurn(turn))
    ensures forall x :: x in Groups(items, turn, turns) ==> turn(x) in turns
  {
    if |turns| > 0 {
      var front, t := turns[..|turns| - 1], turns[|turns| - 1];
      GroupsAscend(items, turn, front);
      FilterMembers(items, x => turn(x) == t);
      var a, b := Groups(items, turn, front), Group(items, turn, t);
      forall x | x in a ensures NoLater(turn(x), t) {
        var i :| 0 <= i < |front| && front[i] == turn(x);
        assert turns[i] == turn(x);
      }
      assert forall x :: x in b ==> turn(x) == t;
      forall i, j | 0 <= i < j < |a + b| ensures ByTurn(turn)((a + b)[i], (a + b)[j]) {
        if i < |a| <= j {
          assert (a + b)[i] in a && (a + b)[j] in b;
        } else if i >= |a| {
          assert (a + b)[i] in b && (a + b)[j] in b;
        }
      }
      assert turns == front + [t];
    }
  }

  lemma {:induction false} GroupsFiltered<T(!new)>(items: seq<T>, turn: T -> Turn, turns: seq<Turn>, t: Turn)
    requires Strictly(turns)
    ensures Filter(Groups(items, turn, turns), x => turn(x) == t) == if t in turns then Group(items, turn, t) else []
  {
    hide Filter;
    if |turns| == 0 {
      FilterNone(Groups(items, turn, turns), x => turn(x) == t);
    } else {
      var p: T -> bool := x => turn(x) == t;
      var front, last := turns[..|turns| - 1], turns[|turns| - 1];
      GroupsFiltered(items, turn, front, t);
      assert turns == front + [last] && last !in front;
      FilterAppend(Groups(items, turn, front), Group(items, turn, last), p);
      FilterMembers(items, x => turn(x) == last);
      if last == t {
        FilterAll(Group(items, turn, last), p);
      } else {
        FilterNone(Group(items, turn, last), p);
      }
    }
  }

  /** Grouping by turn lists the items as the stable sort by turn does. */
  lemma {:induction false} ListingIsStableSort<T(!new)>(items: seq<T>, turn: T -> Turn)
    ensures Listing(items, turn) == StableSort(items, ByTurn(turn))
  {
    var le := ByTurn(turn);
    var listing, sorted := Listing(items, turn), StableSort(items, le);
    TurnOrder(turn);
    StableSortSorts(items, le);
    TurnsAre(items, turn);
    SortedTurnsAre(Turns(items, turn));
    GroupsAscend(items, turn, SortedTurns(Turns(items, turn)));
    forall k ensures Filter(listing, Alike(le, k)) == Filter(sorted, Alike(le, k)) {
      var p: T -> bool := x => turn(x) == turn(k);
      GroupsFiltered(items, turn, SortedTurns(Turns(items, turn)), turn(k));
      FilterSame(listing, p, Alike(le, k));
      FilterSame(items, p, Alike(le, k));
      if turn(k) !in Turns(items, turn) {
        FilterNone(items, p);
      }
    }
    StableOrderIsUnique(listing, sorted, le);
  }

  /** Grouping lists every item exactly once. */
  lemma {:induction false} ListingLosesNothing<T(!new)>(items: seq<T>, turn: T -> Turn)
    ensures multiset(Listing(items, turn)) == multiset(items)
  {
    ListingIsStableSort(items, turn);
    TurnOrder(turn);
    StableSortSorts(items, ByTurn(turn));
  }

  // ---- The two loops.

  datatype Line<T> = Opening(turn: Turn) | Entry(item: T) | Closing

  function Entries<T>(items: seq<T>): seq<Line<T>> { Map(items, x => Entry(x)) }

  function Lines<T>(items: seq<T>, turn: T -> Turn, turns: seq<Turn>, closed: bool): seq<Line<T>> {
    if |turns| == 0 then []
    else
      var t := turns[|turns| - 1];
      Lines(items, turn, turns[..|turns| - 1], closed)
      + [Opening(t)] + Entries(Group(items, turn, t)) + (if closed then [Closing] else [])
  }

  /** The items among the lines, in order. */
  function Listed<T>(lines: seq<Line<T>>): seq<T> {
    if |lines| == 0 then []
    else
      var before := Listed(lines[..|lines| - 1]);
      if lines[|lines| - 1].Entry? then before + [lines[|lines| - 1].item] else before
  }

  lemma {:induction false} ListedAppend<T>(a: seq<Line<T>>, b: seq<Line<T>>)
    ensures Listed(a + b) == Listed(a) + Listed(b)
  {
    if |b| == 0 {
      assert a + b == a;
    } else {
      assert (a + b)[..|a + b| - 1] == a + b[..|b| - 1];
      ListedAppend(a, b[..|b| - 1]);
    }
  }

  lemma {:induction false} ListedEntries<T>(items: seq<T>)
    ensures Listed(Entries(items)) == items
  {
    if |items| > 0 {
      ListedEntries(items[..|items| - 1]);
      assert Entries(items)[..|items| - 1] == Entries(items[..|items| - 1]);
      assert items == items[..|items| - 1] + [items[|items| - 1]];
    }
  }

  lemma {:induction false} ListedLines<T>(items: seq<T>, turn: T -> Turn, turns: seq<Turn>, closed: bool)
    ensures Listed(Lines(items, turn, turns, closed)) == Groups(items, turn, turns)
  {
    if |turns| > 0 {
      var front, t := turns[..|turns| - 1], turns[|turns| - 1];
      ListedLines(items, turn, front, closed);
      var a, b, c := Lines(items, turn, front, closed), Entries(Group(items, turn, t)),
                     if closed then [Closing] else [];
      ListedEntries(Group(items, turn, t));
      ListedAppend(a + [Opening(t)] + b, c);
      ListedAppend(a + [Opening(t)], b);
      ListedAppend(a, [Opening(t)]);
    }
  }

  /** The headings among the lines, in order. */
  function Headings<T>(lines: seq<Line<T>>): seq<Turn> {
    if |lines| == 0 then []
    else
      var before := Headings(lines[..|lines| - 1]);
      if lines[|lines| - 1].Opening? then before + [lines[|lines| - 1].turn] else before
  }

  /** An item stands under the heading of its turn, and a group, when groups are closed, is closed before the next. */
  ghost predicate Headed<T>(lines: seq<Line<T>>, turn: T -> Turn, closed: bool, k: nat)
    requires k < |lines|
  {
    match lines[k]
    case Entry(item) =>
      exists j :: 0 <= j < k && lines[j] == Opening(turn(item)) && forall i :: j < i < k ==> lines[i].Entry?
    case Opening(_) => closed && k > 0 ==> lines[k - 1].Closing?
    case Closing => closed
  }

  ghost predicate AllHeaded<T>(lines: seq<Line<T>>, turn: T -> Turn, closed: bool) {
    && (forall k :: 0 <= k < |lines| ==> Headed(lines, turn, closed, k))
    && (closed && |lines| > 0 ==> lines[|lines| - 1].Closing?)
  }

  lemma {:induction false} HeadingsAppend<T>(a: seq<Line<T>>, b: seq<Line<T>>)
    ensures Headings(a + b) == Headings(a) + Headings(b)
  {
    if |b| == 0 {
      assert a + b == a;
    } else {
      assert (a + b)[..|a + b| - 1] == a + b[..|b| - 1];
      HeadingsAppend(a, b[..|b| - 1]);
    }
  }

  lemma {:induction false} NoHeadings<T>(lines: seq<Line<T>>)
    requires forall i :: 0 <= i < |lines| ==> !lines[i].Opening?
    ensures Headings(lines) == []
  {
    if |lines| > 0 {
      NoHeadings(lines[..|lines| - 1]);
    }
  }

  lemma {:induction false} GroupIsOfTurn<T(!new)>(items: seq<T>, turn: T -> Turn, t: Turn)
    ensures forall x :: x in Group(items, turn, t) ==> turn(x) == t
  {
    FilterMembers(items, x => turn(x) == t);
  }

  /** One more group behind lines that are headed. */
  lemma OneMoreGroup<T(!new)>(lines: seq<Line<T>>, turn: T -> Turn, t: Turn, group: seq<T>, closed: bool)
    requires AllHeaded(lines, turn, closed) && forall x :: x in group ==> turn(x) == t
    ensures var more := lines + [Opening(t)] + Entries(group) + (if closed then [Closing] else []);
      AllHeaded(more, turn, closed) && Headings(more) == Headings(lines) + [t]
  {
    var n := |lines|;
    var more := lines + [Opening(t)] + Entries(group) + (if closed then [Closing] else []);
    forall k | 0 <= k < |more| ensures Headed(more, turn, closed, k) {
      if k < n {
        assert Headed(lines, turn, closed, k) && more[k] == lines[k];
        if lines[k].Entry? {
          var j :| 0 <= j < k && lines[j] == Opening(turn(lines[k].item)) && forall i :: j < i < k ==> lines[i].Entry?;
          assert more[j] == lines[j] && forall i :: j < i < k ==> more[i] == lines[i];
        }
      } else if n < k <= n + |group| {
        assert more[n] == Opening(t) && more[k] == Entry(group[k - n - 1]);
        assert group[k - n - 1] in group;
      }
    }
    HeadingsAppend(lines, [Opening(t)] + Entries(group) + (if closed then [Closing] else []));
    assert more == lines + ([Opening(t)] + Entries(group) + (if closed then [Closing] else []));
    assert [Opening(t)] + Entries(group) + (if closed then [Closing] else [])
        == [Opening(t)] + (Entries(group) + (if closed then [Closing] else []));
    HeadingsAppend([Opening(t)], Entries(group) + (if closed then [Closing] else []));
    NoHeadings(Entries(group) + (if closed then [Closing] else []));
    var opening: seq<Line<T>> := [Opening(t)];
    assert opening[..0] == [];
  }

  lemma NothingHeaded<T>(turn: T -> Turn, closed: bool)
    ensures AllHeaded([], turn, closed) && Headings<T>([]) == []
  {
  }

  /** Every item stands under the heading of its own turn; the headings are the given turns, each once and in order. */
  lemma {:induction false} LinesAreHeaded<T(!new)>(items: seq<T>, turn: T -> Turn, turns: seq<Turn>, closed: bool)
    ensures AllHeaded(Lines(items, turn, turns, closed), turn, closed)
    ensures Headings(Lines(items, turn, turns, closed)) == turns
  {
    hide AllHeaded, Headings, Entries, Group;
    if |turns| == 0 {
      NothingHeaded(turn, closed);
    } else {
      var front, t := turns[..|turns| - 1], turns[|turns| - 1];
      LinesAreHeaded(items, turn, front, closed);
      GroupIsOfTurn(items, turn, t);
      OneMoreGroup(Lines(items, turn, front, closed), turn, t, Group(items, turn, t), closed);
    }
  }

  /** What the first loop of either function has gathered. */
  ghost predicate Gathered<T>(items: seq<T>, turn: T -> Turn, groups: map<Turn, seq<T>>, order: seq<Turn>,
                              seen: set<Turn>)
  {
    && order == Turns(items, turn)
    && (forall t :: t in seen <==> t in order)
    && (forall t :: t in order ==> t in groups)
    && (forall t :: t in groups ==> groups[t] == Group(items, turn, t))
  }

  /** A dict of lists that starts each key with an empty one. */
  function Appended<T>(groups: map<Turn, seq<T>>, t: Turn, item: T): map<Turn, seq<T>> {
    groups[t := (if t in groups then groups[t] else []) + [item]]
  }

  lemma GatherNext<T(!new)>(items: seq<T>, turn: T -> Turn, groups: map<Turn, seq<T>>, order: seq<Turn>,
                            seen: set<Turn>, i: nat)
    requires i < |items| && Gathered(items[..i], turn, groups, order, seen)
    ensures var t := turn(items[i]);
            && Gathered(items[..i + 1], turn, Appended(groups, t, items[i]), if t in seen then order else order + [t],
                        seen + {t})
            && (t in seen <==> t in order)
  {
    var t := turn(items[i]);
    assert items[..i + 1][..i] == items[..i];
    if t !in groups {
      TurnsAre(items[..i], turn);
      FilterNone(items[..i], x => turn(x) == t);
    }
  }

  lemma SortedTurnsGathered<T(!new)>(items: seq<T>, turn: T -> Turn, groups: map<Turn, seq<T>>, order: seq<Turn>,
                                     seen: set<Turn>)
    requires Gathered(items, turn, groups, order, seen)
    ensures order == Turns(items, turn)
    ensures forall t :: t in SortedTurns(order) ==> t in groups && groups[t] == Group(items, turn, t)
  {
    TurnsAre(items, turn);
    SortedTurnsAre(order);
  }

  lemma NothingGathered<T>(turn: T -> Turn)
    ensures Gathered([], turn, map[], [], {})
  {
  }

  lemma NoLines<T>(items: seq<T>, turn: T -> Turn, closed: bool)
    ensures Lines(items, turn, [], closed) == []
  {
  }

  lemma LinesNext<T>(items: seq<T>, turn: T -> Turn, turns: seq<Turn>, k: nat, closed: bool)
    requires k < |turns|
    ensures Lines(items, turn, turns[..k + 1], closed)
         == Lines(items, turn, turns[..k], closed) + [Opening(turns[k])] + Entries(Group(items, turn, turns[k]))
            + (if closed then [Closing] else [])
  {
    assert turns[..k + 1][..k] == turns[..k];
  }

  /** _render_recoverable_turn_grouped: the history view's lines for one batch. */
  method RenderRecoverable(members: seq<BatchMember>) returns (lines: seq<Line<BatchMember>>)
    ensures Listed(lines) == StableSort(members, ByTurn(MemberTurn))
    ensures lines == Lines(members, MemberTurn, SortedTurns(Turns(members, MemberTurn)), true)
  {
    hide Gathered, Turns, SortedTurns, Group, Entries, Lines, Listed, StableSort, ByTurn;
    ghost var turn := MemberTurn;
    NothingGathered(turn);
    var groups: map<Turn, seq<BatchMember>>, order, seen: set<Turn> := map[], [], {};
    for i := 0 to |members|
      invariant Gathered(members[..i], turn, groups, order, seen)
    {
      GatherNext(members, turn, groups, order, seen, i);
      var t := members[i].turn;
      if t !in seen {
        seen := seen + {t};
        order := order + [t];
      } else {
        assert seen + {t} == seen;
      }
      groups := Appended(groups, t, members[i]);
    }
    assert members[..|members|] == members;
    SortedTurnsGathered(members, turn, groups, order, seen);
    NoLines(members, turn, true);
    var sorted := SortedTurns(order);
    lines := [];
    for k := 0 to |sorted|
      invariant lines == Lines(members, turn, sorted[..k], true)
    {
      LinesNext(members, turn, sorted, k, true);
      assert sorted[k] in sorted;
      lines := lines + [Opening(sorted[k])];
      lines := lines + Entries(groups[sorted[k]]);
      lines := lines + [Closing];
    }
    assert sorted[..|sorted|] == sorted;
    ListedLines(members, turn, sorted, true);
    ListingIsStableSort(members, turn);
  }

  /** _format_messages_by_turn: the compressor's prompt, and the distinct turn numbers it counts. */
  method FormatByTurn(messages: seq<Message>) returns (lines: seq<Line<Message>>, numbers: set<int>)
    ensures Listed(lines) == StableSort(messages, ByTurn(MessageTurn))
    ensures lines == Lines(messages, MessageTurn, SortedTurns(Turns(messages, MessageTurn)), false)
    ensures forall n :: n in numbers <==> Some(n) in Turns(messages, MessageTurn)
  {
    hide Gathered, Turns, SortedTurns, Group, Entries, Lines, Listed, StableSort, ByTurn;
    ghost var turn := MessageTurn;
    NothingGathered(turn);
    var groups: map<Turn, seq<Message>>, order, seen: set<Turn> := map[], [], {};
    numbers := {};
    for i := 0 to |messages|
      invariant Gathered(messages[..i], turn, groups, order, seen)
      invariant forall n :: n in numbers <==> Some(n) in order
    {
      GatherNext(messages, turn, groups, order, seen, i);
      var t := messages[i].turn;
      if t !in seen {
        seen := seen + {t};
        order := order + [t];
      } else {
        assert seen + {t} == seen;
      }
      groups := Appended(groups, t, messages[i]);
      if t.Some? {
        numbers := numbers + {t.value};
      }
    }
    assert messages[..|messages|] == messages;
    SortedTurnsGathered(messages, turn, groups, order, seen);
    NoLines(messages, turn, false);
    var sorted := SortedTurns(order);
    lines := [];
    for k := 0 to |sorted|
      invariant lines == Lines(messages, turn, sorted[..k], false)
    {
      LinesNext(messages, turn, sorted, k, false);
      assert sorted[k] in sorted;
      lines := lines + [Opening(sorted[k])];
      lines := lines + Entries(groups[sorted[k]]);
    }
    assert sorted[..|sorted|] == sorted;
    ListedLines(messages, turn, sorted, false);
    ListingIsStableSort(messages, turn);
  }

  // ---- The two agree.

  lemma {:induction false} InsertMapped<S(!new), T(!new)>(
      s: seq<S>, x: S, f: S -> T, le: (S, S) -> bool, le': (T, T) -> bool)
    requires forall a, b :: le(a, b) == le'(f(a), f(b))
    ensures Map(Insert(s, x, le), f) == Insert(Map(s, f), f(x), le')
  {
    if |s| == 0 || le(s[|s| - 1], x) {
      assert Map(s + [x], f) == Map(s, f) + [f(x)];
    } else {
      var front, last := s[..|s| - 1], s[|s| - 1];
      InsertMapped(front, x, f, le, le');
      assert Map(s, f)[..|s| - 1] == Map(front, f);
      assert Map(Insert(front, x, le) + [last], f) == Map(Insert(front, x, le), f) + [f(last)];
    }
  }

  lemma {:induction false} SortMapped<S(!new), T(!new)>(s: seq<S>, f: S -> T, le: (S, S) -> bool, le': (T, T) -> bool)
    requires forall a, b :: le(a, b) == le'(f(a), f(b))
    ensures Map(StableSort(s, le), f) == StableSort(Map(s, f), le')
  {
    if |s| > 0 {
      var front, last := s[..|s| - 1], s[|s| - 1];
      SortMapped(front, f, le, le');
      InsertMapped(StableSort(front, le), last, f, le, le');
      assert Map(s, f)[..|s| - 1] == Map(front, f);
    }
  }

  /**
   * When members stand for messages, turn by turn, the history view lists them in the order in which the
   * compressor's prompt lists the messages.
   */
  lemma {:induction false} ListingsAgree(messages: seq<Message>, member: Message -> BatchMember)
    requires forall m :: member(m).turn == m.turn
    ensures Listing(Map(messages, member), MemberTurn)
         == Map(Listing(messages, MessageTurn), member)
  {
    ListingIsStableSort(Map(messages, member), MemberTurn);
    ListingIsStableSort(messages, MessageTurn);
    forall a, b ensures ByTurn(MessageTurn)(a, b) == ByTurn(MemberTurn)(member(a), member(b)) {
      assert MemberTurn(member(a)) == MessageTurn(a) && MemberTurn(member(b)) == MessageTurn(b);
    }
    SortMapped(messages, member, ByTurn(MessageTurn), ByTurn(MemberTurn));
  }
}
