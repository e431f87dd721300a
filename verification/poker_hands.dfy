/** Scoring five cards, and what the score means. */
module PokerHands {
  import opened Options
  import opened StableSort
  import opened Cards

  // ---- ranks in descending order ----

  predicate AtLeast(a: int, b: int) { b <= a }

  lemma AtLeastIsTotalPreorder()
    ensures TotalPreorder(AtLeast)
  {
  }

  function Ranks(cards: seq<Card>): (r: seq<int>)
    ensures |r| == |cards|
  {
    if cards == [] then [] else [cards[0].rank as int] + Ranks(cards[1..])
  }

  function Descending(s: seq<int>): seq<int> { Sort(s, AtLeast) }

  lemma DescendingPermutes(s: seq<int>)
    ensures Sorted(Descending(s), AtLeast) && multiset(Descending(s)) == multiset(s) && |Descending(s)| == |s|
  {
    AtLeastIsTotalPreorder();
    SortIsSortedPermutation(s, AtLeast);
    assert |multiset(Descending(s))| == |multiset(s)|;
  }

  /** Sorted lists of numbers are equal when they hold the same numbers. */
  lemma DescendingAgree(s: seq<int>, t: seq<int>)
    requires Sorted(s, AtLeast) && Sorted(t, AtLeast) && multiset(s) == multiset(t)
    ensures s == t
  {
    AtLeastIsTotalPreorder();
    SortedPermutationsAgree(s, t, AtLeast);
  }

  function Values(cards: seq<Card>): seq<int> { Descending(Ranks(cards)) }

  function Suits(cards: seq<Card>): set<Suit> { set c | c in cards :: c.suit }

  predicate IsFlush(cards: seq<Card>) { |Suits(cards)| == 1 }

  // ---- multiplicities ----

  datatype Group = Group(count: int, value: int)

  /** Reverse order of (count, value) pairs. */
  predicate Stronger(a: Group, b: Group) { a.count > b.count || (a.count == b.count && a.value >= b.value) }

  lemma StrongerIsTotalPreorder()
    ensures TotalPreorder(Stronger)
  {
  }

  function Count(s: seq<int>, v: int): nat {
    if s == [] then 0 else (if s[0] == v then 1 else 0) + Count(s[1..], v)
  }

  lemma {:induction false} CountIsMultiplicity(s: seq<int>, v: int)
    ensures Count(s, v) == multiset(s)[v]
  {
    if s != [] {
      CountIsMultiplicity(s[1..], v);
      assert s == [s[0]] + s[1..];
    }
  }

  /** The values of `s`, each once: the keys of a `Counter`. */
  function Keys(s: seq<int>): seq<int> {
    if s == [] then [] else if s[0] in s[1..] then Keys(s[1..]) else [s[0]] + Keys(s[1..])
  }

  function Tallies(s: seq<int>, keys: seq<int>): seq<Group> {
    if keys == [] then [] else [Group(Count(s, keys[0]), keys[0])] + Tallies(s, keys[1..])
  }

  function Groups(s: seq<int>): seq<Group> { Sort(Tallies(s, Keys(s)), Stronger) }

  function GroupValues(g: seq<Group>): seq<int> {
    if g == [] then [] else [g[0].value] + GroupValues(g[1..])
  }

  function Total(g: seq<Group>): int { if g == [] then 0 else g[0].count + Total(g[1..]) }

  // ---- the score ----

  function Unique(s: seq<int>): seq<int> { Descending(Keys(s)) }

  function StraightHigh(values: seq<int>): Option<int> {
    var uniq := Unique(values);
    if |uniq| != 5 then None
    else if uniq == [14, 5, 4, 3, 2] then Some(5)
    else if uniq[0] - uniq[4] == 4 then Some(uniq[0])
    else None
  }

  function Except(s: seq<int>, not: set<int>): seq<int> {
    if s == [] then [] else if s[0] in not then Except(s[1..], not) else [s[0]] + Except(s[1..], not)
  }

  function MaxOf(s: seq<int>): int
    requires s != []
  {
    if |s| == 1 then s[0] else var m := MaxOf(s[1..]); if m > s[0] then m else s[0]
  }

  // ---- what the groups are ----

  predicate IsGroup(s: seq<int>, g: Group) { g.count == Count(s, g.value) && g.count >= 1 }

  predicate AllGroups(s: seq<int>, g: seq<Group>) { forall i | 0 <= i < |g| :: IsGroup(s, g[i]) }

  lemma {:induction false} KeysAreTheValues(s: seq<int>, v: int)
    ensures Count(Keys(s), v) == if v in s then 1 else 0
  {
    if s != [] { KeysAreTheValues(s[1..], v); }
  }

  lemma {:induction false} CountIsPositive(s: seq<int>, v: int)
    ensures Count(s, v) > 0 <==> v in s
  {
    if s != [] { CountIsPositive(s[1..], v); }
  }

  lemma {:induction false} TalliesAreGroups(s: seq<int>, keys: seq<int>)
    requires forall i | 0 <= i < |keys| :: keys[i] in s
    ensures AllGroups(s, Tallies(s, keys)) && GroupValues(Tallies(s, keys)) == keys
  {
    if keys != [] {
      TalliesAreGroups(s, keys[1..]);
      CountIsPositive(s, keys[0]);
    }
  }

  lemma {:induction false} OneMoreValue(s: seq<int>, keys: seq<int>)
    requires s != []
    ensures Total(Tallies(s, keys)) == Total(Tallies(s[1..], keys)) + Count(keys, s[0])
  {
    if keys != [] { OneMoreValue(s, keys[1..]); }
  }

  lemma {:induction false} NothingToTally(keys: seq<int>)
    ensures Total(Tallies([], keys)) == 0
  {
    if keys != [] { NothingToTally(keys[1..]); }
  }

  lemma {:induction false} TalliesCoverAll(s: seq<int>, keys: seq<int>)
    requires forall i | 0 <= i < |s| :: Count(keys, s[i]) == 1
    ensures Total(Tallies(s, keys)) == |s|
  {
    if s == [] {
      NothingToTally(keys);
    } else {
      TalliesCoverAll(s[1..], keys);
      OneMoreValue(s, keys);
      assert Count(keys, s[0]) == 1;
    }
  }

  lemma {:induction false} TotalOfParts(a: seq<Group>, b: seq<Group>)
    ensures Total(a + b) == Total(a) + Total(b)
    ensures GroupValues(a + b) == GroupValues(a) + GroupValues(b)
  {
    if a == [] {
      assert a + b == b;
    } else {
      assert (a + b)[1..] == a[1..] + b;
      TotalOfParts(a[1..], b);
    }
  }

  /** A group counts the same wherever it stands. */
  lemma GroupTakenOut(q: seq<Group>, j: nat)
    requires j < |q|
    ensures Total(q) == q[j].count + Total(Without(q, j))
    ensures multiset(GroupValues(q)) == multiset{q[j].value} + multiset(GroupValues(Without(q, j)))
  {
    OneApart(q, j);
    PartsWithOne(q[..j], q[j], q[j + 1..]);
  }

  lemma OneApart(q: seq<Group>, j: nat)
    requires j < |q|
    ensures q == q[..j] + ([q[j]] + q[j + 1..])
  {
  }

  lemma PartsWithOne(before: seq<Group>, g: Group, after: seq<Group>)
    ensures Total(before + ([g] + after)) == g.count + Total(before + after)
    ensures multiset(GroupValues(before + ([g] + after))) == multiset{g.value} + multiset(GroupValues(before + after))
  {
    TotalOfParts(before, [g] + after);
    TotalOfParts(before, after);
    assert ([g] + after)[1..] == after;
    InTheMiddle(GroupValues(before), g.value, GroupValues(after));
  }

  lemma InTheMiddle(a: seq<int>, v: int, b: seq<int>)
    ensures multiset(a + ([v] + b)) == multiset{v} + multiset(a + b)
  {
  }

  lemma {:induction false} PermutedGroups(p: seq<Group>, q: seq<Group>)
    requires multiset(p) == multiset(q)
    ensures Total(p) == Total(q) && multiset(GroupValues(p)) == multiset(GroupValues(q))
    decreases |p|
  {
    if p == [] {
      assert |multiset(q)| == 0;
    } else {
      var j := MatchHead(p, q);
      PermutedGroups(p[1..], Without(q, j));
      GroupTakenOut(p, 0);
      GroupTakenOut(q, j);
      assert Without(p, 0) == p[1..];
    }
  }

  lemma KeysAreInside(s: seq<int>)
    ensures forall i | 0 <= i < |Keys(s)| :: Keys(s)[i] in s
  {
    forall i | 0 <= i < |Keys(s)| ensures Keys(s)[i] in s {
      CountIsPositive(Keys(s), Keys(s)[i]);
      KeysAreTheValues(s, Keys(s)[i]);
    }
  }

  /** The groups are sorted, hold each value once with its multiplicity, and account for every card. */
  lemma GroupFacts(s: seq<int>)
    ensures Sorted(Groups(s), Stronger) && AllGroups(s, Groups(s)) && Total(Groups(s)) == |s|
    ensures multiset(GroupValues(Groups(s))) == multiset(Keys(s))
  {
    var keys, g := Keys(s), Groups(s);
    StrongerIsTotalPreorder();
    SortIsSortedPermutation(Tallies(s, keys), Stronger);
    PermutedGroups(g, Tallies(s, keys));
    KeysAreInside(s);
    TalliesAreGroups(s, keys);
    forall i | 0 <= i < |s| ensures Count(keys, s[i]) == 1 { KeysAreTheValues(s, s[i]); }
    TalliesCoverAll(s, keys);
    forall i | 0 <= i < |g| ensures IsGroup(s, g[i]) {
      assert g[i] in multiset(g);
      assert g[i] in Tallies(s, keys);
    }
  }

  function Counts(g: seq<Group>): seq<int> { if g == [] then [] else [g[0].count] + Counts(g[1..]) }

  /** Five cards fall into one of seven patterns of equal ranks. */
  predicate IsPattern(c: seq<int>) {
    c == [5] || c == [4, 1] || c == [3, 2] || c == [3, 1, 1] || c == [2, 2, 1]
    || c == [2, 1, 1, 1] || c == [1, 1, 1, 1, 1]
  }

  /** Partitions of `total` with parts at most `cap`, largest first. */
  predicate Parts(c: seq<int>, cap: int, total: int) {
    if c == [] then total == 0 else 1 <= c[0] <= cap && c[0] <= total && Parts(c[1..], c[0], total - c[0])
  }

  lemma {:induction false} GroupsAreParts(s: seq<int>, g: seq<Group>, cap: int)
    requires Sorted(g, Stronger) && AllGroups(s, g) && (g == [] || g[0].count <= cap)
    ensures Total(g) >= 0 && Parts(Counts(g), cap, Total(g)) && |Counts(g)| == |g|
  {
    if g != [] {
      assert IsGroup(s, g[0]);
      assert forall i | 0 <= i < |g| - 1 :: g[1..][i] == g[i + 1] && IsGroup(s, g[i + 1]);
      if |g| > 1 { assert Stronger(g[0], g[1..][0]); }
      GroupsAreParts(s, g[1..], g[0].count);
    }
  }

  lemma PartsOfOne(c: seq<int>, cap: int)
    requires Parts(c, cap, 1) && cap >= 1
    ensures c == [1]
  {
    assert c == [c[0]] + c[1..];
  }

  lemma PartsOfTwo(c: seq<int>, cap: int)
    requires Parts(c, cap, 2) && cap >= 1
    ensures c == [2] || c == [1, 1]
    ensures cap == 1 ==> c == [1, 1]
  {
    assert c == [c[0]] + c[1..];
    if c[0] == 1 { PartsOfOne(c[1..], 1); }
  }

  lemma PartsOfThree(c: seq<int>, cap: int)
    requires Parts(c, cap, 3) && 1 <= cap <= 2
    ensures c == [2, 1] || c == [1, 1, 1]
    ensures cap == 1 ==> c == [1, 1, 1]
  {
    assert c == [c[0]] + c[1..];
    if c[0] == 1 { PartsOfTwo(c[1..], 1); } else { PartsOfOne(c[1..], 2); }
  }

  lemma PartsOfFive(c: seq<int>)
    requires Parts(c, 5, 5)
    ensures IsPattern(c)
  {
    assert c == [c[0]] + c[1..];
    if c[0] == 4 { PartsOfOne(c[1..], 4); }
    else if c[0] == 3 { PartsOfTwo(c[1..], 3); }
    else if c[0] == 2 { PartsOfThree(c[1..], 2); }
    else if c[0] == 1 {
      var d := c[1..];
      assert d == [d[0]] + d[1..];
      PartsOfThree(d[1..], 1);
    }
  }

  lemma FiveCardsMakeAPattern(s: seq<int>)
    requires |s| == 5
    ensures IsPattern(Counts(Groups(s))) && |Groups(s)| == |Counts(Groups(s))| > 0
  {
    GroupFacts(s);
    var g := Groups(s);
    assert g != [];
    assert g[0].count <= 5 by { assert IsGroup(s, g[0]); CountBound(s, g[0].value); }
    GroupsAreParts(s, g, 5);
    PartsOfFive(Counts(g));
  }

  lemma {:induction false} CountBound(s: seq<int>, v: int)
    ensures Count(s, v) <= |s|
  {
    if s != [] { CountBound(s[1..], v); }
  }

  // ---- kickers ----

  lemma {:induction false} ExceptCounts(s: seq<int>, not: set<int>, v: int)
    ensures multiset(Except(s, not))[v] == if v in not then 0 else multiset(s)[v]
  {
    if s != [] {
      ExceptCounts(s[1..], not, v);
      assert s == [s[0]] + s[1..];
    }
  }

  lemma {:induction false} ExceptIsSorted(s: seq<int>, not: set<int>)
    requires Sorted(s, AtLeast)
    ensures Sorted(Except(s, not), AtLeast)
    ensures forall i | 0 <= i < |Except(s, not)| :: Except(s, not)[i] in s
  {
    if s != [] {
      ExceptIsSorted(s[1..], not);
      var rest := Except(s[1..], not);
      forall i | 0 <= i < |rest| ensures AtLeast(s[0], rest[i]) {
        assert rest[i] in s[1..];
      }
      assert ([s[0]] + rest)[1..] == rest;
    }
  }

  /** Groups of equal strength are ordered by value. */
  lemma {:induction false} SinglesDescend(g: seq<Group>)
    requires Sorted(g, Stronger) && forall i | 0 <= i < |g| :: g[i].count == 1
    ensures Sorted(GroupValues(g), AtLeast) && |GroupValues(g)| == |g|
    ensures forall i | 0 <= i < |g| :: GroupValues(g)[i] == g[i].value
  {
    if g != [] {
      SinglesDescend(g[1..]);
      assert GroupValues(g)[1..] == GroupValues(g[1..]);
      forall i | 0 <= i < |g[1..]| ensures AtLeast(g[0].value, GroupValues(g[1..])[i]) {
        assert Stronger(g[0], g[1..][i]);
      }
    }
  }

  lemma {:induction false} SortedTail(g: seq<Group>, k: nat)
    requires Sorted(g, Stronger) && k <= |g|
    ensures Sorted(g[k..], Stronger)
  {
    if k == 0 {
      assert g[0..] == g;
    } else {
      SortedTail(g[1..], k - 1);
      assert g[1..][k - 1..] == g[k..];
    }
  }

  predicate SinglesFrom(g: seq<Group>, k: nat) { forall i | k <= i < |g| :: g[i].count == 1 }

  lemma ConcatenationCounts(a: seq<int>, b: seq<int>, v: int)
    ensures multiset(a + b)[v] == multiset(a)[v] + multiset(b)[v]
  {
  }

  lemma ValueInGroups(s: seq<int>, v: int)
    ensures multiset(GroupValues(Groups(s)))[v] == if v in s then 1 else 0
  {
    GroupFacts(s);
    CountIsMultiplicity(Keys(s), v);
    KeysAreTheValues(s, v);
  }

  lemma SplitGroups(g: seq<Group>, k: nat, v: int)
    requires k <= |g|
    ensures multiset(GroupValues(g[..k]))[v] + multiset(GroupValues(g[k..]))[v] == multiset(GroupValues(g))[v]
  {
    TwoParts(g, k);
    TotalOfParts(g[..k], g[k..]);
    ConcatenationCounts(GroupValues(g[..k]), GroupValues(g[k..]), v);
  }

  lemma TwoParts(g: seq<Group>, k: nat)
    requires k <= |g|
    ensures g[..k] + g[k..] == g
  {
  }

  /** A value is in exactly one group. */
  lemma ValueOnce(s: seq<int>, k: nat, v: int)
    requires k <= |Groups(s)|
    ensures multiset(GroupValues(Groups(s)[..k]))[v] + multiset(GroupValues(Groups(s)[k..]))[v]
       == if v in s then 1 else 0
  {
    ValueInGroups(s, v);
    SplitGroups(Groups(s), k, v);
  }

  lemma SingleCount(s: seq<int>, k: nat, v: int)
    requires k <= |Groups(s)| && SinglesFrom(Groups(s), k) && v in GroupValues(Groups(s)[k..])
    ensures Count(s, v) == 1
  {
    var g := Groups(s);
    GroupFacts(s);
    var i := GroupOf(g[k..], v);
    assert g[k..][i] == g[k + i] && IsGroup(s, g[k + i]);
  }

  lemma KickerCount(s: seq<int>, k: nat, not: set<int>, v: int)
    requires k <= |Groups(s)| && SinglesFrom(Groups(s), k)
    requires v in not <==> v in GroupValues(Groups(s)[..k])
    ensures multiset(Except(s, not))[v] == multiset(GroupValues(Groups(s)[k..]))[v]
  {
    ExceptCounts(s, not, v);
    ValueOnce(s, k, v);
    CountIsMultiplicity(s, v);
    CountIsPositive(s, v);
    if v in GroupValues(Groups(s)[k..]) { SingleCount(s, k, v); }
  }

  /** Once the larger groups are set aside, the rest of the hand is the single ranks in descending order. */
  lemma KickersAreTheSingles(s: seq<int>, k: nat, not: set<int>)
    requires Sorted(s, AtLeast) && k <= |Groups(s)| && SinglesFrom(Groups(s), k)
    requires forall v :: v in not <==> v in GroupValues(Groups(s)[..k])
    ensures Except(s, not) == GroupValues(Groups(s)[k..])
  {
    var rest := GroupValues(Groups(s)[k..]);
    assert Sorted(rest, AtLeast) by {
      GroupFacts(s);
      SortedTail(Groups(s), k);
      SinglesDescend(Groups(s)[k..]);
    }
    ExceptIsSorted(s, not);
    forall v ensures multiset(Except(s, not))[v] == multiset(rest)[v] { KickerCount(s, k, not, v); }
    assert multiset(Except(s, not)) == multiset(rest);
    DescendingAgree(Except(s, not), rest);
  }

  lemma {:induction false} GroupOf(g: seq<Group>, v: int) returns (i: nat)
    requires v in GroupValues(g)
    ensures i < |g| && g[i].value == v
  {
    if g[0].value == v { i := 0; } else { i := GroupOf(g[1..], v); i := i + 1; }
  }

  lemma FrontValues(g: seq<Group>)
    ensures |g| >= 1 ==> GroupValues(g[..1]) == [g[0].value]
    ensures |g| >= 2 ==> GroupValues(g[..2]) == [g[0].value, g[1].value]
  {
    if |g| >= 2 { assert g[..2][1..] == [g[1]] && GroupValues([g[1]]) == [g[1].value]; }
  }

  lemma KickerExists(s: seq<int>, k: nat, not: set<int>)
    requires k < |Groups(s)| && forall v :: v in not <==> v in GroupValues(Groups(s)[..k])
    ensures Except(s, not) != []
  {
    var g := Groups(s);
    var first, rest, v := GroupValues(g[..k]), GroupValues(g[k..]), g[k].value;
    GroupFacts(s);
    assert g == g[..k] + g[k..];
    TotalOfParts(g[..k], g[k..]);
    assert rest[0] == v && v in rest;
    assert multiset(first)[v] + multiset(rest)[v] == multiset(Keys(s))[v];
    CountIsMultiplicity(Keys(s), v);
    KeysAreTheValues(s, v);
    assert v !in first;
    assert IsGroup(s, g[k]);
    CountIsMultiplicity(s, v);
    ExceptCounts(s, not, v);
  }

  // ---- scoring ----

  /** The score tuple of five ranks in descending order. */
  lemma {:induction false} MaxOfIsMax(s: seq<int>)
    requires s != []
    ensures MaxOf(s) in s && forall i | 0 <= i < |s| :: s[i] <= MaxOf(s)
  {
    if |s| > 1 {
      MaxOfIsMax(s[1..]);
      assert forall i | 1 <= i < |s| :: s[i] == s[1..][i - 1];
    }
  }

  function ScoreOf(values: seq<int>, flush: bool): seq<int>
    requires |values| == 5
  {
    FiveCardsMakeAPattern(values);
    var g := Groups(values);
    CountsOfGroups(g);
    FrontValues(g);
    var high := StraightHigh(values);
    if flush && high.Some? then [8, high.value]
    else if g[0].count == 4 then
      KickerExists(values, 1, {g[0].value});
      [7, g[0].value, MaxOf(Except(values, {g[0].value}))]
    else if g[0].count == 3 && g[1].count == 2 then [6, g[0].value, g[1].value]
    else if flush then [5] + values
    else if high.Some? then [4, high.value]
    else if g[0].count == 3 then [3, g[0].value] + Descending(Except(values, {g[0].value}))
    else if g[0].count == 2 && g[1].count == 2 then
      var a, b := g[0].value, g[1].value;
      KickerExists(values, 2, {a, b});
      [2, if a > b then a else b, if a > b then b else a, MaxOf(Except(values, {a, b}))]
    else if g[0].count == 2 then [1, g[0].value] + Descending(Except(values, {g[0].value}))
    else [0] + values
  }

  function ScoreFive(cards: seq<Card>): seq<int>
    requires |cards| == 5
  {
    DescendingPermutes(Ranks(cards));
    ScoreOf(Values(cards), IsFlush(cards))
  }

  lemma {:induction false} CountsOfGroups(g: seq<Group>)
    ensures |Counts(g)| == |g| && forall i | 0 <= i < |g| :: Counts(g)[i] == g[i].count
  {
    if g != [] { CountsOfGroups(g[1..]); }
  }
}
