/** What the score of a five-card hand says about the hand. */
module PokerMeaning {
  import opened Options
  import opened Seqs
  import opened StableSort
  import opened Cards
  import opened PokerHands
  import Lex

  // ---- runs ----

  /** Five consecutive ranks up to `h`, or ace to five with the ace low. */
  predicate Run(values: seq<int>, h: int) {
    values == [h, h - 1, h - 2, h - 3, h - 4] || (h == 5 && values == [14, 5, 4, 3, 2])
  }

  lemma {:induction false} SortedAt(s: seq<int>, i: nat, j: nat)
    requires Sorted(s, AtLeast) && i < j < |s|
    ensures s[i] >= s[j]
  {
    if i == 0 {
      assert AtLeast(s[0], s[1..][j - 1]);
    } else {
      SortedAt(s[1..], i - 1, j - 1);
    }
  }

  lemma FiveDescend(values: seq<int>)
    requires |values| == 5 && Sorted(values, AtLeast)
    ensures values[0] >= values[1] >= values[2] >= values[3] >= values[4]
  {
    SortedAt(values, 0, 1);
    SortedAt(values, 1, 2);
    SortedAt(values, 2, 3);
    SortedAt(values, 3, 4);
  }

  predicate NoRepeat(s: seq<int>) { s == [] || (s[0] !in s[1..] && NoRepeat(s[1..])) }

  lemma {:induction false} KeysOfDistinct(s: seq<int>)
    ensures |Keys(s)| <= |s| && (|Keys(s)| == |s| <==> NoRepeat(s))
    ensures NoRepeat(s) ==> Keys(s) == s
  {
    if s != [] {
      KeysOfDistinct(s[1..]);
      assert s == [s[0]] + s[1..];
    }
  }

  lemma {:induction false} NoRepeatAt(s: seq<int>, i: nat, j: nat)
    requires NoRepeat(s) && i < j < |s|
    ensures s[i] != s[j]
  {
    if i == 0 { assert s[j] == s[1..][j - 1]; } else { NoRepeatAt(s[1..], i - 1, j - 1); }
  }

  lemma {:induction false} StrictlyDescending(s: seq<int>)
    requires forall i, j | 0 <= i < j < |s| :: s[i] > s[j]
    ensures NoRepeat(s)
  {
    if s != [] { StrictlyDescending(s[1..]); }
  }

  /** Five sorted ranks are all different exactly when they strictly descend. */
  lemma NoRepeatOfFive(values: seq<int>)
    requires |values| == 5 && Sorted(values, AtLeast)
    ensures NoRepeat(values) <==> values[0] > values[1] > values[2] > values[3] > values[4]
  {
    FiveDescend(values);
    if NoRepeat(values) {
      NoRepeatAt(values, 0, 1);
      NoRepeatAt(values, 1, 2);
      NoRepeatAt(values, 2, 3);
      NoRepeatAt(values, 3, 4);
    } else if values[0] > values[1] > values[2] > values[3] > values[4] {
      StrictlyDescending(values);
    }
  }

  /** A straight is exactly a run, and its height is the top of the run. */
  lemma StraightIsARun(values: seq<int>, h: int)
    requires |values| == 5 && Sorted(values, AtLeast)
    ensures StraightHigh(values) == Some(h) <==> Run(values, h)
  {
    UniqueOfFive(values);
    NoRepeatOfFive(values);
    if NoRepeat(values) {
      assert values == [values[0], values[1], values[2], values[3], values[4]];
    }
  }

  lemma UniqueOfFive(values: seq<int>)
    requires |values| == 5 && Sorted(values, AtLeast)
    ensures if NoRepeat(values) then Unique(values) == values else |Unique(values)| != 5
  {
    KeysOfDistinct(values);
    DescendingPermutes(Keys(values));
    if NoRepeat(values) { SortOfSorted(values, AtLeast); }
  }

  // ---- the score by pattern ----

  /** The category of a hand that is not a straight, by the sizes of its groups of equal ranks. */
  function Category(counts: seq<int>, flush: bool): int {
    if counts == [4, 1] then 7
    else if counts == [3, 2] then 6
    else if flush then 5
    else if counts == [3, 1, 1] then 3
    else if counts == [2, 2, 1] then 2
    else if counts == [2, 1, 1, 1] then 1
    else 0
  }

  lemma {:induction false} SingleMax(s: seq<int>)
    requires |s| == 1
    ensures MaxOf(s) == s[0]
  {
  }

  /** The ranks by group are those of the first `k` groups followed by the kickers. */
  lemma FrontAndTail(values: seq<int>, k: nat, not: set<int>)
    requires |values| == 5 && Sorted(values, AtLeast) && k <= |Groups(values)| && SinglesFrom(Groups(values), k)
    requires forall v :: v in not <==> v in GroupValues(Groups(values)[..k])
    ensures var g, kickers := Groups(values), Except(values, not);
      GroupValues(g) == GroupValues(g[..k]) + kickers && |kickers| == |g| - k && Descending(kickers) == kickers
  {
    var g := Groups(values);
    KickersAreTheSingles(values, k, not);
    TotalOfParts(g[..k], g[k..]);
    assert g[..k] + g[k..] == g;
    GroupValuesLength(g[k..]);
    ExceptIsSorted(values, not);
    SortOfSorted(Except(values, not), AtLeast);
  }

  lemma {:induction false} NothingExcept(s: seq<int>)
    ensures Except(s, {}) == s
  {
    if s != [] {
      NothingExcept(s[1..]);
      assert s == [s[0]] + s[1..];
    }
  }

  predicate Plain(values: seq<int>) {
    |values| == 5 && Sorted(values, AtLeast) && StraightHigh(values).None?
  }

  /** Four of a kind, three of a kind or a pair: the group, then the single ranks. */
  lemma ScoreOneGroup(values: seq<int>, flush: bool)
    requires Plain(values)
    requires Counts(Groups(values)) == [4, 1] || (!flush && Counts(Groups(values)) in [[3, 1, 1], [2, 1, 1, 1]])
    ensures ScoreOf(values, flush) == [Category(Counts(Groups(values)), flush)] + GroupValues(Groups(values))
  {
    var g := Groups(values);
    CountsOfGroups(g);
    FrontValues(g);
    FrontAndTail(values, 1, {g[0].value});
    if Counts(g) == [4, 1] { SingleMax(Except(values, {g[0].value})); }
  }

  lemma ScoreTwoPair(values: seq<int>)
    requires Plain(values) && Counts(Groups(values)) == [2, 2, 1]
    ensures ScoreOf(values, false) == [2] + GroupValues(Groups(values))
  {
    var g := Groups(values);
    CountsOfGroups(g);
    assert g[0].value >= g[1].value by {
      GroupFacts(values);
      assert Stronger(g[0], g[1..][0]);
    }
    FrontValues(g);
    var not := {g[0].value, g[1].value};
    FrontAndTail(values, 2, not);
    SingleMax(Except(values, not));
    assert GroupValues(g) == [g[0].value, g[1].value, MaxOf(Except(values, not))];
  }

  lemma ScoreFullHouse(values: seq<int>, flush: bool)
    requires Plain(values) && Counts(Groups(values)) == [3, 2]
    ensures ScoreOf(values, flush) == [6] + GroupValues(Groups(values))
  {
    var g := Groups(values);
    CountsOfGroups(g);
    FrontValues(g);
    assert g[..2] == g;
  }

  /** Five single ranks are the ranks themselves. */
  lemma SinglesAreTheValues(values: seq<int>)
    requires Plain(values) && Counts(Groups(values)) == [1, 1, 1, 1, 1]
    ensures GroupValues(Groups(values)) == values
  {
    CountsOfGroups(Groups(values));
    assert GroupValues(Groups(values)[..0]) == [];
    FrontAndTail(values, 0, {});
    NothingExcept(values);
  }

  lemma ScoreSingles(values: seq<int>, flush: bool)
    requires Plain(values) && Counts(Groups(values)) == [1, 1, 1, 1, 1]
    ensures ScoreOf(values, flush) == [if flush then 5 else 0] + GroupValues(Groups(values))
  {
    SinglesAreTheValues(values);
    CountsOfGroups(Groups(values));
    assert Groups(values)[0].count == Counts(Groups(values))[0] == 1;
  }

  /** Five cards of one suit have five different ranks. */
  predicate Possible(values: seq<int>, flush: bool) {
    |values| == 5 && Counts(Groups(values)) != [5] && (flush ==> Counts(Groups(values)) == [1, 1, 1, 1, 1])
  }

  /**
    Unless it is a straight, a hand scores its category followed by its ranks, larger groups first, then higher
    ranks.
  */
  lemma ScoreIsCategoryThenGroups(values: seq<int>, flush: bool)
    requires Sorted(values, AtLeast) && Possible(values, flush)
    ensures var high := StraightHigh(values);
      ScoreOf(values, flush) == if high.Some? then [if flush then 8 else 4, high.value]
                                else [Category(Counts(Groups(values)), flush)] + GroupValues(Groups(values))
  {
    FiveCardsMakeAPattern(values);
    var c := Counts(Groups(values));
    if StraightHigh(values).Some? {
      StraightHasFiveGroups(values);
      CountsOfGroups(Groups(values));
    } else if c == [3, 2] {
      ScoreFullHouse(values, flush);
    } else if c == [2, 2, 1] {
      ScoreTwoPair(values);
    } else if c == [1, 1, 1, 1, 1] {
      ScoreSingles(values, flush);
    } else {
      ScoreOneGroup(values, flush);
    }
  }

  lemma StraightHasFiveGroups(values: seq<int>)
    requires |values| == 5 && Sorted(values, AtLeast) && StraightHigh(values).Some?
    ensures Counts(Groups(values)) == [1, 1, 1, 1, 1]
  {
    UniqueOfFive(values);
    FiveCardsMakeAPattern(values);
    KeysOfDistinct(values);
    GroupFacts(values);
    CountsOfGroups(Groups(values));
    GroupValuesLength(Groups(values));
    assert |Groups(values)| == |multiset(GroupValues(Groups(values)))| == |multiset(Keys(values))| == 5;
  }

  lemma {:induction false} GroupValuesLength(g: seq<Group>)
    ensures |GroupValues(g)| == |g|
  {
    if g != [] { GroupValuesLength(g[1..]); }
  }

  // ---- hands of five different cards ----

  predicate Hand(cards: seq<Card>) { |cards| == 5 && Distinct(cards) }

  lemma SuitsOfOne(cards: seq<Card>)
    requires cards != []
    ensures IsFlush(cards) <==> forall i | 0 <= i < |cards| :: cards[i].suit == cards[0].suit
  {
    var suits := Suits(cards);
    assert cards[0] in cards && cards[0].suit in suits;
    if forall i | 0 <= i < |cards| :: cards[i].suit == cards[0].suit {
      assert suits == {cards[0].suit};
    } else {
      var i :| 0 <= i < |cards| && cards[i].suit != cards[0].suit;
      assert cards[i] in cards && {cards[0].suit, cards[i].suit} <= suits;
      TwoIsMore(suits, cards[0].suit, cards[i].suit);
    }
  }

  lemma TwoIsMore<T>(s: set<T>, x: T, y: T)
    requires x in s && y in s && x != y
    ensures |s| >= 2
  {
    assert s == {x} + ({y} + (s - {x} - {y}));
  }

  lemma {:induction false} RanksAt(cards: seq<Card>, i: nat)
    requires i < |cards|
    ensures Ranks(cards)[i] == cards[i].rank
  {
    if i > 0 { RanksAt(cards[1..], i - 1); }
  }

  lemma {:induction false} FullCount(s: seq<int>, v: int, i: nat)
    requires Count(s, v) == |s| && i < |s|
    ensures s[i] == v
  {
    CountBound(s[1..], v);
    if i > 0 { FullCount(s[1..], v, i - 1); }
  }

  lemma {:induction false} CountOfNoRepeat(s: seq<int>, v: int)
    requires NoRepeat(s)
    ensures Count(s, v) <= 1
  {
    KeysOfDistinct(s);
    KeysAreTheValues(s, v);
  }

  lemma {:induction false} OneSuitNoRepeat(cards: seq<Card>)
    requires Distinct(cards) && forall i, j | 0 <= i < j < |cards| :: cards[i].suit == cards[j].suit
    ensures NoRepeat(Ranks(cards))
  {
    if cards != [] {
      OneSuitNoRepeat(cards[1..]);
      var rest := Ranks(cards[1..]);
      forall i | 0 <= i < |rest| ensures rest[i] != cards[0].rank {
        RanksAt(cards[1..], i);
        assert cards[1..][i] == cards[i + 1];
      }
    }
  }

  lemma RankCount(cards: seq<Card>, v: int)
    ensures Count(Values(cards), v) == Count(Ranks(cards), v)
  {
    DescendingPermutes(Ranks(cards));
    CountIsMultiplicity(Values(cards), v);
    CountIsMultiplicity(Ranks(cards), v);
  }

  function SuitNumber(s: Suit): (n: int)
    ensures 0 <= n < 4
    ensures s == if n == 0 then Spades else if n == 1 then Hearts else if n == 2 then Diamonds else Clubs
  {
    match s case Spades => 0 case Hearts => 1 case Diamonds => 2 case Clubs => 3
  }

  lemma FiveOfAKindRepeatsACard(cards: seq<Card>, v: int)
    requires |cards| == 5 && forall i | 0 <= i < 5 :: cards[i].rank == v
    ensures !Distinct(cards)
  {
    var a, b, c, d, e := cards[0], cards[1], cards[2], cards[3], cards[4];
    assert forall i | 0 <= i < 5 :: 0 <= SuitNumber(cards[i].suit) < 4;
    assert a == b || a == c || a == d || a == e || b == c || b == d || b == e || c == d || c == e || d == e;
  }

  /** Five different cards never hold five of a kind, and those of one suit hold no two of a kind. */
  lemma HandsArePossible(cards: seq<Card>)
    requires Hand(cards)
    ensures Sorted(Values(cards), AtLeast) && Possible(Values(cards), IsFlush(cards))
  {
    var values := Values(cards);
    DescendingPermutes(Ranks(cards));
    FiveCardsMakeAPattern(values);
    var g := Groups(values);
    CountsOfGroups(g);
    GroupFacts(values);
    var v := g[0].value;
    assert IsGroup(values, g[0]);
    RankCount(cards, v);
    if Counts(g) == [5] {
      forall i | 0 <= i < 5 ensures cards[i].rank == v {
        FullCount(Ranks(cards), v, i);
        RanksAt(cards, i);
      }
      FiveOfAKindRepeatsACard(cards, v);
    }
    if IsFlush(cards) {
      SuitsOfOne(cards);
      OneSuitNoRepeat(cards);
      CountOfNoRepeat(Ranks(cards), v);
    }
  }

  /** The score of a hand, read off its runs, its groups of equal ranks and its suits. */
  lemma HandScore(cards: seq<Card>)
    requires Hand(cards)
    ensures |Values(cards)| == 5
    ensures var values, high := Values(cards), StraightHigh(Values(cards));
      ScoreFive(cards) == if high.Some? then [if IsFlush(cards) then 8 else 4, high.value]
                          else [Category(Counts(Groups(values)), IsFlush(cards))] + GroupValues(Groups(values))
  {
    HandsArePossible(cards);
    ScoreIsCategoryThenGroups(Values(cards), IsFlush(cards));
  }

  /** The length of the score tuple is fixed by its category. */
  lemma ScoreLength(cards: seq<Card>)
    requires Hand(cards)
    ensures ScoreFive(cards) != []
    ensures var c, n := ScoreFive(cards)[0], |ScoreFive(cards)|;
      && 0 <= c <= 8
      && n == if c == 8 || c == 4 then 2 else if c == 7 || c == 6 then 3
              else if c == 3 || c == 2 then 4 else if c == 1 then 5 else 6
  {
    HandScore(cards);
    HandsArePossible(cards);
    FiveCardsMakeAPattern(Values(cards));
    CountsOfGroups(Groups(Values(cards)));
    GroupValuesLength(Groups(Values(cards)));
  }

  // ---- categories in plain terms ----

  /** Some rank occurs exactly `n` times. */
  ghost predicate OfAKind(values: seq<int>, n: nat) { exists v :: Count(values, v) == n }

  ghost predicate TwoPairs(values: seq<int>) { exists v, w :: v != w && Count(values, v) == 2 && Count(values, w) == 2 }

  ghost predicate AnyRun(values: seq<int>) { exists h :: Run(values, h) }

  lemma GroupHolding(values: seq<int>, v: int) returns (i: nat)
    requires Count(values, v) > 0
    ensures i < |Groups(values)| && Groups(values)[i].value == v && Groups(values)[i].count == Count(values, v)
  {
    CountIsPositive(values, v);
    ValueInGroups(values, v);
    assert v in GroupValues(Groups(values));
    i := GroupOf(Groups(values), v);
    GroupFacts(values);
    assert IsGroup(values, Groups(values)[i]);
  }

  lemma KindIsAGroup(values: seq<int>, n: nat)
    requires n > 0
    ensures OfAKind(values, n) <==> n in Counts(Groups(values))
  {
    var g := Groups(values);
    CountsOfGroups(g);
    GroupFacts(values);
    if OfAKind(values, n) {
      var v :| Count(values, v) == n;
      var i := GroupHolding(values, v);
      assert Counts(g)[i] == n;
    }
    if n in Counts(g) {
      var i :| 0 <= i < |g| && Counts(g)[i] == n;
      assert IsGroup(values, g[i]);
      assert Count(values, g[i].value) == n;
    }
  }

  lemma TwoPairsAreGroups(values: seq<int>)
    requires |values| == 5
    ensures TwoPairs(values) <==> Counts(Groups(values)) == [2, 2, 1]
  {
    var g := Groups(values);
    FiveCardsMakeAPattern(values);
    CountsOfGroups(g);
    if TwoPairs(values) {
      var v, w :| v != w && Count(values, v) == 2 && Count(values, w) == 2;
      var i := GroupHolding(values, v);
      var j := GroupHolding(values, w);
      assert Counts(g)[i] == 2 && Counts(g)[j] == 2 && i != j;
    }
    if Counts(g) == [2, 2, 1] {
      GroupFacts(values);
      assert IsGroup(values, g[0]) && IsGroup(values, g[1]);
      ValueInGroups(values, g[0].value);
      FrontValues(g);
      SplitGroups(g, 2, g[0].value);
      assert multiset([g[0].value, g[1].value])[g[0].value] <= 1;
      assert g[0].value != g[1].value;
    }
  }

  lemma RunsAreStraights(values: seq<int>)
    requires |values| == 5 && Sorted(values, AtLeast)
    ensures AnyRun(values) <==> StraightHigh(values).Some?
  {
    if AnyRun(values) {
      var h :| Run(values, h);
      StraightIsARun(values, h);
    }
    if StraightHigh(values).Some? { StraightIsARun(values, StraightHigh(values).value); }
  }

  lemma KindsByPattern(values: seq<int>)
    requires |values| == 5
    ensures var c := Counts(Groups(values));
      && IsPattern(c)
      && (OfAKind(values, 4) <==> c == [4, 1])
      && (OfAKind(values, 3) <==> c == [3, 2] || c == [3, 1, 1])
      && (OfAKind(values, 2) <==> c == [3, 2] || c == [2, 2, 1] || c == [2, 1, 1, 1])
      && (TwoPairs(values) <==> c == [2, 2, 1])
  {
    FiveCardsMakeAPattern(values);
    KindIsAGroup(values, 4);
    KindIsAGroup(values, 3);
    KindIsAGroup(values, 2);
    TwoPairsAreGroups(values);
  }

  /** Each category holds exactly when its pattern of equal ranks, suits and runs does. */
  lemma CategoryMeans(cards: seq<Card>)
    requires Hand(cards)
    ensures |ScoreFive(cards)| > 0
    ensures var values, flush, c := Values(cards), IsFlush(cards), ScoreFive(cards)[0];
      && (c == 8 <==> flush && AnyRun(values))
      && (c == 7 <==> OfAKind(values, 4))
      && (c == 6 <==> OfAKind(values, 3) && OfAKind(values, 2))
      && (c == 5 <==> flush && !AnyRun(values))
      && (c == 4 <==> !flush && AnyRun(values))
      && (c == 3 <==> OfAKind(values, 3) && !OfAKind(values, 2))
      && (c == 2 <==> TwoPairs(values))
      && (c == 1 <==> OfAKind(values, 2) && !TwoPairs(values) && !OfAKind(values, 3))
      && (c == 0 <==> !flush && !AnyRun(values) && !OfAKind(values, 2) && !OfAKind(values, 3) && !OfAKind(values, 4))
  {
    var values := Values(cards);
    HandScore(cards);
    HandsArePossible(cards);
    KindsByPattern(values);
    RunsAreStraights(values);
    if StraightHigh(values).Some? { StraightHasFiveGroups(values); }
  }

  // ---- ties ----

  lemma {:induction false} SameGroups(g: seq<Group>, h: seq<Group>)
    requires Counts(g) == Counts(h) && GroupValues(g) == GroupValues(h) && |g| == |h|
    ensures g == h
  {
    if g != [] {
      assert Counts(g)[1..] == Counts(g[1..]) && Counts(h)[1..] == Counts(h[1..]);
      assert GroupValues(g)[1..] == GroupValues(g[1..]) && GroupValues(h)[1..] == GroupValues(h[1..]);
      assert Counts(g)[0] == g[0].count && Counts(h)[0] == h[0].count;
      assert GroupValues(g)[0] == g[0].value && GroupValues(h)[0] == h[0].value;
      SameGroups(g[1..], h[1..]);
      assert g == [g[0]] + g[1..] && h == [h[0]] + h[1..];
    }
  }

  lemma CountFromGroups(a: seq<int>, b: seq<int>, v: int)
    requires Groups(a) == Groups(b)
    ensures Count(a, v) <= Count(b, v)
  {
    if Count(a, v) > 0 {
      var i := GroupHolding(a, v);
      GroupFacts(b);
      assert IsGroup(b, Groups(b)[i]);
    }
  }

  /** The groups determine the ranks. */
  lemma GroupsDetermineRanks(a: seq<int>, b: seq<int>)
    requires Sorted(a, AtLeast) && Sorted(b, AtLeast) && Groups(a) == Groups(b)
    ensures a == b
  {
    forall v ensures multiset(a)[v] == multiset(b)[v] {
      CountFromGroups(a, b, v);
      CountFromGroups(b, a, v);
      CountIsMultiplicity(a, v);
      CountIsMultiplicity(b, v);
    }
    assert multiset(a) == multiset(b);
    DescendingAgree(a, b);
  }

  lemma {:induction false} RanksAreRanks(cards: seq<Card>, i: nat)
    requires i < |Values(cards)|
    ensures 2 <= Values(cards)[i] <= 14
  {
    var v := Values(cards)[i];
    DescendingPermutes(Ranks(cards));
    assert v in multiset(Values(cards));
    assert v in Ranks(cards);
    var k :| 0 <= k < |Ranks(cards)| && Ranks(cards)[k] == v;
    RanksAt(cards, k);
  }

  /** Two hands tie exactly when they hold the same ranks and both or neither are of one suit. */
  lemma TieMeansSameRanks(a: seq<Card>, b: seq<Card>)
    requires Hand(a) && Hand(b)
    ensures ScoreFive(a) == ScoreFive(b) <==> Values(a) == Values(b) && IsFlush(a) == IsFlush(b)
  {
    if ScoreFive(a) == ScoreFive(b) {
      HandScore(a);
      HandScore(b);
      HandsArePossible(a);
      HandsArePossible(b);
      ScoresSplit(Values(a), IsFlush(a), Values(b), IsFlush(b));
      if StraightHigh(Values(a)).Some? {
        SameStraight(a, b);
      } else {
        SamePattern(Values(a), IsFlush(a), Values(b), IsFlush(b));
      }
    }
  }

  function Outline(values: seq<int>, flush: bool): seq<int> {
    if StraightHigh(values).Some? then [if flush then 8 else 4, StraightHigh(values).value]
    else [Category(Counts(Groups(values)), flush)] + GroupValues(Groups(values))
  }

  lemma ScoresSplit(a: seq<int>, f: bool, b: seq<int>, g: bool)
    requires Outline(a, f) == Outline(b, g)
    ensures StraightHigh(a) == StraightHigh(b)
    ensures StraightHigh(a).Some? ==> f == g
    ensures StraightHigh(a).None? ==> Category(Counts(Groups(a)), f) == Category(Counts(Groups(b)), g)
    ensures StraightHigh(a).None? ==> GroupValues(Groups(a)) == GroupValues(Groups(b))
  {
    var x, y := Outline(a, f), Outline(b, g);
    assert x[0] == y[0] && x[1..] == y[1..];
    assert (x[0] == 8 || x[0] == 4) <==> StraightHigh(a).Some?;
    assert (y[0] == 8 || y[0] == 4) <==> StraightHigh(b).Some?;
    if StraightHigh(a).Some? { assert x[1] == y[1]; }
  }

  lemma SameStraight(a: seq<Card>, b: seq<Card>)
    requires Hand(a) && Hand(b) && StraightHigh(Values(a)).Some? && StraightHigh(Values(a)) == StraightHigh(Values(b))
    ensures Values(a) == Values(b)
  {
    var h := StraightHigh(Values(a)).value;
    HandsArePossible(a);
    HandsArePossible(b);
    StraightIsARun(Values(a), h);
    StraightIsARun(Values(b), h);
    RanksAreRanks(a, 4);
    RanksAreRanks(b, 4);
  }

  lemma SamePattern(a: seq<int>, f: bool, b: seq<int>, g: bool)
    requires Sorted(a, AtLeast) && Sorted(b, AtLeast) && Possible(a, f) && Possible(b, g)
    requires Category(Counts(Groups(a)), f) == Category(Counts(Groups(b)), g)
    requires GroupValues(Groups(a)) == GroupValues(Groups(b))
    ensures a == b && f == g
  {
    FiveCardsMakeAPattern(a);
    FiveCardsMakeAPattern(b);
    SameGroups(Groups(a), Groups(b));
    GroupsDetermineRanks(a, b);
  }

  // ---- what does not matter ----

  lemma {:induction false} RanksOfConcatenation(a: seq<Card>, b: seq<Card>)
    ensures Ranks(a + b) == Ranks(a) + Ranks(b)
  {
    if a == [] {
      assert a + b == b;
    } else {
      assert (a + b)[1..] == a[1..] + b;
      RanksOfConcatenation(a[1..], b);
    }
  }

  lemma {:induction false} RanksOfPermutation(a: seq<Card>, b: seq<Card>)
    requires multiset(a) == multiset(b)
    ensures multiset(Ranks(a)) == multiset(Ranks(b))
  {
    if a == [] {
      assert |multiset(b)| == 0;
    } else {
      var j := MatchHead(a, b);
      RanksOfPermutation(a[1..], Without(b, j));
      var before, after := b[..j], b[j + 1..];
      assert b == before + ([b[j]] + after);
      RanksOfConcatenation(before, [b[j]] + after);
      RanksOfConcatenation(before, after);
      assert ([b[j]] + after)[1..] == after;
    }
  }

  /** The order of the cards does not matter. */
  lemma ScoreIgnoresOrder(a: seq<Card>, b: seq<Card>)
    requires |a| == 5 && multiset(a) == multiset(b)
    ensures |b| == 5 && ScoreFive(a) == ScoreFive(b)
  {
    assert |multiset(a)| == |a| && |multiset(b)| == |b|;
    RanksOfPermutation(a, b);
    DescendingPermutes(Ranks(a));
    DescendingPermutes(Ranks(b));
    DescendingAgree(Values(a), Values(b));
    forall c ensures c in a <==> c in b {
      assert c in a <==> c in multiset(a);
      assert c in b <==> c in multiset(b);
    }
    assert Suits(a) == Suits(b);
  }

  function Recolour(cards: seq<Card>, f: Suit -> Suit): (r: seq<Card>)
    ensures |r| == |cards| && forall i | 0 <= i < |cards| :: r[i] == Card(cards[i].rank, f(cards[i].suit))
  {
    if cards == [] then [] else [Card(cards[0].rank, f(cards[0].suit))] + Recolour(cards[1..], f)
  }

  lemma {:induction false} RanksOfRecoloured(cards: seq<Card>, f: Suit -> Suit)
    ensures Ranks(Recolour(cards, f)) == Ranks(cards)
  {
    if cards != [] {
      RanksOfRecoloured(cards[1..], f);
      assert Recolour(cards, f)[1..] == Recolour(cards[1..], f);
    }
  }

  /** Renaming the suits does not matter. */
  lemma ScoreIgnoresSuitNames(cards: seq<Card>, f: Suit -> Suit)
    requires |cards| == 5 && forall s, t :: f(s) == f(t) ==> s == t
    ensures ScoreFive(Recolour(cards, f)) == ScoreFive(cards)
  {
    RanksOfRecoloured(cards, f);
    FlushOfRecoloured(cards, f);
  }

  lemma FlushOfRecoloured(cards: seq<Card>, f: Suit -> Suit)
    requires cards != [] && forall s, t :: f(s) == f(t) ==> s == t
    ensures IsFlush(Recolour(cards, f)) == IsFlush(cards)
  {
    var r := Recolour(cards, f);
    SuitsOfOne(cards);
    SuitsOfOne(r);
    if IsFlush(r) {
      forall i | 0 <= i < |cards| ensures cards[i].suit == cards[0].suit {
        assert r[i].suit == r[0].suit;
      }
    }
  }

  /** Ace to five is the lowest straight. */
  lemma WheelIsLowest(wheel: seq<Card>, other: seq<Card>)
    requires Hand(wheel) && Hand(other) && Values(wheel) == [14, 5, 4, 3, 2]
    requires AnyRun(Values(other)) && IsFlush(wheel) == IsFlush(other)
    ensures Lex.AtMost(ScoreFive(wheel), ScoreFive(other))
    ensures ScoreFive(wheel) == ScoreFive(other) <==> Values(other) == [14, 5, 4, 3, 2]
  {
    var h :| Run(Values(other), h);
    HandScore(wheel);
    HandScore(other);
    HandsArePossible(wheel);
    HandsArePossible(other);
    StraightIsARun(Values(wheel), 5);
    StraightIsARun(Values(other), h);
    RanksAreRanks(other, 4);
    assert ScoreFive(wheel)[1..] == [5] && ScoreFive(other)[1..] == [h];
  }
}
