/** The best five of any number of cards, and the round of casino hold'em built on it. */
module PokerBest {
  import opened Options
  import opened Cards
  import opened PokerHands
  import opened PokerMeaning

  function Prefix(c: Card, hands: seq<seq<Card>>): seq<seq<Card>> {
    if hands == [] then [] else [[c] + hands[0]] + Prefix(c, hands[1..])
  }

  /** `itertools.combinations(cards, k)`. */
  function Combinations(cards: seq<Card>, k: nat): seq<seq<Card>> {
    if k == 0 then [[]]
    else if cards == [] then []
    else Prefix(cards[0], Combinations(cards[1..], k - 1)) + Combinations(cards[1..], k)
  }

  predicate Subsequence(h: seq<Card>, cards: seq<Card>) {
    h == [] || (cards != [] && ((h[0] == cards[0] && Subsequence(h[1..], cards[1..])) || Subsequence(h, cards[1..])))
  }

  lemma {:induction false} InPrefix(c: Card, hands: seq<seq<Card>>, h: seq<Card>)
    ensures h in Prefix(c, hands) <==> h != [] && h[0] == c && h[1..] in hands
  {
    if hands != [] {
      InPrefix(c, hands[1..], h);
      assert hands == [hands[0]] + hands[1..];
      if h != [] && h[0] == c && h[1..] == hands[0] { assert h == [c] + hands[0]; }
    }
  }

  lemma InCombinations(cards: seq<Card>, k: nat, h: seq<Card>)
    requires k > 0 && cards != []
    ensures h in Combinations(cards, k)
       <==> h in Combinations(cards[1..], k)
            || (h != [] && h[0] == cards[0] && h[1..] in Combinations(cards[1..], k - 1))
  {
    InPrefix(cards[0], Combinations(cards[1..], k - 1), h);
  }

  lemma {:induction false} CombinationIsSubsequence(cards: seq<Card>, k: nat, h: seq<Card>)
    requires h in Combinations(cards, k)
    ensures |h| == k && Subsequence(h, cards)
  {
    if k > 0 && cards != [] {
      InCombinations(cards, k, h);
      if h in Combinations(cards[1..], k) {
        CombinationIsSubsequence(cards[1..], k, h);
      } else {
        CombinationIsSubsequence(cards[1..], k - 1, h[1..]);
        assert h[0] == cards[0] && Subsequence(h[1..], cards[1..]);
      }
    }
  }

  lemma {:induction false} SubsequenceIsCombination(cards: seq<Card>, k: nat, h: seq<Card>)
    requires Subsequence(h, cards) && |h| == k
    ensures h in Combinations(cards, k)
  {
    if k == 0 {
      assert h == [];
    } else if h[0] == cards[0] && Subsequence(h[1..], cards[1..]) {
      SubsequenceIsCombination(cards[1..], k - 1, h[1..]);
      InCombinations(cards, k, h);
    } else {
      SubsequenceIsCombination(cards[1..], k, h);
      InCombinations(cards, k, h);
    }
  }

  /** The combinations are exactly the subsequences of that length. */
  lemma CombinationsAreSubsequences(cards: seq<Card>, k: nat, h: seq<Card>)
    ensures h in Combinations(cards, k) <==> |h| == k && Subsequence(h, cards)
  {
    if h in Combinations(cards, k) { CombinationIsSubsequence(cards, k, h); }
    if |h| == k && Subsequence(h, cards) { SubsequenceIsCombination(cards, k, h); }
  }

  lemma {:induction false} SubsequenceIsPart(h: seq<Card>, cards: seq<Card>)
    requires Subsequence(h, cards)
    ensures multiset(h) <= multiset(cards)
  {
    if h != [] {
      assert cards == [cards[0]] + cards[1..] && h == [h[0]] + h[1..];
      if h[0] == cards[0] && Subsequence(h[1..], cards[1..]) {
        SubsequenceIsPart(h[1..], cards[1..]);
      } else {
        SubsequenceIsPart(h, cards[1..]);
      }
    }
  }

  lemma RemoveFromBoth<T>(a: multiset<T>, b: multiset<T>, x: T)
    requires a <= b
    ensures a - multiset{x} <= b - multiset{x}
    ensures x !in a ==> a <= b - multiset{x}
  {
  }

  /** Cards held in any order stand in some order among the cards. */
  lemma {:induction false} PartHasSubsequence(m: multiset<Card>, cards: seq<Card>) returns (s: seq<Card>)
    requires m <= multiset(cards)
    ensures Subsequence(s, cards) && multiset(s) == m
    decreases |cards|
  {
    if cards == [] {
      s := [];
    } else {
      HeadApart(cards);
      RemoveFromBoth(m, multiset(cards), cards[0]);
      if cards[0] in m {
        var t := PartHasSubsequence(m - multiset{cards[0]}, cards[1..]);
        s := TakeHead(t, m, cards);
      } else {
        s := PartHasSubsequence(m, cards[1..]);
      }
    }
  }

  lemma TakeHead(t: seq<Card>, m: multiset<Card>, cards: seq<Card>) returns (s: seq<Card>)
    requires cards != [] && Subsequence(t, cards[1..]) && cards[0] in m && multiset(t) == m - multiset{cards[0]}
    ensures Subsequence(s, cards) && multiset(s) == m
  {
    s := [cards[0]] + t;
    assert s[1..] == t;
    HeadApart(s);
  }

  lemma HeadApart(cards: seq<Card>)
    requires cards != []
    ensures multiset(cards[1..]) == multiset(cards) - multiset{cards[0]}
    ensures multiset(cards) == multiset(cards[1..]) + multiset{cards[0]}
  {
    assert cards == [cards[0]] + cards[1..];
  }

  // ---- the best hand ----

  datatype Best = Best(score: seq<int>, hand: seq<Card>)

  /** Candidates with their scores, for any way of scoring. */
  function Scored(hands: seq<seq<Card>>, score: seq<Card> -> seq<int>): seq<Best> {
    if hands == [] then [] else var n := |hands| - 1; Scored(hands[..n], score) + [Best(score(hands[n]), hands[n])]
  }

  /** The first candidate with the highest score. */
  function BestOf(scored: seq<Best>): Option<Best> {
    if scored == [] then None
    else
      var n := |scored| - 1;
      var best := BestOf(scored[..n]);
      if best.None? || Lex.Less(best.value.score, scored[n].score) then Some(scored[n]) else best
  }

  /** The score of a combination; they all have five cards. */
  function Score(hand: seq<Card>): seq<int> { if |hand| == 5 then ScoreFive(hand) else [] }

  function BestHand(cards: seq<Card>): Best {
    var best := BestOf(Scored(Combinations(cards, 5), Score));
    if best.None? then Best([0], []) else best.value
  }

  method BestOfSeven(cards: seq<Card>) returns (score: seq<int>, hand: seq<Card>)
    ensures Best(score, hand) == BestHand(cards)
  {
    var best := FirstHighest(Combinations(cards, 5), Score);
    if best.None? { return [0], []; }
    return best.value.score, best.value.hand;
  }

  method FirstHighest(hands: seq<seq<Card>>, score: seq<Card> -> seq<int>) returns (best: Option<Best>)
    ensures best == BestOf(Scored(hands, score))
  {
    best := None;
    for i := 0 to |hands|
      invariant best == BestOf(Scored(hands[..i], score))
    {
      var next := Best(score(hands[i]), hands[i]);
      assert hands[..i + 1][..i] == hands[..i];
      assert Scored(hands[..i + 1], score)[..i] == Scored(hands[..i], score) by { ScoredLength(hands[..i], score); }
      if best.None? || Lex.Less(best.value.score, next.score) { best := Some(next); }
    }
    assert hands[..|hands|] == hands;
  }

  lemma {:induction false} ScoredLength(hands: seq<seq<Card>>, score: seq<Card> -> seq<int>)
    ensures |Scored(hands, score)| == |hands|
  {
    if hands != [] { ScoredLength(hands[..|hands| - 1], score); }
  }

  lemma {:induction false} ScoredAt(hands: seq<seq<Card>>, score: seq<Card> -> seq<int>, i: nat)
    requires i < |hands|
    ensures |Scored(hands, score)| == |hands| && Scored(hands, score)[i] == Best(score(hands[i]), hands[i])
  {
    var n := |hands| - 1;
    ScoredLength(hands[..n], score);
    if i < n { ScoredAt(hands[..n], score, i); }
  }

  lemma {:induction false} BestOfIsMaximum(scored: seq<Best>)
    requires scored != []
    ensures BestOf(scored).Some? && BestOf(scored).value in scored
    ensures forall i | 0 <= i < |scored| :: Lex.AtMost(scored[i].score, BestOf(scored).value.score)
  {
    var n := |scored| - 1;
    if n > 0 {
      BestOfIsMaximum(scored[..n]);
      var before := BestOf(scored[..n]).value;
      forall i | 0 <= i < |scored| ensures Lex.AtMost(scored[i].score, BestOf(scored).value.score) {
        if i < n { assert scored[..n][i] == scored[i]; }
        KeepsTheMaximum(scored[i].score, before.score, scored[n].score);
      }
    }
  }

  lemma KeepsTheMaximum(x: seq<int>, best: seq<int>, next: seq<int>)
    ensures Lex.AtMost(x, best) ==> Lex.AtMost(x, if Lex.Less(best, next) then next else best)
    ensures Lex.AtMost(next, if Lex.Less(best, next) then next else best)
  {
    Lex.Trichotomy(next, best);
    if Lex.Less(x, best) && Lex.Less(best, next) { Lex.LessTransitive(x, best, next); }
  }

  lemma SomeFive(cards: seq<Card>)
    requires |cards| >= 5
    ensures Combinations(cards, 5) != []
  {
    CombinationsAreSubsequences(cards, 5, cards[..5]);
    FirstFive(cards, 5);
  }

  lemma BestAmong(hands: seq<seq<Card>>, score: seq<Card> -> seq<int>)
    requires hands != []
    ensures BestOf(Scored(hands, score)).Some?
    ensures var b := BestOf(Scored(hands, score)).value; b.hand in hands && b.score == score(b.hand)
    ensures forall h | h in hands :: Lex.AtMost(score(h), BestOf(Scored(hands, score)).value.score)
  {
    ScoredLength(hands, score);
    BestOfIsMaximum(Scored(hands, score));
    var b := BestOf(Scored(hands, score)).value;
    var k :| 0 <= k < |hands| && Scored(hands, score)[k] == b;
    ScoredAt(hands, score, k);
    forall h | h in hands ensures Lex.AtMost(score(h), b.score) {
      var i :| 0 <= i < |hands| && hands[i] == h;
      ScoredAt(hands, score, i);
    }
  }

  lemma BestHandAmongCombinations(cards: seq<Card>)
    requires |cards| >= 5
    ensures var b := BestHand(cards); |b.hand| == 5 && b.hand in Combinations(cards, 5) && b.score == ScoreFive(b.hand)
    ensures forall h | h in Combinations(cards, 5) && |h| == 5 :: Lex.AtMost(ScoreFive(h), BestHand(cards).score)
  {
    SomeFive(cards);
    BestAmong(Combinations(cards, 5), Score);
    CombinationsAreSubsequences(cards, 5, BestHand(cards).hand);
    forall h | h in Combinations(cards, 5) && |h| == 5 ensures Lex.AtMost(ScoreFive(h), BestHand(cards).score) {
      assert Score(h) == ScoreFive(h);
    }
  }

  /** The best hand is a five-card subsequence, and no five of the cards, in any order, score more. */
  lemma BestHandIsBest(cards: seq<Card>)
    requires |cards| >= 5
    ensures var b := BestHand(cards); |b.hand| == 5 && Subsequence(b.hand, cards) && b.score == ScoreFive(b.hand)
    ensures forall h: seq<Card> | |h| == 5 && multiset(h) <= multiset(cards)
      :: Lex.AtMost(ScoreFive(h), BestHand(cards).score)
  {
    BestHandAmongCombinations(cards);
    CombinationsAreSubsequences(cards, 5, BestHand(cards).hand);
    forall h: seq<Card> | |h| == 5 && multiset(h) <= multiset(cards)
      ensures Lex.AtMost(ScoreFive(h), BestHand(cards).score)
    {
      var s := PartHasSubsequence(multiset(h), cards);
      ScoreIgnoresOrder(h, s);
      CombinationsAreSubsequences(cards, 5, s);
    }
  }

  lemma {:induction false} BestOfIsFirst(scored: seq<Best>) returns (k: nat)
    requires scored != []
    ensures k < |scored| && BestOf(scored) == Some(scored[k])
    ensures forall j | 0 <= j < k :: Lex.Less(scored[j].score, scored[k].score)
  {
    var n := |scored| - 1;
    if n == 0 {
      k := 0;
      assert BestOf(scored[..n]) == None;
    } else {
      var before := BestOfIsFirst(scored[..n]);
      if Lex.Less(scored[before].score, scored[n].score) {
        k := n;
        BestOfIsMaximum(scored[..n]);
        forall j | 0 <= j < n ensures Lex.Less(scored[j].score, scored[n].score) {
          assert scored[..n][j] == scored[j];
          if scored[j].score != scored[before].score {
            Lex.LessTransitive(scored[j].score, scored[before].score, scored[n].score);
          }
        }
      } else {
        k := before;
        forall j | 0 <= j < k ensures Lex.Less(scored[j].score, scored[k].score) { assert scored[..n][j] == scored[j]; }
      }
    }
  }

  /** Among hands that score the same, the one met first is kept. */
  lemma BestIsFirst(cards: seq<Card>) returns (k: nat)
    requires |cards| >= 5
    ensures var hands := Combinations(cards, 5);
      k < |hands| && BestHand(cards).hand == hands[k] && |hands[k]| == 5
      && forall j | 0 <= j < k :: |hands[j]| == 5 ==> Lex.Less(ScoreFive(hands[j]), ScoreFive(hands[k]))
  {
    var hands := Combinations(cards, 5);
    SomeFive(cards);
    BestHandAmongCombinations(cards);
    ScoredLength(hands, Score);
    k := BestOfIsFirst(Scored(hands, Score));
    ScoredAt(hands, Score, k);
    forall j | 0 <= j < k && |hands[j]| == 5 ensures Lex.Less(ScoreFive(hands[j]), ScoreFive(hands[k])) {
      ScoredAt(hands, Score, j);
    }
  }

  /** Combinations come in the order of `itertools.combinations`: first those with the first card. */
  lemma CombinationsInOrder(cards: seq<Card>, k: nat)
    requires cards != [] && k > 0
    ensures var first, rest := Combinations(cards[1..], k - 1), Combinations(cards[1..], k);
      && |Combinations(cards, k)| == |first| + |rest|
      && (forall i | 0 <= i < |first| :: Combinations(cards, k)[i] == [cards[0]] + first[i])
      && forall i | 0 <= i < |rest| :: Combinations(cards, k)[|first| + i] == rest[i]
  {
    PrefixAt(cards[0], Combinations(cards[1..], k - 1));
  }

  lemma {:induction false} PrefixAt(c: Card, hands: seq<seq<Card>>)
    ensures |Prefix(c, hands)| == |hands| && forall i | 0 <= i < |hands| :: Prefix(c, hands)[i] == [c] + hands[i]
  {
    if hands != [] { PrefixAt(c, hands[1..]); }
  }

  lemma {:induction false} FirstFive(cards: seq<Card>, n: nat)
    requires n <= |cards|
    ensures Subsequence(cards[..n], cards)
  {
    if n > 0 {
      FirstFive(cards[1..], n - 1);
      assert cards[..n][1..] == cards[1..][..n - 1];
    }
  }

  lemma TooFewCards(cards: seq<Card>)
    requires |cards| < 5
    ensures BestHand(cards) == Best([0], [])
  {
    var hands := Combinations(cards, 5);
    if hands != [] {
      CombinationsAreSubsequences(cards, 5, hands[0]);
      SubsequenceIsPart(hands[0], cards);
      PartIsNoLonger(hands[0], cards);
    }
  }

  lemma PartIsNoLonger(h: seq<Card>, cards: seq<Card>)
    requires multiset(h) <= multiset(cards)
    ensures |h| <= |cards|
  {
    assert multiset(cards) == multiset(h) + (multiset(cards) - multiset(h));
    assert |multiset(cards)| == |cards| && |multiset(h)| == |h|;
  }

  /** More cards never make the best hand worse. */
  lemma MoreCardsNeverHurt(cards: seq<Card>, more: seq<Card>)
    requires multiset(cards) <= multiset(more)
    ensures Lex.AtMost(BestHand(cards).score, BestHand(more).score)
  {
    PartIsNoLonger(cards, more);
    if |cards| >= 5 {
      BestHandIsBest(cards);
      BestHandIsBest(more);
      SubsequenceIsPart(BestHand(cards).hand, cards);
    } else {
      TooFewCards(cards);
      if |more| >= 5 {
        BestHandIsBest(more);
        ScoreIsNotBelowZero(BestHand(more).hand);
      } else {
        TooFewCards(more);
      }
    }
  }

  lemma ScoreIsNotBelowZero(hand: seq<Card>)
    requires |hand| == 5
    ensures Lex.AtMost([0], ScoreFive(hand))
  {
    var s := ScoreFive(hand);
    assert s != [] && s[0] >= 0;
    assert [0][1..] == [];
  }

  /** The order in which the cards came does not matter. */
  lemma BestIgnoresOrder(a: seq<Card>, b: seq<Card>)
    requires multiset(a) == multiset(b)
    ensures BestHand(a).score == BestHand(b).score
  {
    MoreCardsNeverHurt(a, b);
    MoreCardsNeverHurt(b, a);
    Lex.Trichotomy(BestHand(a).score, BestHand(b).score);
  }
}

module PokerGame {
  import opened Options
  import opened Cards
  import opened PokerHands
  import opened PokerMeaning
  import opened PokerBest

  datatype Phase = Decision | Resolved

  datatype State = State(deck: seq<Card>, player: seq<Card>, dealer: seq<Card>, community: seq<Card>,
                         action: Option<string>, phase: Phase)

  function Deal(deck: seq<Card>): State
    requires |deck| == 52
  {
    State(deck[..45], Popped(deck, 2), Popped(deck[..50], 2), Popped(deck[..48], 3), None, Decision)
  }

  /** `while len(community) < 5 and deck`. */
  function Missing(s: State): nat {
    if |s.community| >= 5 then 0 else if 5 - |s.community| <= |s.deck| then 5 - |s.community| else |s.deck|
  }

  function Apply(s: State, action: string): State {
    if s.phase != Decision then s
    else if action == "fold" then s.(action := Some("fold"), phase := Resolved)
    else if action == "call" then
      s.(community := s.community + Popped(s.deck, Missing(s)), deck := s.deck[..|s.deck| - Missing(s)],
         action := Some("call"), phase := Resolved)
    else s
  }

  function ValidActions(s: State): seq<string> { if s.phase == Decision then ["call", "fold"] else [] }

  predicate IsResolved(s: State) { s.phase == Resolved }

  // ---- rounds played by valid actions ----

  /** Actions that are not valid are refused before they reach the game. */
  function Play(s: State, actions: seq<string>): State
    decreases |actions|
  {
    if actions == [] then s
    else Play(if actions[0] in ValidActions(s) then Apply(s, actions[0]) else s, actions[1..])
  }

  function AllCards(s: State): multiset<Card> {
    multiset(s.deck) + multiset(s.player) + multiset(s.dealer) + multiset(s.community)
  }

  ghost predicate Sound(s: State) {
    && Complete(AllCards(s)) && |s.player| == 2 && |s.dealer| == 2
    && (s.phase == Decision ==> s.action == None && |s.community| == 3 && |s.deck| == 45)
    && (s.phase == Resolved ==> s.action == Some("fold") || (s.action == Some("call") && |s.community| == 5))
  }

  lemma DealIsSound(deck: seq<Card>)
    requires |deck| == 52 && Complete(multiset(deck))
    ensures Sound(Deal(deck))
  {
    var s := Deal(deck);
    var a, b := deck[..50], deck[..48];
    assert multiset(a) + multiset(s.player) == multiset(deck) by { PoppingConserves(deck, 2); }
    assert multiset(b) + multiset(s.dealer) == multiset(a) by { PoppingConserves(a, 2); assert a[..48] == b; }
    assert multiset(s.deck) + multiset(s.community) == multiset(b) by {
      PoppingConserves(b, 3);
      assert b[..45] == s.deck;
    }
    ThreePiles(multiset(s.deck), multiset(s.community), multiset(s.dealer), multiset(s.player));
  }

  lemma ShuffledDealIsSound(raw: int -> nat, nonce: int)
    ensures |Shuffle(raw, nonce)| == 52 && Sound(Deal(Shuffle(raw, nonce)))
  {
    ShuffleIsComplete(raw, nonce);
    DealIsSound(Shuffle(raw, nonce));
  }

  lemma ThreePiles(a: multiset<Card>, b: multiset<Card>, c: multiset<Card>, d: multiset<Card>)
    ensures a + b + c + d == a + d + c + b
  {
  }

  lemma ApplyKeepsSound(s: State, action: string)
    requires Sound(s) && action in ValidActions(s)
    ensures Sound(Apply(s, action)) && IsResolved(Apply(s, action))
  {
    PoppingConserves(s.deck, Missing(s));
    assert AllCards(Apply(s, action)) == AllCards(s);
  }

  /**
    Whatever is played, the four piles hold the 52 cards, and actions are offered exactly until the round is
    resolved.
  */
  lemma {:induction false} RoundsAreSound(s: State, actions: seq<string>)
    requires Sound(s)
    ensures var t := Play(s, actions);
      && Sound(t) && (ValidActions(t) == [] <==> IsResolved(t))
      && ((exists a | a in actions :: a in ["call", "fold"]) ==> IsResolved(t))
      && (IsResolved(s) ==> t == s)
    decreases |actions|
  {
    if actions != [] {
      var t := if actions[0] in ValidActions(s) then Apply(s, actions[0]) else s;
      if actions[0] in ValidActions(s) { ApplyKeepsSound(s, actions[0]); }
      RoundsAreSound(t, actions[1..]);
      assert actions == [actions[0]] + actions[1..];
    }
  }

  // ---- resolving ----

  /** Payout multipliers are in hundredths. */
  datatype Outcome = Outcome(payout: int, result: string, playerRank: Option<string>, dealerRank: Option<string>,
                             playerBest: seq<Card>, dealerBest: seq<Card>)

  function Label(category: int): string {
    match category
    case 8 => "straight_flush"
    case 7 => "four_of_a_kind"
    case 6 => "full_house"
    case 5 => "flush"
    case 4 => "straight"
    case 3 => "three_of_a_kind"
    case 2 => "two_pair"
    case 1 => "pair"
    case _ => "high_card"
  }

  lemma ScoreIsNotEmpty(cards: seq<Card>)
    ensures BestHand(cards).score != []
  {
    if |cards| < 5 { TooFewCards(cards); } else { BestHandIsBest(cards); }
  }

  function Resolve(s: State): Outcome {
    if s.action == Some("fold") then Outcome(0, "folded", None, None, [], [])
    else
      var p, d := BestHand(s.player + s.community), BestHand(s.dealer + s.community);
      ScoreIsNotEmpty(s.player + s.community);
      ScoreIsNotEmpty(s.dealer + s.community);
      var payout, result := if Lex.Less(d.score, p.score) then 200 else if Lex.Less(p.score, d.score) then 0 else 100,
                            if Lex.Less(d.score, p.score) then "player_wins"
                             else if Lex.Less(p.score, d.score) then "dealer_wins"
                             else "push";
      Outcome(payout, result, Some(Label(p.score[0])), Some(Label(d.score[0])), p.hand, d.hand)
  }

  function Mirror(result: string): string {
    if result == "player_wins" then "dealer_wins" else if result == "dealer_wins" then "player_wins" else result
  }

  /** Five of these cards, in any order. */
  ghost predicate FiveOf(h: seq<Card>, cards: seq<Card>) { |h| == 5 && multiset(h) <= multiset(cards) }

  /** Some five of `mine` score strictly more than every five of `theirs`. */
  ghost predicate Beats(mine: seq<Card>, theirs: seq<Card>) {
    exists h :: FiveOf(h, mine) && forall g | FiveOf(g, theirs) :: Lex.Less(ScoreFive(g), ScoreFive(h))
  }

  lemma BeatsIffBestDoes(mine: seq<Card>, theirs: seq<Card>)
    requires |mine| >= 5 && |theirs| >= 5
    ensures Beats(mine, theirs) <==> Lex.Less(BestHand(theirs).score, BestHand(mine).score)
  {
    var m, t := BestHand(mine), BestHand(theirs);
    BestHandIsBest(mine);
    BestHandIsBest(theirs);
    SubsequenceIsPart(m.hand, mine);
    SubsequenceIsPart(t.hand, theirs);
    assert FiveOf(m.hand, mine) && FiveOf(t.hand, theirs);
    if Lex.Less(t.score, m.score) {
      forall g | FiveOf(g, theirs) ensures Lex.Less(ScoreFive(g), m.score) {
        if ScoreFive(g) != t.score { Lex.LessTransitive(ScoreFive(g), t.score, m.score); }
      }
    }
    if Beats(mine, theirs) {
      var h :| FiveOf(h, mine) && forall g | FiveOf(g, theirs) :: Lex.Less(ScoreFive(g), ScoreFive(h));
      assert Lex.Less(t.score, ScoreFive(h));
      if ScoreFive(h) != m.score { Lex.LessTransitive(t.score, ScoreFive(h), m.score); }
    }
  }

  /**
    Who wins a called hand: the side with five cards that score strictly more than any five of the other's. Nobody
    looks at the cards of a folded one.
  */
  lemma BetterFiveWin(s: State)
    requires |s.player + s.community| >= 5 && |s.dealer + s.community| >= 5
    ensures var mine, theirs, out := s.player + s.community, s.dealer + s.community, Resolve(s);
      if s.action == Some("fold") then out == Outcome(0, "folded", None, None, [], [])
      else && (out.payout == 200 <==> Beats(mine, theirs)) && (out.result == "player_wins" <==> Beats(mine, theirs))
           && (out.payout == 0 <==> Beats(theirs, mine)) && (out.result == "dealer_wins" <==> Beats(theirs, mine))
           && (out.payout == 100 <==> !Beats(mine, theirs) && !Beats(theirs, mine))
           && (out.result == "push" <==> !Beats(mine, theirs) && !Beats(theirs, mine))
  {
    var mine, theirs := s.player + s.community, s.dealer + s.community;
    BeatsIffBestDoes(mine, theirs);
    BeatsIffBestDoes(theirs, mine);
    Lex.Trichotomy(BestHand(mine).score, BestHand(theirs).score);
    Results();
  }

  lemma Results()
    ensures "player_wins" != "dealer_wins" && "player_wins" != "push" && "dealer_wins" != "push"
  {
    assert "player_wins"[1] == 'l' && "dealer_wins"[1] == 'e' && "push"[1] == 'u';
  }

  /** Both sides are shown their best five and what these are called. */
  lemma RanksAreNamed(s: State)
    requires s.action != Some("fold") && |s.player + s.community| >= 5 && |s.dealer + s.community| >= 5
    ensures var out := Resolve(s);
      && out.playerBest == BestHand(s.player + s.community).hand
      && out.dealerBest == BestHand(s.dealer + s.community).hand
      && |out.playerBest| == 5 && |out.dealerBest| == 5
      && ScoreFive(out.playerBest) != [] && ScoreFive(out.dealerBest) != []
      && out.playerRank == Some(Label(ScoreFive(out.playerBest)[0]))
      && out.dealerRank == Some(Label(ScoreFive(out.dealerBest)[0]))
  {
    BestHandIsBest(s.player + s.community);
    BestHandIsBest(s.dealer + s.community);
    ScoreIsNotEmpty(s.player + s.community);
    ScoreIsNotEmpty(s.dealer + s.community);
  }

  /** The names of the nine categories, which `CategoryMeans` describes. */
  lemma CategoriesAreCalled()
    ensures Label(0) == "high_card" && Label(1) == "pair" && Label(2) == "two_pair"
    ensures Label(3) == "three_of_a_kind" && Label(4) == "straight" && Label(5) == "flush"
    ensures Label(6) == "full_house" && Label(7) == "four_of_a_kind" && Label(8) == "straight_flush"
  {
  }

  // ---- a round, card by card ----

  /** The last card of the deck is dealt first: two to the player, two to the dealer, three open. */
  lemma DealSays(deck: seq<Card>)
    requires |deck| == 52
    ensures Deal(deck) == State(deck[..45], [deck[51], deck[50]], [deck[49], deck[48]], [deck[47], deck[46], deck[45]],
                                None, Decision)
  {
    PoppedAt(deck, 2);
    PoppedAt(deck[..50], 2);
    PoppedAt(deck[..48], 3);
  }

  /** Folding ends the round as it stands; calling opens two more cards off the end of the deck. */
  lemma ApplySays(s: State)
    requires Sound(s) && s.phase == Decision
    ensures ValidActions(s) == ["call", "fold"]
    ensures Apply(s, "fold") == s.(action := Some("fold"), phase := Resolved)
    ensures Apply(s, "call") == s.(action := Some("call"), phase := Resolved, deck := s.deck[..43],
                                   community := s.community + [s.deck[44], s.deck[43]])
  {
    PoppedAt(s.deck, 2);
    assert Missing(s) == 2;
  }

  /** A call deals up to five open cards, as far as the deck goes. */
  lemma CallSays(s: State)
    requires s.phase == Decision
    ensures var t, n, m := Apply(s, "call"), |s.community|, |s.deck|;
      && t.community[..n] == s.community && |t.community| + |t.deck| == n + m && t.deck == s.deck[..|t.deck|]
      && |t.community| == if n >= 5 then n else if n + m >= 5 then 5 else n + m
  {
  }

  /** On a call, exchanging the two hands exchanges the result, and the two payouts make up two wagers. */
  lemma SwappingHandsSwapsTheResult(s: State)
    requires s.action != Some("fold")
    ensures var swapped := s.(player := s.dealer, dealer := s.player);
      && Resolve(s).payout + Resolve(swapped).payout == 200
      && Resolve(swapped).result == Mirror(Resolve(s).result)
      && Resolve(swapped).playerBest == Resolve(s).dealerBest && Resolve(swapped).dealerBest == Resolve(s).playerBest
  {
    Lex.Trichotomy(BestHand(s.player + s.community).score, BestHand(s.dealer + s.community).score);
  }

  /** After a call both best hands are five different cards, so their scores mean what the categories say. */
  lemma CalledHandsAreHands(s: State)
    requires Sound(s) && s.action == Some("call")
    ensures Hand(Resolve(s).playerBest) && Hand(Resolve(s).dealerBest)
    ensures Resolve(s).payout == 100
       <==> Values(Resolve(s).playerBest) == Values(Resolve(s).dealerBest)
             && IsFlush(Resolve(s).playerBest) == IsFlush(Resolve(s).dealerBest)
  {
    var all, dall := s.player + s.community, s.dealer + s.community;
    BestHandIsBest(all);
    BestHandIsBest(dall);
    SubsequenceIsPart(BestHand(all).hand, all);
    SubsequenceIsPart(BestHand(dall).hand, dall);
    assert multiset(all) <= AllCards(s) && multiset(dall) <= AllCards(s);
    PartOfADeck(BestHand(all).hand, AllCards(s));
    PartOfADeck(BestHand(dall).hand, AllCards(s));
    Lex.Trichotomy(BestHand(all).score, BestHand(dall).score);
    TieMeansSameRanks(BestHand(all).hand, BestHand(dall).hand);
  }

  // ---- the round as it is played in place ----

  class Round {
    var deck: seq<Card>
    var player: seq<Card>
    var dealer: seq<Card>
    var community: seq<Card>
    var action: Option<string>
    var phase: Phase

    function Contents(): State
      reads this
    {
      State(deck, player, dealer, community, action, phase)
    }

    method Pop() returns (card: Card)
      requires deck != []
      modifies `deck
      ensures card == old(deck)[|old(deck)| - 1] && deck == old(deck)[..|old(deck)| - 1]
    {
      card := deck[|deck| - 1];
      deck := deck[..|deck| - 1];
    }

    method PopMany(n: nat) returns (cards: seq<Card>)
      requires n <= |deck|
      modifies `deck
      ensures cards == Popped(old(deck), n) && deck == old(deck)[..|old(deck)| - n]
    {
      cards := [];
      ghost var start := deck;
      assert deck[..|deck|] == deck;
      for i := 0 to n
        invariant deck == start[..|start| - i] && cards + Popped(deck, n - i) == Popped(start, n)
      {
        var card := Pop();
        assert start[..|start| - i][..|start| - i - 1] == start[..|start| - i - 1];
        cards := cards + [card];
      }
      assert cards + [] == cards;
    }

    constructor (shuffled: seq<Card>)
      requires |shuffled| == 52
      ensures Contents() == Deal(shuffled)
    {
      deck, player, dealer, community, action, phase := shuffled, [], [], [], None, Decision;
      new;
      DealHands();
    }

    method DealHands()
      requires |deck| == 52 && action == None && phase == Decision
      modifies this
      ensures Contents() == Deal(old(deck))
    {
      ghost var start := deck;
      player := PopMany(2);
      assert deck == start[..50];
      dealer := PopMany(2);
      assert deck == start[..48];
      community := PopMany(3);
      assert deck == start[..45];
    }

    /** Community cards up to five, as far as the deck goes. */
    method DealCommunity()
      modifies this
      ensures var s, n := old(Contents()), Missing(old(Contents()));
        Contents() == s.(community := s.community + Popped(s.deck, n), deck := s.deck[..|s.deck| - n])
    {
      ghost var before := Contents();
      ghost var n := Missing(before);
      assert deck[..|deck|] == deck;
      while |community| < 5 && deck != []
        invariant |deck| <= |before.deck| && deck == before.deck[..|deck|] && |before.deck| - |deck| <= n
        invariant |community| + Missing(Contents()) == |before.community| + n
        invariant |deck| + n == |before.deck| + Missing(Contents())
        invariant community + Popped(deck, Missing(Contents())) == before.community + Popped(before.deck, n)
        invariant (player, dealer, action, phase) == (before.player, before.dealer, before.action, before.phase)
        decreases |deck|
      {
        var card := Pop();
        community := community + [card];
      }
      assert community + [] == community;
    }

    method ApplyAction(name: string)
      modifies this
      ensures Contents() == Apply(old(Contents()), name)
    {
      if phase != Decision { return; }
      if name == "fold" {
        action := Some("fold");
        phase := Resolved;
        return;
      }
      if name == "call" {
        DealCommunity();
        action := Some("call");
        phase := Resolved;
      }
    }
  }

  method InitialState(raw: int -> nat, nonce: int) returns (round: Round)
    ensures fresh(round) && |Shuffle(raw, nonce)| == 52 && round.Contents() == Deal(Shuffle(raw, nonce))
  {
    var shuffled := ShuffledDeck(raw, nonce);
    round := new Round(shuffled);
  }
}
