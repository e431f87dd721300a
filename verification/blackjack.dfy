/** Blackjack: the value of a hand with soft aces, and the round. */
module Blackjack {
  import opened Cards

  // ---- the value of a hand ----

  const ACE: Rank := 14

  predicate IsAce(c: Card) { c.rank == ACE }

  /** A card with every ace counted as one. */
  function Low(c: Card): (v: int)
    ensures 1 <= v <= 10
  {
    if IsAce(c) then 1 else if c.rank > 10 then 10 else c.rank
  }

  function LowTotal(cards: seq<Card>): (v: int)
    ensures v >= |cards|
  {
    if cards == [] then 0 else LowTotal(cards[..|cards| - 1]) + Low(cards[|cards| - 1])
  }

  function Aces(cards: seq<Card>): nat {
    if cards == [] then 0 else Aces(cards[..|cards| - 1]) + if IsAce(cards[|cards| - 1]) then 1 else 0
  }

  /** Take ten off for one ace after another while the total is above 21. */
  function Soften(total: int, aces: nat): int
    decreases aces
  {
    if total > 21 && aces > 0 then Soften(total - 10, aces - 1) else total
  }

  function Value(cards: seq<Card>): int { Soften(LowTotal(cards) + 10 * Aces(cards), Aces(cards)) }

  method HandValue(cards: seq<Card>) returns (total: int)
    ensures total == Value(cards)
  {
    var aces: nat;
    total, aces := 0, 0;
    for i := 0 to |cards|
      invariant total == LowTotal(cards[..i]) + 10 * Aces(cards[..i]) && aces == Aces(cards[..i])
    {
      assert cards[..i + 1][..i] == cards[..i];
      var rank := cards[i].rank;
      if rank == 11 || rank == 12 || rank == 13 {
        total := total + 10;
      } else if rank == ACE {
        aces := aces + 1;
        total := total + 11;
      } else {
        total := total + rank;
      }
    }
    assert cards[..|cards|] == cards;
    while total > 21 && aces > 0
      invariant Soften(total, aces) == Value(cards)
    {
      total := total - 10;
      aces := aces - 1;
    }
  }

  /** A way to count the hand: each ace as one or eleven, every other card at its face. */
  predicate Counts(cards: seq<Card>, ws: seq<int>) {
    |ws| == |cards| && (cards == [] ||
      var n := |cards| - 1;
      (ws[n] == Low(cards[n]) || (IsAce(cards[n]) && ws[n] == 11)) && Counts(cards[..n], ws[..n]))
  }

  function Sum(ws: seq<int>): int { if ws == [] then 0 else Sum(ws[..|ws| - 1]) + ws[|ws| - 1] }

  /** A count differs from the lowest one by ten for each ace taken as eleven. */
  lemma {:induction false} CountIsLowPlusTens(cards: seq<Card>, ws: seq<int>) returns (k: nat)
    requires Counts(cards, ws)
    ensures k <= Aces(cards) && Sum(ws) == LowTotal(cards) + 10 * k
  {
    k := 0;
    if cards != [] {
      var n := |cards| - 1;
      k := CountIsLowPlusTens(cards[..n], ws[..n]);
      if ws[n] == 11 { k := k + 1; }
    }
  }

  lemma {:induction false} LowPlusTensIsACount(cards: seq<Card>, k: nat) returns (ws: seq<int>)
    requires k <= Aces(cards)
    ensures Counts(cards, ws) && Sum(ws) == LowTotal(cards) + 10 * k
  {
    ws := [];
    if cards != [] {
      var n := |cards| - 1;
      var high := IsAce(cards[n]) && k > 0;
      var before := LowPlusTensIsACount(cards[..n], if high then k - 1 else k);
      ws := before + [if high then 11 else Low(cards[n])];
      assert ws[..n] == before;
    }
  }

  lemma {:induction false} SoftenIsBest(low: int, aces: nat) returns (k: nat)
    ensures k <= aces && Soften(low + 10 * aces, aces) == low + 10 * k
    ensures low <= 21 ==> low + 10 * k <= 21
    ensures k < aces ==> low + 10 * (k + 1) > 21
    ensures low > 21 ==> k == 0
    decreases aces
  {
    if low + 10 * aces > 21 && aces > 0 {
      k := SoftenIsBest(low, aces - 1);
      assert low + 10 * aces - 10 == low + 10 * (aces - 1);
    } else {
      k := aces;
    }
  }

  /** The value is one of the counts: the highest that does not pass 21, or the lowest when all do. */
  lemma ValueIsTheBestCount(cards: seq<Card>)
    ensures exists ws :: Counts(cards, ws) && Sum(ws) == Value(cards)
    ensures Value(cards) <= 21 ==> forall ws | Counts(cards, ws) && Sum(ws) <= 21 :: Sum(ws) <= Value(cards)
    ensures Value(cards) > 21 ==> forall ws | Counts(cards, ws) :: Value(cards) <= Sum(ws)
  {
    var k := SoftenIsBest(LowTotal(cards), Aces(cards));
    var best := LowPlusTensIsACount(cards, k);
    forall ws | Counts(cards, ws) ensures Value(cards) <= 21 && Sum(ws) <= 21 ==> Sum(ws) <= Value(cards)
      ensures Value(cards) > 21 ==> Value(cards) <= Sum(ws)
    {
      var m := CountIsLowPlusTens(cards, ws);
    }
  }

  // ---- the round ----

  datatype Phase = PlayerTurn | Resolved

  datatype State = State(deck: seq<Card>, player: seq<Card>, dealer: seq<Card>, phase: Phase)

  function Deal(deck: seq<Card>): State
    requires |deck| >= 4
  {
    var n := |deck|;
    var player := Popped(deck, 2);
    State(deck[..n - 4], player, Popped(deck[..n - 2], 2), if Value(player) == 21 then Resolved else PlayerTurn)
  }

  /** How many cards the dealer draws before standing or running out of deck. */
  function DealerDraws(deck: seq<Card>, dealer: seq<Card>): (n: nat)
    ensures n <= |deck|
    decreases |deck|
  {
    if Value(dealer) >= 17 || deck == [] then 0
    else 1 + DealerDraws(deck[..|deck| - 1], dealer + [deck[|deck| - 1]])
  }

  /** The dealer's hand once the drawing is over. */
  function DealerHand(deck: seq<Card>, dealer: seq<Card>): seq<Card> {
    dealer + Popped(deck, DealerDraws(deck, dealer))
  }

  /** Popping an empty deck raises, and leaves what was done before it. */
  predicate Raises(s: State, action: string) {
    s.phase == PlayerTurn
    && ((action == "hit" && s.deck == []) || (action == "stand" && Value(DealerHand(s.deck, s.dealer)) < 17))
  }

  /** The state an action leaves, whether it returns or raises. */
  function Apply(s: State, action: string): State {
    if s.phase != PlayerTurn then s
    else if action == "hit" && s.deck != [] then
      var player := s.player + [s.deck[|s.deck| - 1]];
      s.(player := player, deck := s.deck[..|s.deck| - 1], phase := if Value(player) > 21 then Resolved else PlayerTurn)
    else if action == "stand" then
      s.(dealer := DealerHand(s.deck, s.dealer), deck := s.deck[..|s.deck| - DealerDraws(s.deck, s.dealer)],
         phase := if Raises(s, action) then PlayerTurn else Resolved)
    else s
  }

  function ValidActions(s: State): seq<string> { if s.phase == PlayerTurn then ["hit", "stand"] else [] }

  predicate IsResolved(s: State) { s.phase == Resolved }

  function AllCards(s: State): multiset<Card> { multiset(s.deck) + multiset(s.player) + multiset(s.dealer) }

  /** Why the deck never runs out: a hand worth at most 21 has at most 21 cards, one below 17 at most 16. */
  ghost predicate Sound(s: State) {
    && Complete(AllCards(s)) && |s.deck| + |s.player| + |s.dealer| == 52
    && |s.player| >= 2 && |s.dealer| >= 2
    && (s.phase == PlayerTurn ==> Value(s.player) <= 21 && |s.dealer| == 2)
  }

  lemma FewCards(cards: seq<Card>)
    ensures Value(cards) >= LowTotal(cards) >= |cards|
  {
    var k := SoftenIsBest(LowTotal(cards), Aces(cards));
  }

  /** One more card on a hand below 17 gives at most 26. */
  lemma OneMoreCard(cards: seq<Card>, c: Card)
    requires Value(cards) < 17
    ensures Value(cards + [c]) <= 26
  {
    assert (cards + [c])[..|cards|] == cards;
    var k := SoftenIsBest(LowTotal(cards), Aces(cards));
    var m := SoftenIsBest(LowTotal(cards + [c]), Aces(cards + [c]));
  }

  lemma OneMoreForDealer(deck: seq<Card>, dealer: seq<Card>, rest: seq<Card>, more: seq<Card>)
    requires Value(dealer) < 17 && deck != [] && rest == deck[..|deck| - 1] && more == dealer + [deck[|deck| - 1]]
    ensures DealerDraws(deck, dealer) == 1 + DealerDraws(rest, more)
  {
  }

  lemma OneDraw(deck: seq<Card>, dealer: seq<Card>, rest: seq<Card>, more: seq<Card>)
    requires Value(dealer) < 17 && deck != [] && rest == deck[..|deck| - 1] && more == dealer + [deck[|deck| - 1]]
    ensures DealerHand(deck, dealer) == DealerHand(rest, more)
    ensures DealerDraws(deck, dealer) == 1 + DealerDraws(rest, more)
  {
    OneMoreForDealer(deck, dealer, rest, more);
    HandAfterDraw(deck, dealer, DealerDraws(rest, more));
  }

  lemma HandAfterDraw(deck: seq<Card>, dealer: seq<Card>, n: nat)
    requires deck != [] && n < |deck|
    ensures dealer + Popped(deck, n + 1) == dealer + [deck[|deck| - 1]] + Popped(deck[..|deck| - 1], n)
  {
    assert Popped(deck, n + 1) == [deck[|deck| - 1]] + Popped(deck[..|deck| - 1], n);
  }

  lemma NoMoreDraws(deck: seq<Card>, dealer: seq<Card>)
    requires Value(dealer) >= 17 || deck == []
    ensures DealerHand(deck, dealer) == dealer && DealerDraws(deck, dealer) == 0
  {
    assert dealer + [] == dealer;
  }

  /** The dealer has drawn `k` cards on top of `hand`, and is not done before that. */
  ghost predicate Drawn(start: seq<Card>, hand: seq<Card>, deck: seq<Card>, dealer: seq<Card>, k: nat) {
    && k <= |start| && deck == start[..|start| - k] && dealer == hand + Popped(start, k)
    && DealerDraws(start, hand) == k + DealerDraws(deck, dealer)
  }

  lemma NothingDrawn(deck: seq<Card>, dealer: seq<Card>)
    ensures Drawn(deck, dealer, deck, dealer, 0)
  {
    assert deck[..|deck|] == deck && dealer + [] == dealer;
  }

  lemma OneDrawn(start: seq<Card>, hand: seq<Card>, deck: seq<Card>, dealer: seq<Card>, k: nat)
    requires Drawn(start, hand, deck, dealer, k) && Value(dealer) < 17 && deck != []
    ensures Drawn(start, hand, deck[..|deck| - 1], dealer + [deck[|deck| - 1]], k + 1)
  {
    OneMoreForDealer(deck, dealer, deck[..|deck| - 1], dealer + [deck[|deck| - 1]]);
    PoppedOneMore(start, k);
    assert hand + (Popped(start, k) + [deck[|deck| - 1]]) == dealer + [deck[|deck| - 1]];
  }

  lemma AllDrawn(start: seq<Card>, hand: seq<Card>, deck: seq<Card>, dealer: seq<Card>, k: nat)
    requires Drawn(start, hand, deck, dealer, k) && (Value(dealer) >= 17 || deck == [])
    ensures dealer == DealerHand(start, hand) && deck == start[..|start| - DealerDraws(start, hand)]
  {
    NoMoreDraws(deck, dealer);
  }

  /** The dealer draws to 17 or more and never passes 26, with cards to spare. */
  lemma {:induction false} DealerEndsAt17To26(deck: seq<Card>, dealer: seq<Card>)
    requires |deck| + |dealer| >= 17 && Value(dealer) <= 26 && |dealer| <= 17
    ensures 17 <= Value(DealerHand(deck, dealer)) <= 26 && |DealerHand(deck, dealer)| <= 17
    decreases |deck|
  {
    if Value(dealer) >= 17 {
      assert dealer + [] == dealer;
    } else {
      FewCards(dealer);
      OneDraw(deck, dealer, deck[..|deck| - 1], dealer + [deck[|deck| - 1]]);
      OneMoreCard(dealer, deck[|deck| - 1]);
      DealerEndsAt17To26(deck[..|deck| - 1], dealer + [deck[|deck| - 1]]);
    }
  }

  lemma DealConserves(deck: seq<Card>, all: multiset<Card>)
    requires |deck| == 52 && all == multiset(deck)
    ensures AllCards(Deal(deck)) == all
  {
    var a := deck[..50];
    PoppingConserves(deck, 2);
    PoppingConserves(a, 2);
    assert a[..48] == deck[..48];
    PilesAddUp(multiset(deck[..48]), multiset(Popped(deck, 2)), multiset(Popped(a, 2)), multiset(a), all);
  }

  lemma PilesAddUp(deck: multiset<Card>, player: multiset<Card>, dealer: multiset<Card>, rest: multiset<Card>,
                   all: multiset<Card>)
    requires deck + dealer == rest && rest + player == all
    ensures deck + player + dealer == all
  {
  }

  lemma DealIsSound(deck: seq<Card>)
    requires |deck| == 52 && Complete(multiset(deck))
    ensures Sound(Deal(deck))
  {
    DealConserves(deck, multiset(deck));
    TwoCards(Deal(deck).player);
  }

  lemma TwoCards(cards: seq<Card>)
    requires |cards| == 2
    ensures Value(cards) <= 21
  {
    var k := SoftenIsBest(LowTotal(cards), Aces(cards));
    var n := |cards| - 1;
    assert cards[..1][..0] == [];
    assert LowTotal(cards[..1]) == Low(cards[0]);
    assert LowTotal(cards) == Low(cards[0]) + Low(cards[1]);
  }

  lemma ShuffledDealIsSound(raw: int -> nat, nonce: int)
    ensures |Shuffle(raw, nonce)| == 52 && Sound(Deal(Shuffle(raw, nonce)))
  {
    ShuffleIsComplete(raw, nonce);
    DealIsSound(Shuffle(raw, nonce));
  }

  /** While the player may act there are cards to hit with, and enough for the dealer: nothing raises. */
  lemma DeckNeverRunsOut(s: State)
    requires Sound(s) && s.phase == PlayerTurn
    ensures |s.deck| >= 29 && forall action :: !Raises(s, action)
  {
    FewCards(s.player);
    TwoCards(s.dealer);
    DealerEndsAt17To26(s.deck, s.dealer);
  }

  lemma HitKeepsSound(s: State)
    requires Sound(s) && s.phase == PlayerTurn
    ensures Sound(Apply(s, "hit")) && |Apply(s, "hit").deck| < |s.deck|
  {
    DeckNeverRunsOut(s);
    var n := |s.deck| - 1;
    assert s.deck == s.deck[..n] + [s.deck[n]];
    assert AllCards(Apply(s, "hit")) == AllCards(s);
  }

  lemma StandConserves(s: State)
    requires s.phase == PlayerTurn
    ensures AllCards(Apply(s, "stand")) == AllCards(s)
  {
    var n := DealerDraws(s.deck, s.dealer);
    PoppingConserves(s.deck, n);
    Gathered(multiset(s.deck[..|s.deck| - n]), multiset(Popped(s.deck, n)), multiset(s.deck), multiset(s.player),
             multiset(s.dealer));
  }

  lemma Gathered(rest: multiset<Card>, drawn: multiset<Card>, deck: multiset<Card>, player: multiset<Card>,
                 dealer: multiset<Card>)
    requires rest + drawn == deck
    ensures rest + player + (dealer + drawn) == deck + player + dealer
  {
  }

  lemma StandKeepsSound(s: State)
    requires Sound(s) && s.phase == PlayerTurn
    ensures Sound(Apply(s, "stand")) && IsResolved(Apply(s, "stand"))
    ensures 17 <= Value(Apply(s, "stand").dealer) <= 26
  {
    DeckNeverRunsOut(s);
    TwoCards(s.dealer);
    var t := Apply(s, "stand");
    assert 17 <= Value(t.dealer) <= 26 by { DealerEndsAt17To26(s.deck, s.dealer); }
    StandConserves(s);
  }

  /** Actions that are not valid are refused before they reach the game. */
  function Play(s: State, actions: seq<string>): State
    decreases |actions|
  {
    if actions == [] then s
    else Play(if actions[0] in ValidActions(s) then Apply(s, actions[0]) else s, actions[1..])
  }

  /** The cards still to be hit with before any hand would be over 21. */
  function Left(s: State): nat { if s.phase == PlayerTurn then |s.deck| else 0 }

  function ValidCount(s: State, actions: seq<string>): nat
    decreases |actions|
  {
    if actions == [] then 0
    else if actions[0] in ValidActions(s) then 1 + ValidCount(Apply(s, actions[0]), actions[1..])
    else ValidCount(s, actions[1..])
  }

  /** For any player and any shuffle: the piles hold the 52 cards, and a round takes a bounded number of actions. */
  lemma {:induction false} RoundsAreSound(s: State, actions: seq<string>)
    requires Sound(s)
    ensures var t := Play(s, actions);
      && Sound(t) && (ValidActions(t) == [] <==> IsResolved(t))
      && (forall action :: !Raises(t, action))
      && ValidCount(s, actions) + Left(t) <= Left(s)
    decreases |actions|
  {
    if actions == [] {
      if s.phase == PlayerTurn { DeckNeverRunsOut(s); }
    } else {
      if s.phase == PlayerTurn {
        DeckNeverRunsOut(s);
        HitKeepsSound(s);
        StandKeepsSound(s);
      }
      RoundsAreSound(if actions[0] in ValidActions(s) then Apply(s, actions[0]) else s, actions[1..]);
    }
  }

  // ---- a round, card by card ----

  /** What a card counts: its number, ten for the pictures, one or eleven for an ace. */
  lemma CardsCount(c: Card, w: int)
    ensures Counts([c], [w])
       <==> if c.rank == 14 then w == 1 || w == 11 else if c.rank >= 11 then w == 10 else w == c.rank
  {
    assert [c][..0] == [] && [w][..0] == [];
  }

  /** The player has 21 with two cards, and the round is over before it starts, or may act. */
  lemma DealSays(deck: seq<Card>)
    requires |deck| == 52
    ensures var s := Deal(deck);
      && s.deck == deck[..48] && s.player == [deck[51], deck[50]] && s.dealer == [deck[49], deck[48]]
      && ValidActions(s) == if Value(s.player) == 21 then [] else ["hit", "stand"]
  {
    PoppedAt(deck, 2);
    PoppedAt(deck[..50], 2);
  }

  /** A hit moves the last card of the deck to the player, and ends the round exactly above 21. */
  lemma HitSays(s: State)
    requires s.phase == PlayerTurn && s.deck != []
    ensures var n, t := |s.deck| - 1, Apply(s, "hit");
      && t.player == s.player + [s.deck[n]] && t.deck == s.deck[..n] && t.dealer == s.dealer
      && (IsResolved(t) <==> Value(t.player) > 21) && !Raises(s, "hit")
  {
  }

  /** Standing gives the dealer cards off the end of the deck, as long as it has less than 17 and no longer. */
  lemma StandSays(s: State) returns (n: nat)
    requires s.phase == PlayerTurn
    ensures n <= |s.deck|
    ensures var t := Apply(s, "stand");
      && t.dealer == s.dealer + Popped(s.deck, n) && t.deck == s.deck[..|s.deck| - n] && t.player == s.player
      && (forall k | 0 <= k < n :: Value(s.dealer + Popped(s.deck, k)) < 17)
      && (Value(t.dealer) >= 17 || t.deck == [])
      && (IsResolved(t) <==> Value(t.dealer) >= 17) && (Raises(s, "stand") <==> Value(t.dealer) < 17)
  {
    n := DealerDraws(s.deck, s.dealer);
    DealerStops(s.deck, s.dealer);
  }

  lemma {:induction false} DealerStops(deck: seq<Card>, dealer: seq<Card>)
    ensures var n := DealerDraws(deck, dealer);
      && (forall k | 0 <= k < n :: Value(dealer + Popped(deck, k)) < 17)
      && (Value(dealer + Popped(deck, n)) >= 17 || n == |deck|)
    decreases |deck|
  {
    if Value(dealer) >= 17 || deck == [] {
      assert dealer + Popped(deck, 0) == dealer;
    } else {
      var last, rest := deck[|deck| - 1], deck[..|deck| - 1];
      DealerStops(rest, dealer + [last]);
      forall k | 0 <= k < |deck| ensures dealer + Popped(deck, k + 1) == dealer + [last] + Popped(rest, k) {}
      forall k | 0 <= k < DealerDraws(deck, dealer) ensures Value(dealer + Popped(deck, k)) < 17 {
        if k == 0 { assert dealer + Popped(deck, 0) == dealer; }
      }
    }
  }

  // ---- resolving ----

  datatype Outcome = Outcome(payout: int, result: string, player: int, dealer: int)

  /** Payout multipliers are in hundredths. */
  function Resolve(s: State): Outcome {
    var pv, dv := Value(s.player), Value(s.dealer);
    if pv == 21 && |s.player| == 2 then
      if dv == 21 && |s.dealer| == 2 then Outcome(100, "push", pv, dv) else Outcome(250, "blackjack", pv, dv)
    else if pv > 21 then Outcome(0, "bust", pv, dv)
    else if dv > 21 then Outcome(200, "dealer_bust", pv, dv)
    else if pv > dv then Outcome(200, "win", pv, dv)
    else if pv == dv then Outcome(100, "push", pv, dv)
    else Outcome(0, "loss", pv, dv)
  }

  /** What each payout is called. */
  lemma ResultsAreNamed(s: State)
    requires Sound(s)
    ensures var out := Resolve(s);
      && out.player == Value(s.player) && out.dealer == Value(s.dealer)
      && (Natural(s.player) ==> out.result == if Natural(s.dealer) then "push" else "blackjack")
      && (!Natural(s.player) && out.player > 21 ==> out.result == "bust")
      && (!Natural(s.player) && out.player <= 21 ==>
            out.result == if out.dealer > 21 then "dealer_bust" else if out.player > out.dealer then "win"
                          else if out.player == out.dealer then "push" else "loss")
  {
    FewCards(s.player);
    FewCards(s.dealer);
    if |s.player| == 2 { NaturalIsAceAndTen(s.player); }
    if |s.dealer| == 2 { NaturalIsAceAndTen(s.dealer); }
  }

  /** Closeness to 21, a bust hand counting nothing. */
  function Standing(cards: seq<Card>): int { if Value(cards) > 21 then 0 else Value(cards) }

  predicate Natural(cards: seq<Card>) {
    |cards| == 2 &&
    exists i, j | 0 <= i < 2 && 0 <= j < 2 && i != j :: IsAce(cards[i]) && Low(cards[j]) == 10
  }

  lemma NaturalIsAceAndTen(cards: seq<Card>)
    requires |cards| == 2
    ensures Natural(cards) <==> Value(cards) == 21
  {
    var k := SoftenIsBest(LowTotal(cards), Aces(cards));
    assert cards[..1][..0] == [];
    assert LowTotal(cards[..1]) == Low(cards[0]) && LowTotal(cards) == Low(cards[0]) + Low(cards[1]);
    assert Aces(cards[..1]) == if IsAce(cards[0]) then 1 else 0;
    assert Aces(cards) == (if IsAce(cards[0]) then 1 else 0) + if IsAce(cards[1]) then 1 else 0;
    if Value(cards) == 21 {
      assert (IsAce(cards[0]) && Low(cards[1]) == 10) || (IsAce(cards[1]) && Low(cards[0]) == 10);
    }
  }

  /**
    Who wins: an ace and a ten-card beat all but the same, and otherwise the better standing wins, a bust player
    always losing.
  */
  lemma ResolveCompares(s: State)
    requires Sound(s)
    ensures Natural(s.player) ==> Resolve(s).payout == if Natural(s.dealer) then 100 else 250
    ensures !Natural(s.player) ==>
      (Resolve(s).payout == 0 <==> Value(s.player) > 21 || Standing(s.player) < Standing(s.dealer))
    ensures !Natural(s.player) ==>
      (Resolve(s).payout == 100 <==> Value(s.player) <= 21 && Standing(s.player) == Standing(s.dealer))
    ensures !Natural(s.player) ==>
      (Resolve(s).payout == 200 <==> Value(s.player) <= 21 && Standing(s.player) > Standing(s.dealer))
  {
    FewCards(s.player);
    FewCards(s.dealer);
    if |s.player| == 2 { NaturalIsAceAndTen(s.player); }
    if |s.dealer| == 2 { NaturalIsAceAndTen(s.dealer); }
  }

  // ---- the round as it is played in place ----

  class Round {
    var deck: seq<Card>
    var player: seq<Card>
    var dealer: seq<Card>
    var phase: Phase

    function Contents(): State
      reads this
    {
      State(deck, player, dealer, phase)
    }

    method Pop() returns (card: Card)
      requires deck != []
      modifies `deck
      ensures card == old(deck)[|old(deck)| - 1] && deck == old(deck)[..|old(deck)| - 1]
    {
      card := deck[|deck| - 1];
      deck := deck[..|deck| - 1];
    }

    constructor (shuffled: seq<Card>)
      requires |shuffled| == 52
      ensures Contents() == Deal(shuffled)
    {
      deck, player, dealer, phase := shuffled, [], [], PlayerTurn;
      new;
      var a := Pop();
      var b := Pop();
      player := [a, b];
      a := Pop();
      b := Pop();
      dealer := [a, b];
      TwoPopped(shuffled);
      TwoPopped(shuffled[..50]);
      assert deck == shuffled[..48];
      var value := HandValue(player);
      if value == 21 { phase := Resolved; }
    }

    method ApplyAction(action: string) returns (raised: bool)
      modifies this
      ensures Contents() == Apply(old(Contents()), action) && raised == Raises(old(Contents()), action)
    {
      raised := false;
      if phase != PlayerTurn { return; }
      if action == "hit" {
        if deck == [] { return true; }
        var card := Pop();
        player := player + [card];
        var value := HandValue(player);
        if value > 21 { phase := Resolved; }
      } else if action == "stand" {
        raised := DrawToSeventeen();
        if !raised { phase := Resolved; }
      }
    }

    /** `while hand_value(dealer) < 17: dealer.append(deck.pop())`. */
    method DrawToSeventeen() returns (raised: bool)
      modifies `deck, `dealer
      ensures dealer == DealerHand(old(deck), old(dealer)) && raised == (Value(dealer) < 17)
      ensures deck == old(deck)[..|old(deck)| - DealerDraws(old(deck), old(dealer))]
    {
      ghost var start, hand, k: nat := deck, dealer, 0;
      NothingDrawn(deck, dealer);
      var value := HandValue(dealer);
      while value < 17
        invariant Drawn(start, hand, deck, dealer, k) && value == Value(dealer)
        decreases |deck|
      {
        if deck == [] {
          AllDrawn(start, hand, deck, dealer, k);
          return true;
        }
        OneDrawn(start, hand, deck, dealer, k);
        var card := Pop();
        dealer := dealer + [card];
        k := k + 1;
        value := HandValue(dealer);
      }
      AllDrawn(start, hand, deck, dealer, k);
      raised := false;
    }
  }

  method InitialState(raw: int -> nat, nonce: int) returns (round: Round)
    ensures fresh(round) && |Shuffle(raw, nonce)| == 52 && round.Contents() == Deal(Shuffle(raw, nonce))
  {
    var shuffled := ShuffledDeck(raw, nonce);
    round := new Round(shuffled);
  }
}
