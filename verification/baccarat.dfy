/** Baccarat: a six-deck shoe, the third-card rules, and the three bets. */
module Baccarat {
  import opened Options
  import opened Cards

  function Points(c: Card): (v: int)
    ensures 0 <= v <= 9
  {
    if c.rank == 14 then 1 else if c.rank >= 10 then 0 else c.rank
  }

  function Sum(cards: seq<Card>): nat {
    if cards == [] then 0 else Sum(cards[..|cards| - 1]) + Points(cards[|cards| - 1])
  }

  function HandTotal(cards: seq<Card>): (t: int)
    ensures 0 <= t <= 9
  {
    Sum(cards) % 10
  }

  // ---- the shoe ----

  function Twice(cards: seq<Card>): seq<Card> { cards + cards }

  /** `list(DECK) * 6`. */
  function SixDecks(): seq<Card> { Twice(Deck()) + Twice(Twice(Deck())) }

  ghost predicate SixOfEach(m: multiset<Card>) { forall c :: m[c] == 6 }

  lemma CountOfConcatenation(a: seq<Card>, b: seq<Card>, c: Card)
    ensures multiset(a + b)[c] == multiset(a)[c] + multiset(b)[c] && |a + b| == |a| + |b|
  {
  }

  lemma SixDecksHold(c: Card)
    ensures multiset(SixDecks())[c] == 6 && |SixDecks()| == 312
  {
    var one, two := Deck(), Twice(Deck());
    DeckHoldsEachCardOnce(c);
    CountOfConcatenation(one, one, c);
    CountOfConcatenation(two, two, c);
    CountOfConcatenation(two, Twice(two), c);
  }

  function Shoe(raw: int -> nat, nonce: int): seq<Card> { Shuffled(SixDecks(), |SixDecks()|, raw, nonce) }

  lemma ShoeHoldsSixOfEach(raw: int -> nat, nonce: int)
    ensures SixOfEach(multiset(Shoe(raw, nonce))) && |Shoe(raw, nonce)| == 312
  {
    forall c ensures multiset(SixDecks())[c] == 6 { SixDecksHold(c); }
    SixDecksHold(Card(2, Spades));
    ShufflePermutes(SixDecks(), |SixDecks()|, raw, nonce);
  }

  // ---- a coup ----

  /** Whether the banker draws when the player's third card counts `third`. */
  predicate BankerDraws(total: int, third: int) {
    total <= 2 || (total == 3 && third != 8) || (total == 4 && 2 <= third <= 7)
    || (total == 5 && 4 <= third <= 7) || (total == 6 && 6 <= third <= 7)
  }

  datatype Phase = Betting | Resolved

  datatype State = State(shoe: seq<Card>, bet: Option<string>, player: seq<Card>, banker: seq<Card>,
                         playerTotal: Option<int>, bankerTotal: Option<int>, phase: Phase)

  const BETS: seq<string> := ["bet_player", "bet_banker", "bet_tie"]

  /** A state, and whether it was left by popping an empty shoe. */
  datatype Played = Played(state: State, raised: bool)

  function Totalled(s: State): State {
    s.(playerTotal := Some(HandTotal(s.player)), bankerTotal := Some(HandTotal(s.banker)))
  }

  /** The banker draws or not, and the coup is over. */
  function Finish(s: State, draws: bool): Played {
    var m := |s.shoe| - 1;
    if !draws then Played(Totalled(s).(phase := Resolved), false)
    else if s.shoe == [] then Played(s, true)
    else Played(Totalled(s.(banker := s.banker + [s.shoe[m]], shoe := s.shoe[..m])).(phase := Resolved), false)
  }

  function DrawPlayer(s: State): State
    requires s.shoe != []
  {
    var m := |s.shoe| - 1;
    s.(player := s.player + [s.shoe[m]], shoe := s.shoe[..m])
  }

  /** The third-card rules, after two cards each and no natural. */
  function DrawRest(s: State): Played {
    var bt := HandTotal(s.banker);
    if HandTotal(s.player) > 5 then Finish(s, bt <= 5)
    else if s.shoe == [] then Played(s, true)
    else Finish(DrawPlayer(s), BankerDraws(bt, Points(s.shoe[|s.shoe| - 1])))
  }

  /** Two cards each off the end of the shoe, and their totals. */
  function TwoEach(s: State): State
    requires |s.shoe| >= 4
  {
    var n := |s.shoe|;
    Totalled(s.(player := Popped(s.shoe, 2), banker := Popped(s.shoe[..n - 2], 2), shoe := s.shoe[..n - 4]))
  }

  predicate IsNatural(s: State) { HandTotal(s.player) >= 8 || HandTotal(s.banker) >= 8 }

  /** The state an action leaves, whether it returns or raises. */
  function Apply(s: State, action: string): Played {
    var bet := s.(bet := Some(action));
    if action !in BETS then Played(s, false)
    else if |s.shoe| < 2 then Played(bet.(shoe := []), true)
    else if |s.shoe| < 4 then Played(bet.(player := Popped(s.shoe, 2), shoe := []), true)
    else
      var dealt := TwoEach(bet);
      if IsNatural(dealt) then Played(dealt.(phase := Resolved), false) else DrawRest(dealt)
  }

  function ValidActions(s: State): seq<string> { if s.phase == Betting then BETS else [] }

  predicate IsResolved(s: State) { s.phase == Resolved }

  function AllCards(s: State): multiset<Card> { multiset(s.shoe) + multiset(s.player) + multiset(s.banker) }

  ghost predicate Sound(s: State) {
    && SixOfEach(AllCards(s)) && |s.shoe| + |s.player| + |s.banker| == 312
    && (s.phase == Betting ==> s.bet == None && s.player == [] && s.banker == [])
    && (s.phase == Resolved ==> s.bet.Some? && s.bet.value in BETS)
    && (s.phase == Resolved ==> 2 <= |s.player| <= 3 && 2 <= |s.banker| <= 3 && s == Totalled(s))
  }

  function Start(shoe: seq<Card>): State { State(shoe, None, [], [], None, None, Betting) }

  lemma StartIsSound(raw: int -> nat, nonce: int)
    ensures Sound(Start(Shoe(raw, nonce)))
  {
    ShoeHoldsSixOfEach(raw, nonce);
    assert AllCards(Start(Shoe(raw, nonce))) == multiset(Shoe(raw, nonce));
  }

  /** A card off the end of the shoe onto a hand. */
  lemma MoveLast(shoe: seq<Card>, hand: seq<Card>, last: Card, fewer: seq<Card>)
    requires shoe != [] && last == shoe[|shoe| - 1] && fewer == shoe[..|shoe| - 1]
    ensures multiset(fewer) + multiset(hand + [last]) == multiset(shoe) + multiset(hand)
  {
    assert shoe == fewer + [last];
  }

  /** Cards only move off the end of the shoe onto the hands. */
  predicate Conserves(s: State, t: State) {
    && AllCards(t) == AllCards(s) && t.shoe <= s.shoe
    && |t.shoe| + |t.player| + |t.banker| == |s.shoe| + |s.player| + |s.banker|
  }

  lemma ConservesChain(s: State, t: State, u: State)
    requires Conserves(s, t) && Conserves(t, u)
    ensures Conserves(s, u)
  {
    assert u.shoe == s.shoe[..|u.shoe|];
  }

  lemma DrawPlayerConserves(s: State)
    requires s.shoe != []
    ensures Conserves(s, DrawPlayer(s))
  {
    MoveLast(s.shoe, s.player, s.shoe[|s.shoe| - 1], DrawPlayer(s).shoe);
  }

  lemma FinishConserves(s: State, draws: bool)
    ensures Conserves(s, Finish(s, draws).state)
  {
    if draws && s.shoe != [] {
      var m, t := |s.shoe| - 1, Finish(s, draws).state;
      MoveLast(s.shoe, s.banker, s.shoe[m], t.shoe);
      Reordered(multiset(t.shoe), multiset(t.player), multiset(t.banker));
      Reordered(multiset(s.shoe), multiset(s.player), multiset(s.banker));
    }
  }

  /** Drawing third cards takes them off the end and gives them to the hands. */
  lemma DrawRestConserves(s: State)
    ensures Conserves(s, DrawRest(s).state)
  {
    var bt := HandTotal(s.banker);
    if HandTotal(s.player) > 5 {
      FinishConserves(s, bt <= 5);
    } else if s.shoe != [] {
      var draws := BankerDraws(bt, Points(s.shoe[|s.shoe| - 1]));
      DrawPlayerConserves(s);
      FinishConserves(DrawPlayer(s), draws);
      ConservesChain(s, DrawPlayer(s), Finish(DrawPlayer(s), draws).state);
    }
  }

  lemma TwoEachConserves(s: State)
    requires |s.shoe| >= 4 && s.player == [] && s.banker == []
    ensures Conserves(s, TwoEach(s))
  {
    var n, t := |s.shoe|, TwoEach(s);
    var a := s.shoe[..n - 2];
    PoppingConserves(s.shoe, 2);
    PoppingConserves(a, 2);
    assert a[..|a| - 2] == t.shoe;
    Reordered(multiset(t.shoe), multiset(t.player), multiset(t.banker));
  }

  /** With six cards left no bet raises; the hands are four to six cards off the end of the shoe. */
  lemma DealtComesOffTheTop(s: State, action: string)
    requires |s.shoe| >= 6 && s.player == [] && s.banker == [] && action in BETS
    ensures !Apply(s, action).raised && IsResolved(Apply(s, action).state)
    ensures var t := Apply(s, action).state;
      Conserves(s, t) && 2 <= |t.player| <= 3 && 2 <= |t.banker| <= 3
  {
    var bet := s.(bet := Some(action));
    var dealt := TwoEach(bet);
    TwoEachConserves(bet);
    if !IsNatural(dealt) {
      DrawRestConserves(dealt);
      ConservesChain(bet, dealt, DrawRest(dealt).state);
    }
  }

  lemma ApplyKeepsSound(s: State, action: string)
    requires Sound(s) && action in ValidActions(s)
    ensures !Apply(s, action).raised && Sound(Apply(s, action).state) && IsResolved(Apply(s, action).state)
  {
    DealtComesOffTheTop(s, action);
  }

  /** Actions that are not valid are refused before they reach the game. */
  function Play(s: State, actions: seq<string>): State
    decreases |actions|
  {
    if actions == [] then s
    else Play(if actions[0] in ValidActions(s) then Apply(s, actions[0]).state else s, actions[1..])
  }

  /**
    For any player and any shuffle the shoe and the hands hold six decks, bets are open exactly until
    the coup is dealt, and no valid action raises.
  */
  lemma {:induction false} RoundsAreSound(s: State, actions: seq<string>)
    requires Sound(s)
    ensures var t := Play(s, actions);
      && Sound(t) && (ValidActions(t) == [] <==> IsResolved(t))
      && (forall a | a in ValidActions(t) :: !Apply(t, a).raised)
      && ((exists a | a in actions :: a in BETS) ==> IsResolved(t)) && (IsResolved(s) ==> t == s)
    decreases |actions|
  {
    if actions == [] {
      forall a | a in ValidActions(s) ensures !Apply(s, a).raised { ApplyKeepsSound(s, a); }
    } else {
      if actions[0] in ValidActions(s) { ApplyKeepsSound(s, actions[0]); }
      RoundsAreSound(if actions[0] in ValidActions(s) then Apply(s, actions[0]).state else s, actions[1..]);
      assert actions == [actions[0]] + actions[1..];
    }
  }

  // ---- the rules in play ----

  /** The highest total on which the banker draws against the player's third card, as the rule is tabulated. */
  function BankerLimit(third: int): int {
    if third == 2 || third == 3 then 4
    else if third == 4 || third == 5 then 5
    else if third == 6 || third == 7 then 6
    else if third == 8 then 2
    else 3
  }

  /**
    Naturals end the coup at four cards. Otherwise the player draws to at most five, and the banker to
    at most five when the player stood, up to the tabulated limit when the player drew.
  */
  lemma ThirdCards(s: State, action: string)
    requires |s.shoe| >= 6 && action in BETS
    ensures var t := Apply(s, action).state;
      && 2 <= |t.player| <= 3 && 2 <= |t.banker| <= 3
      && t.player[..2] == Popped(s.shoe, 2) && t.banker[..2] == Popped(s.shoe[..|s.shoe| - 2], 2)
    ensures var t := Apply(s, action).state;
      var pt, bt := HandTotal(t.player[..2]), HandTotal(t.banker[..2]);
      && (|t.player| == 3 <==> pt <= 5 && bt <= 7)
      && (|t.banker| == 3
          <==> pt <= 7 && bt <= 7 && bt <= if |t.player| == 3 then BankerLimit(Points(t.player[2])) else 5)
  {
  }

  /** The cards do not depend on the bet. */
  lemma BetsDoNotMoveCards(s: State, a: string, b: string)
    requires a in BETS && b in BETS
    ensures Apply(s, a).state == Apply(s, b).state.(bet := Some(a)) && Apply(s, a).raised == Apply(s, b).raised
  {
  }

  // ---- resolving ----

  datatype Outcome = Outcome(payout: int, result: string)

  /** Payout multipliers are in hundredths. */
  function Resolve(s: State): Outcome {
    var pt, bt := HandTotal(s.player), HandTotal(s.banker);
    if pt == bt then if s.bet == Some("bet_tie") then Outcome(900, "tie_win") else Outcome(100, "tie_push")
    else if pt > bt then Outcome(if s.bet == Some("bet_player") then 200 else 0, "player_wins")
    else Outcome(if s.bet == Some("bet_banker") then 195 else 0, "banker_wins")
  }

  /** On the same shoe exactly one bet wins, both sides are returned on a tie, and backing both sides never gains. */
  lemma OneBetWins(s: State)
    requires |s.shoe| >= 6
    ensures var p, b, t := Resolve(Apply(s, "bet_player").state).payout, Resolve(Apply(s, "bet_banker").state).payout,
                           Resolve(Apply(s, "bet_tie").state).payout;
      && p + b <= 200
      && (t > 0 <==> p == 100 && b == 100)
      && (t == 0 ==> (p > 0 <==> b == 0))
  {
    BetsDoNotMoveCards(s, "bet_player", "bet_tie");
    BetsDoNotMoveCards(s, "bet_banker", "bet_tie");
    BetIsKept(s, "bet_player");
    BetIsKept(s, "bet_banker");
    BetIsKept(s, "bet_tie");
  }

  lemma BetIsKept(s: State, action: string)
    requires action in BETS
    ensures Apply(s, action).state.bet == Some(action)
  {
  }

  // ---- in numbers ----

  /**
    An ace counts one, tens and pictures nothing, other cards their number; a hand counts the last digit of the
    sum.
  */
  lemma HandsCount(a: Card, b: Card, c: Card)
    ensures Points(a) == if a.rank == 14 then 1 else if a.rank >= 10 then 0 else a.rank
    ensures HandTotal([a, b]) == (Points(a) + Points(b)) % 10
    ensures HandTotal([a, b, c]) == (Points(a) + Points(b) + Points(c)) % 10
  {
    assert [a, b][..1] == [a] && [a][..0] == [] && [a, b, c][..2] == [a, b];
    assert Sum([a]) == Points(a) && Sum([a, b]) == Points(a) + Points(b);
  }

  /** The pairs: two cards for the player, then two for the banker. */
  lemma PairsSay(s: State)
    requires |s.shoe| >= 4
    ensures var n, t := |s.shoe|, TwoEach(s);
      && t.shoe == s.shoe[..n - 4] && t.bet == s.bet && t.phase == s.phase
      && t.player == [s.shoe[n - 1], s.shoe[n - 2]] && t.banker == [s.shoe[n - 3], s.shoe[n - 4]]
      && t.playerTotal == Some(HandTotal(t.player)) && t.bankerTotal == Some(HandTotal(t.banker))
  {
    PoppedAt(s.shoe, 2);
    PoppedAt(s.shoe[..|s.shoe| - 2], 2);
  }

  /** The thirds: the next card is the player's, if one is due there, and the next after that the banker's. */
  lemma ThirdsSay(s: State)
    requires |s.shoe| >= 2 && |s.player| == 2 && |s.banker| == 2
    ensures var n, t := |s.shoe|, DrawRest(s).state;
      && t.bet == s.bet && t.phase == Resolved && t.player[..2] == s.player && t.banker[..2] == s.banker
      && 2 <= |t.player| <= 3 && 2 <= |t.banker| <= 3 && t.shoe == s.shoe[..n + 4 - |t.player| - |t.banker|]
      && (|t.player| == 3 ==> t.player[2] == s.shoe[n - 1])
      && (|t.banker| == 3 ==> t.banker[2] == s.shoe[n + 1 - |t.player|])
      && t.playerTotal == Some(HandTotal(t.player)) && t.bankerTotal == Some(HandTotal(t.banker))
  {
  }

  /** Cards come off the end of the shoe: two for the player, two for the banker, then the thirds. */
  lemma CoupSays(s: State, action: string)
    requires |s.shoe| >= 6 && action in BETS
    ensures var n, t := |s.shoe|, Apply(s, action).state;
      && t.bet == Some(action) && t.phase == Resolved && t.shoe == s.shoe[..n - |t.player| - |t.banker|]
      && t.player[..2] == [s.shoe[n - 1], s.shoe[n - 2]] && t.banker[..2] == [s.shoe[n - 3], s.shoe[n - 4]]
      && (|t.player| == 3 ==> t.player[2] == s.shoe[n - 5])
      && (|t.banker| == 3 ==> t.banker[2] == s.shoe[n - |t.player| - 3])
      && t.playerTotal == Some(HandTotal(t.player)) && t.bankerTotal == Some(HandTotal(t.banker))
  {
    var bet := s.(bet := Some(action));
    PairsSay(bet);
    if !IsNatural(TwoEach(bet)) { ThirdsSay(TwoEach(bet)); }
  }

  /**
    The higher total wins: 2 for the player's bet, 1.95 for the banker's; a tie pays 9 on the tie and returns the
    rest.
  */
  lemma ResolveSays(s: State)
    ensures var p, b, out := HandTotal(s.player), HandTotal(s.banker), Resolve(s);
      && (p > b ==> out.result == "player_wins" && out.payout == if s.bet == Some("bet_player") then 200 else 0)
      && (p < b ==> out.result == "banker_wins" && out.payout == if s.bet == Some("bet_banker") then 195 else 0)
      && (p == b && s.bet == Some("bet_tie") ==> out.result == "tie_win" && out.payout == 900)
      && (p == b && s.bet != Some("bet_tie") ==> out.result == "tie_push" && out.payout == 100)
  {
  }

  /** With fewer than four cards a bet raises over the empty shoe; other actions do nothing. */
  lemma ShortShoe(s: State, action: string)
    ensures action !in BETS ==> Apply(s, action) == Played(s, false)
    ensures action in BETS && |s.shoe| < 4 ==> var t := Apply(s, action);
      && t.raised && t.state.shoe == [] && t.state.phase == s.phase && t.state.bet == Some(action)
      && t.state.banker == s.banker
      && t.state.player == if |s.shoe| < 2 then s.player else [s.shoe[|s.shoe| - 1], s.shoe[|s.shoe| - 2]]
    ensures ValidActions(s) == if s.phase == Betting then ["bet_player", "bet_banker", "bet_tie"] else []
  {
    if 2 <= |s.shoe| { PoppedAt(s.shoe, 2); }
  }

  /** With four or five it raises exactly if the third cards do not go round. */
  lemma ThirdCardsGoRound(s: State, action: string)
    requires 4 <= |s.shoe| < 6 && action in BETS
    ensures var n := |s.shoe|;
      var pt, bt := HandTotal([s.shoe[n - 1], s.shoe[n - 2]]), HandTotal([s.shoe[n - 3], s.shoe[n - 4]]);
      Apply(s, action).raised == (pt <= 7 && bt <= 7
        && if pt > 5 then bt <= 5 && n == 4 else n == 4 || bt <= BankerLimit(Points(s.shoe[n - 5])))
  {
    PoppedAt(s.shoe, 2);
    PoppedAt(s.shoe[..|s.shoe| - 2], 2);
    var n := |s.shoe|;
    assert Popped(s.shoe, 2) == [s.shoe[n - 1], s.shoe[n - 2]];
    assert Popped(s.shoe[..n - 2], 2) == [s.shoe[n - 3], s.shoe[n - 4]];
  }

  // ---- the round as it is played in place ----

  class Round {
    var shoe: seq<Card>
    var bet: Option<string>
    var player: seq<Card>
    var banker: seq<Card>
    var playerTotal: Option<int>
    var bankerTotal: Option<int>
    var phase: Phase

    function Contents(): State
      reads this
    {
      State(shoe, bet, player, banker, playerTotal, bankerTotal, phase)
    }

    constructor (shuffled: seq<Card>)
      ensures Contents() == Start(shuffled)
    {
      shoe, bet, player, banker, playerTotal, bankerTotal, phase := shuffled, None, [], [], None, None, Betting;
    }

    method Pop() returns (card: Option<Card>)
      modifies `shoe
      ensures old(shoe) == [] ==> card == None && shoe == []
      ensures old(shoe) != [] ==> card == Some(old(shoe)[|old(shoe)| - 1]) && shoe == old(shoe)[..|old(shoe)| - 1]
    {
      if shoe == [] { return None; }
      card := Some(shoe[|shoe| - 1]);
      shoe := shoe[..|shoe| - 1];
    }

    method PopPair() returns (hand: Option<seq<Card>>)
      modifies `shoe
      ensures |old(shoe)| < 2 ==> hand == None && shoe == []
      ensures |old(shoe)| >= 2 ==> hand == Some(Popped(old(shoe), 2)) && shoe == old(shoe)[..|old(shoe)| - 2]
    {
      var a := Pop();
      if a.None? { return None; }
      var b := Pop();
      if b.None? { return None; }
      hand := Some([a.value, b.value]);
      TwoPopped(old(shoe));
    }

    method ApplyAction(action: string) returns (raised: bool)
      modifies this
      ensures Played(Contents(), raised) == Apply(old(Contents()), action)
    {
      if action !in BETS { return false; }
      bet := Some(action);
      raised := DealTwoEach();
      if raised { return; }
      var pt, bt := HandTotal(player), HandTotal(banker);
      playerTotal, bankerTotal := Some(pt), Some(bt);
      if pt >= 8 || bt >= 8 {
        phase := Resolved;
        return false;
      }
      raised := DrawThirds(pt, bt);
    }

    /** The pairs for player and banker. */
    method DealTwoEach() returns (raised: bool)
      modifies `shoe, `player, `banker
      ensures raised == (|old(shoe)| < 4)
      ensures raised ==> shoe == [] && banker == old(banker)
      ensures raised ==> player == if |old(shoe)| < 2 then old(player) else Popped(old(shoe), 2)
      ensures !raised ==> shoe == old(shoe)[..|old(shoe)| - 4] && player == Popped(old(shoe), 2)
      ensures !raised ==> banker == Popped(old(shoe)[..|old(shoe)| - 2], 2)
    {
      ghost var start := shoe;
      var pair := PopPair();
      if pair.None? { return true; }
      player := pair.value;
      pair := PopPair();
      if pair.None? { return true; }
      banker := pair.value;
      assert shoe == start[..|start| - 4];
      raised := false;
    }

    method DrawThirds(pt: int, bt: int) returns (raised: bool)
      requires pt == HandTotal(player) && bt == HandTotal(banker)
      modifies this
      ensures Played(Contents(), raised) == DrawRest(old(Contents()))
    {
      var draws := bt <= 5;
      if pt <= 5 {
        var third := Pop();
        if third.None? { return true; }
        player := player + [third.value];
        var p3 := Points(third.value);
        draws := bt <= 2 || (bt == 3 && p3 != 8) || (bt == 4 && p3 in {2, 3, 4, 5, 6, 7})
                 || (bt == 5 && p3 in {4, 5, 6, 7}) || (bt == 6 && p3 in {6, 7});
      }
      raised := EndCoup(draws);
    }

    method EndCoup(draws: bool) returns (raised: bool)
      modifies this
      ensures Played(Contents(), raised) == Finish(old(Contents()), draws)
    {
      if draws {
        var card := Pop();
        if card.None? { return true; }
        banker := banker + [card.value];
      }
      playerTotal, bankerTotal := Some(HandTotal(player)), Some(HandTotal(banker));
      phase := Resolved;
      raised := false;
    }
  }

  method InitialState(raw: int -> nat, nonce: int) returns (round: Round)
    ensures fresh(round) && round.Contents() == Start(Shoe(raw, nonce))
  {
    var cards := SixDecks();
    var a := new Card[|cards|](i requires 0 <= i < |cards| => cards[i]);
    assert a[..] == cards;
    ShuffleInPlace(a, raw, nonce);
    round := new Round(a[..]);
  }
}
