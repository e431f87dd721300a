/** European roulette: two actions, and what every bet returns over the 37 pockets. */
module Roulette {
  import opened Options

  datatype Phase = Betting | Resolved

  datatype Bet = Red | Black | Odd | Even | Number

  datatype State = State(bet: Option<Bet>, number: Option<int>, result: Option<int>, phase: Phase)

  const START := State(None, None, None, Betting)

  const BETS: seq<string> := ["bet_red", "bet_black", "bet_odd", "bet_even", "bet_number"]

  function BetNamed(action: string): Option<Bet> {
    if action == "bet_red" then Some(Red)
    else if action == "bet_black" then Some(Black)
    else if action == "bet_odd" then Some(Odd)
    else if action == "bet_even" then Some(Even)
    else if action == "bet_number" then Some(Number)
    else None
  }

  const RED: set<int> := {1, 3, 5, 7, 9, 12, 14, 16, 18, 19, 21, 23, 25, 27, 30, 32, 34, 36}

  function Apply(s: State, action: string, number: Option<int>, raw: int -> nat, nonce: int): State {
    if BetNamed(action).Some? then s.(bet := BetNamed(action), number := number)
    else if action == "spin" then s.(result := Some(raw(nonce) % 37), phase := Resolved)
    else s
  }

  function ValidActions(s: State): seq<string> {
    if s.phase == Resolved then [] else if s.bet.None? then BETS else ["spin"]
  }

  predicate IsResolved(s: State) { s.phase == Resolved }

  /** What a bet pays on pocket `r`, in hundredths of the wager. */
  function Pays(bet: Bet, number: Option<int>, r: int): int {
    match bet
    case Number => if number == Some(r) then 3600 else 0
    case Red => if r in RED then 200 else 0
    case Black => if r !in RED && r != 0 then 200 else 0
    case Odd => if r != 0 && r % 2 == 1 then 200 else 0
    case Even => if r != 0 && r % 2 == 0 then 200 else 0
  }

  function Payout(s: State): int
    requires s.result.Some?
  {
    if s.bet.None? then 0 else Pays(s.bet.value, s.number, s.result.value)
  }

  predicate Sound(s: State) {
    s.phase == Resolved ==> s.bet.Some? && s.result.Some? && 0 <= s.result.value < 37
  }

  /** Actions left: a bet and a spin. */
  function Measure(s: State): nat { if s.phase == Resolved then 0 else if s.bet.Some? then 1 else 2 }

  lemma ApplyKeepsSound(s: State, action: string, number: Option<int>, raw: int -> nat, nonce: int)
    requires Sound(s) && action in ValidActions(s)
    ensures Sound(Apply(s, action, number, raw, nonce)) && Measure(Apply(s, action, number, raw, nonce)) < Measure(s)
  {
  }

  /** The five bets by name, then the spin, on the pocket drawn. */
  lemma SpinSays(s: State, action: string, number: Option<int>, raw: int -> nat, nonce: int)
    requires s.phase == Betting && (if s.bet.None? then action in BETS else action == "spin")
    ensures var t := Apply(s, action, number, raw, nonce);
      if s.bet.None? then
        && t.bet == Some(if action == "bet_red" then Red else if action == "bet_black" then Black
                         else if action == "bet_odd" then Odd else if action == "bet_even" then Even else Number)
        && t == s.(bet := t.bet, number := number) && ValidActions(t) == ["spin"]
      else t == s.(result := Some(raw(nonce) % 37), phase := Resolved) && ValidActions(t) == []
  {
  }

  /** Even-money bets pay double, zero losing; a number pays 36 times on itself. */
  lemma PaysSays(s: State)
    requires s.result.Some? && 0 <= s.result.value < 37
    ensures var r := s.result.value;
      var odd := r % 2 == 1;
      var red := if r <= 10 || 19 <= r <= 28 then odd else !odd;
      && (s.bet == None ==> Payout(s) == 0)
      && (s.bet == Some(Red) ==> Payout(s) == if r != 0 && red then 200 else 0)
      && (s.bet == Some(Black) ==> Payout(s) == if r != 0 && !red then 200 else 0)
      && (s.bet == Some(Odd) ==> Payout(s) == if r != 0 && odd then 200 else 0)
      && (s.bet == Some(Even) ==> Payout(s) == if r != 0 && !odd then 200 else 0)
      && (s.bet == Some(Number) ==> Payout(s) == if s.number == Some(r) then 3600 else 0)
  {
    RedByParity(s.result.value);
  }

  lemma OffersSay(s: State)
    ensures s.phase == Betting && s.bet == None ==>
      ValidActions(s) == ["bet_red", "bet_black", "bet_odd", "bet_even", "bet_number"]
  {
  }

  // ---- the return of a bet ----

  function OverPockets(bet: Bet, number: Option<int>, n: nat): int {
    if n == 0 then 0 else OverPockets(bet, number, n - 1) + Pays(bet, number, n - 1)
  }

  lemma {:induction false} NumberBetOverPockets(number: Option<int>, n: nat)
    ensures OverPockets(Number, number, n) == if number.Some? && 0 <= number.value < n then 3600 else 0
  {
    if n > 0 { NumberBetOverPockets(number, n - 1); }
  }

  /** The wins of red and black, and of odd and even, are complementary on every pocket but zero. */
  lemma Complementary(r: int)
    requires 0 <= r < 37
    ensures Pays(Red, None, r) + Pays(Black, None, r) == if r == 0 then 0 else 200
    ensures Pays(Odd, None, r) + Pays(Even, None, r) == if r == 0 then 0 else 200
  {
  }

  lemma {:induction false} TwinBets(number: Option<int>, n: nat)
    requires n <= 37
    ensures OverPockets(Red, number, n) + OverPockets(Black, number, n) == if n == 0 then 0 else 200 * (n - 1)
    ensures OverPockets(Odd, number, n) == 200 * (n / 2)
      && OverPockets(Even, number, n) == if n == 0 then 0 else 200 * ((n - 1) / 2)
  {
    if n > 0 {
      TwinBets(number, n - 1);
      Complementary(n - 1);
    }
  }

  /** Red pockets are odd from 1 to 10 and from 19 to 28, even in between. */
  lemma RedByParity(r: int)
    requires 0 <= r < 37
    ensures r in RED <==> r != 0 && r % 2 == if r <= 10 || 19 <= r <= 28 then 1 else 0
  {
  }

  lemma {:induction false} RedOverPockets(number: Option<int>, n: nat)
    requires n <= 37
    ensures OverPockets(Red, number, n)
       == if n == 0 then 0 else 200 * if n <= 11 || 19 < n <= 29 then n / 2 else (n - 1) / 2
  {
    if n > 0 {
      RedOverPockets(number, n - 1);
      RedByParity(n - 1);
    }
  }

  /** Every bet returns 36 wagers over the 37 pockets, except a number bet on a number that is not on the wheel. */
  lemma EveryBetReturnsThirtySix(bet: Bet, number: Option<int>)
    ensures OverPockets(bet, number, 37)
       == if bet == Number && (number.None? || !(0 <= number.value < 37)) then 0 else 3600
  {
    NumberBetOverPockets(number, 37);
    TwinBets(number, 37);
    RedOverPockets(number, 37);
  }
}

/** Three reels of six symbols. */
module Slots {
  import opened Options

  datatype Phase = Ready | Resolved

  datatype Symbol = Seven | Bar | Cherry | Lemon | Bell | Star

  datatype State = State(reels: Option<seq<Symbol>>, phase: Phase)

  const START := State(None, Ready)

  function SymbolAt(i: nat): Symbol
    requires i < 6
  {
    if i == 0 then Seven else if i == 1 then Bar else if i == 2 then Cherry
    else if i == 3 then Lemon else if i == 4 then Bell else Star
  }

  function Reel(raw: int -> nat, nonce: int): Symbol { SymbolAt(raw(nonce) % 6) }

  function Apply(s: State, action: string, raw: int -> nat, nonce: int): State {
    if action == "spin" then State(Some([Reel(raw, nonce), Reel(raw, nonce + 1), Reel(raw, nonce + 2)]), Resolved)
    else s
  }

  function ValidActions(s: State): seq<string> { if s.phase == Ready then ["spin"] else [] }

  predicate IsResolved(s: State) { s.phase == Resolved }

  function Three(a: Symbol): int {
    match a
    case Seven => 5000
    case Bar => 2000
    case Bell => 1000
    case Star => 800
    case Cherry => 500
    case Lemon => 0
  }

  /** What three symbols pay, in hundredths of the wager. */
  function Pays(a: Symbol, b: Symbol, c: Symbol): int {
    if a == b == c && a != Lemon then Three(a) else if a == b == Cherry then 200 else 0
  }

  predicate Sound(s: State) { s.phase == Resolved ==> s.reels.Some? && |s.reels.value| == 3 }

  function Payout(s: State): int
    requires s.reels.Some? && |s.reels.value| == 3
  {
    Pays(s.reels.value[0], s.reels.value[1], s.reels.value[2])
  }

  function Measure(s: State): nat { if s.phase == Resolved then 0 else 1 }

  /** A spin draws the three reels in turn. */
  lemma SpinSays(s: State, raw: int -> nat, nonce: int)
    requires s.phase == Ready
    ensures var symbols, t := [Seven, Bar, Cherry, Lemon, Bell, Star], Apply(s, "spin", raw, nonce);
      && t.phase == Resolved && ValidActions(s) == ["spin"] && ValidActions(t) == []
      && t.reels == Some([symbols[raw(nonce) % 6], symbols[raw(nonce + 1) % 6], symbols[raw(nonce + 2) % 6]])
  {
  }

  /** Three of a kind pay by their symbol, lemons not; two leading cherries pay double. */
  lemma PaysSays(s: State)
    requires s.reels.Some? && |s.reels.value| == 3
    ensures var r := s.reels.value;
      Payout(s)
        == if r == [Seven, Seven, Seven] then 5000 else if r == [Bar, Bar, Bar] then 2000
           else if r == [Bell, Bell, Bell] then 1000 else if r == [Star, Star, Star] then 800
           else if r == [Cherry, Cherry, Cherry] then 500 else if r[0] == Cherry && r[1] == Cherry then 200 else 0
  {
  }

  // ---- the return of a spin ----

  function OverThird(a: Symbol, b: Symbol, n: nat): int
    requires n <= 6
  {
    if n == 0 then 0 else OverThird(a, b, n - 1) + Pays(a, b, SymbolAt(n - 1))
  }

  function OverSecond(a: Symbol, n: nat): int
    requires n <= 6
  {
    if n == 0 then 0 else OverSecond(a, n - 1) + OverThird(a, SymbolAt(n - 1), 6)
  }

  /** The payouts over all outcomes whose first reel is among the first `n` symbols. */
  function OverOutcomes(n: nat): int
    requires n <= 6
  {
    if n == 0 then 0 else OverOutcomes(n - 1) + OverSecond(SymbolAt(n - 1), 6)
  }

  lemma {:induction false} NoPairNoPay(a: Symbol, b: Symbol, n: nat)
    requires a != b && n <= 6
    ensures OverThird(a, b, n) == 0
  {
    if n > 0 { NoPairNoPay(a, b, n - 1); }
  }

  lemma PairPays(a: Symbol)
    ensures OverThird(a, a, 6) == Three(a) + if a == Cherry then 1000 else 0
  {
    match a
    case Seven => assert OverThird(Seven, Seven, 6) == 5000;
    case Bar => assert OverThird(Bar, Bar, 6) == 2000;
    case Cherry => assert OverThird(Cherry, Cherry, 6) == 1500;
    case Lemon => assert OverThird(Lemon, Lemon, 6) == 0;
    case Bell => assert OverThird(Bell, Bell, 6) == 1000;
    case Star => assert OverThird(Star, Star, 6) == 800;
  }

  lemma LastReel(a: Symbol, b: Symbol)
    ensures OverThird(a, b, 6) == if a != b then 0 else Three(a) + if a == Cherry then 1000 else 0
  {
    if a == b { PairPays(a); } else { NoPairNoPay(a, b, 6); }
  }

  lemma LastTwoReels(a: Symbol)
    ensures OverSecond(a, 6) == Three(a) + if a == Cherry then 1000 else 0
  {
    forall b { LastReel(a, b); }
    assert OverSecond(a, 3) == OverThird(a, Seven, 6) + OverThird(a, Bar, 6) + OverThird(a, Cherry, 6);
  }

  /** The 216 outcomes return 103 wagers: less than half, where the game declares 0.95. */
  lemma AllOutcomesReturn103()
    ensures OverOutcomes(6) == 10300
  {
    forall a { LastTwoReels(a); }
    assert OverOutcomes(3) == 8500;
  }
}
