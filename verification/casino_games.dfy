/** The five games behind one interface. */
module CasinoGames {
  import opened Options
  import Cards
  import Blackjack
  import Roulette
  import Slots
  import PokerGame
  import Baccarat

  datatype Game =
    | OfBlackjack(blackjack: Blackjack.State)
    | OfRoulette(roulette: Roulette.State)
    | OfSlots(slots: Slots.State)
    | OfPoker(poker: PokerGame.State)
    | OfBaccarat(baccarat: Baccarat.State)

  datatype Kind = BlackjackKind | RouletteKind | SlotsKind | PokerKind | BaccaratKind

  /** The games by their codes. */
  function KindOf(code: string): Option<Kind> {
    if code == "blackjack" then Some(BlackjackKind)
    else if code == "roulette" then Some(RouletteKind)
    else if code == "slots" then Some(SlotsKind)
    else if code == "poker" then Some(PokerKind)
    else if code == "baccarat" then Some(BaccaratKind)
    else None
  }

  /** The state a round starts in. */
  function Initial(kind: Kind, raw: int -> nat, nonce: int): Game {
    Cards.ShuffleIsComplete(raw, nonce);
    match kind
    case BlackjackKind => OfBlackjack(Blackjack.Deal(Cards.Shuffle(raw, nonce)))
    case RouletteKind => OfRoulette(Roulette.START)
    case SlotsKind => OfSlots(Slots.START)
    case PokerKind => OfPoker(PokerGame.Deal(Cards.Shuffle(raw, nonce)))
    case BaccaratKind => OfBaccarat(Baccarat.Start(Baccarat.Shoe(raw, nonce)))
  }

  function ValidActions(g: Game): seq<string> {
    match g
    case OfBlackjack(s) => Blackjack.ValidActions(s)
    case OfRoulette(s) => Roulette.ValidActions(s)
    case OfSlots(s) => Slots.ValidActions(s)
    case OfPoker(s) => PokerGame.ValidActions(s)
    case OfBaccarat(s) => Baccarat.ValidActions(s)
  }

  predicate IsResolved(g: Game) {
    match g
    case OfBlackjack(s) => Blackjack.IsResolved(s)
    case OfRoulette(s) => Roulette.IsResolved(s)
    case OfSlots(s) => Slots.IsResolved(s)
    case OfPoker(s) => PokerGame.IsResolved(s)
    case OfBaccarat(s) => Baccarat.IsResolved(s)
  }

  /** Popping an empty deck or shoe raises. */
  predicate Raises(g: Game, action: string) {
    match g
    case OfBlackjack(s) => Blackjack.Raises(s, action)
    case OfBaccarat(s) => Baccarat.Apply(s, action).raised
    case _ => false
  }

  /** The state an action leaves, whether it returns or raises. */
  function Apply(g: Game, action: string, number: Option<int>, raw: int -> nat, nonce: int): Game {
    match g
    case OfBlackjack(s) => OfBlackjack(Blackjack.Apply(s, action))
    case OfRoulette(s) => OfRoulette(Roulette.Apply(s, action, number, raw, nonce))
    case OfSlots(s) => OfSlots(Slots.Apply(s, action, raw, nonce))
    case OfPoker(s) => OfPoker(PokerGame.Apply(s, action))
    case OfBaccarat(s) => OfBaccarat(Baccarat.Apply(s, action).state)
  }

  /** The outcome the payout is read from is there. */
  predicate HasOutcome(g: Game) {
    (g.OfRoulette? ==> g.roulette.result.Some?) && (g.OfSlots? ==> g.slots.reels.Some? && |g.slots.reels.value| == 3)
  }

  /** The payout multiplier in hundredths. */
  function Multiplier(g: Game): (m: int)
    requires HasOutcome(g)
    ensures 0 <= m <= 5000
  {
    match g
    case OfBlackjack(s) => Blackjack.Resolve(s).payout
    case OfRoulette(s) => Roulette.Payout(s)
    case OfSlots(s) => Slots.Payout(s)
    case OfPoker(s) => PokerGame.Resolve(s).payout
    case OfBaccarat(s) => Baccarat.Resolve(s).payout
  }

  /** What every reachable state keeps, game by game. */
  ghost predicate Sound(g: Game) {
    match g
    case OfBlackjack(s) => Blackjack.Sound(s)
    case OfRoulette(s) => Roulette.Sound(s)
    case OfSlots(s) => Slots.Sound(s)
    case OfPoker(s) => PokerGame.Sound(s)
    case OfBaccarat(s) => Baccarat.Sound(s)
  }

  /** An upper bound on the actions a round can still take. */
  function Measure(g: Game): nat {
    match g
    case OfBlackjack(s) => Blackjack.Left(s)
    case OfRoulette(s) => Roulette.Measure(s)
    case OfSlots(s) => Slots.Measure(s)
    case OfPoker(s) => if PokerGame.IsResolved(s) then 0 else 1
    case OfBaccarat(s) => if Baccarat.IsResolved(s) then 0 else 1
  }

  lemma BlackjackStarts(raw: int -> nat, nonce: int)
    ensures |Cards.Shuffle(raw, nonce)| == 52
    ensures var s := Blackjack.Deal(Cards.Shuffle(raw, nonce)); Blackjack.Sound(s) && Blackjack.Left(s) <= 48
  {
    Blackjack.ShuffledDealIsSound(raw, nonce);
  }

  lemma PokerStarts(raw: int -> nat, nonce: int)
    ensures Sound(Initial(PokerKind, raw, nonce)) && Measure(Initial(PokerKind, raw, nonce)) == 1
  {
    PokerGame.ShuffledDealIsSound(raw, nonce);
  }

  lemma BaccaratStarts(raw: int -> nat, nonce: int)
    ensures Sound(Initial(BaccaratKind, raw, nonce)) && Measure(Initial(BaccaratKind, raw, nonce)) == 1
  {
    Baccarat.StartIsSound(raw, nonce);
  }

  lemma RoundsStartSound(kind: Kind, raw: int -> nat, nonce: int)
    ensures Sound(Initial(kind, raw, nonce)) && Measure(Initial(kind, raw, nonce)) <= 48
  {
    match kind
    case BlackjackKind => BlackjackStarts(raw, nonce);
    case RouletteKind =>
    case SlotsKind =>
    case PokerKind => PokerStarts(raw, nonce);
    case BaccaratKind => BaccaratStarts(raw, nonce);
  }

  /** In every game a valid action does not raise, keeps the state sound and brings the round nearer to its end. */
  lemma ActionsKeepSound(g: Game, action: string, number: Option<int>, raw: int -> nat, nonce: int)
    requires Sound(g) && action in ValidActions(g)
    ensures !Raises(g, action)
    ensures Sound(Apply(g, action, number, raw, nonce)) && Measure(Apply(g, action, number, raw, nonce)) < Measure(g)
  {
    match g
    case OfBlackjack(s) =>
      Blackjack.DeckNeverRunsOut(s);
      Blackjack.HitKeepsSound(s);
      Blackjack.StandKeepsSound(s);
    case OfRoulette(s) => Roulette.ApplyKeepsSound(s, action, number, raw, nonce);
    case OfSlots(s) =>
    case OfPoker(s) => PokerGame.ApplyKeepsSound(s, action);
    case OfBaccarat(s) => Baccarat.ApplyKeepsSound(s, action);
  }

  /** In every game actions are offered exactly until the round is resolved, and a resolved round has an outcome. */
  lemma OfferedUntilResolved(g: Game)
    requires Sound(g)
    ensures ValidActions(g) == [] <==> IsResolved(g)
    ensures IsResolved(g) ==> HasOutcome(g)
    ensures IsResolved(g) <==> Measure(g) == 0
  {
    if g.OfBlackjack? && !IsResolved(g) { Blackjack.DeckNeverRunsOut(g.blackjack); }
  }
}
