/** What each casino call leaves in the tables and answers, column by column. */
module CasinoAnswers {
  import opened Options
  import opened CasinoGames
  import opened CasinoStore
  import opened CasinoRuns

  // ---- games ----

  /** The codes of the five games, and what a round of each starts from: the first shuffle of its seed, or nothing. */
  lemma GamesByCode(code: string, raw: int -> nat)
    ensures KindOf(code).None?
       <==> code != "blackjack" && code != "roulette" && code != "slots" && code != "poker" && code != "baccarat"
    ensures KindOf("blackjack") == Some(BlackjackKind) && KindOf("roulette") == Some(RouletteKind)
    ensures KindOf("slots") == Some(SlotsKind) && KindOf("poker") == Some(PokerKind)
    ensures KindOf("baccarat") == Some(BaccaratKind)
    ensures Initial(RouletteKind, raw, 0) == OfRoulette(Roulette.State(None, None, None, Roulette.Betting))
    ensures Initial(SlotsKind, raw, 0) == OfSlots(Slots.State(None, Slots.Ready))
    ensures var deck := Cards.Shuffle(raw, 0);
      && |deck| == 52 && Initial(BlackjackKind, raw, 0) == OfBlackjack(Blackjack.Deal(deck))
      && Initial(PokerKind, raw, 0) == OfPoker(PokerGame.Deal(deck))
    ensures Initial(BaccaratKind, raw, 0)
         == OfBaccarat(Baccarat.State(Baccarat.Shoe(raw, 0), None, [], [], None, None, Baccarat.Betting))
  {
    Cards.ShuffleIsComplete(raw, 0);
    DifferentCodes();
  }

  lemma DifferentCodes()
    ensures "blackjack" != "roulette" && "blackjack" != "slots" && "blackjack" != "poker" && "blackjack" != "baccarat"
    ensures "roulette" != "slots" && "roulette" != "poker" && "roulette" != "baccarat"
    ensures "slots" != "poker" && "slots" != "baccarat" && "poker" != "baccarat"
  {
    assert "blackjack"[1] == 'l' && "roulette"[0] == 'r' && "slots"[0] == 's' && "poker"[0] == 'p';
    assert "baccarat"[1] == 'a' && "blackjack"[0] == 'b';
  }

  /** Each game is moved, asked and paid by its own rules. */
  lemma EachByItsOwnRules(g: Game, action: string, number: Option<int>, raw: int -> nat, nonce: int)
    ensures match g
      case OfBlackjack(s) =>
        && Apply(g, action, number, raw, nonce) == OfBlackjack(Blackjack.Apply(s, action))
        && ValidActions(g) == Blackjack.ValidActions(s) && IsResolved(g) == (s.phase == Blackjack.Resolved)
        && Multiplier(g) == Blackjack.Resolve(s).payout
      case OfRoulette(s) =>
        && Apply(g, action, number, raw, nonce) == OfRoulette(Roulette.Apply(s, action, number, raw, nonce))
        && ValidActions(g) == Roulette.ValidActions(s) && IsResolved(g) == (s.phase == Roulette.Resolved)
        && (s.result.Some? ==> HasOutcome(g) && Multiplier(g) == Roulette.Payout(s))
      case OfSlots(s) =>
        && Apply(g, action, number, raw, nonce) == OfSlots(Slots.Apply(s, action, raw, nonce))
        && ValidActions(g) == Slots.ValidActions(s) && IsResolved(g) == (s.phase == Slots.Resolved)
        && (s.reels.Some? && |s.reels.value| == 3 ==> HasOutcome(g) && Multiplier(g) == Slots.Payout(s))
      case OfPoker(s) =>
        && Apply(g, action, number, raw, nonce) == OfPoker(PokerGame.Apply(s, action))
        && ValidActions(g) == PokerGame.ValidActions(s) && IsResolved(g) == (s.phase == PokerGame.Resolved)
        && Multiplier(g) == PokerGame.Resolve(s).payout
      case OfBaccarat(s) =>
        && Apply(g, action, number, raw, nonce) == OfBaccarat(Baccarat.Apply(s, action).state)
        && ValidActions(g) == Baccarat.ValidActions(s) && IsResolved(g) == (s.phase == Baccarat.Resolved)
        && Multiplier(g) == Baccarat.Resolve(s).payout
  {
  }

  // ---- sessions ----

  /** A session is begun under an active parent where the casino is not switched off, with the lower of the two caps. */
  lemma BeginningASession(db: Db, parent: Option<string>, policy: Option<Policy>, owner: string, maxLoss: int,
                          maxRounds: int)
    ensures var (d, out) := StartSession(db, parent, policy, owner, maxLoss, maxRounds);
      && (parent == None ==> out == Err(NoParent))
      && (parent.Some? && parent.value != "active" ==> out == Err(ParentInactive))
      && (parent == Some("active") && policy.Some? && !policy.value.enabled ==> out == Err(CasinoDisabled))
      && (out.Err? ==> d == db)
      && (parent == Some("active") && (policy == None || policy.value.enabled) ==>
            && out == Ok(|db.sessions|) && d == db.(sessions := d.sessions) && |d.sessions| == |db.sessions| + 1
            && d.sessions[..|db.sessions|] == db.sessions
            && var x := d.sessions[|db.sessions|];
            && x.owner == owner && x.maxRounds == maxRounds && x.played == 0 && x.pnl == 0 && x.status == Active
            && (policy == None ==> x.maxLoss == maxLoss)
            && (policy.Some? ==> x.maxLoss <= maxLoss && x.maxLoss <= policy.value.maxLoss
                                 && (x.maxLoss == maxLoss || x.maxLoss == policy.value.maxLoss)))
  {
  }

  // ---- rounds ----

  /** Why a start is refused, in the order the reasons are looked at; only reaching the loss cap changes a row. */
  lemma StartRefused(db: Db, s: nat, owner: string, code: string, wager: int, policy: Option<Policy>, funded: bool,
                     raw: int -> nat)
    ensures var (d, out) := StartRound(db, s, owner, code, wager, policy, funded, raw);
      if s >= |db.sessions| || db.sessions[s].owner != owner || db.sessions[s].status == LossCapped then
        out == Err(NoSession) && d == db
      else if db.sessions[s].played >= db.sessions[s].maxRounds then out == Err(MaxRounds) && d == db
      else if db.sessions[s].pnl + db.sessions[s].maxLoss <= 0 then
        out == Err(LossCapReached) && d == db.(sessions := db.sessions[s := db.sessions[s].(status := LossCapped)])
      else if policy.Some? && wager > policy.value.roundCap then out == Err(WagerAboveCap) && d == db
      else if KindOf(code) == None then out == Err(UnknownGame) && d == db
      else if !funded then out == Err(WalletRefused) && d == db
      else out.Ok?
  {
  }

  /**
    An accepted start: the wager bet under the new round's name, the round in its first state, one more round
    played.
  */
  lemma StartLeaves(db: Db, s: nat, owner: string, code: string, wager: int, policy: Option<Policy>, funded: bool,
                    raw: int -> nat)
    requires StartRound(db, s, owner, code, wager, policy, funded, raw).1.Ok?
    ensures var (d, out) := StartRound(db, s, owner, code, wager, policy, funded, raw);
      && s < |db.sessions| && KindOf(code).Some? && out == Ok(|db.rounds|)
      && d.ledger == db.ledger + [Bet(owner, |db.rounds|, wager)]
      && d.sessions == db.sessions[s := db.sessions[s].(played := db.sessions[s].played + 1)]
      && d.rounds == db.rounds
           + [Round(s, KindOf(code).value, wager, Initial(KindOf(code).value, raw, 0), Open, raw, 0)]
      && d.moves == db.moves && d.payouts == db.payouts
  {
  }

  /** A round of the caller's that is still open. */
  predicate Playing(db: Db, r: nat, owner: string) {
    && r < |db.rounds| && db.rounds[r].session < |db.sessions| && db.sessions[db.rounds[r].session].owner == owner
    && db.rounds[r].status == Open
  }

  /** Why an action is refused; nothing is changed then. */
  lemma ActionRefused(db: Db, r: nat, owner: string, action: string, number: Option<int>, key: string)
    ensures var (d, out) := ApplyAction(db, r, owner, action, number, key);
      if !Playing(db, r, owner) then out == Err(NoRound) && d == db
      else if action !in ValidActions(db.rounds[r].state) then out == Err(InvalidAction) && d == db
      else if Raises(db.rounds[r].state, action) then out == Err(EmptyDeck) && d == db
      else if exists m | m in db.moves :: m.round == r && m.key == key then out == Err(DuplicateKey) && d == db
      else out.Ok?
  {
    if m :| m in db.moves && m.round == r && m.key == key {
      var i :| 0 <= i < |db.moves| && db.moves[i] == m;
      assert KeyUsed(db.moves, r, key);
    }
  }

  lemma ActionTaken(db: Db, r: nat, owner: string, action: string, number: Option<int>, key: string)
    requires ApplyAction(db, r, owner, action, number, key).1.Ok?
    ensures r < |db.rounds|
    ensures var (d, out) := ApplyAction(db, r, owner, action, number, key);
      var k, round := |MovesOf(db.moves, r)|, db.rounds[r];
      && out == Ok(Apply(round.state, action, number, round.raw, round.nonce + 100 + k))
      && d == db.(moves := db.moves + [Move(r, k, action, number, key)],
                  rounds := db.rounds[r := round.(state := out.value)])
  {
  }

  /** An accepted action draws its numbers from nonce 100 on, moved on by one for each earlier action of the round. */
  lemma ActionLeaves(steps: seq<Step>, r: nat, owner: string, action: string, number: Option<int>, key: string, db: Db)
    requires db == Exec(EMPTY, steps) && ApplyAction(db, r, owner, action, number, key).1.Ok?
    ensures r < |db.rounds|
    ensures var (d, out) := ApplyAction(db, r, owner, action, number, key);
      var k, round := |MovesOf(db.moves, r)|, db.rounds[r];
      && out == Ok(Apply(round.state, action, number, round.raw, 100 + k))
      && d == db.(moves := db.moves + [Move(r, k, action, number, key)],
                  rounds := db.rounds[r := round.(state := out.value)])
  {
    ActionTaken(db, r, owner, action, number, key);
    NoncesAreZero(steps, r);
  }

  lemma {:induction false} NoncesAreZero(steps: seq<Step>, r: nat)
    requires r < |Exec(EMPTY, steps).rounds|
    ensures Exec(EMPTY, steps).rounds[r].nonce == 0
  {
    if steps != [] {
      var n := |steps| - 1;
      var db := Exec(EMPTY, steps[..n]);
      if r < |db.rounds| { NoncesAreZero(steps[..n], r); }
      StepShows(db, steps[n]);
      NonceShown(db, Do(db, steps[n]), EffectOf(db, steps[n]), r);
    }
  }

  lemma NonceShown(db: Db, d: Db, e: Effect, r: nat)
    requires Shows(db, d, e) && r < |d.rounds| && (e.Opened? ==> e.round.nonce == 0)
    ensures d.rounds[r].nonce == if r < |db.rounds| then db.rounds[r].nonce else 0
  {
  }

  /** Why a round is not settled; nothing is changed then. */
  lemma SettlementRefused(db: Db, r: nat, owner: string)
    ensures var (d, out) := ResolveRound(db, r, owner);
      && (!Playing(db, r, owner) <==> out == Err(NoRound))
      && (out == Err(NotResolved)
          <==> Playing(db, r, owner) && !(IsResolved(db.rounds[r].state) && HasOutcome(db.rounds[r].state)))
      && (out.Err? ==> d == db) && (out.Err? ==> out == Err(NoRound) || out == Err(NotResolved))
  {
  }

  /** A payout is the wager times the multiplier, to the nearest whole cent. */
  lemma PaidInCents(wager: int, multiplier: int)
    ensures var paid := PayoutOf(wager, multiplier);
      paid % 10_000 == 0 && -500_000 <= paid * 100 - wager * multiplier <= 500_000
  {
    HalfEvenIsNearest(wager * multiplier, 100 * CENT);
  }

  /** What leaves escrow: to the winner what is paid, to the house what is left of the wager. */
  lemma EscrowPays(owner: string, r: nat, wager: int, paid: int)
    ensures Settlement(owner, r, wager, paid)
         == if paid <= 0 then [Loss(r, wager)]
            else if paid < wager then [Win(owner, r, paid), Loss(r, wager - paid)]
            else [Win(owner, r, paid)]
  {
    assert [Win(owner, r, paid)] + [Loss(r, wager - paid)] == [Win(owner, r, paid), Loss(r, wager - paid)];
    assert [Win(owner, r, paid)] + [] == [Win(owner, r, paid)];
  }

  /**
    A settlement writes its payout row and ledger entries, closes the round and adds the net to the session's
    result.
  */
  lemma SettlementLeaves(db: Db, r: nat, owner: string) returns (paid: int)
    requires ResolveRound(db, r, owner).1.Ok?
    ensures Playing(db, r, owner) && HasOutcome(db.rounds[r].state)
    ensures var round := db.rounds[r];
      && paid == PayoutOf(round.wager, Multiplier(round.state)) && paid % 10_000 == 0
      && -500_000 <= paid * 100 - round.wager * Multiplier(round.state) <= 500_000
    ensures var (d, out) := ResolveRound(db, r, owner);
      var round := db.rounds[r];
      var net := paid - round.wager;
      var session := db.sessions[round.session];
      && out.value == Payout(r, round.wager, paid, net) && d.payouts == db.payouts + [out.value]
      && d.rounds == db.rounds[r := round.(status := Settled)] && d.moves == db.moves
      && d.sessions == db.sessions[round.session := session.(pnl := session.pnl + net)]
      && d.ledger == db.ledger + Settlement(owner, r, round.wager, paid)
  {
    var round := db.rounds[r];
    paid := PayoutOf(round.wager, Multiplier(round.state));
    PaidInCents(round.wager, Multiplier(round.state));
  }
}
