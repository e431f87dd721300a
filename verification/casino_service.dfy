/** The casino service as it updates its tables, each call tied to the function that specifies it. */
module CasinoCalls {
  import opened Options
  import opened CasinoGames
  import opened CasinoStore

  class CasinoService {
    var sessions: seq<Session>
    var rounds: seq<Round>
    var moves: seq<Move>
    var payouts: seq<Payout>
    var ledger: seq<Entry>

    function Contents(): Db
      reads this
    {
      Db(sessions, rounds, moves, payouts, ledger)
    }

    constructor ()
      ensures Contents() == EMPTY
    {
      sessions, rounds, moves, payouts, ledger := [], [], [], [], [];
    }

    method BeginSession(parent: Option<string>, policy: Option<Policy>, owner: string, maxLoss: int, maxRounds: int)
      returns (result: Result<int>)
      modifies this
      ensures (Contents(), result) == StartSession(old(Contents()), parent, policy, owner, maxLoss, maxRounds)
    {
      if parent.None? { return Err(NoParent); }
      if parent.value != "active" { return Err(ParentInactive); }
      if policy.Some? && !policy.value.enabled { return Err(CasinoDisabled); }
      var cap := maxLoss;
      if policy.Some? && policy.value.maxLoss < cap { cap := policy.value.maxLoss; }
      result := Ok(|sessions|);
      sessions := sessions + [Session(owner, cap, maxRounds, 0, 0, Active)];
    }

    method BeginRound(s: nat, owner: string, code: string, wager: int, policy: Option<Policy>, funded: bool,
                      raw: int -> nat)
      returns (result: Result<int>)
      modifies this
      ensures (Contents(), result) == StartRound(old(Contents()), s, owner, code, wager, policy, funded, raw)
    {
      if s >= |sessions| || sessions[s].owner != owner || sessions[s].status != Active {
        return Err(NoSession);
      }
      var session := sessions[s];
      if session.played >= session.maxRounds { return Err(MaxRounds); }
      if session.pnl <= -session.maxLoss {
        sessions := sessions[s := session.(status := LossCapped)];
        return Err(LossCapReached);
      }
      if policy.Some? && wager > policy.value.roundCap { return Err(WagerAboveCap); }
      var kind := KindOf(code);
      if kind.None? { return Err(UnknownGame); }
      var state := Initial(kind.value, raw, 0);
      if !funded { return Err(WalletRefused); }
      var r := |rounds|;
      ledger := ledger + [Bet(owner, r, wager)];
      rounds := rounds + [Round(s, kind.value, wager, state, Open, raw, 0)];
      sessions := sessions[s := session.(played := session.played + 1)];
      result := Ok(r);
    }

    method Act(r: nat, owner: string, action: string, number: Option<int>, key: string) returns (result: Result<Game>)
      modifies this
      ensures (Contents(), result) == ApplyAction(old(Contents()), r, owner, action, number, key)
    {
      if !MayTouch(Contents(), r, owner) { return Err(NoRound); }
      var round := rounds[r];
      if action !in ValidActions(round.state) { return Err(InvalidAction); }
      var count := |MovesOf(moves, r)|;
      if Raises(round.state, action) { return Err(EmptyDeck); }
      var state := Apply(round.state, action, number, round.raw, round.nonce + 100 + count);
      if KeyUsed(moves, r, key) { return Err(DuplicateKey); }
      moves := moves + [Move(r, count, action, number, key)];
      rounds := rounds[r := round.(state := state)];
      result := Ok(state);
    }

    method Settle(r: nat, owner: string) returns (result: Result<Payout>)
      modifies this
      ensures (Contents(), result) == ResolveRound(old(Contents()), r, owner)
    {
      if !MayTouch(Contents(), r, owner) { return Err(NoRound); }
      var round := rounds[r];
      if !IsResolved(round.state) || !HasOutcome(round.state) { return Err(NotResolved); }
      var session := sessions[round.session];
      var payout := PayoutOf(round.wager, Multiplier(round.state));
      var net := payout - round.wager;
      if payout > 0 {
        ledger := ledger + [Win(session.owner, r, payout)];
        var leftover := round.wager - payout;
        if leftover > 0 { ledger := ledger + [Loss(r, leftover)]; }
      } else {
        ledger := ledger + [Loss(r, round.wager)];
      }
      assert ledger == old(ledger) + Settlement(session.owner, r, round.wager, payout);
      payouts := payouts + [Payout(r, round.wager, payout, net)];
      rounds := rounds[r := round.(status := Settled)];
      sessions := sessions[round.session := session.(pnl := session.pnl + net)];
      result := Ok(Payout(r, round.wager, payout, net));
    }
  }
}
