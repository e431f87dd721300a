/** Casino sessions and rounds: the rows, and each call as a function on them. */
module CasinoStore {
  import opened Options
  import opened CasinoGames

  /** Money is in millionths; rows are named by their position, which no other row ever takes. */
  datatype SessionStatus = Active | LossCapped

  datatype Session = Session(owner: string, maxLoss: int, maxRounds: int, played: int, pnl: int, status: SessionStatus)

  datatype RoundStatus = Open | Settled

  /** `raw` reads numbers off the hash keyed with the round's server seed. */
  datatype Round = Round(session: nat, kind: Kind, wager: int, state: Game, status: RoundStatus,
                         raw: int -> nat, nonce: int)

  datatype Move = Move(round: nat, index: nat, action: string, number: Option<int>, key: string)

  datatype Payout = Payout(round: nat, wager: int, payout: int, net: int)

  /** Calls into the wallet. */
  datatype Entry
    = Bet(account: string, round: nat, amount: int)
    | Win(account: string, round: nat, amount: int)
    | Loss(round: nat, amount: int)

  datatype Db = Db(sessions: seq<Session>, rounds: seq<Round>, moves: seq<Move>, payouts: seq<Payout>,
                   ledger: seq<Entry>)

  /** Why a call is refused; the rows are left as they were, but for a session that reaches its loss cap. */
  datatype Error =
    | NoParent | ParentInactive | CasinoDisabled | NoSession | MaxRounds | LossCapReached | WagerAboveCap | UnknownGame
    | WalletRefused | NoRound | InvalidAction | EmptyDeck | DuplicateKey | NotResolved

  datatype Result<T> = Ok(value: T) | Err(error: Error)

  const EMPTY := Db([], [], [], [], [])

  // ---- money ----

  /** `n / d` to the nearest integer, halves to the even one. */
  function HalfEven(n: int, d: int): int
    requires d > 0
  {
    var q, r := n / d, n % d;
    if 2 * r < d then q else if 2 * r > d then q + 1 else if q % 2 == 0 then q else q + 1
  }

  const CENT := 10000

  /** `(wager * multiplier).quantize(0.01)`: millionths times hundredths, rounded to cents. */
  function PayoutOf(wager: int, multiplier: int): int { HalfEven(wager * multiplier, 100 * CENT) * CENT }

  // ---- rows of a round ----

  function MovesOf(moves: seq<Move>, r: nat): seq<Move> {
    if moves == [] then []
    else
      var n := |moves| - 1;
      if moves[n].round == r then MovesOf(moves[..n], r) + [moves[n]] else MovesOf(moves[..n], r)
  }

  function PayoutsOf(payouts: seq<Payout>, r: nat): seq<Payout> {
    if payouts == [] then []
    else
      var n := |payouts| - 1;
      if payouts[n].round == r then PayoutsOf(payouts[..n], r) + [payouts[n]] else PayoutsOf(payouts[..n], r)
  }

  function EntriesOf(ledger: seq<Entry>, r: nat): seq<Entry> {
    if ledger == [] then []
    else
      var n := |ledger| - 1;
      if ledger[n].round == r then EntriesOf(ledger[..n], r) + [ledger[n]] else EntriesOf(ledger[..n], r)
  }

  predicate KeyUsed(moves: seq<Move>, r: nat, key: string) {
    exists i | 0 <= i < |moves| :: moves[i].round == r && moves[i].key == key
  }

  // ---- the calls ----

  datatype Policy = Policy(enabled: bool, maxLoss: int, roundCap: int)

  /** `parent` is the parent agent session's status, if it belongs to this agent. */
  function StartSession(db: Db, parent: Option<string>, policy: Option<Policy>, owner: string, maxLoss: int,
                        maxRounds: int): (Db, Result<int>) {
    if parent.None? then (db, Err(NoParent))
    else if parent.value != "active" then (db, Err(ParentInactive))
    else if policy.Some? && !policy.value.enabled then (db, Err(CasinoDisabled))
    else
      var cap := if policy.Some? && policy.value.maxLoss < maxLoss then policy.value.maxLoss else maxLoss;
      (db.(sessions := db.sessions + [Session(owner, cap, maxRounds, 0, 0, Active)]), Ok(|db.sessions|))
  }

  /** `funded`: whether the wallet moves the wager into the round's escrow. */
  function StartRound(db: Db, s: nat, owner: string, code: string, wager: int, policy: Option<Policy>, funded: bool,
                      raw: int -> nat): (Db, Result<int>)
  {
    if s >= |db.sessions| || db.sessions[s].owner != owner || db.sessions[s].status != Active then
      (db, Err(NoSession))
    else
      var session := db.sessions[s];
      if session.played >= session.maxRounds then (db, Err(MaxRounds))
      else if session.pnl <= -session.maxLoss then
        (db.(sessions := db.sessions[s := session.(status := LossCapped)]), Err(LossCapReached))
      else if policy.Some? && wager > policy.value.roundCap then (db, Err(WagerAboveCap))
      else if KindOf(code).None? then (db, Err(UnknownGame))
      else if !funded then (db, Err(WalletRefused))
      else
        var kind := KindOf(code).value;
        var r := |db.rounds|;
        (db.(ledger := db.ledger + [Bet(owner, r, wager)],
             rounds := db.rounds + [Round(s, kind, wager, Initial(kind, raw, 0), Open, raw, 0)],
             sessions := db.sessions[s := session.(played := session.played + 1)]), Ok(r))
  }

  predicate MayTouch(db: Db, r: nat, owner: string) {
    r < |db.rounds| && db.rounds[r].session < |db.sessions| && db.sessions[db.rounds[r].session].owner == owner
    && db.rounds[r].status == Open
  }

  function ApplyAction(db: Db, r: nat, owner: string, action: string, number: Option<int>, key: string)
    : (Db, Result<Game>)
  {
    if !MayTouch(db, r, owner) then (db, Err(NoRound))
    else
      var round := db.rounds[r];
      if action !in ValidActions(round.state) then (db, Err(InvalidAction))
      else if Raises(round.state, action) then (db, Err(EmptyDeck))
      else if KeyUsed(db.moves, r, key) then (db, Err(DuplicateKey))
      else
        var count := |MovesOf(db.moves, r)|;
        var state := Apply(round.state, action, number, round.raw, round.nonce + 100 + count);
        (db.(moves := db.moves + [Move(r, count, action, number, key)],
             rounds := db.rounds[r := round.(state := state)]), Ok(state))
  }

  /** What leaves escrow when a round is settled. */
  function Settlement(owner: string, r: nat, wager: int, payout: int): seq<Entry> {
    if payout > 0 then
      [Win(owner, r, payout)] + if wager - payout > 0 then [Loss(r, wager - payout)] else []
    else [Loss(r, wager)]
  }

  function ResolveRound(db: Db, r: nat, owner: string): (Db, Result<Payout>) {
    if !MayTouch(db, r, owner) then (db, Err(NoRound))
    else
      var round := db.rounds[r];
      if !IsResolved(round.state) || !HasOutcome(round.state) then (db, Err(NotResolved))
      else
        var session := db.sessions[round.session];
        var payout := PayoutOf(round.wager, Multiplier(round.state));
        var row := Payout(r, round.wager, payout, payout - round.wager);
        (db.(ledger := db.ledger + Settlement(session.owner, r, round.wager, payout),
             payouts := db.payouts + [row],
             rounds := db.rounds[r := round.(status := Settled)],
             sessions := db.sessions[round.session := session.(pnl := session.pnl + row.net)]), Ok(row))
  }

  // ---- any calls in any order ----

  datatype Step =
    | NewSession(parent: Option<string>, policy: Option<Policy>, owner: string, maxLoss: int, maxRounds: int)
    | Start(s: nat, owner: string, code: string, wager: int, policy: Option<Policy>, funded: bool, raw: int -> nat)
    | Act(r: nat, owner: string, action: string, number: Option<int>, key: string)
    | Resolve(r: nat, owner: string)

  function Do(db: Db, step: Step): Db {
    match step
    case NewSession(parent, policy, owner, maxLoss, maxRounds) =>
      StartSession(db, parent, policy, owner, maxLoss, maxRounds).0
    case Start(s, owner, code, wager, policy, funded, raw) =>
      StartRound(db, s, owner, code, wager, policy, funded, raw).0
    case Act(r, owner, action, number, key) => ApplyAction(db, r, owner, action, number, key).0
    case Resolve(r, owner) => ResolveRound(db, r, owner).0
  }

  function Exec(db: Db, steps: seq<Step>): Db {
    if steps == [] then db else Do(Exec(db, steps[..|steps| - 1]), steps[|steps| - 1])
  }
}
