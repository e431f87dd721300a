/** What holds of the casino's tables whatever calls are made, in whatever order. */
module CasinoRuns {
  import opened Options
  import opened CasinoGames
  import opened CasinoStore

  // ---- money ----

  /** Half-even rounding is within half a unit, exact on whole units, and to the even side on a tie. */
  lemma HalfEvenIsNearest(n: int, d: int)
    requires d > 0
    ensures -d <= 2 * (HalfEven(n, d) * d - n) <= d
    ensures n % d == 0 ==> HalfEven(n, d) * d == n
    ensures 2 * (HalfEven(n, d) * d - n) == d || 2 * (HalfEven(n, d) * d - n) == -d ==> HalfEven(n, d) % 2 == 0
  {
    var q, r := n / d, n % d;
    assert n == q * d + r;
    assert (q + 1) * d == q * d + d;
    if 2 * r == d && q % 2 == 1 { assert (q + 1) % 2 == 0; }
  }

  lemma PayoutIsNotNegative(wager: int, multiplier: int)
    requires wager >= 0 && multiplier >= 0
    ensures PayoutOf(wager, multiplier) >= 0
  {
    assert wager * multiplier >= 0;
    assert HalfEven(wager * multiplier, 100 * CENT) >= 0;
  }

  /** A push returns the wager exactly when it is a whole number of cents. */
  lemma PushReturnsWholeCents(wager: int)
    ensures PayoutOf(wager, 100) == wager <==> wager % CENT == 0
  {
    var d := 100 * CENT;
    HalfEvenIsNearest(wager * 100, d);
    if wager % CENT == 0 {
      assert wager == wager / CENT * CENT;
      assert wager * 100 == wager / CENT * d;
      assert (wager / CENT * d) % d == 0;
    }
    if PayoutOf(wager, 100) == wager { assert wager == HalfEven(wager * 100, d) * CENT; }
  }

  function Amounts(entries: seq<Entry>): int { if entries == [] then 0 else entries[0].amount + Amounts(entries[1..]) }

  function PaidOut(wager: int, payout: int): int { if payout > 0 && wager < payout then payout else wager }

  /** What is sent out of escrow is the larger of wager and payout, or the wager if nothing is paid. */
  lemma SettlementTotals(owner: string, r: nat, wager: int, payout: int)
    ensures Amounts(Settlement(owner, r, wager, payout)) == PaidOut(wager, payout)
  {
    var win, rest := Win(owner, r, payout), Loss(r, wager - payout);
    assert Amounts([Loss(r, wager)]) == wager && Amounts([win]) == payout;
    assert [win, rest][1..] == [rest] && Amounts([rest]) == wager - payout;
    assert [win] + [rest] == [win, rest] && [win] + [] == [win];
  }

  /** The most a round of this wager can take off its session's result: only a negative wager loses by paying. */
  function Stake(wager: int): (v: int)
    ensures v >= 0
  {
    var most := if wager >= 0 then wager else wager - PayoutOf(wager, 5000);
    if most > 0 then most else 0
  }

  lemma RoundingIsMonotone(n: int, m: int)
    requires n <= m
    ensures HalfEven(n, 100 * CENT) <= HalfEven(m, 100 * CENT)
  {
    HalfEvenIsNearest(n, 100 * CENT);
    HalfEvenIsNearest(m, 100 * CENT);
  }

  /** No round loses more than its stake, whatever the multiplier. */
  lemma StakeIsEnough(wager: int, multiplier: int)
    requires 0 <= multiplier <= 5000
    ensures PayoutOf(wager, multiplier) - wager >= -Stake(wager)
  {
    if wager >= 0 {
      PayoutIsNotNegative(wager, multiplier);
    } else {
      assert wager * 5000 <= wager * multiplier;
      RoundingIsMonotone(wager * 5000, wager * multiplier);
    }
  }

  // ---- the rows of one round ----

  function Replay(g: Game, moves: seq<Move>, raw: int -> nat, nonce: int): Game {
    if moves == [] then g
    else
      var n := |moves| - 1;
      Apply(Replay(g, moves[..n], raw, nonce), moves[n].action, moves[n].number, raw, nonce + 100 + moves[n].index)
  }

  /** Moves are numbered from zero and no idempotency key occurs twice. */
  predicate WellLogged(moves: seq<Move>) {
    (forall i | 0 <= i < |moves| :: moves[i].index == i)
    && forall i, j | 0 <= i < j < |moves| :: moves[i].key != moves[j].key
  }

  /** The payout row of a settled round. */
  function RowOf(round: Round, r: nat): Payout
    requires HasOutcome(round.state)
  {
    var payout := PayoutOf(round.wager, Multiplier(round.state));
    Payout(r, round.wager, payout, payout - round.wager)
  }

  ghost predicate StateOk(round: Round, moves: seq<Move>) {
    && Sound(round.state)
    && round.state == Replay(Initial(round.kind, round.raw, round.nonce), moves, round.raw, round.nonce)
    && WellLogged(moves) && |moves| + Measure(round.state) <= 48
  }

  predicate MoneyOk(owner: string, round: Round, r: nat, payouts: seq<Payout>, ledger: seq<Entry>) {
    match round.status
    case Open => payouts == [] && ledger == [Bet(owner, r, round.wager)]
    case Settled =>
      && IsResolved(round.state) && HasOutcome(round.state)
      && payouts == [RowOf(round, r)]
      && ledger == [Bet(owner, r, round.wager)] + Settlement(owner, r, round.wager, RowOf(round, r).payout)
  }

  ghost predicate RoundOk(db: Db, r: nat) {
    if r < |db.rounds| then
      && db.rounds[r].session < |db.sessions|
      && StateOk(db.rounds[r], MovesOf(db.moves, r))
      && MoneyOk(db.sessions[db.rounds[r].session].owner, db.rounds[r], r,
                 PayoutsOf(db.payouts, r), EntriesOf(db.ledger, r))
    else MovesOf(db.moves, r) == [] && PayoutsOf(db.payouts, r) == [] && EntriesOf(db.ledger, r) == []
  }

  // ---- the session's result ----

  function NetOf(round: Round): int {
    if round.status == Settled && HasOutcome(round.state)
    then PayoutOf(round.wager, Multiplier(round.state)) - round.wager
    else 0
  }

  function RiskOf(round: Round): int { if round.status == Open then Stake(round.wager) else 0 }

  /** The nets of the settled rounds of a session. */
  function Won(rounds: seq<Round>, s: nat): int {
    if rounds == [] then 0
    else var n := |rounds| - 1; Won(rounds[..n], s) + if rounds[n].session == s then NetOf(rounds[n]) else 0
  }

  /** What the open rounds of a session can lose. */
  function Exposure(rounds: seq<Round>, s: nat): (v: int)
    ensures v >= 0
  {
    if rounds == [] then 0
    else var n := |rounds| - 1; Exposure(rounds[..n], s) + if rounds[n].session == s then RiskOf(rounds[n]) else 0
  }

  ghost predicate SessionOk(db: Db, s: nat) {
    s < |db.sessions| ==> db.sessions[s].pnl == Won(db.rounds, s)
  }

  ghost predicate Inv(db: Db) {
    && (forall r: nat :: RoundOk(db, r))
    && (forall s: nat :: SessionOk(db, s))
    && forall r: nat | r < |db.rounds| :: db.rounds[r].session < |db.sessions|
  }

  // ---- appending rows ----

  lemma MovesOfAppended(moves: seq<Move>, m: Move, r: nat)
    ensures MovesOf(moves + [m], r) == if m.round == r then MovesOf(moves, r) + [m] else MovesOf(moves, r)
  {
    assert (moves + [m])[..|moves|] == moves;
  }

  lemma PayoutsOfAppended(payouts: seq<Payout>, p: Payout, r: nat)
    ensures PayoutsOf(payouts + [p], r) == if p.round == r then PayoutsOf(payouts, r) + [p] else PayoutsOf(payouts, r)
  {
    assert (payouts + [p])[..|payouts|] == payouts;
  }

  lemma {:induction false} EntriesOfAppended(ledger: seq<Entry>, es: seq<Entry>, q: nat, r: nat)
    requires forall i | 0 <= i < |es| :: es[i].round == q
    ensures EntriesOf(ledger + es, r) == if q == r then EntriesOf(ledger, r) + es else EntriesOf(ledger, r)
    decreases |es|
  {
    if es == [] {
      assert ledger + es == ledger;
    } else {
      var n := |es| - 1;
      EntriesOfAppended(ledger, es[..n], q, r);
      assert (ledger + es)[..|ledger| + n] == ledger + es[..n];
      assert es == es[..n] + [es[n]];
    }
  }

  lemma {:induction false} WonUpdated(rounds: seq<Round>, i: nat, x: Round, s: nat)
    requires i < |rounds| && x.session == rounds[i].session
    ensures Won(rounds[i := x], s) == Won(rounds, s) + if x.session == s then NetOf(x) - NetOf(rounds[i]) else 0
    ensures Exposure(rounds[i := x], s)
       == Exposure(rounds, s) + if x.session == s then RiskOf(x) - RiskOf(rounds[i]) else 0
  {
    var n := |rounds| - 1;
    if i < n {
      WonUpdated(rounds[..n], i, x, s);
      assert rounds[i := x][..n] == rounds[..n][i := x];
    } else {
      assert rounds[i := x][..n] == rounds[..n];
    }
  }

  lemma WonAppended(rounds: seq<Round>, x: Round, s: nat)
    ensures Won(rounds + [x], s) == Won(rounds, s) + if x.session == s then NetOf(x) else 0
    ensures Exposure(rounds + [x], s) == Exposure(rounds, s) + if x.session == s then RiskOf(x) else 0
  {
    assert (rounds + [x])[..|rounds|] == rounds;
  }

  lemma {:induction false} NothingInUnknownSessions(rounds: seq<Round>, s: nat)
    requires forall i | 0 <= i < |rounds| :: rounds[i].session != s
    ensures Won(rounds, s) == 0 && Exposure(rounds, s) == 0
  {
    if rounds != [] { NothingInUnknownSessions(rounds[..|rounds| - 1], s); }
  }

  // ---- every call keeps the invariant ----

  /** Everything said about round `r` is the same in `d`. */
  predicate Spared(db: Db, d: Db, r: nat) {
    && |db.sessions| <= |d.sessions|
    && (forall s | 0 <= s < |db.sessions| :: d.sessions[s].owner == db.sessions[s].owner)
    && (r < |db.rounds| ==> r < |d.rounds|) && (r >= |db.rounds| ==> r >= |d.rounds|)
    && MovesOf(d.moves, r) == MovesOf(db.moves, r) && PayoutsOf(d.payouts, r) == PayoutsOf(db.payouts, r)
    && EntriesOf(d.ledger, r) == EntriesOf(db.ledger, r)
  }

  lemma SparedStaysOk(db: Db, d: Db, r: nat)
    requires RoundOk(db, r) && Spared(db, d, r) && (r < |db.rounds| ==> d.rounds[r] == db.rounds[r])
    ensures RoundOk(d, r)
  {
  }

  lemma NewSessionKeeps(db: Db, parent: Option<string>, policy: Option<Policy>, owner: string, maxLoss: int,
                        maxRounds: int)
    requires Inv(db)
    ensures Inv(StartSession(db, parent, policy, owner, maxLoss, maxRounds).0)
  {
    var d := StartSession(db, parent, policy, owner, maxLoss, maxRounds).0;
    if |d.sessions| > |db.sessions| { SessionAdded(db, d.sessions[|db.sessions|]); }
  }

  lemma SessionAdded(db: Db, x: Session)
    requires Inv(db) && x.pnl == 0
    ensures Inv(db.(sessions := db.sessions + [x]))
  {
    var d := db.(sessions := db.sessions + [x]);
    forall r: nat ensures RoundOk(d, r) {
      assert RoundOk(db, r);
      SparedStaysOk(db, d, r);
    }
    forall s: nat ensures SessionOk(d, s) {
      assert SessionOk(db, s);
      if s == |db.sessions| { NothingInUnknownSessions(db.rounds, s); }
    }
  }

  lemma StartedRoundOk(db: Db, s: nat, owner: string, kind: Kind, wager: int, raw: int -> nat, d: Db)
    requires Inv(db) && s < |db.sessions| && db.sessions[s].owner == owner
    requires var r := |db.rounds|;
      d == db.(ledger := db.ledger + [Bet(owner, r, wager)],
               rounds := db.rounds + [Round(s, kind, wager, Initial(kind, raw, 0), Open, raw, 0)],
               sessions := db.sessions[s := db.sessions[s].(played := db.sessions[s].played + 1)])
    ensures Inv(d)
  {
    var r := |db.rounds|;
    forall q: nat ensures RoundOk(d, q) {
      assert RoundOk(db, q);
      EntriesOfAppended(db.ledger, [Bet(owner, r, wager)], r, q);
      if q == r { RoundsStartSound(kind, raw, 0); } else { SparedStaysOk(db, d, q); }
    }
    forall t: nat ensures SessionOk(d, t) {
      assert SessionOk(db, t);
      WonAppended(db.rounds, d.rounds[r], t);
    }
  }

  /** Changes of a session that leave owner and result alone touch no round. */
  lemma SessionTouched(db: Db, s: nat, x: Session)
    requires Inv(db) && s < |db.sessions| && x.owner == db.sessions[s].owner && x.pnl == db.sessions[s].pnl
    ensures Inv(db.(sessions := db.sessions[s := x]))
  {
    var d := db.(sessions := db.sessions[s := x]);
    forall r: nat ensures RoundOk(d, r) {
      assert RoundOk(db, r);
      SparedStaysOk(db, d, r);
    }
    forall t: nat ensures SessionOk(d, t) { assert SessionOk(db, t); }
  }

  predicate Starts(db: Db, s: nat, owner: string, code: string, wager: int, policy: Option<Policy>, funded: bool) {
    && s < |db.sessions| && db.sessions[s].owner == owner && db.sessions[s].status == Active
    && db.sessions[s].played < db.sessions[s].maxRounds && db.sessions[s].pnl > -db.sessions[s].maxLoss
    && (policy.Some? ==> wager <= policy.value.roundCap) && KindOf(code).Some? && funded
  }

  lemma NewRoundKeeps(db: Db, s: nat, owner: string, code: string, wager: int, policy: Option<Policy>, funded: bool,
                      raw: int -> nat)
    requires Inv(db)
    ensures Inv(StartRound(db, s, owner, code, wager, policy, funded, raw).0)
  {
    var d := StartRound(db, s, owner, code, wager, policy, funded, raw).0;
    if Starts(db, s, owner, code, wager, policy, funded) {
      StartedRoundOk(db, s, owner, KindOf(code).value, wager, raw, d);
    } else if s < |db.sessions| {
      SessionTouched(db, s, db.sessions[s].(status := LossCapped));
    }
  }

  lemma OneMoreMove(moves: seq<Move>, m: Move)
    requires WellLogged(moves) && m.index == |moves| && forall i | 0 <= i < |moves| :: moves[i].key != m.key
    ensures WellLogged(moves + [m])
  {
  }

  lemma {:induction false} UnusedKey(moves: seq<Move>, r: nat, key: string)
    requires !KeyUsed(moves, r, key)
    ensures forall i | 0 <= i < |MovesOf(moves, r)| :: MovesOf(moves, r)[i].key != key
  {
    if moves != [] {
      var n := |moves| - 1;
      forall i | 0 <= i < n ensures !(moves[..n][i].round == r && moves[..n][i].key == key) {
        assert moves[..n][i] == moves[i];
      }
      UnusedKey(moves[..n], r, key);
    }
  }

  lemma ReplayOneMore(g: Game, moves: seq<Move>, m: Move, raw: int -> nat, nonce: int)
    ensures Replay(g, moves + [m], raw, nonce)
       == Apply(Replay(g, moves, raw, nonce), m.action, m.number, raw, nonce + 100 + m.index)
  {
    assert (moves + [m])[..|moves|] == moves;
  }

  /** The state after a move is still the replay of the log. */
  lemma MovedStateOk(round: Round, moves: seq<Move>, m: Move)
    requires StateOk(round, moves) && m.action in ValidActions(round.state) && m.index == |moves|
    requires forall i | 0 <= i < |moves| :: moves[i].key != m.key
    ensures StateOk(round.(state := Apply(round.state, m.action, m.number, round.raw, round.nonce + 100 + |moves|)),
                    moves + [m])
  {
    var next := Apply(round.state, m.action, m.number, round.raw, round.nonce + 100 + |moves|);
    ReplayOneMore(Initial(round.kind, round.raw, round.nonce), moves, m, round.raw, round.nonce);
    ActionsKeepSound(round.state, m.action, m.number, round.raw, round.nonce + 100 + |moves|);
    LoggedStateOk(round, moves, m, next);
  }

  lemma LoggedStateOk(round: Round, moves: seq<Move>, m: Move, next: Game)
    requires WellLogged(moves) && |moves| + Measure(round.state) <= 48 && m.index == |moves|
    requires forall i | 0 <= i < |moves| :: moves[i].key != m.key
    requires Sound(next) && Measure(next) < Measure(round.state)
    requires next == Replay(Initial(round.kind, round.raw, round.nonce), moves + [m], round.raw, round.nonce)
    ensures StateOk(round.(state := next), moves + [m])
  {
    OneMoreMove(moves, m);
  }

  lemma MovedItself(db: Db, r: nat, m: Move, d: Db)
    requires RoundOk(db, r) && r < |db.rounds| && m.action in ValidActions(db.rounds[r].state)
    requires m.index == |MovesOf(db.moves, r)| && !KeyUsed(db.moves, r, m.key) && db.rounds[r].status == Open
    requires MovesOf(d.moves, r) == MovesOf(db.moves, r) + [m] && d.sessions == db.sessions && d.payouts == db.payouts
    requires d.ledger == db.ledger
    requires |d.rounds| == |db.rounds|
    requires var round := db.rounds[r];
      d.rounds[r] == round.(state := Apply(round.state, m.action, m.number, round.raw, round.nonce + 100 + m.index))
    ensures RoundOk(d, r)
  {
    UnusedKey(db.moves, r, m.key);
    MovedStateOk(db.rounds[r], MovesOf(db.moves, r), m);
  }

  lemma MovedRoundOk(db: Db, r: nat, m: Move, d: Db)
    requires Inv(db) && r < |db.rounds| && m.round == r && m.action in ValidActions(db.rounds[r].state)
    requires m.index == |MovesOf(db.moves, r)| && !KeyUsed(db.moves, r, m.key) && db.rounds[r].status == Open
    requires var round := db.rounds[r];
      d == db.(moves := db.moves + [m], rounds := db.rounds[r := round.(state :=
        Apply(round.state, m.action, m.number, round.raw, round.nonce + 100 + m.index))])
    ensures Inv(d)
  {
    forall q: nat ensures RoundOk(d, q) {
      assert RoundOk(db, q);
      MovesOfAppended(db.moves, m, q);
      if q == r { MovedItself(db, r, m, d); } else { SparedStaysOk(db, d, q); }
    }
    forall s: nat ensures SessionOk(d, s) {
      assert SessionOk(db, s);
      WonUpdated(db.rounds, r, d.rounds[r], s);
    }
  }

  predicate Moves(db: Db, r: nat, owner: string, action: string, key: string) {
    && MayTouch(db, r, owner) && action in ValidActions(db.rounds[r].state)
    && !Raises(db.rounds[r].state, action) && !KeyUsed(db.moves, r, key)
  }

  lemma MoveKeeps(db: Db, r: nat, owner: string, action: string, number: Option<int>, key: string)
    requires Inv(db)
    ensures Inv(ApplyAction(db, r, owner, action, number, key).0)
  {
    if Moves(db, r, owner, action, key) {
      MovedRoundOk(db, r, Move(r, |MovesOf(db.moves, r)|, action, number, key),
                   ApplyAction(db, r, owner, action, number, key).0);
    }
  }

  lemma SettledRoundOk(owner: string, round: Round, r: nat, payouts: seq<Payout>, ledger: seq<Entry>)
    requires round.status == Open && MoneyOk(owner, round, r, payouts, ledger) && IsResolved(round.state)
    requires HasOutcome(round.state)
    ensures var row := RowOf(round, r);
      MoneyOk(owner, round.(status := Settled), r, payouts + [row],
              ledger + Settlement(owner, r, round.wager, row.payout))
  {
    assert [] + [RowOf(round, r)] == [RowOf(round, r)];
  }

  predicate Resolves(db: Db, r: nat, owner: string) {
    MayTouch(db, r, owner) && IsResolved(db.rounds[r].state) && HasOutcome(db.rounds[r].state)
  }

  /** The tables after settling round `r`. */
  function SettledDb(db: Db, r: nat, owner: string): Db
    requires Resolves(db, r, owner)
  {
    var round := db.rounds[r];
    var row, session := RowOf(round, r), db.sessions[round.session];
    db.(ledger := db.ledger + Settlement(owner, r, round.wager, row.payout), payouts := db.payouts + [row],
        rounds := db.rounds[r := round.(status := Settled)],
        sessions := db.sessions[round.session := session.(pnl := session.pnl + row.net)])
  }

  lemma SettlingKeepsRound(db: Db, r: nat, owner: string, q: nat)
    requires Inv(db) && Resolves(db, r, owner)
    ensures RoundOk(SettledDb(db, r, owner), q)
  {
    var d, round := SettledDb(db, r, owner), db.rounds[r];
    var row := RowOf(round, r);
    assert RoundOk(db, q);
    PayoutsOfAppended(db.payouts, row, q);
    EntriesOfAppended(db.ledger, Settlement(owner, r, round.wager, row.payout), r, q);
    if q == r {
      SettledRoundOk(owner, round, r, PayoutsOf(db.payouts, r), EntriesOf(db.ledger, r));
    } else {
      SparedStaysOk(db, d, q);
    }
  }

  lemma SettledKeeps(db: Db, r: nat, owner: string)
    requires Inv(db) && Resolves(db, r, owner)
    ensures Inv(SettledDb(db, r, owner))
  {
    var d := SettledDb(db, r, owner);
    forall q: nat ensures RoundOk(d, q) { SettlingKeepsRound(db, r, owner, q); }
    forall s: nat ensures SessionOk(d, s) {
      assert SessionOk(db, s);
      WonUpdated(db.rounds, r, d.rounds[r], s);
    }
  }

  lemma SettlementKeeps(db: Db, r: nat, owner: string)
    requires Inv(db)
    ensures Inv(ResolveRound(db, r, owner).0)
  {
    if Resolves(db, r, owner) { SettledKeeps(db, r, owner); }
  }

  lemma StepKeeps(db: Db, step: Step)
    requires Inv(db)
    ensures Inv(Do(db, step))
  {
    match step
    case NewSession(parent, policy, owner, maxLoss, maxRounds) =>
      NewSessionKeeps(db, parent, policy, owner, maxLoss, maxRounds);
    case Start(s, owner, code, wager, policy, funded, raw) =>
      NewRoundKeeps(db, s, owner, code, wager, policy, funded, raw);
    case Act(r, owner, action, number, key) => MoveKeeps(db, r, owner, action, number, key);
    case Resolve(r, owner) => SettlementKeeps(db, r, owner);
  }

  /**
    After any calls: a session's result is the sum of its settled rounds' nets; a round has one payout
    row exactly when it is settled; its ledger entries are its bet and, once, its settlement; its state is
    the replay of its log under its own seed; and it takes at most 48 moves.
  */
  lemma {:induction false} ReachableStatesAreOk(steps: seq<Step>)
    ensures Inv(Exec(EMPTY, steps))
  {
    if steps != [] {
      ReachableStatesAreOk(steps[..|steps| - 1]);
      StepKeeps(Exec(EMPTY, steps[..|steps| - 1]), steps[|steps| - 1]);
    }
  }

  // ---- over whole runs ----

  /** What a call does to the rounds and the rows that belong to them. */
  datatype Effect =
    | Nothing
    | Opened(round: Round, entry: Entry)
    | Moved(r: nat, state: Game, move: Move)
    | Closed(r: nat, row: Payout, entries: seq<Entry>)

  function EffectOf(db: Db, step: Step): Effect {
    match step
    case NewSession(parent, policy, owner, maxLoss, maxRounds) => Nothing
    case Start(s, owner, code, wager, policy, funded, raw) =>
      if !Starts(db, s, owner, code, wager, policy, funded) then Nothing
      else Opened(Round(s, KindOf(code).value, wager, Initial(KindOf(code).value, raw, 0), Open, raw, 0),
                  Bet(owner, |db.rounds|, wager))
    case Act(r, owner, action, number, key) =>
      if !Moves(db, r, owner, action, key) then Nothing
      else
        var round, count := db.rounds[r], |MovesOf(db.moves, r)|;
        Moved(r, Apply(round.state, action, number, round.raw, round.nonce + 100 + count),
              Move(r, count, action, number, key))
    case Resolve(r, owner) =>
      if !Resolves(db, r, owner) then Nothing
      else Closed(r, RowOf(db.rounds[r], r), Settlement(owner, r, db.rounds[r].wager, RowOf(db.rounds[r], r).payout))
  }

  /** `d` differs from `db` by the effect, sessions aside. */
  ghost predicate Shows(db: Db, d: Db, e: Effect) {
    match e
    case Nothing => d.rounds == db.rounds && d.moves == db.moves && d.payouts == db.payouts && d.ledger == db.ledger
    case Opened(round, entry) =>
      d.rounds == db.rounds + [round] && d.moves == db.moves && d.payouts == db.payouts
      && d.ledger == db.ledger + [entry]
      && round.status == Open && entry.round == |db.rounds|
    case Moved(r, state, move) =>
      r < |db.rounds| && db.rounds[r].status == Open && move.round == r
      && d.rounds == db.rounds[r := db.rounds[r].(state := state)] && d.moves == db.moves + [move]
      && d.payouts == db.payouts && d.ledger == db.ledger
    case Closed(r, row, entries) =>
      r < |db.rounds| && db.rounds[r].status == Open && row.round == r
      && (forall i | 0 <= i < |entries| :: entries[i].round == r)
      && d.rounds == db.rounds[r := db.rounds[r].(status := Settled)] && d.moves == db.moves
      && d.payouts == db.payouts + [row] && d.ledger == db.ledger + entries
  }

  lemma StartShows(db: Db, s: nat, owner: string, code: string, wager: int, policy: Option<Policy>, funded: bool,
                   raw: int -> nat)
    ensures Shows(db, StartRound(db, s, owner, code, wager, policy, funded, raw).0,
                  EffectOf(db, Start(s, owner, code, wager, policy, funded, raw)))
  {
  }

  lemma ActShows(db: Db, r: nat, owner: string, action: string, number: Option<int>, key: string)
    ensures Shows(db, ApplyAction(db, r, owner, action, number, key).0,
                  EffectOf(db, Act(r, owner, action, number, key)))
  {
  }

  lemma ResolveShows(db: Db, r: nat, owner: string)
    ensures Shows(db, ResolveRound(db, r, owner).0, EffectOf(db, Resolve(r, owner)))
  {
  }

  /** A call opens one round, moves one open round, settles one open round, or leaves the rounds alone. */
  lemma StepShows(db: Db, step: Step)
    ensures Shows(db, Do(db, step), EffectOf(db, step))
  {
    match step
    case NewSession(parent, policy, owner, maxLoss, maxRounds) =>
    case Start(s, owner, code, wager, policy, funded, raw) =>
      StartShows(db, s, owner, code, wager, policy, funded, raw);
    case Act(r, owner, action, number, key) => ActShows(db, r, owner, action, number, key);
    case Resolve(r, owner) => ResolveShows(db, r, owner);
  }

  lemma SettledIsSpared(db: Db, d: Db, e: Effect, r: nat)
    requires Shows(db, d, e) && IsSettled(db, r)
    ensures IsSettled(d, r) && d.rounds[r] == db.rounds[r]
    ensures PayoutsOf(d.payouts, r) == PayoutsOf(db.payouts, r) && EntriesOf(d.ledger, r) == EntriesOf(db.ledger, r)
  {
    match e
    case Nothing =>
    case Opened(round, entry) => EntriesOfAppended(db.ledger, [entry], |db.rounds|, r);
    case Moved(q, state, move) =>
    case Closed(q, row, entries) =>
      PayoutsOfAppended(db.payouts, row, r);
      EntriesOfAppended(db.ledger, entries, q, r);
  }

  /** A settled round, its payout row and its entries never change again. */
  lemma SettledForEver(db: Db, step: Step, r: nat)
    requires IsSettled(db, r)
    ensures IsSettled(Do(db, step), r) && Do(db, step).rounds[r] == db.rounds[r]
    ensures PayoutsOf(Do(db, step).payouts, r) == PayoutsOf(db.payouts, r)
    ensures EntriesOf(Do(db, step).ledger, r) == EntriesOf(db.ledger, r)
  {
    StepShows(db, step);
    SettledIsSpared(db, Do(db, step), EffectOf(db, step), r);
  }

  /** How many calls of the run settled round `r`. */
  function Settlements(steps: seq<Step>, r: nat): nat {
    if steps == [] then 0
    else
      var n := |steps| - 1;
      Settlements(steps[..n], r)
      + if steps[n].Resolve? && steps[n].r == r && Resolves(Exec(EMPTY, steps[..n]), r, steps[n].owner) then 1 else 0
  }

  /** A round is settled by at most one call, and it is settled exactly when one did. */
  lemma {:induction false} SettledOnce(steps: seq<Step>, r: nat)
    ensures var d := Exec(EMPTY, steps);
      Settlements(steps, r) == if r < |d.rounds| && d.rounds[r].status == Settled then 1 else 0
  {
    if steps != [] {
      var n := |steps| - 1;
      SettledOnce(steps[..n], r);
      StatusAfter(Exec(EMPTY, steps[..n]), steps[n], r);
    }
  }

  predicate IsSettled(db: Db, r: nat) { r < |db.rounds| && db.rounds[r].status == Settled }

  lemma StatusAfter(db: Db, step: Step, r: nat)
    ensures IsSettled(Do(db, step), r)
       <==> IsSettled(db, r) || (step.Resolve? && step.r == r && Resolves(db, r, step.owner))
    ensures step.Resolve? && step.r == r && Resolves(db, r, step.owner) ==> !IsSettled(db, r)
  {
    StepShows(db, step);
    StatusShown(db, Do(db, step), EffectOf(db, step), r);
  }

  lemma StatusShown(db: Db, d: Db, e: Effect, r: nat)
    requires Shows(db, d, e)
    ensures IsSettled(d, r) <==> IsSettled(db, r) || (e.Closed? && e.r == r)
  {
  }

  /**
    After any calls, a round's state is the replay of its log, and actions are offered exactly until it is
    resolved.
  */
  lemma RoundState(steps: seq<Step>, r: nat)
    requires r < |Exec(EMPTY, steps).rounds|
    ensures var d := Exec(EMPTY, steps);
      var round, log := d.rounds[r], MovesOf(d.moves, r);
      && round.state == Replay(Initial(round.kind, round.raw, round.nonce), log, round.raw, round.nonce)
      && WellLogged(log) && |log| + Measure(round.state) <= 48
      && (ValidActions(round.state) == [] <==> IsResolved(round.state))
  {
    ReachableStatesAreOk(steps);
    assert RoundOk(Exec(EMPTY, steps), r);
    OfferedUntilResolved(Exec(EMPTY, steps).rounds[r].state);
  }

  /** After any calls, a session's result is the sum of payout minus wager over its settled rounds. */
  lemma SessionResult(steps: seq<Step>, s: nat)
    requires s < |Exec(EMPTY, steps).sessions|
    ensures Exec(EMPTY, steps).sessions[s].pnl == Won(Exec(EMPTY, steps).rounds, s)
  {
    ReachableStatesAreOk(steps);
    assert SessionOk(Exec(EMPTY, steps), s);
  }

  /** What the rows of a settled round say, after any calls. */
  lemma SettledRound(steps: seq<Step>, r: nat)
    requires IsSettled(Exec(EMPTY, steps), r)
    ensures var d := Exec(EMPTY, steps);
      var round := d.rounds[r];
      && round.session < |d.sessions| && HasOutcome(round.state) && IsResolved(round.state)
      && PayoutsOf(d.payouts, r) == [RowOf(round, r)]
      && (round.wager >= 0 ==> RowOf(round, r).payout >= 0) && |MovesOf(d.moves, r)| <= 48
      && round.state == Replay(Initial(round.kind, round.raw, round.nonce), MovesOf(d.moves, r), round.raw, round.nonce)
      && EntriesOf(d.ledger, r)
           == [Bet(d.sessions[round.session].owner, r, round.wager)]
              + Settlement(d.sessions[round.session].owner, r, round.wager, RowOf(round, r).payout)
      && Amounts(EntriesOf(d.ledger, r)[1..]) == PaidOut(round.wager, RowOf(round, r).payout)
  {
    var d := Exec(EMPTY, steps);
    var round := d.rounds[r];
    ReachableStatesAreOk(steps);
    assert RoundOk(d, r);
    if round.wager >= 0 { PayoutIsNotNegative(round.wager, Multiplier(round.state)); }
    var owner := d.sessions[round.session].owner;
    var es := Settlement(owner, r, round.wager, RowOf(round, r).payout);
    assert ([Bet(owner, r, round.wager)] + es)[1..] == es;
    SettlementTotals(owner, r, round.wager, RowOf(round, r).payout);
  }
}
