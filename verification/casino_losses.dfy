/** How much a casino session can lose, and that it can lose that much. */
module CasinoLosses {
  import opened Options
  import opened CasinoGames
  import opened CasinoStore
  import opened CasinoRuns

  // ---- bounds ----

  /** The most that was ever at stake at once in session `s`. */
  function Peak(steps: seq<Step>, s: nat): (v: int)
    ensures v >= 0
  {
    var now := Exposure(Exec(EMPTY, steps).rounds, s);
    if steps == [] then now else Larger(Peak(steps[..|steps| - 1], s), now)
  }

  function Larger(a: int, b: int): int { if b > a then b else a }

  /** The most that can be lost before a start is refused: a start needs the cap not reached. */
  function Floor(session: Session): int { if session.maxLoss > 0 then session.maxLoss - 1 else 0 }

  /** What a session would be left with if all its open rounds lost their stakes. */
  function Worst(db: Db, s: nat): int
    requires s < |db.sessions|
  {
    db.sessions[s].pnl - Exposure(db.rounds, s)
  }

  /** The worst case after a call other than a new session. */
  predicate WorstOk(db: Db, d: Db, s: nat)
    requires s < |db.sessions| && s < |d.sessions|
  {
    && d.sessions[s].maxLoss == db.sessions[s].maxLoss
    && (Worst(d, s) >= Worst(db, s) || d.sessions[s].pnl > -d.sessions[s].maxLoss)
  }

  lemma WorstAfterStart(db: Db, t: nat, owner: string, code: string, wager: int, policy: Option<Policy>, funded: bool,
                        raw: int -> nat, s: nat)
    requires s < |db.sessions|
    ensures var d := StartRound(db, t, owner, code, wager, policy, funded, raw).0;
      |d.sessions| == |db.sessions| && WorstOk(db, d, s)
  {
    if Starts(db, t, owner, code, wager, policy, funded) {
      var d := StartRound(db, t, owner, code, wager, policy, funded, raw).0;
      WonAppended(db.rounds, d.rounds[|db.rounds|], s);
    }
  }

  lemma WorstAfterAct(db: Db, r: nat, owner: string, action: string, number: Option<int>, key: string, s: nat)
    requires s < |db.sessions|
    ensures var d := ApplyAction(db, r, owner, action, number, key).0; s < |d.sessions| && WorstOk(db, d, s)
  {
    if Moves(db, r, owner, action, key) {
      WonUpdated(db.rounds, r, ApplyAction(db, r, owner, action, number, key).0.rounds[r], s);
    }
  }

  lemma WorstAfterResolve(db: Db, r: nat, owner: string, s: nat)
    requires s < |db.sessions|
    ensures var d := ResolveRound(db, r, owner).0; s < |d.sessions| && WorstOk(db, d, s)
  {
    if Resolves(db, r, owner) {
      WonUpdated(db.rounds, r, ResolveRound(db, r, owner).0.rounds[r], s);
      StakeIsEnough(db.rounds[r].wager, Multiplier(db.rounds[r].state));
    }
  }

  lemma WorstAfterSession(db: Db, parent: Option<string>, policy: Option<Policy>, owner: string, maxLoss: int,
                          maxRounds: int,
                          s: nat)
    requires Inv(db) && s < |StartSession(db, parent, policy, owner, maxLoss, maxRounds).0.sessions|
    ensures var d := StartSession(db, parent, policy, owner, maxLoss, maxRounds).0;
      if s >= |db.sessions| then d.sessions[s].pnl == 0 && Exposure(d.rounds, s) == 0 else WorstOk(db, d, s)
  {
    if s == |db.sessions| { NothingInUnknownSessions(db.rounds, s); }
  }

  /** Each call either leaves the worst case no worse, or is a start that found the loss cap not reached. */
  lemma WorstAfter(db: Db, step: Step, s: nat)
    requires Inv(db) && s < |Do(db, step).sessions|
    ensures var d := Do(db, step);
      if s >= |db.sessions| then d.sessions[s].pnl == 0 && Exposure(d.rounds, s) == 0 else WorstOk(db, d, s)
  {
    match step
    case NewSession(parent, policy, owner, maxLoss, maxRounds) =>
      WorstAfterSession(db, parent, policy, owner, maxLoss, maxRounds, s);
    case Start(t, owner, code, wager, policy, funded, raw) =>
      if s < |db.sessions| { WorstAfterStart(db, t, owner, code, wager, policy, funded, raw, s); }
    case Act(r, owner, action, number, key) =>
      if s < |db.sessions| { WorstAfterAct(db, r, owner, action, number, key, s); }
    case Resolve(r, owner) =>
      if s < |db.sessions| { WorstAfterResolve(db, r, owner, s); }
  }

  /**
    Even with every open round lost, a session is down by less than its cap and the most it ever had at stake at
    once.
  */
  lemma {:induction false} LossBound(steps: seq<Step>, s: nat)
    requires s < |Exec(EMPTY, steps).sessions|
    ensures var d := Exec(EMPTY, steps);
      d.sessions[s].pnl >= Worst(d, s) >= -Floor(d.sessions[s]) - Peak(steps, s)
  {
    var before, step := steps[..|steps| - 1], steps[|steps| - 1];
    ReachableStatesAreOk(before);
    WorstAfter(Exec(EMPTY, before), step, s);
    if s < |Exec(EMPTY, before).sessions| { LossBound(before, s); }
  }

  /** At every start in session `s` nothing else of it is at stake, and no stake is above `most`. */
  predicate OneAtATime(steps: seq<Step>, s: nat, most: nat) {
    steps == [] ||
      var n := |steps| - 1;
      OneAtATime(steps[..n], s, most)
      && (steps[n].Start? && steps[n].s == s ==>
            Stake(steps[n].wager) <= most && Exposure(Exec(EMPTY, steps[..n]).rounds, s) == 0)
  }

  lemma ExposureAfter(db: Db, step: Step, s: nat)
    ensures Exposure(Do(db, step).rounds, s) <= Exposure(db.rounds, s)
         || (step.Start? && step.s == s
             && Exposure(Do(db, step).rounds, s) == Exposure(db.rounds, s) + Stake(step.wager))
  {
    StepShows(db, step);
    ExposureShown(db, Do(db, step), EffectOf(db, step), s);
  }

  lemma ExposureShown(db: Db, d: Db, e: Effect, s: nat)
    requires Shows(db, d, e)
    ensures Exposure(d.rounds, s) <= Exposure(db.rounds, s)
         || (e.Opened? && e.round.session == s
             && Exposure(d.rounds, s) == Exposure(db.rounds, s) + Stake(e.round.wager))
  {
    match e
    case Nothing =>
    case Opened(round, entry) => WonAppended(db.rounds, round, s);
    case Moved(r, state, move) => WonUpdated(db.rounds, r, d.rounds[r], s);
    case Closed(r, row, entries) => WonUpdated(db.rounds, r, d.rounds[r], s);
  }

  lemma {:induction false} PeakOfOneAtATime(steps: seq<Step>, s: nat, most: nat)
    requires OneAtATime(steps, s, most)
    ensures Peak(steps, s) <= most
  {
    if steps != [] {
      var n := |steps| - 1;
      PeakOfOneAtATime(steps[..n], s, most);
      ExposureAfter(Exec(EMPTY, steps[..n]), steps[n], s);
    }
  }

  /** With one open round at a time, a session is down by less than its cap and its largest stake. */
  lemma LossBoundOneAtATime(steps: seq<Step>, s: nat, most: nat)
    requires OneAtATime(steps, s, most) && s < |Exec(EMPTY, steps).sessions|
    ensures Exec(EMPTY, steps).sessions[s].pnl >= -(Floor(Exec(EMPTY, steps).sessions[s]) + most)
  {
    LossBound(steps, s);
    PeakOfOneAtATime(steps, s, most);
  }

  // ---- what was wagered ----

  /** The wagers of a session's rounds, in the order they were started. */
  function WagersOf(rounds: seq<Round>, s: nat): seq<int> {
    if rounds == [] then []
    else var n := |rounds| - 1; WagersOf(rounds[..n], s) + if rounds[n].session == s then [rounds[n].wager] else []
  }

  function Stakes(ws: seq<int>): int { if ws == [] then 0 else Stakes(ws[..|ws| - 1]) + Stake(ws[|ws| - 1]) }

  function Sum(ws: seq<int>): int { if ws == [] then 0 else Sum(ws[..|ws| - 1]) + ws[|ws| - 1] }

  predicate Positive(ws: seq<int>) { forall i | 0 <= i < |ws| :: ws[i] > 0 }

  lemma {:induction false} PositiveStakes(ws: seq<int>)
    requires Positive(ws)
    ensures Stakes(ws) == Sum(ws)
  {
    if ws != [] { PositiveStakes(ws[..|ws| - 1]); }
  }

  lemma {:induction false} WonAgainstWagers(rounds: seq<Round>, s: nat)
    ensures Won(rounds, s) - Exposure(rounds, s) >= -Stakes(WagersOf(rounds, s))
  {
    if rounds != [] {
      var n := |rounds| - 1;
      var x, ws := rounds[n], WagersOf(rounds[..n], s);
      WonAgainstWagers(rounds[..n], s);
      assert (ws + [x.wager])[..|ws|] == ws && ws + [] == ws;
      NetAgainstStake(x);
    }
  }

  lemma NetAgainstStake(x: Round)
    ensures NetOf(x) - RiskOf(x) >= -Stake(x.wager)
  {
    if HasOutcome(x.state) { StakeIsEnough(x.wager, Multiplier(x.state)); }
  }

  /** After any calls, a session has lost at most the stakes of all its rounds, open ones included. */
  lemma LossAtMostStaked(steps: seq<Step>, s: nat)
    requires s < |Exec(EMPTY, steps).sessions|
    ensures var d := Exec(EMPTY, steps); Worst(d, s) >= -Stakes(WagersOf(d.rounds, s))
  {
    ReachableStatesAreOk(steps);
    assert SessionOk(Exec(EMPTY, steps), s);
    WonAgainstWagers(Exec(EMPTY, steps).rounds, s);
  }

  lemma {:induction false} SameWagers(rounds: seq<Round>, r: nat, x: Round, s: nat)
    requires r < |rounds| && x.session == rounds[r].session && x.wager == rounds[r].wager
    ensures WagersOf(rounds[r := x], s) == WagersOf(rounds, s)
  {
    var n := |rounds| - 1;
    if r < n {
      SameWagers(rounds[..n], r, x, s);
      assert rounds[r := x][..n] == rounds[..n][r := x];
    } else {
      assert rounds[r := x][..n] == rounds[..n];
    }
  }

  lemma WagersShown(db: Db, d: Db, e: Effect, s: nat)
    requires Shows(db, d, e) && !(e.Opened? && e.round.session == s)
    ensures WagersOf(d.rounds, s) == WagersOf(db.rounds, s)
  {
    match e
    case Nothing =>
    case Opened(round, entry) => assert d.rounds[..|db.rounds|] == db.rounds;
    case Moved(r, state, move) => SameWagers(db.rounds, r, d.rounds[r], s);
    case Closed(r, row, entries) => SameWagers(db.rounds, r, d.rounds[r], s);
  }

  lemma {:induction false} NothingWagered(rounds: seq<Round>, s: nat)
    ensures WagersOf(rounds, s) == [] <==> forall i | 0 <= i < |rounds| :: rounds[i].session != s
  {
    if rounds != [] {
      NothingWagered(rounds[..|rounds| - 1], s);
      assert forall i | 0 <= i < |rounds| - 1 :: rounds[..|rounds| - 1][i] == rounds[i];
    }
  }

  /** A session without a positive cap never starts a round. */
  lemma {:induction false} NothingStartsWithoutCap(steps: seq<Step>, s: nat)
    requires var d := Exec(EMPTY, steps); s < |d.sessions| && d.sessions[s].maxLoss <= 0
    ensures var d := Exec(EMPTY, steps); d.sessions[s].pnl == 0 && WagersOf(d.rounds, s) == []
  {
    var before, step := steps[..|steps| - 1], steps[|steps| - 1];
    var db := Exec(EMPTY, before);
    ReachableStatesAreOk(before);
    ReachableStatesAreOk(steps);
    if s < |db.sessions| {
      WorstAfter(db, step, s);
      NothingStartsWithoutCap(before, s);
    }
    NothingWagered(db.rounds, s);
    StepShows(db, step);
    WagersShown(db, Do(db, step), EffectOf(db, step), s);
    NothingWagered(Do(db, step).rounds, s);
    NothingInUnknownSessions(Do(db, step).rounds, s);
    assert SessionOk(Do(db, step), s);
  }

  // ---- losing that much ----

  /**
    Calls that lead to `e`, session 0 never having had more than `most` at stake, and that one round at a time if
    `alone`.
  */
  ghost predicate Reaches(steps: seq<Step>, e: Db, most: nat, alone: bool) {
    e == Exec(EMPTY, steps) && Peak(steps, 0) <= most && (alone ==> OneAtATime(steps, 0, most))
  }

  lemma {:induction false} ReachesOneMore(steps: seq<Step>, e: Db, step: Step, most: nat, alone: bool)
    requires Reaches(steps, e, most, alone) && Exposure(Do(e, step).rounds, 0) <= most
    requires alone && step.Start? ==> Stake(step.wager) <= most && Exposure(e.rounds, 0) == 0
    ensures Reaches(steps + [step], Do(e, step), most, alone)
  {
    assert (steps + [step])[..|steps|] == steps;
  }

  function Dealt(wager: int, raw: int -> nat): Round {
    Round(0, PokerKind, wager, Initial(PokerKind, raw, 0), Open, raw, 0)
  }

  function Opening(wager: int, raw: int -> nat): Step { Start(0, "a", "poker", wager, None, true, raw) }

  /** Session 0 can start `n` more rounds. */
  predicate Ready(db: Db, n: nat) {
    && |db.sessions| == 1 && db.sessions[0].owner == "a" && db.sessions[0].status == Active
    && db.sessions[0].pnl > -db.sessions[0].maxLoss && db.sessions[0].played + n <= db.sessions[0].maxRounds
    && forall i | 0 <= i < |db.moves| :: db.moves[i].round < |db.rounds|
  }

  function AllDealt(ws: seq<int>, raw: int -> nat): seq<Round> {
    if ws == [] then [] else AllDealt(ws[..|ws| - 1], raw) + [Dealt(ws[|ws| - 1], raw)]
  }

  lemma {:induction false} DealtAt(ws: seq<int>, raw: int -> nat)
    ensures |AllDealt(ws, raw)| == |ws| && forall i | 0 <= i < |ws| :: AllDealt(ws, raw)[i] == Dealt(ws[i], raw)
  {
    if ws != [] { DealtAt(ws[..|ws| - 1], raw); }
  }

  /** Open rounds of session 0 with these wagers. */
  predicate Fresh(xs: seq<Round>, ws: seq<int>) {
    |xs| == |ws| && forall i | 0 <= i < |xs| :: xs[i].session == 0 && xs[i].status == Open && xs[i].wager == ws[i]
  }

  /** What fresh rounds add to the stakes and to the list of wagers. */
  lemma {:induction false} FreshCounts(rounds: seq<Round>, xs: seq<Round>, ws: seq<int>)
    requires Positive(ws) && Fresh(xs, ws)
    ensures Exposure(rounds + xs, 0) == Exposure(rounds, 0) + Sum(ws)
    ensures WagersOf(rounds + xs, 0) == WagersOf(rounds, 0) + ws
    decreases |ws|
  {
    if ws == [] {
      assert rounds + xs == rounds;
    } else {
      var n := |ws| - 1;
      FreshCounts(rounds, xs[..n], ws[..n]);
      assert (rounds + xs)[..|rounds| + n] == rounds + xs[..n];
      assert ws[..n] + [ws[n]] == ws;
    }
  }

  lemma DealtCounts(rounds: seq<Round>, ws: seq<int>, raw: int -> nat)
    requires Positive(ws)
    ensures Exposure(rounds + AllDealt(ws, raw), 0) == Exposure(rounds, 0) + Sum(ws)
    ensures WagersOf(rounds + AllDealt(ws, raw), 0) == WagersOf(rounds, 0) + ws
  {
    DealtAt(ws, raw);
    FreshCounts(rounds, AllDealt(ws, raw), ws);
  }

  /** Rounds of wagers `ws` were started on top of `b`. */
  ghost predicate OpenedOn(b: Db, d: Db, ws: seq<int>, raw: int -> nat)
    requires |b.sessions| == 1
  {
    && d.sessions == [b.sessions[0].(played := b.sessions[0].played + |ws|)] && d.moves == b.moves
    && d.rounds == b.rounds + AllDealt(ws, raw)
  }

  lemma OpenedOneMore(b: Db, c: Db, ws: seq<int>, raw: int -> nat)
    requires ws != [] && Ready(b, |ws|) && OpenedOn(b, c, ws[..|ws| - 1], raw)
    ensures OpenedOn(b, Do(c, Opening(ws[|ws| - 1], raw)), ws, raw)
  {
    var n := |ws| - 1;
    assert Starts(c, 0, "a", "poker", ws[n], None, true);
    assert b.rounds + AllDealt(ws[..n], raw) + [Dealt(ws[n], raw)] == b.rounds + AllDealt(ws, raw);
  }

  /** One more start. */
  lemma OpenNext(steps: seq<Step>, b: Db, c: Db, ws: seq<int>, raw: int -> nat, most: nat, alone: bool)
    returns (longer: seq<Step>, d: Db)
    requires ws != [] && Positive(ws) && Ready(b, |ws|) && OpenedOn(b, c, ws[..|ws| - 1], raw)
    requires Reaches(steps, c, most, alone) && Exposure(b.rounds, 0) + Sum(ws) <= most
    requires alone ==> |ws| == 1 && Exposure(b.rounds, 0) == 0
    ensures Reaches(longer, d, most, alone) && OpenedOn(b, d, ws, raw)
  {
    var step := Opening(ws[|ws| - 1], raw);
    longer, d := steps + [step], Do(c, step);
    OpenedOneMore(b, c, ws, raw);
    DealtCounts(b.rounds, ws, raw);
    DealtCounts(b.rounds, ws[..|ws| - 1], raw);
    ReachesOneMore(steps, c, step, most, alone);
  }

  lemma {:induction false} AllOpened(begun: seq<Step>, b: Db, ws: seq<int>, raw: int -> nat, most: nat, alone: bool)
    returns (steps: seq<Step>, d: Db)
    requires Positive(ws) && Ready(b, |ws|) && Reaches(begun, b, most, alone) && Exposure(b.rounds, 0) + Sum(ws) <= most
    requires alone ==> |ws| <= 1 && Exposure(b.rounds, 0) == 0
    ensures Reaches(steps, d, most, alone) && OpenedOn(b, d, ws, raw)
    decreases |ws|
  {
    steps, d := begun, b;
    if ws != [] {
      steps, d := AllOpened(begun, b, ws[..|ws| - 1], raw, most, alone);
      steps, d := OpenNext(steps, b, d, ws, raw, most, alone);
    }
  }

  function Fold(r: nat): Step { Act(r, "a", "fold", None, "k") }

  lemma FoldResolves(wager: int, raw: int -> nat, nonce: int)
    ensures var g := Dealt(wager, raw).state;
      && "fold" in ValidActions(g) && !Raises(g, "fold")
      && var c := Apply(g, "fold", None, raw, nonce);
         IsResolved(c) && HasOutcome(c) && PayoutOf(wager, Multiplier(c)) == 0
  {
    var g := Dealt(wager, raw).state;
    var c := Apply(g, "fold", None, raw, nonce);
    assert Multiplier(c) == 0;
    assert wager * 0 == 0;
  }

  /** Round `r` is settled and its wager lost. */
  ghost predicate LosesRound(db: Db, d: Db, r: nat)
    requires |db.sessions| == 1 && r < |db.rounds|
  {
    && d.sessions == [db.sessions[0].(pnl := db.sessions[0].pnl - db.rounds[r].wager)]
    && |d.rounds| == |db.rounds| && d.rounds == db.rounds[r := d.rounds[r]]
    && d.rounds[r].session == db.rounds[r].session && d.rounds[r].wager == db.rounds[r].wager
    && d.rounds[r].status == Settled
    && (forall i | 0 <= i < |d.moves| :: d.moves[i].round <= r)
  }

  lemma FoldingLosesTheWager(db: Db, r: nat, wager: int, raw: int -> nat)
    requires |db.sessions| == 1 && db.sessions[0].owner == "a" && r < |db.rounds| && db.rounds[r] == Dealt(wager, raw)
    requires forall i | 0 <= i < |db.moves| :: db.moves[i].round < r
    ensures LosesRound(db, Do(Do(db, Fold(r)), Resolve(r, "a")), r)
  {
    var count := |MovesOf(db.moves, r)|;
    FoldResolves(wager, raw, 100 + count);
    var c := Do(db, Fold(r));
    assert Moves(db, r, "a", "fold", "k");
    assert c.rounds[r] == db.rounds[r].(state := Apply(db.rounds[r].state, "fold", None, raw, 100 + count));
    assert Resolves(c, r, "a");
  }

  lemma SettlingReleases(rounds: seq<Round>, r: nat, x: Round)
    requires r < |rounds| && rounds[r].session == 0 && rounds[r].status == Open && rounds[r].wager > 0
    requires x.session == 0 && x.status == Settled && x.wager == rounds[r].wager
    ensures Exposure(rounds[r := x], 0) == Exposure(rounds, 0) - x.wager
    ensures WagersOf(rounds[r := x], 0) == WagersOf(rounds, 0)
  {
    WonUpdated(rounds, r, x, 0);
    SameWagers(rounds, r, x, 0);
  }

  /** The last rounds were dealt with wagers `ws`. */
  ghost predicate EndsDealt(d: Db, ws: seq<int>, raw: int -> nat) {
    && |d.sessions| == 1 && d.sessions[0].owner == "a" && |ws| <= |d.rounds| && Positive(ws)
    && (forall i | 0 <= i < |d.moves| :: d.moves[i].round < |d.rounds| - |ws|)
    && forall i | 0 <= i < |ws| :: d.rounds[|d.rounds| - |ws| + i] == Dealt(ws[i], raw)
  }

  /** The first `n` of the last rounds are lost. */
  ghost predicate FoldedOn(d: Db, e: Db, ws: seq<int>, n: nat)
    requires |d.sessions| == 1 && n <= |ws| <= |d.rounds|
  {
    var first := |d.rounds| - |ws|;
    && e.sessions == [d.sessions[0].(pnl := d.sessions[0].pnl - Sum(ws[..n]))] && |e.rounds| == |d.rounds|
    && e.rounds[first + n..] == d.rounds[first + n..]
    && (forall i | 0 <= i < |e.moves| :: e.moves[i].round < first + n)
    && Exposure(e.rounds, 0) == Exposure(d.rounds, 0) - Sum(ws[..n]) && WagersOf(e.rounds, 0) == WagersOf(d.rounds, 0)
  }

  lemma RoundFolded(d: Db, e: Db, f: Db, ws: seq<int>, n: nat)
    requires |d.sessions| == 1 && n < |ws| <= |d.rounds| && FoldedOn(d, e, ws, n) && ws[n] > 0
    requires var r := |d.rounds| - |ws| + n;
      e.rounds[r].session == 0 && e.rounds[r].wager == ws[n] && e.rounds[r].status == Open && LosesRound(e, f, r)
    ensures FoldedOn(d, f, ws, n + 1)
  {
    var r := |d.rounds| - |ws| + n;
    SettlingReleases(e.rounds, r, f.rounds[r]);
    assert ws[..n + 1][..n] == ws[..n];
    SameAfter(d.rounds, e.rounds, f.rounds, r);
  }

  lemma SameAfter(d: seq<Round>, e: seq<Round>, f: seq<Round>, r: nat)
    requires r < |d| == |e| == |f| && e[r..] == d[r..] && f == e[r := f[r]]
    ensures f[r + 1..] == d[r + 1..]
  {
    assert f[r + 1..] == e[r..][1..] == d[r..][1..];
  }

  /** One more fold. */
  lemma FoldNext(steps: seq<Step>, d: Db, e: Db, ws: seq<int>, n: nat, raw: int -> nat, most: nat, alone: bool)
    returns (longer: seq<Step>, f: Db)
    requires n < |ws| && EndsDealt(d, ws, raw) && FoldedOn(d, e, ws, n) && Reaches(steps, e, most, alone)
    ensures Reaches(longer, f, most, alone) && FoldedOn(d, f, ws, n + 1)
  {
    var r := |d.rounds| - |ws| + n;
    assert e.rounds[r] == e.rounds[r..][0] == d.rounds[r..][0] == Dealt(ws[n], raw);
    FoldingLosesTheWager(e, r, ws[n], raw);
    longer, f := FoldSteps(steps, e, r, most, alone);
    RoundFolded(d, e, f, ws, n);
  }

  lemma FoldSteps(steps: seq<Step>, e: Db, r: nat, most: nat, alone: bool) returns (longer: seq<Step>, f: Db)
    requires Reaches(steps, e, most, alone)
    ensures f == Do(Do(e, Fold(r)), Resolve(r, "a")) && Reaches(longer, f, most, alone)
  {
    ExposureIsBelowPeak(steps, 0);
    ExposureAfter(e, Fold(r), 0);
    ExposureAfter(Do(e, Fold(r)), Resolve(r, "a"), 0);
    ReachesOneMore(steps, e, Fold(r), most, alone);
    ReachesOneMore(steps + [Fold(r)], Do(e, Fold(r)), Resolve(r, "a"), most, alone);
    longer, f := steps + [Fold(r)] + [Resolve(r, "a")], Do(Do(e, Fold(r)), Resolve(r, "a"));
  }

  lemma ExposureIsBelowPeak(steps: seq<Step>, s: nat)
    ensures Exposure(Exec(EMPTY, steps).rounds, s) <= Peak(steps, s)
  {
  }

  lemma {:induction false} AllFolded(begun: seq<Step>, d: Db, ws: seq<int>, n: nat, raw: int -> nat, most: nat,
                                     alone: bool)
    returns (steps: seq<Step>, e: Db)
    requires EndsDealt(d, ws, raw) && n <= |ws| && Reaches(begun, d, most, alone)
    ensures Reaches(steps, e, most, alone) && FoldedOn(d, e, ws, n)
    decreases n
  {
    steps, e := begun, d;
    if n > 0 {
      steps, e := AllFolded(begun, d, ws, n - 1, raw, most, alone);
      steps, e := FoldNext(steps, d, e, ws, n - 1, raw, most, alone);
    }
  }

  /** Rounds of wagers `ws` were started and lost. */
  predicate LostOn(b: Db, e: Db, ws: seq<int>)
    requires |b.sessions| == 1
  {
    && e.sessions == [b.sessions[0].(played := b.sessions[0].played + |ws|, pnl := b.sessions[0].pnl - Sum(ws))]
    && (forall i | 0 <= i < |e.moves| :: e.moves[i].round < |e.rounds|)
    && Exposure(e.rounds, 0) == Exposure(b.rounds, 0) && WagersOf(e.rounds, 0) == WagersOf(b.rounds, 0) + ws
  }

  lemma EndsDealtWhenOpened(b: Db, d: Db, ws: seq<int>, raw: int -> nat)
    requires Positive(ws) && Ready(b, |ws|) && OpenedOn(b, d, ws, raw)
    ensures EndsDealt(d, ws, raw)
    ensures Exposure(d.rounds, 0) == Exposure(b.rounds, 0) + Sum(ws)
    ensures WagersOf(d.rounds, 0) == WagersOf(b.rounds, 0) + ws
  {
    DealtAt(ws, raw);
    DealtCounts(b.rounds, ws, raw);
  }

  lemma LostWhenFolded(b: Db, d: Db, e: Db, ws: seq<int>, whole: seq<int>)
    requires |b.sessions| == 1 && d.sessions == [b.sessions[0].(played := b.sessions[0].played + |ws|)]
    requires |ws| <= |d.rounds| && Exposure(d.rounds, 0) == Exposure(b.rounds, 0) + Sum(ws)
    requires WagersOf(d.rounds, 0) == WagersOf(b.rounds, 0) + ws && FoldedOn(d, e, ws, |ws|) && whole == ws[..|ws|]
    ensures LostOn(b, e, ws)
  {
    assert whole == ws;
  }

  /** Start a poker round for each of the wagers, and only then fold them all. */
  lemma AllLost(begun: seq<Step>, b: Db, ws: seq<int>, raw: int -> nat, most: nat, alone: bool)
    returns (steps: seq<Step>, e: Db)
    requires Positive(ws) && Ready(b, |ws|) && Reaches(begun, b, most, alone) && Exposure(b.rounds, 0) + Sum(ws) <= most
    requires alone ==> |ws| <= 1 && Exposure(b.rounds, 0) == 0
    ensures Reaches(steps, e, most, alone) && LostOn(b, e, ws)
  {
    var d: Db;
    steps, d := AllOpened(begun, b, ws, raw, most, alone);
    EndsDealtWhenOpened(b, d, ws, raw);
    steps, e := AllFolded(steps, d, ws, |ws|, raw, most, alone);
    LostWhenFolded(b, d, e, ws, ws[..|ws|]);
  }

  /** A new session with this cap, and room for `rounds` rounds. */
  lemma Begun(cap: int, rounds: nat, most: nat) returns (steps: seq<Step>, b: Db)
    ensures Reaches(steps, b, most, true) && b.rounds == [] && b.sessions == [Session("a", cap, rounds, 0, 0, Active)]
    ensures b.moves == []
  {
    var step := NewSession(Some("active"), None, "a", cap, rounds);
    steps, b := [] + [step], Do(EMPTY, step);
    assert Reaches([], EMPTY, most, true);
    ReachesOneMore([], EMPTY, step, most, true);
  }

  lemma {:induction false} SumOfPositive(ws: seq<int>)
    requires Positive(ws)
    ensures Sum(ws) >= |ws|
  {
    if ws != [] { SumOfPositive(ws[..|ws| - 1]); }
  }

  /** Whatever the wagers, rounds started together can all be lost, however small the cap. */
  lemma LosesAll(cap: int, ws: seq<int>, raw: int -> nat) returns (steps: seq<Step>)
    requires cap > 0 && Positive(ws)
    ensures Bets(Exec(EMPTY, steps), cap, ws) && Exec(EMPTY, steps).sessions[0].pnl == -Sum(ws)
  {
    var b, e: Db;
    SumOfPositive(ws);
    steps, b := Begun(cap, |ws|, Sum(ws));
    steps, e := AllLost(steps, b, ws, raw, Sum(ws), false);
    assert [] + ws == ws;
  }

  /** Session 0 has this cap, and its rounds had these wagers. */
  predicate Bets(db: Db, cap: int, ws: seq<int>) {
    db.sessions != [] && db.sessions[0].maxLoss == cap && WagersOf(db.rounds, 0) == ws
  }

  /**
    How far down a session can be is known from its wagers before any of them is placed: with a positive
    cap, no order of calls loses more than `bound` exactly if the wagers together do not.
  */
  lemma LossIsBoundedIffWagersAre(cap: int, ws: seq<int>, bound: int)
    requires cap > 0 && Positive(ws)
    ensures (forall steps | Bets(Exec(EMPTY, steps), cap, ws) :: Exec(EMPTY, steps).sessions[0].pnl >= -bound)
       <==> Sum(ws) <= bound
  {
    PositiveStakes(ws);
    if Sum(ws) <= bound {
      forall steps | Bets(Exec(EMPTY, steps), cap, ws) ensures Exec(EMPTY, steps).sessions[0].pnl >= -bound {
        LossAtMostStaked(steps, 0);
      }
    } else {
      var steps := LosesAll(cap, ws, i => 0);
    }
  }

  function Largest(ws: seq<int>): int { if ws == [] then 0 else Larger(Largest(ws[..|ws| - 1]), ws[|ws| - 1]) }

  /**
    The bound for one round at a time holds of rounds started in any way exactly if the wagers together do not
    pass it.
  */
  lemma OneAtATimeBoundHoldsIff(cap: int, ws: seq<int>)
    requires cap > 0 && Positive(ws)
    ensures (forall steps | Bets(Exec(EMPTY, steps), cap, ws)
               :: Exec(EMPTY, steps).sessions[0].pnl >= -(cap - 1 + Largest(ws)))
       <==> Sum(ws) <= cap - 1 + Largest(ws)
  {
    LossIsBoundedIffWagersAre(cap, ws, cap - 1 + Largest(ws));
  }

  /** `n` units are lost on top of `b`. */
  predicate UnitsLost(b: Db, e: Db, n: nat)
    requires |b.sessions| == 1
  {
    && e.sessions == [b.sessions[0].(played := b.sessions[0].played + n, pnl := b.sessions[0].pnl - n)]
    && (forall i | 0 <= i < |e.moves| :: e.moves[i].round < |e.rounds|) && Exposure(e.rounds, 0) == 0
  }

  /** Calls that lose `n` units one at a time on top of `b`. */
  ghost predicate LosesTo(steps: seq<Step>, b: Db, n: nat, most: nat) {
    |b.sessions| == 1 && UnitsLost(b, Exec(EMPTY, steps), n) && Reaches(steps, Exec(EMPTY, steps), most, true)
  }

  /** Session 0 can start rounds until `total` units are lost. */
  predicate CanLose(b: Db, total: nat) {
    Ready(b, total) && b.sessions[0].pnl - total >= -b.sessions[0].maxLoss && Exposure(b.rounds, 0) == 0
  }

  lemma LosesUnit(before: seq<Step>, b: Db, total: nat, n: nat, raw: int -> nat, most: nat) returns (steps: seq<Step>)
    requires CanLose(b, total) && n < total && LosesTo(before, b, n, most) && most >= 1
    ensures LosesTo(steps, b, n + 1, most)
  {
    var c, e := Exec(EMPTY, before), EMPTY;
    assert Sum([1]) == 1;
    assert Ready(c, 1);
    steps, e := AllLost(before, c, [1], raw, most, true);
  }

  /** Lose units one at a time. */
  lemma LosesUnits(begun: seq<Step>, b: Db, total: nat, raw: int -> nat, most: nat) returns (steps: seq<Step>)
    requires CanLose(b, total) && LosesTo(begun, b, 0, most) && most >= 1
    ensures LosesTo(steps, b, total, most)
  {
    steps := begun;
    for n := 0 to total
      invariant LosesTo(steps, b, n, most)
    {
      steps := LosesUnit(steps, b, total, n, raw, most);
    }
  }

  /**
    `LossBound` is met for every cap and every stake: lose up to the cap, a smallest unit at a time, and then
    all of `ws` at once. With a single wager at the end, so is `LossBoundOneAtATime`.
  */
  lemma BoundIsMet(cap: int, ws: seq<int>, raw: int -> nat) returns (steps: seq<Step>)
    requires cap > 0 && Positive(ws) && ws != []
    ensures var d := Exec(EMPTY, steps);
      && |d.sessions| == 1 && d.sessions[0].maxLoss == cap && Peak(steps, 0) == Sum(ws)
      && d.sessions[0].pnl == -Floor(d.sessions[0]) - Sum(ws)
    ensures |ws| == 1 ==> OneAtATime(steps, 0, Sum(ws))
  {
    SumOfPositive(ws);
    var begun, b := Begun(cap, cap - 1 + |ws|, Sum(ws));
    var before := LosesUnits(begun, b, cap - 1, raw, Sum(ws));
    var c, e := Exec(EMPTY, before), EMPTY;
    assert Ready(c, |ws|);
    steps, e := AllLost(before, c, ws, raw, Sum(ws), |ws| == 1);
    LossBound(steps, 0);
  }
}
