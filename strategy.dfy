/**
 * The betting loop of update_result: for each row of the table it decides the bet for the
 * next round (bounce strategy, then slope strategy), settles the bet placed on the previous
 * row against this row's result, applies the stopping rules, and records next_rd_decision.
 * Money is exact real arithmetic; calculate_profit is the per-unit payout table.
 */
module Strategy {
  import opened Rounds
  import opened Table

  // ----- Constants of update_result -----

  const InitialBankroll: real := 5000.0
  const TableBankroll: real := InitialBankroll * 0.2
  const BaseBet: real := (1.0 / 20.0) * TableBankroll
  const Multiplier: real := 2.2
  const WinThreshold: real := 0.35
  const LossThreshold: real := 0.4
  const BHigh: real := InitialBankroll + WinThreshold * TableBankroll
  const BLow: real := InitialBankroll - LossThreshold * TableBankroll
  /** No strategy may start before this row index. */
  const WarmUp: nat := 20
  /** A winning Banker bet returns 0.95 of the stake (commission). */
  const BankerPayout: real := 0.95

  function Pow(x: real, k: nat): real {
    if k == 0 then 1.0 else x * Pow(x, k - 1)
  }

  /** The bet won when the decision matches a non-tie result. */
  predicate Wins(d: Decision, r: Result) {
    (d == BetPlayer && r == Player) || (d == BetBanker && r == Banker)
  }

  /** The bet lost when the decision names the other side of a non-tie result. */
  predicate Loses(d: Decision, r: Result) {
    (d == BetPlayer && r == Banker) || (d == BetBanker && r == Player)
  }

  /** calculate_profit: the running profit after one round bet with `decision`, in units of the stake. */
  function Profit(result: Result, decision: Decision, current: real): (p: real)
    ensures p > current <==> Wins(decision, result)
    ensures p < current <==> Loses(decision, result)
    ensures p == current <==> decision == NoBet || result == Tie
    ensures Wins(decision, result) ==> p == current + (if decision == BetBanker then BankerPayout else 1.0)
    ensures Loses(decision, result) ==> p == current - 1.0
  {
    match decision
    case BetBanker =>
      if result == Banker then current + BankerPayout
      else if result == Player then current - 1.0
      else current
    case BetPlayer =>
      if result == Player then current + 1.0
      else if result == Banker then current - 1.0
      else current
    case NoBet => current
  }

  /** bet_size for a win after `wins` consecutive wins: the base bet times 2.2 per win, capped at three. */
  function BetSize(wins: nat): (bet: real)
    ensures bet == BaseBet * Pow(Multiplier, if wins < 3 then wins else 3)
  {
    if wins == 0 then BaseBet
    else if wins == 1 then BaseBet * Multiplier
    else if wins == 2 then BaseBet * Pow(Multiplier, 2)
    else BaseBet * Pow(Multiplier, 3)
  }

  // ----- The loop's running variables -----

  /** The money side: consecutive_wins, consecutive_losses, wins_total, the bankroll B and next_bet_size. */
  datatype Purse = Purse(
    consecutiveWins: nat,
    consecutiveLosses: nat,
    winsTotal: int,
    bankroll: real,
    nextBetSize: real)

  /**
   * bounce_active, slope_active, previous_decision (its initial None behaves as 'No Bet' in
   * every test) and the purse.
   */
  datatype Stake = Stake(bounceActive: bool, slopeActive: bool, previous: Decision, purse: Purse)

  const Initial := Stake(false, false, NoBet, Purse(0, 0, 0, InitialBankroll, BaseBet))

  // ----- Signals read from the table -----

  /** `0 <= a - b <= 2`; false when b is NaN. */
  predicate WithinTwoAbove(a: Option<int>, b: Option<int>) {
    a.Some? && b.Some? && 0 <= a.value - b.value <= 2
  }

  /** x[k] <= y[k] at one of the three rows before i. */
  predicate RecentlyAtOrBelow(x: seq<Option<real>>, y: seq<Option<real>>, i: int) {
    Le(At(x, i - 1), At(y, i - 1)) || Le(At(x, i - 2), At(y, i - 2)) || Le(At(x, i - 3), At(y, i - 3))
  }

  /** `a - 1 > b`; false when either is NaN. */
  predicate LeadsByOne(a: Option<real>, b: Option<real>) {
    a.Some? && b.Some? && a.value - 1.0 > b.value
  }

  /** The Player bounce: the score at most 2 above the support, rsi_p4 <= rsi_p3 lately, p4 rising and p3 falling over five rounds. */
  predicate PlayerBounceSignal(f: Frame, i: int) {
    && WithinTwoAbove(Cell(f.score, i), At(f.support, i))
    && RecentlyAtOrBelow(f.rsiP4, f.rsiP3, i)
    && Positive(At(f.slopeP4x5, i)) && Negative(At(f.slopeP3x5, i))
  }

  /** The Banker bounce: the score at most 2 below the resistance, rsi_p3 <= rsi_p4 lately, p3 rising and p4 falling over five rounds. */
  predicate BankerBounceSignal(f: Frame, i: int) {
    && WithinTwoAbove(At(f.resistance, i), Cell(f.score, i))
    && RecentlyAtOrBelow(f.rsiP3, f.rsiP4, i)
    && Positive(At(f.slopeP3x5, i)) && Negative(At(f.slopeP4x5, i))
  }

  /** p4 rising and p3 falling over both two and five rounds. */
  predicate ResistanceSlopes(f: Frame, i: int) {
    && Positive(At(f.slopeP4, i)) && Negative(At(f.slopeP3, i))
    && Positive(At(f.slopeP4x5, i)) && Negative(At(f.slopeP3x5, i))
  }

  /** p3 rising and p4 falling over both two and five rounds. */
  predicate SupportSlopes(f: Frame, i: int) {
    && Positive(At(f.slopeP3, i)) && Negative(At(f.slopeP4, i))
    && Positive(At(f.slopeP3x5, i)) && Negative(At(f.slopeP4x5, i))
  }

  /** Cross Resistance: rsi_p4 - 1 > rsi_p3, the score 3 or more above the resistance and up 3 or more over four rows. */
  predicate CrossResistance(f: Frame, i: int) {
    var now, ago, level := Cell(f.score, i), Cell(f.score, i - 4), At(f.resistance, i);
    && LeadsByOne(At(f.rsiP4, i), At(f.rsiP3, i))
    && now.Some? && ago.Some? && level.Some?
    && now.value - level.value >= 3 && now.value - ago.value >= 3
  }

  /** Cross Support: rsi_p3 - 1 > rsi_p4, the score 3 or more below the support and down 3 or more over four rows. */
  predicate CrossSupport(f: Frame, i: int) {
    var now, ago, level := Cell(f.score, i), Cell(f.score, i - 4), At(f.support, i);
    && LeadsByOne(At(f.rsiP3, i), At(f.rsiP4, i))
    && now.Some? && ago.Some? && level.Some?
    && now.value <= level.value - 3 && now.value - ago.value <= -3
  }

  // ----- The phases of one iteration -----

  /** A bet and whether the strategy that produced it is active. */
  datatype Entry = Entry(bet: Decision, active: bool)

  /**
   * The bounce entry as the source writes it: the Banker branch is an `elif` on exactly the
   * guard of the Player branch, so it is reached only when that guard is false. This is the
   * entry the loop runs.
   */
  function BounceEntryAsWritten(f: Frame, i: nat, active: bool): (e: Entry)
    ensures e.active <==> active || (i >= WarmUp && PlayerBounceSignal(f, i))
    ensures e.bet == BetPlayer <==> !active && i >= WarmUp && PlayerBounceSignal(f, i)
    ensures e.bet != BetBanker
  {
    if !active && i >= WarmUp then
      if PlayerBounceSignal(f, i) then Entry(BetPlayer, true) else Entry(NoBet, active)
    else if !active && i >= WarmUp then
      if BankerBounceSignal(f, i) then Entry(BetBanker, true) else Entry(NoBet, active)
    else Entry(NoBet, active)
  }

  /** The bounce entry as intended: the Banker bounce is tried when the Player bounce does not fire. */
  function BounceEntry(f: Frame, i: nat, active: bool): (e: Entry)
    ensures e.active <==> active || (i >= WarmUp && (PlayerBounceSignal(f, i) || BankerBounceSignal(f, i)))
    ensures e.bet == BetPlayer <==> !active && i >= WarmUp && PlayerBounceSignal(f, i)
    ensures e.bet == BetBanker <==> !active && i >= WarmUp && !PlayerBounceSignal(f, i) && BankerBounceSignal(f, i)
  {
    if !active && i >= WarmUp then
      if PlayerBounceSignal(f, i) then Entry(BetPlayer, true)
      else if BankerBounceSignal(f, i) then Entry(BetBanker, true)
      else Entry(NoBet, active)
    else Entry(NoBet, active)
  }

  /** An active strategy repeats the previous bet; otherwise the bet stands. */
  function Continue(active: bool, previous: Decision, bet: Decision): (d: Decision)
    ensures !active || previous == NoBet ==> d == bet
    ensures active && previous != NoBet ==> d == previous
  {
    if active then
      match previous
      case BetPlayer => BetPlayer
      case BetBanker => BetBanker
      case NoBet => bet
    else bet
  }

  /** The slope entry: Cross Resistance bets Player, else Cross Support bets Banker. */
  function SlopeEntry(f: Frame, i: nat, active: bool): (e: Entry)
    ensures e.bet != NoBet ==> !active && i >= WarmUp && e.active
    ensures e.bet == NoBet ==> e.active == active
    ensures e.bet == BetPlayer <==> !active && i >= WarmUp && ResistanceSlopes(f, i) && CrossResistance(f, i)
    ensures e.bet == BetBanker <==> !active && i >= WarmUp && !ResistanceSlopes(f, i) && SupportSlopes(f, i) && CrossSupport(f, i)
  {
    if !active && i >= WarmUp && ResistanceSlopes(f, i) then
      if CrossResistance(f, i) then Entry(BetPlayer, true) else Entry(NoBet, active)
    else if !active && i >= WarmUp && SupportSlopes(f, i) then
      if CrossSupport(f, i) then Entry(BetBanker, true) else Entry(NoBet, active)
    else Entry(NoBet, active)
  }

  /** The bet for the next round and both flags, before settlement and the stopping rules. */
  datatype Plan = Plan(bet: Decision, bounce: bool, slope: bool)

  function PlanFor(f: Frame, i: nat, bounce: bool, slope: bool, previous: Decision): (p: Plan)
    ensures p.bet != NoBet ==> p.bounce || p.slope
    ensures bounce ==> p.bounce
    ensures slope ==> p.slope
    ensures i < WarmUp && !bounce && !slope ==> p == Plan(NoBet, false, false)
  {
    var b := BounceEntryAsWritten(f, i, bounce);
    var bet := Continue(b.active, previous, b.bet);
    if bet == NoBet then
      var e := SlopeEntry(f, i, slope);
      Plan(Continue(e.active, previous, e.bet), b.active, e.active)
    else
      Plan(bet, b.active, slope)
  }

  /** The bounce and slope strategies of one iteration, as the loop body runs them. */
  method ChooseBet(f: Frame, i: nat, bounce: bool, slope: bool, previous: Decision)
    returns (nextBet: Decision, bounceActive: bool, slopeActive: bool)
    ensures Plan(nextBet, bounceActive, slopeActive) == PlanFor(f, i, bounce, slope, previous)
  {
    bounceActive, slopeActive := bounce, slope;
    nextBet := NoBet;

    // Bounce strategy.
    if !bounceActive && i >= WarmUp {
      if PlayerBounceSignal(f, i) {
        nextBet := BetPlayer;
        bounceActive := true;
      }
    } else if !bounceActive && i >= WarmUp {
      if BankerBounceSignal(f, i) {
        nextBet := BetBanker;
        bounceActive := true;
      }
    }
    if bounceActive {
      if previous == BetPlayer {
        nextBet := BetPlayer;
      } else if previous == BetBanker {
        nextBet := BetBanker;
      }
    }

    // Slope strategy, only when the bounce strategy left No Bet.
    if nextBet == NoBet {
      if !slopeActive && i >= WarmUp && ResistanceSlopes(f, i) {
        if CrossResistance(f, i) {
          nextBet := BetPlayer;
          slopeActive := true;
        }
      } else if !slopeActive && i >= WarmUp && SupportSlopes(f, i) {
        if CrossSupport(f, i) {
          nextBet := BetBanker;
          slopeActive := true;
        }
      }
      if slopeActive {
        if previous == BetPlayer {
          nextBet := BetPlayer;
        } else if previous == BetBanker {
          nextBet := BetBanker;
        }
      }
    }
  }

  /** A win: the stake climbs the ladder, wins_total grows, the loss streak ends. */
  function Win(p: Purse, payout: real): Purse {
    var bet := BetSize(p.consecutiveWins);
    p.(consecutiveLosses := 0, winsTotal := p.winsTotal + 1,
       consecutiveWins := p.consecutiveWins + 1,
       bankroll := p.bankroll + payout * bet, nextBetSize := bet * Multiplier)
  }

  /** A loss: next_bet_size is deducted and the stake returns to the base bet. */
  function Lose(p: Purse): Purse {
    p.(bankroll := p.bankroll - p.nextBetSize, consecutiveLosses := p.consecutiveLosses + 1,
       consecutiveWins := 0, winsTotal := p.winsTotal - 1, nextBetSize := BaseBet)
  }

  /** Settling the bet `d` made on the previous row against this row's result; a tie or No Bet settles nothing. */
  function Settle(d: Decision, p: Purse, r: Result): (q: Purse)
    ensures !Wins(d, r) && !Loses(d, r) ==> q == p
    ensures Wins(d, r) ==> q == Win(p, if r == Banker then BankerPayout else 1.0)
    ensures Loses(d, r) ==> q == Lose(p)
  {
    if d == BetPlayer then
      if r == Player then Win(p, 1.0)
      else if r == Banker then Lose(p)
      else p
    else if d == BetBanker then
      if r == Banker then Win(p, BankerPayout)
      else if r == Player then Lose(p)
      else p
    else p
  }

  /** The settlement block of the loop body. */
  method SettleBet(previous: Decision, result: Result, wins: nat, losses: nat, total: int, bankroll: real, betSize: real)
    returns (consecutiveWins: nat, consecutiveLosses: nat, winsTotal: int, b: real, nextBetSize: real)
    ensures Purse(consecutiveWins, consecutiveLosses, winsTotal, b, nextBetSize)
            == Settle(previous, Purse(wins, losses, total, bankroll, betSize), result)
  {
    consecutiveWins, consecutiveLosses, winsTotal, b, nextBetSize := wins, losses, total, bankroll, betSize;
    if previous == BetPlayer {
      if result == Player {
        consecutiveLosses := 0;
        winsTotal := winsTotal + 1;
        var bet := BetSize(consecutiveWins);
        consecutiveWins := consecutiveWins + 1;
        b := b + bet;
        nextBetSize := bet * Multiplier;
      } else if result == Banker {
        b := b - nextBetSize;
        consecutiveLosses := consecutiveLosses + 1;
        consecutiveWins := 0;
        winsTotal := winsTotal - 1;
        nextBetSize := BaseBet;
      }
    } else if previous == BetBanker {
      if result == Banker {
        consecutiveLosses := 0;
        winsTotal := winsTotal + 1;
        var bet := BetSize(consecutiveWins);
        consecutiveWins := consecutiveWins + 1;
        b := b + BankerPayout * bet;
        nextBetSize := bet * Multiplier;
      } else if result == Player {
        b := b - nextBetSize;
        consecutiveLosses := consecutiveLosses + 1;
        consecutiveWins := 0;
        winsTotal := winsTotal - 1;
        nextBetSize := BaseBet;
      }
    }
  }

  /** The amount at risk on a settled bet: the ladder step on a win, next_bet_size on a loss. */
  function Wager(d: Decision, p: Purse, r: Result): real {
    if Wins(d, r) then BetSize(p.consecutiveWins) else p.nextBetSize
  }

  /** What a settled bet earns: calculate_profit's unit result times the wager. */
  function Earned(d: Decision, p: Purse, r: Result): real {
    Profit(r, d, 0.0) * Wager(d, p, r)
  }

  /** Settlement moves the bankroll by calculate_profit's unit result times the wager, and wins_total by its sign. */
  lemma {:induction false} SettleIsProfitTimesWager(d: Decision, p: Purse, r: Result)
    ensures Settle(d, p, r).bankroll == p.bankroll + Earned(d, p, r)
    ensures Settle(d, p, r).winsTotal == p.winsTotal + Scored(d, r)
  {
    if Wins(d, r) {
      assert Profit(r, d, 0.0) == (if r == Banker then BankerPayout else 1.0);
    } else if Loses(d, r) {
      assert Profit(r, d, 0.0) == -1.0;
    } else {
      assert Profit(r, d, 0.0) == 0.0;
    }
  }

  function Sign(x: real): int {
    if x > 0.0 then 1 else if x < 0.0 then -1 else 0
  }

  /** What a settled bet adds to wins_total: the sign of calculate_profit's result. */
  function Scored(d: Decision, r: Result): int {
    Sign(Profit(r, d, 0.0))
  }

  /** The shared stopping tests: three net wins, two losses in a row, or the bankroll out of (B_low, B_high). */
  predicate Exhausted(p: Purse) {
    p.winsTotal >= 3 || p.consecutiveLosses >= 2 || p.bankroll >= BHigh || p.bankroll <= BLow
  }

  function Halt(s: Stake): Stake {
    s.(bounceActive := false, purse := s.purse.(nextBetSize := BaseBet))
  }

  /**
   * What stops the bounce strategy, for a state whose `previous` holds this row's next_bet:
   * an RSI reversal against an active bounce bet, the score at or above the resistance or at
   * or below the support, or Exhausted. With Python's precedence the `bounce_active and`
   * guard covers only the RSI test, so the other tests fire with no bounce active.
   */
  predicate BounceHalts(f: Frame, i: nat, s: Stake) {
    var score := Cell(f.score, i);
    || (s.bounceActive && Le(At(f.rsiP4, i), At(f.rsiP3, i)) && s.previous == BetPlayer)
    || (s.bounceActive && Le(At(f.rsiP3, i), At(f.rsiP4, i)) && s.previous == BetBanker)
    || LeInt(At(f.resistance, i), score) || LeInt(score, At(f.support, i)) || Exhausted(s.purse)
  }

  /** The two bounce stopping tests: they halt (flag off, base stake) exactly when `BounceHalts` holds. */
  function BounceStops(f: Frame, i: nat, s: Stake): (t: Stake)
    ensures BounceHalts(f, i, s) ==> t == Halt(s)
    ensures !BounceHalts(f, i, s) ==> t == s
  {
    var score := Cell(f.score, i);
    var s1 :=
      if (s.bounceActive && Le(At(f.rsiP4, i), At(f.rsiP3, i)) && s.previous == BetPlayer)
         || LeInt(At(f.resistance, i), score) || Exhausted(s.purse)
      then Halt(s) else s;
    if (s1.bounceActive && Le(At(f.rsiP3, i), At(f.rsiP4, i)) && s1.previous == BetBanker)
       || LeInt(score, At(f.support, i)) || Exhausted(s1.purse)
    then Halt(s1) else s1
  }

  /** The slope stopping test: an RSI reversal against the bet, or Exhausted, ends the slope strategy and cancels the bet. */
  function SlopeStop(f: Frame, i: nat, p: Purse, bet: Decision): (e: Entry)
    ensures !e.active <==> (bet == BetPlayer && Le(At(f.rsiP4, i), At(f.rsiP3, i)))
                           || (bet == BetBanker && Le(At(f.rsiP3, i), At(f.rsiP4, i))) || Exhausted(p)
    ensures !e.active ==> e.bet == NoBet
    ensures e.active ==> e.bet == bet
  {
    if bet == BetPlayer && Le(At(f.rsiP4, i), At(f.rsiP3, i)) then Entry(NoBet, false)
    else if bet == BetBanker && Le(At(f.rsiP3, i), At(f.rsiP4, i)) then Entry(NoBet, false)
    else if Exhausted(p) then Entry(NoBet, false)
    else Entry(bet, true)
  }

  /** The stopping rules, for a state whose `previous` holds this row's next_bet; the result holds the recorded decision. */
  function Stops(f: Frame, i: nat, s: Stake): (t: Stake)
    ensures t.purse == s.purse || t.purse == s.purse.(nextBetSize := BaseBet)
    ensures t.previous == s.previous || t.previous == NoBet
    ensures t.bounceActive ==> s.bounceActive
    ensures t.slopeActive ==> s.slopeActive
    ensures s.slopeActive && !t.slopeActive ==> t.previous == NoBet
    ensures Exhausted(t.purse) ==> !t.bounceActive && !t.slopeActive && t.purse.nextBetSize == BaseBet
  {
    var stopped := BounceStops(f, i, s);
    if stopped.slopeActive then
      var e := SlopeStop(f, i, stopped.purse, stopped.previous);
      stopped.(slopeActive := e.active, previous := e.bet)
    else
      stopped
  }

  /** The stopping block of the loop body. */
  method StopBets(f: Frame, i: nat, s: Stake) returns (t: Stake)
    ensures t == Stops(f, i, s)
  {
    var nextBet, bounceActive, slopeActive := s.previous, s.bounceActive, s.slopeActive;
    var p := s.purse;
    var nextBetSize := p.nextBetSize;
    var score := Cell(f.score, i);
    if (bounceActive && Le(At(f.rsiP4, i), At(f.rsiP3, i)) && nextBet == BetPlayer)
       || LeInt(At(f.resistance, i), score)
       || p.winsTotal >= 3 || p.consecutiveLosses >= 2 || p.bankroll >= BHigh || p.bankroll <= BLow {
      bounceActive := false;
      nextBetSize := BaseBet;
    }
    if (bounceActive && Le(At(f.rsiP3, i), At(f.rsiP4, i)) && nextBet == BetBanker)
       || LeInt(score, At(f.support, i))
       || p.winsTotal >= 3 || p.consecutiveLosses >= 2 || p.bankroll >= BHigh || p.bankroll <= BLow {
      bounceActive := false;
      nextBetSize := BaseBet;
    }
    if slopeActive {
      if nextBet == BetPlayer && Le(At(f.rsiP4, i), At(f.rsiP3, i)) {
        slopeActive := false;
        nextBet := NoBet;
      } else if nextBet == BetBanker && Le(At(f.rsiP3, i), At(f.rsiP4, i)) {
        slopeActive := false;
        nextBet := NoBet;
      } else if p.winsTotal >= 3 || p.consecutiveLosses >= 2 || p.bankroll >= BHigh || p.bankroll <= BLow {
        slopeActive := false;
        nextBet := NoBet;
      }
    }
    t := Stake(bounceActive, slopeActive, nextBet, p.(nextBetSize := nextBetSize));
  }

  /** The iteration for row i, from the running variables before it to those after it. */
  function Step(f: Frame, i: nat, s: Stake): (t: Stake)
    requires i < |f.result|
  {
    var p := PlanFor(f, i, s.bounceActive, s.slopeActive, s.previous);
    Stops(f, i, Stake(p.bounce, p.slope, p.bet, Settle(s.previous, s.purse, f.result[i])))
  }

  /** The running variables after the loop has visited rows 0 .. n-1. */
  function Run(f: Frame, n: nat): Stake
    requires n <= |f.result|
  {
    if n == 0 then Initial else Step(f, n - 1, Run(f, n - 1))
  }

  /** The first n cells of the next_rd_decision column. */
  function DecisionsTo(f: Frame, n: nat): (d: seq<Decision>)
    requires n <= |f.result|
    ensures |d| == n
  {
    if n == 0 then [] else DecisionsTo(f, n - 1) + [Run(f, n).previous]
  }

  /** The next_rd_decision column. */
  function Decisions(f: Frame): (d: seq<Decision>)
    ensures |d| == |f.result|
  {
    DecisionsTo(f, |f.result|)
  }

  /** Cell i of next_rd_decision is the decision the loop holds after row i. */
  lemma {:induction false} DecisionsRecorded(f: Frame, n: nat)
    requires n <= |f.result|
    ensures forall i :: 0 <= i < n ==> DecisionsTo(f, n)[i] == Run(f, i + 1).previous
  {
    if n > 0 {
      DecisionsRecorded(f, n - 1);
    }
  }

  /** One pass of the loop body over row i, on the running variables `s`. */
  method Iteration(f: Frame, i: nat, s: Stake) returns (t: Stake)
    requires i < |f.result|
    ensures t == Step(f, i, s)
  {
    var result := f.result[i];
    var previous := s.previous;
    var consecutiveWins, consecutiveLosses, winsTotal, b, nextBetSize :=
      s.purse.consecutiveWins, s.purse.consecutiveLosses, s.purse.winsTotal, s.purse.bankroll, s.purse.nextBetSize;
    var nextBet, bounceActive, slopeActive := ChooseBet(f, i, s.bounceActive, s.slopeActive, previous);
    consecutiveWins, consecutiveLosses, winsTotal, b, nextBetSize :=
      SettleBet(previous, result, consecutiveWins, consecutiveLosses, winsTotal, b, nextBetSize);
    t := StopBets(f, i, Stake(bounceActive, slopeActive, nextBet,
                              Purse(consecutiveWins, consecutiveLosses, winsTotal, b, nextBetSize)));
  }

  /** The betting loop of update_result; it returns next_rd_decision and the final bankroll B. */
  method ApplyStrategies(f: Frame) returns (decisions: seq<Decision>, bankroll: real)
    ensures decisions == Decisions(f)
    ensures bankroll == Run(f, |f.result|).purse.bankroll
  {
    var n := |f.result|;
    decisions := [];
    var state := Initial;
    for i := 0 to n
      invariant state == Run(f, i)
      invariant decisions == DecisionsTo(f, i)
    {
      state := Iteration(f, i, state);
      decisions := decisions + [state.previous];
    }
    bankroll := state.purse.bankroll;
  }

  // ----- What one iteration and the whole loop guarantee -----

  /** One iteration: settlement, the recorded decision and the stopping rules. */
  lemma {:induction false} StepProperties(f: Frame, i: nat, s: Stake)
    requires i < |f.result|
    // A bet moves the purse only when it is won or lost; a win and a loss do what the source says.
    ensures var t, r := Step(f, i, s), f.result[i];
      && (!Wins(s.previous, r) && !Loses(s.previous, r) ==>
            t.purse == s.purse || t.purse == s.purse.(nextBetSize := BaseBet))
      && (Wins(s.previous, r) ==>
            && t.purse.bankroll == s.purse.bankroll + (if r == Banker then BankerPayout else 1.0) * BetSize(s.purse.consecutiveWins)
            && t.purse.consecutiveWins == s.purse.consecutiveWins + 1 && t.purse.consecutiveLosses == 0
            && t.purse.winsTotal == s.purse.winsTotal + 1)
      && (Loses(s.previous, r) ==>
            && t.purse.bankroll == s.purse.bankroll - s.purse.nextBetSize
            && t.purse.consecutiveWins == 0 && t.purse.consecutiveLosses == s.purse.consecutiveLosses + 1
            && t.purse.winsTotal == s.purse.winsTotal - 1 && t.purse.nextBetSize == BaseBet)
    // The recorded decision is the planned bet or No Bet, and a bet comes only from an active strategy.
    ensures var t, p := Step(f, i, s), PlanFor(f, i, s.bounceActive, s.slopeActive, s.previous);
      && (t.previous == p.bet || t.previous == NoBet)
      && (t.previous != NoBet ==> p.bounce || p.slope)
      && (t.bounceActive ==> p.bounce) && (t.slopeActive ==> p.slope)
      && (p.slope && !t.slopeActive ==> t.previous == NoBet)
    // Once a stopping threshold is reached, every strategy is off and the stake is the base bet.
    ensures var t := Step(f, i, s);
      Exhausted(t.purse) ==> !t.bounceActive && !t.slopeActive && t.purse.nextBetSize == BaseBet
  {
  }

  /** An iteration's purse is the settled purse, with next_bet_size possibly reset by a stop. */
  lemma {:induction false} StepSettles(f: Frame, i: nat, s: Stake)
    requires i < |f.result|
    ensures var q := Settle(s.previous, s.purse, f.result[i]);
      Step(f, i, s).purse == q || Step(f, i, s).purse == q.(nextBetSize := BaseBet)
  {
  }

  /** The bankroll change of each row: calculate_profit's unit result for the bet settled there, times its wager. */
  function Earnings(f: Frame, n: nat): real
    requires n <= |f.result|
  {
    if n == 0 then 0.0
    else
      var s, r := Run(f, n - 1), f.result[n - 1];
      Earnings(f, n - 1) + Earned(s.previous, s.purse, r)
  }

  /** The number of won bets minus the number of lost bets among rows 0 .. n-1. */
  function NetWins(f: Frame, n: nat): int
    requires n <= |f.result|
  {
    if n == 0 then 0
    else NetWins(f, n - 1) + Scored(Run(f, n - 1).previous, f.result[n - 1])
  }

  /** One row's share of the ledger. */
  lemma {:induction false} StepLedger(f: Frame, i: nat, s: Stake)
    requires i < |f.result|
    ensures Step(f, i, s).purse.bankroll
            == s.purse.bankroll + Earned(s.previous, s.purse, f.result[i])
    ensures Step(f, i, s).purse.winsTotal == s.purse.winsTotal + Scored(s.previous, f.result[i])
  {
    StepSettles(f, i, s);
    SettleIsProfitTimesWager(s.previous, s.purse, f.result[i]);
  }

  /** B is 5000 plus the sum of the per-row earnings. */
  lemma {:induction false} LedgerBankroll(f: Frame, n: nat)
    requires n <= |f.result|
    ensures Run(f, n).purse.bankroll == InitialBankroll + Earnings(f, n)
  {
    if n > 0 {
      LedgerBankroll(f, n - 1);
      StepLedger(f, n - 1, Run(f, n - 1));
    }
  }

  /** wins_total is the net number of won bets. */
  lemma {:induction false} LedgerWins(f: Frame, n: nat)
    requires n <= |f.result|
    ensures Run(f, n).purse.winsTotal == NetWins(f, n)
  {
    if n > 0 {
      LedgerWins(f, n - 1);
      StepLedger(f, n - 1, Run(f, n - 1));
    }
  }

  /** The loop's purse invariant: no win streak and loss streak at once, and next_bet_size one step up the ladder or the base bet. */
  ghost predicate OnLadder(p: Purse) {
    && (p.consecutiveWins == 0 || p.consecutiveLosses == 0)
    && (p.nextBetSize == BaseBet
        || (p.consecutiveWins >= 1 && p.nextBetSize == BetSize(p.consecutiveWins - 1) * Multiplier))
  }

  lemma {:induction false} SettleKeepsLadder(d: Decision, p: Purse, r: Result)
    requires OnLadder(p)
    ensures OnLadder(Settle(d, p, r))
    ensures OnLadder(Settle(d, p, r).(nextBetSize := BaseBet))
  {
  }

  lemma {:induction false} RunOnLadder(f: Frame, n: nat)
    requires n <= |f.result|
    ensures OnLadder(Run(f, n).purse)
  {
    if n > 0 {
      RunOnLadder(f, n - 1);
      var s := Run(f, n - 1);
      SettleKeepsLadder(s.previous, s.purse, f.result[n - 1]);
    }
  }

  /** The ladder runs from 50 to 50 * 2.2^3 and next_bet_size from 50 to 50 * 2.2^4. */
  lemma {:induction false} LadderBounds(p: Purse)
    requires OnLadder(p)
    ensures forall k: nat :: BaseBet <= BetSize(k) <= BaseBet * Pow(Multiplier, 3)
    ensures BaseBet <= p.nextBetSize <= BaseBet * Pow(Multiplier, 4)
  {
    assert Pow(Multiplier, 2) == Multiplier * Multiplier;
    assert Pow(Multiplier, 3) == Multiplier * Pow(Multiplier, 2);
    assert Pow(Multiplier, 4) == Multiplier * Pow(Multiplier, 3);
  }

  /** Before row 20 nothing happens: a row visited in the idle state leaves it idle. */
  lemma {:induction false} StepIdle(f: Frame, i: nat)
    requires i < |f.result| && i < WarmUp
    ensures Step(f, i, Initial) == Initial
  {
    var p := PlanFor(f, i, false, false, NoBet);
    assert p == Plan(NoBet, false, false);
    assert Settle(NoBet, Initial.purse, f.result[i]) == Initial.purse;
    assert Halt(Initial) == Initial;
  }

  lemma {:induction false} WarmUpIdle(f: Frame, n: nat)
    requires n <= |f.result| && n <= WarmUp
    ensures Run(f, n) == Initial
  {
    if n > 0 {
      WarmUpIdle(f, n - 1);
      StepIdle(f, n - 1);
    }
  }

  /** The first 20 decisions are No Bet, and B is still 5000 after them. */
  lemma {:induction false} NoBetsBeforeWarmUp(f: Frame)
    ensures forall i :: 0 <= i < |f.result| && i < WarmUp ==> Decisions(f)[i] == NoBet
    ensures |f.result| <= WarmUp ==> Run(f, |f.result|).purse.bankroll == InitialBankroll
  {
    DecisionsRecorded(f, |f.result|);
    forall i | 0 <= i < |f.result| && i < WarmUp
      ensures Decisions(f)[i] == NoBet
    {
      WarmUpIdle(f, i + 1);
    }
    if |f.result| <= WarmUp {
      WarmUpIdle(f, |f.result|);
    }
  }

  // ----- The unreachable Banker bounce -----

  /** As written, the Banker bounce never fires: the entry is the corrected one with its Banker branch taken out. */
  lemma {:induction false} BankerBounceUnreachable(f: Frame, i: nat, active: bool)
    ensures BounceEntryAsWritten(f, i, active).bet != BetBanker
    ensures BounceEntryAsWritten(f, i, active)
            == if BounceEntry(f, i, active).bet == BetBanker then Entry(NoBet, active) else BounceEntry(f, i, active)
  {
  }
}
