# Baccarat round tracker: the indicator and decision engine

This project models the engine of `app.py`, a Streamlit tool. The operator enters the
winner of each baccarat round (Player, Banker or Tie). After every entry, `update_result`
rebuilds its DataFrame from the whole result history:

1. A first loop writes each row's cumulative score (+1 for Player, -1 for Banker, 0 for
   Tie) and its transition class (1-4 against the previous non-tie round). It also
   writes the class proportions `proportion_1 .. proportion_4`.
2. `data_processing` adds an RSI-style oscillator with window 10 on `proportion_3` and
   `proportion_4`, and the support and resistance levels of the score.
3. Four slope columns are added: offsets 2 and 5 on `proportion_3` and `proportion_4`.
4. A second loop runs the bounce and slope strategies as a state machine. It settles
   each bet against the next result on a win ladder (base bet 50, multiplier 2.2,
   capped after three wins). It applies the stopping rules and records the
   next-round decision.

The session keeps the table, the win counts, the round number, the last row's
proportions and the final bankroll `B`.

Modules, in dependency order:

- `Rounds` (`rounds.dfy`): results, decisions, and `Option` for NaN. Every comparison
  with an undefined value is false.
- `Tracker` (`tracker.dfy`): the first loop. It is an imperative method over a fresh
  array, specified by a fold `TallyTo` over the rounds visited so far.
- `Oscillator` (`oscillator.dfy`): the inner `calculate_rsi` and `calculate_slope`, on
  exact reals.
- `Pivots` (`pivots.dfy`): `calculate_support_resistance`. It is the source's loop,
  specified by a step function per side and by an independent prefix-minimum
  definition.
- `Table` (`table.dfy`): the table before the betting loop. Every column is a function
  of the history.
- `Strategy` (`strategy.dfy`): the betting loop, as written. Each phase is a method proved
  equal to a step function. Further lemmas cover settlement, the ledger, the stake ladder,
  the warm-up and the stopping rules.
- `Session` (`session.dfy`): the `Game` class, holding the session fields. It has
  `UpdateResult` and `Reset`, and the invariant that every field is determined by the
  results entered so far.
- `Counterexample` (`counterexample.dfy`): a 21-round history on which the Banker bounce
  entry, as intended, would bet at row 20, while the loop as written records No Bet.

Modelling choices:

- Money and proportions are exact `real`s.
- `previous_decision`'s initial `None` is modelled as No Bet. Every test in the loop
  treats the two alike.
- Python precedence at app.py:397 and app.py:401 is kept literally. `bounce_active and`
  guards only the RSI test, so the level and threshold tests stop the bounce (and
  reset `next_bet_size`) even when no bounce is active.
- `B_low` is taken from the code: 5000 - 0.4 * 1000 = 4600.
- The engine runs the bounce entry as written (`Strategy.BounceEntryAsWritten`), whose
  Banker branch is dead. `Strategy.BounceEntry` is the intended entry; see "## Findings".

## Model

| member | source | states |
|---|---|---|
| Tracker.ClassOf | app.py:225-232 | a class 1-4 is assigned exactly when both rounds are non-ties, and 0 otherwise |
| Tracker.ScoreCell | app.py:203-217 | the score cell is the cell above plus +1/-1/0 for Player/Banker/Tie, and on row 0 just that step |
| Tracker.ClassCell | app.py:225-232 | the class written against the previous non-tie result is `ClassOf`, 0 when no branch fires |
| Tracker.CountClass | app.py:236-243 | the count of the row's class goes up by one and the other counts stay; class 0 changes nothing |
| Tracker.VisitRound | app.py:203-264 | one loop iteration writes the row `RowFor` gives for the running variables, and leaves them as `Advance` makes them |
| Tracker.RowsToAt | app.py:201-264 | the first n rows of the reference table are `RowAt` for each index |
| Tracker.FirstPass | app.py:201-264 | the loop writes, for every row, exactly the score, class and proportions of the fold `RowAt` |
| Tracker.PrevNonTie | app.py:223-233 | the reference for `last_non_tie`: the latest earlier non-tie index, with only ties after it; none if all earlier rounds are ties |
| Tracker.AdvanceCounters | app.py:203-221 | one iteration adds the round's +1/-1/0 to the score and counts a non-tie round |
| Tracker.ScoreIsPlayerMinusBanker | app.py:203-221 | the running score is #Player - #Banker, and `non_tie_rounds` is the number of non-tie rounds |
| Tracker.RowScore | app.py:203-217 | a row's cumulative score counts Player minus Banker wins in rounds 0..i; consecutive rows differ by that round's +1/-1/0, so by at most 1 |
| Tracker.LastIsPrevNonTie | app.py:223-233 | `last_non_tie` always refers to the most recent earlier non-tie round |
| Tracker.ClassTable | app.py:223-233 | class 1 iff Banker then Player, 2 iff Player then Banker, 3 iff Banker then Banker, 4 iff Player then Player (each against the previous non-tie round); 0 iff a tie or no earlier non-tie round |
| Tracker.FractionsAreDistribution | app.py:247-251 | counts summing to d, each divided by d, give four shares in [0,1] that sum to exactly 1 |
| Tracker.AdvanceKeepsCoherent | app.py:220-264 | one iteration keeps count_1+..+count_4 == non_tie_rounds - 1, `last_non_tie` set iff a non-tie round was seen, and the carried proportions zero or a distribution |
| Tracker.TallyCoherent | app.py:236-251 | those invariants hold after every round of the history |
| Tracker.LabelCount | app.py:236-243 | count_k is the number of rows so far whose class is k |
| Tracker.CountsAreLabels | app.py:236-243 | all four counts are the label counts of the rows so far |
| Tracker.RowProportionsShape | app.py:247-264 | every row's proportions are zeros or a distribution, and a distribution on a non-tie row once more than one non-tie round was seen |
| Tracker.RowProportions | app.py:247-251 | on such a row P_k is the number of rows labelled k divided by non_tie_rounds - 1 |
| Tracker.CarriedIsLatest | app.py:253-264 | `prev_proportion_*` are the proportions of the latest row that computed them, or zeros |
| Tracker.TieRow | app.py:259-264 | a tie row gets class 0, copies the latest computed proportions, and leaves every running variable unchanged |
| Tracker.TallySamePrefix | app.py:201-264 | the running variables before round n depend only on rounds 0 .. n-1 |
| Tracker.TieInsertion | app.py:220-264 | inserting a tie anywhere leaves the running variables after every later round as they were |
| Tracker.TieInsertionRows | app.py:220-264 | every row after an inserted tie is the row it was without the tie |
| Oscillator.SumGain | app.py:94-97 | the window's sum of gains is never negative |
| Oscillator.SumLoss | app.py:94-98 | the window's sum of losses is never negative |
| Oscillator.RsiOfMeans | app.py:97-100 | on the rolling means, RSI is defined iff some gain or loss is positive, equals 100 * gains / (gains + losses), and lies in [0,100]; a zero roll_down with a positive roll_up gives 100 |
| Oscillator.RsiAt | app.py:93-101 | RSI at i is defined iff w > 0, at least w deltas exist and the window moved; then it is the share of gains scaled to 100 and lies in [0,100] |
| Oscillator.Rsi | app.py:103-104 | every cell is `RsiAt`; cells before the window are undefined; defined cells lie in [0,100] |
| Oscillator.SlopeAt | app.py:89-90 | the slope is defined iff 0 < offset <= i; its sign is the sign of s[i] - s[i - offset] |
| Oscillator.Slope | app.py:89-90 | every cell is `SlopeAt`, defined exactly from index offset on |
| Oscillator.NetMove | app.py:94-96 | the gains minus the losses over a window telescope to the net move across it |
| Oscillator.SlopeAgreesWithRsi | app.py:89-100 | over the same window, slope * w is gains minus losses, and RSI > 50 iff the slope is positive |
| Oscillator.SlopeOfShares | app.py:89-90 | on a series of proportions the slope over offset rounds lies in [-1/offset, 1/offset] |
| Pivots.SupportAt | app.py:48-69 | the support is undefined at indices 0, 1 and 2 |
| Pivots.ResistanceAt | app.py:49-81 | the resistance is undefined at indices 0, 1 and 2 |
| Pivots.SupportResistance | app.py:46-85 | the loop writes both columns, each cell equal to the per-side step model |
| Pivots.RunMin | app.py:60-62 | the running minimum over indices 2..k-1 is at most each of them and one of them |
| Pivots.LatestCrossing | app.py:63-64 | the reference verification: the latest index where the score rose above its running minimum |
| Pivots.CrossingIsLatest | app.py:63-64 | a verifying index is never lost: the latest one is at or after it |
| Pivots.RunMinFalls | app.py:60-62 | the running minimum never rises as the prefix grows |
| Pivots.LowsInvariant | app.py:58-69 | `last_low` is the running minimum; the support is the reference support; `low_verified` holds iff the latest crossing was against the current low |
| Pivots.SupportIsVerifiedLow | app.py:58-69 | the support equals min(C[2..k]) at the latest verifying k, and is NaN if none exists |
| Pivots.SupportStaysDefined | app.py:66-69 | once defined the support stays defined and never rises |
| Pivots.SupportBounds | app.py:58-69 | a defined support is a score that occurred, at most C[2] and at least the running minimum |
| Pivots.HighsMirrorLows | app.py:71-81 | the high side on the score is the low side on its negation |
| Pivots.ResistanceMirrorsSupport | app.py:71-81 | the resistance is minus the support of the negated score |
| Pivots.ResistanceStaysDefined | app.py:78-81 | once defined the resistance stays defined and never falls |
| Pivots.ResistanceBounds | app.py:71-81 | a defined resistance is a score that occurred, and at least C[2] |
| Pivots.SupportBelowResistance | app.py:58-81 | when both are defined, support <= resistance |
| Table.Assemble | app.py:103-106 | every column of the table has one cell per round, and its result column is the history |
| Table.FrameOf | app.py:200-273 | the table update_result builds for a history is shaped and its result column is that history |
| Table.BuildFrame | app.py:200-273 | the first loop, data_processing and the slope columns produce exactly `FrameOf(h)` |
| Table.PropsAreShares | app.py:247-264 | proportion_3 and proportion_4 of every row lie in [0,1] |
| Table.ShareSeries | app.py:247-264 | the proportion_3 and proportion_4 columns are series of shares |
| Table.FrameSlopes | app.py:269-273 | the 2-round slopes lie in [-1/2, 1/2] and the 5-round slopes in [-1/5, 1/5] |
| Table.ShareSlopes | app.py:269-273 | the same bounds for any series of shares |
| Table.FrameLevels | app.py:83-84 | in every row where both levels are defined, support <= resistance |
| Strategy.Profit | app.py:134-145 | profit rises iff the bet won (by 0.95 on Banker, 1 on Player), falls by 1 iff it lost, and is unchanged iff No Bet or a Tie |
| Strategy.BetSize | app.py:349-356 | the stake after k consecutive wins is base * 2.2^min(k,3) |
| Strategy.BounceEntryAsWritten | app.py:287-303 | the bounce entry the loop runs: it activates iff already active or, from row 20 with none active, the Player bounce signal holds; it bets Player exactly then and never bets Banker |
| Strategy.BounceEntry | app.py:287-303 | the entry as intended: the bounce activates iff already active or, from row 20 on, a Player or Banker bounce signal holds; bets Player iff the Player signal fired, Banker iff only the Banker one did |
| Strategy.Continue | app.py:305-310 | an active strategy repeats a previous Player/Banker bet, otherwise the bet stands |
| Strategy.SlopeEntry | app.py:316-334 | a slope bet starts only from row 20 with no slope active and activates it; Player iff the resistance slopes and Cross Resistance hold; Banker iff the resistance slopes do not hold, the support slopes and Cross Support do |
| Strategy.PlanFor | app.py:285-341 | with the bounce entry as written: a bet comes only from an active strategy, flags never switch off here, and before row 20 from idle nothing is planned |
| Strategy.ChooseBet | app.py:285-341 | the bounce and slope block computes exactly `PlanFor` |
| Strategy.Settle | app.py:344-395 | an unsettled bet leaves the purse; a win climbs the ladder (0.95 on Banker); a loss deducts next_bet_size |
| Strategy.SettleBet | app.py:344-395 | the settlement block computes exactly `Settle` |
| Strategy.SettleIsProfitTimesWager | app.py:344-395 | settlement moves B by calculate_profit's unit result times the wager, and wins_total by its sign |
| Strategy.BounceStops | app.py:396-403 | the two bounce stop tests halt (bounce off, base stake) exactly when, with Python's precedence, an active bounce's RSI turns against its Player or Banker bet, the score is at or above the resistance or at or below the support, or a threshold is reached; otherwise nothing changes |
| Strategy.SlopeStop | app.py:406-415 | the slope strategy ends iff the RSI turns against the bet or a threshold is reached, and then the bet is No Bet |
| Strategy.Stops | app.py:396-415 | stops touch only next_bet_size, flags only switch off, a slope deactivation records No Bet, and after a reached threshold both strategies are off at base stake |
| Strategy.StopBets | app.py:396-415 | the stopping block computes exactly `Stops` |
| Strategy.Decisions | app.py:418-420 | next_rd_decision has one cell per row |
| Strategy.DecisionsRecorded | app.py:418-420 | cell i of next_rd_decision is the decision the loop holds after row i |
| Strategy.Iteration | app.py:277-420 | one pass of the loop body computes exactly `Step` |
| Strategy.ApplyStrategies | app.py:277-420 | the betting loop yields the decision column and the final B of the step model |
| Strategy.StepProperties | app.py:344-415 | per row: no settled bet leaves streaks and B unchanged; a win credits the ladder stake (x0.95 on Banker), resets the loss streak, adds 1 to wins_total; a loss debits next_bet_size, zeroes the win streak, subtracts 1, resets the stake; decisions come from active strategies; a slope deactivation records No Bet |
| Strategy.StepSettles | app.py:344-403 | a row's purse is the settled purse, with next_bet_size possibly reset to the base |
| Strategy.StepLedger | app.py:344-395 | a row moves B by what the settled bet earned and wins_total by its sign |
| Strategy.LedgerBankroll | app.py:358-390 | after n rows B is 5000 plus the sum of the per-row earnings |
| Strategy.LedgerWins | app.py:347-393 | wins_total is the number of won bets minus the number of lost bets |
| Strategy.SettleKeepsLadder | app.py:349-399 | settling and the stake reset keep the ladder invariant |
| Strategy.RunOnLadder | app.py:344-403 | after every row no win and loss streak coexist, and next_bet_size is the base or one ladder step up |
| Strategy.LadderBounds | app.py:349-359 | bet sizes lie in [50, 50 * 2.2^3], and next_bet_size in [50, 50 * 2.2^4] |
| Strategy.StepIdle | app.py:288-328 | before row 20 a row leaves the idle state idle |
| Strategy.WarmUpIdle | app.py:288-328 | up to row 20 the loop stays in its initial state |
| Strategy.NoBetsBeforeWarmUp | app.py:288-328 | the first 20 decisions are No Bet, and B is 5000 for histories of at most 20 rounds |
| Strategy.BankerBounceUnreachable | app.py:287-303 | as written the bounce entry never bets Banker; it is the intended entry with the Banker branch removed |
| Counterexample.EarlyRows | app.py:201-264 | on the history, the first loop's rows 0 .. 10 and its running variables before row 11 |
| Counterexample.LateRows | app.py:201-264 | on the history, the first loop's rows 11 .. 20 |
| Counterexample.Resistance | app.py:71-81 | on that score column the resistance at row 20 is -1 |
| Counterexample.RsiAtRow19 | app.py:93-104 | on the history, rsi_p3 <= rsi_p4 at row 19 (74100/1567 against 475/6) |
| Counterexample.SlopesAtRow20 | app.py:89-90 | on the history, slope_p3_5 > 0, slope_p4_5 < 0 and slope_p3 < 0 at row 20 |
| Counterexample.Signals | app.py:288-330 | on the history, at row 20 the Banker bounce signal holds, and the Player bounce signal and both slope-entry conditions do not |
| Counterexample.RecordsNoBet | app.py:285-420 | on the history the loop records No Bet at row 20 |
| Counterexample.BankerBounceWitness | app.py:287-303 | on the history the loop is idle at row 20; the intended entry bets Banker there, the entry as written and the loop bet nothing |
| Session.Counted | app.py:158 | cumulative_wins has the keys Player, Banker and Tie, each with that side's number of wins |
| Session.CountedStep | app.py:158 | entering a result adds one to its count and leaves the others |
| Session.SheetOf | app.py:155-420 | df_game for a history has that history as its result column and one decision per row |
| Session.Replay | app.py:161-424 | the body of update_result yields exactly `SheetOf(h)` and the final B of the betting loop over it |
| Session.StateOf | app.py:115-435 | the session after history h holds h in df_game, the round number one past the number of results, and the win counts of h |
| Session.StateAfter | app.py:147-435 | the state after one more result is the rebuilt table, the counts with the winner bumped, the next round, the last proportions and B |
| Session.Rebuild | app.py:147-435 | update_result's computation yields `StateOf(h + [w])`, with the winner's count bumped |
| Session.Game.constructor | app.py:115-128 | the initial session is the state of the empty history, with zero counts |
| Session.Game.Reset | app.py:455-460 | Reset Game returns to the state of the empty history, whatever was entered |
| Session.Game.Store | app.py:425-435 | the five session fields are written at once |
| Session.Game.UpdateResult | app.py:147-435 | appends the winner to the history, bumps its count and the round number, and re-establishes that the session is the state of its history |
| Session.SessionLedger | app.py:424-426 | the stored profit is 5000 plus what the settled bets earned, and wins_total is their net count |
| Session.SessionScore | app.py:203-217 | Player wins minus Banker wins equals the last row's cumulative score |
| Session.SessionProportions | app.py:428-433 | the stored proportions are the last row's, and proportion_3 and proportion_4 lie in [0,1] |
| Session.SessionWarmUp | app.py:288-328 | the first 20 next_rd_decision cells of the stored table are No Bet |

## Left out

- The Streamlit UI is not modelled: CSS, the game selector, buttons, tables, summary text and messages (app.py:8-30, 111-112, 437-479). It is presentation.
- A session is one `Game` object. The per-game `st.session_state` keys are not modelled; they are storage plumbing.
- `initial_bankroll` (app.py:130-131) is not modelled, because nothing reads it.
- NaN cells that pandas leaves in new rows are modelled as 0: P1..P4 of a non-tie row while `non_tie_rounds <= 1`, and `new_column` of rows with no class (app.py:155, 183). Those cells feed the RSI, the slope columns of rows k, k+2 and k+5, and the session's stored proportions when the last round is the first non-tie round after ties, so a table with such a NaN row can differ from the source in those places.
- The `profit` column, written only on the last row (app.py:424), is not modelled. The session's `profit` holds the same B.
- Unused code is not modelled: the top-level `calculate_rsi` (app.py:33-41), which the inner one shadows; the `profit` read (app.py:169); and `slope_offset`, `rsi_max`, `slope_2_offset` (app.py:174, 179).
- IEEE-754 floating point (rounding, `inf` beyond the RSI = 100 case) is replaced by exact reals.
- `calculate_profit` is never called by the source. `Strategy.SettleIsProfitTimesWager` ties it to the settlement that is.
- Session.Game.UpdateResult: requires `Tallied()`, meaning the counts and round number agree with the history. The source does not check this; the constructor and both methods establish it.

## Findings

| source | as written | input that shows it | evidently intended | confidence | as-written member | corrected member |
|---|---|---|---|---|---|---|
| app.py:297 | the Banker bounce is an `elif` whose guard is the same as the `if` at app.py:288, so it runs only when that guard is false, and then its own guard is false too | the 21 results `BPBBBBPBPBBPPPPBBBPBP`, at row 20: score -3 with resistance -1, rsi_p3 <= rsi_p4 on row 19, slope_p3_5 > 0, slope_p4_5 < 0; the loop records No Bet | try the Banker bounce when the Player bounce does not fire, as its comment says | high; not executed | Counterexample.BankerBounceWitness | Strategy.BounceEntry |

The engine runs the code as written. `Strategy.BankerBounceUnreachable` shows the dead branch in general
and `Counterexample.BankerBounceWitness` on a history: both name the intended entry `Strategy.BounceEntry` and state how it differs from the one the engine runs.
