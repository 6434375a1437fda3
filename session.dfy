/**
 * One game's session state and the two buttons that change it: a result button, which
 * calls update_result, and Reset Game. update_result rebuilds df_game and replays the
 * strategies from the full list of results, so every part of the session is a function
 * of the results entered since the last reset.
 */
module Session {
  import opened Rounds
  import opened Tracker
  import opened Table
  import opened Strategy

  /** The cumulative_wins dictionary for the results h. */
  function Counted(h: seq<Result>): (m: map<Result, nat>)
    ensures m.Keys == {Player, Banker, Tie}
    ensures m[Player] == multiset(h)[Player] && m[Banker] == multiset(h)[Banker] && m[Tie] == multiset(h)[Tie]
  {
    map[Player := multiset(h)[Player], Banker := multiset(h)[Banker], Tie := multiset(h)[Tie]]
  }

  /** Entering one more result adds one to that side's count and leaves the others alone. */
  lemma {:induction false} CountedStep(h: seq<Result>, w: Result)
    ensures w in Counted(h)
    ensures Counted(h + [w]) == Counted(h)[w := Counted(h)[w] + 1]
  {
    assert multiset(h + [w]) == multiset(h) + multiset{w};
  }

  /** df_game: the table and its next_rd_decision column. */
  datatype Sheet = Sheet(table: Frame, decisions: seq<Decision>)

  /** The df_game update_result leaves for the results h. */
  function SheetOf(h: seq<Result>): (d: Sheet)
    ensures d.table.result == h && |d.decisions| == |h|
  {
    var f := FrameOf(h);
    Sheet(f, Decisions(f))
  }

  /** B after the betting loop over the table f. */
  function Bankroll(f: Frame): real
    requires |f.result| > 0
  {
    Run(f, |f.result|).purse.bankroll
  }

  /** The body of update_result once the new row is appended: both loops and the indicators. */
  method Replay(h: seq<Result>) returns (sheet: Sheet, bankroll: real)
    requires h != []
    ensures sheet == SheetOf(h)
    ensures bankroll == Bankroll(sheet.table)
  {
    var f := BuildFrame(h);
    var d, b := ApplyStrategies(f);
    sheet, bankroll := Sheet(f, d), b;
  }

  /** What the session holds: df_game, cumulative_wins, round_num, proportions and profit. */
  datatype State = State(df: Sheet, wins: map<Result, nat>, roundNum: nat, proportions: Quad, profit: real)

  /**
   * The session after the results h have been entered one by one since the last reset:
   * the session initialisation for no results, otherwise what the last update_result stored.
   */
  function StateOf(h: seq<Result>): (s: State)
    ensures s.df.table.result == h && s.roundNum == |h| + 1 && s.wins == Counted(h)
  {
    if h == [] then State(SheetOf([]), Counted([]), 1, Zero, 0.0)
    else
      var df := SheetOf(h);
      State(df, Counted(h), |h| + 1, RowAt(h, |h| - 1).props, Bankroll(df.table))
  }

  /** The state update_result stores after the results h0 and then w. */
  lemma {:induction false} StateAfter(h0: seq<Result>, w: Result, sheet: Sheet, b: real)
    requires sheet == SheetOf(h0 + [w]) && b == Bankroll(sheet.table)
    ensures w in Counted(h0)
    ensures StateOf(h0 + [w])
            == State(sheet, Counted(h0)[w := Counted(h0)[w] + 1], |h0| + 2, RowAt(h0 + [w], |h0|).props, b)
  {
    CountedStep(h0, w);
  }

  /** The state update_result stores after the results h0 and then w. */
  method Rebuild(h0: seq<Result>, w: Result) returns (s: State)
    ensures s == StateOf(h0 + [w])
    ensures w in Counted(h0) && s.wins == Counted(h0)[w := Counted(h0)[w] + 1]
  {
    var h := h0 + [w];
    var sheet, b := Replay(h);
    StateAfter(h0, w, sheet, b);
    s := State(sheet, Counted(h0)[w := Counted(h0)[w] + 1], |h0| + 2, RowAt(h, |h0|).props, b);
  }

  class Game {
    /** df_game, whose result column is the history of the game. */
    var df: Sheet
    /** cumulative_wins: how many rounds each side has won. */
    var wins: map<Result, nat>
    /** round_num: the number of the next round. */
    var roundNum: nat
    /** proportions: the last row's four proportions. */
    var proportions: Quad
    /** profit: the bankroll B left by the last betting loop, 0 before any round. */
    var profit: real

    /** The results entered so far. */
    function History(): seq<Result>
      reads this
    {
      df.table.result
    }

    function Snapshot(): State
      reads this
    {
      State(df, wins, roundNum, proportions, profit)
    }

    /** Everything the session holds is determined by the results entered so far. */
    predicate Valid()
      reads this
    {
      Snapshot() == StateOf(History())
    }

    /** The part of Valid that update_result relies on: the counters agree with the history. */
    predicate Tallied()
      reads this
    {
      roundNum == |History()| + 1 && wins == Counted(History())
    }

    /** The session initialisation: no rounds, round 1, zero counts, proportions and profit. */
    constructor ()
      ensures Valid() && History() == []
      ensures wins == map[Player := 0, Banker := 0, Tie := 0]
    {
      df := SheetOf([]);
      wins := map[Player := 0, Banker := 0, Tie := 0];
      roundNum := 1;
      proportions := Zero;
      profit := 0.0;
    }

    /** Reset Game: back to the initial session, whatever was entered before. */
    method Reset()
      modifies this
      ensures Valid() && History() == []
      ensures wins == map[Player := 0, Banker := 0, Tie := 0]
    {
      df := SheetOf([]);
      wins := map[Player := 0, Banker := 0, Tie := 0];
      roundNum := 1;
      proportions := Zero;
      profit := 0.0;
    }

    /** Writes every session field at once. */
    method Store(s: State)
      modifies this
      ensures Snapshot() == s
    {
      df, wins, roundNum, proportions, profit := s.df, s.wins, s.roundNum, s.proportions, s.profit;
    }

    /**
     * update_result(winner): append the round, count it, rebuild the table, replay the
     * strategies over every row, and store B, the last proportions and the next round number.
     */
    method UpdateResult(winner: Result)
      requires Tallied()
      modifies this
      ensures Valid() && Tallied()
      ensures History() == old(History()) + [winner]
      ensures wins == old(wins)[winner := old(wins)[winner] + 1]
      ensures roundNum == old(roundNum) + 1
    {
      var s := Rebuild(df.table.result, winner);
      Store(s);
    }
  }

  /** profit is B: 5000 plus what the settled bets earned; wins_total is their net count. */
  lemma {:induction false} SessionLedger(h: seq<Result>)
    requires h != []
    ensures StateOf(h).profit == InitialBankroll + Earnings(FrameOf(h), |h|)
    ensures Run(FrameOf(h), |h|).purse.winsTotal == NetWins(FrameOf(h), |h|)
  {
    LedgerBankroll(FrameOf(h), |h|);
    LedgerWins(FrameOf(h), |h|);
  }

  /** The Player count minus the Banker count is the cumulative score of the last row. */
  lemma {:induction false} SessionScore(h: seq<Result>)
    requires h != []
    ensures StateOf(h).wins[Player] as int - StateOf(h).wins[Banker] as int == RowAt(h, |h| - 1).score
  {
    RowScore(h, |h| - 1);
    assert h[..|h| - 1 + 1] == h;
  }

  /** The proportions shown are those of the last row, and proportion_3 and proportion_4 are shares. */
  lemma {:induction false} SessionProportions(h: seq<Result>)
    requires h != []
    ensures StateOf(h).proportions == RowAt(h, |h| - 1).props
    ensures 0.0 <= StateOf(h).proportions.p3 <= 1.0 && 0.0 <= StateOf(h).proportions.p4 <= 1.0
  {
    PropsAreShares(h, |h| - 1);
  }

  /** No bet is advised for the first 20 rows. */
  lemma {:induction false} SessionWarmUp(h: seq<Result>)
    ensures forall i :: 0 <= i < |h| && i < WarmUp ==> StateOf(h).df.decisions[i] == NoBet
  {
    NoBetsBeforeWarmUp(FrameOf(h));
  }
}
