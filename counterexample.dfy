/**
 * A concrete history on which the bounce entry as written and the intended one part ways.
 * For the 21 results below, row 20 (the first row a strategy may start on) meets every
 * condition of the Banker bounce: the score -3 is 2 below the resistance -1, rsi_p3 <= rsi_p4
 * at row 19, slope_p3_5 > 0 and slope_p4_5 < 0. The loop as written records No Bet there;
 * the intended entry bets Banker. Every value is derived from the history through `FrameOf`.
 */
module Counterexample {
  import opened Rounds
  import opened Tracker
  import opened Oscillator
  import opened Pivots
  import opened Table
  import opened Strategy

  /** h is the 21 results of `History`, spelled out round by round. */
  ghost predicate Spelled(h: seq<Result>) {
    && |h| == 21
    && h[0] == Banker && h[1] == Player && h[2] == Banker && h[3] == Banker
    && h[4] == Banker && h[5] == Banker && h[6] == Player && h[7] == Banker
    && h[8] == Player && h[9] == Banker && h[10] == Banker && h[11] == Player
    && h[12] == Player && h[13] == Player && h[14] == Player && h[15] == Banker
    && h[16] == Banker && h[17] == Banker && h[18] == Player && h[19] == Banker
    && h[20] == Player
  }

  const History: seq<Result> := [Banker, Player, Banker, Banker, Banker, Banker, Player, Banker, Player, Banker, Banker, Player, Player, Player, Player, Banker, Banker, Banker, Player, Banker, Player]

  /** One iteration of the first loop, taken from known running variables. */
  lemma {:induction false} Next(h: seq<Result>, k: nat, t: Tally, t': Tally)
    requires k < |h| && TallyTo(h, k) == t && Advance(t, h[k]) == t'
    ensures TallyTo(h, k + 1) == t'
    ensures RowAt(h, k) == RowFor(t, h[k])
  {
  }

  /** Rows 0 .. 10 of the first loop. */
  lemma {:induction false} EarlyRows(h: seq<Result>)
    requires Spelled(h)
    ensures TallyTo(h, 11) == Tally(-5, Some(Banker), 11, Counts(3, 3, 4, 0), Quad((3.0 / 10.0), (3.0 / 10.0), (2.0 / 5.0), 0.0))
    ensures RowAt(h, 0) == Row(-1, 0, Quad(0.0, 0.0, 0.0, 0.0))
    ensures RowAt(h, 1) == Row(0, 1, Quad(1.0, 0.0, 0.0, 0.0))
    ensures RowAt(h, 2) == Row(-1, 2, Quad((1.0 / 2.0), (1.0 / 2.0), 0.0, 0.0))
    ensures RowAt(h, 3) == Row(-2, 3, Quad((1.0 / 3.0), (1.0 / 3.0), (1.0 / 3.0), 0.0))
    ensures RowAt(h, 4) == Row(-3, 3, Quad((1.0 / 4.0), (1.0 / 4.0), (1.0 / 2.0), 0.0))
    ensures RowAt(h, 5) == Row(-4, 3, Quad((1.0 / 5.0), (1.0 / 5.0), (3.0 / 5.0), 0.0))
    ensures RowAt(h, 6) == Row(-3, 1, Quad((1.0 / 3.0), (1.0 / 6.0), (1.0 / 2.0), 0.0))
    ensures RowAt(h, 7) == Row(-4, 2, Quad((2.0 / 7.0), (2.0 / 7.0), (3.0 / 7.0), 0.0))
    ensures RowAt(h, 8) == Row(-3, 1, Quad((3.0 / 8.0), (1.0 / 4.0), (3.0 / 8.0), 0.0))
    ensures RowAt(h, 9) == Row(-4, 2, Quad((1.0 / 3.0), (1.0 / 3.0), (1.0 / 3.0), 0.0))
    ensures RowAt(h, 10) == Row(-5, 3, Quad((3.0 / 10.0), (3.0 / 10.0), (2.0 / 5.0), 0.0))
  {
    Next(h, 0, Tally(0, None, 0, Counts(0, 0, 0, 0), Quad(0.0, 0.0, 0.0, 0.0)), Tally(-1, Some(Banker), 1, Counts(0, 0, 0, 0), Quad(0.0, 0.0, 0.0, 0.0)));
    Next(h, 1, Tally(-1, Some(Banker), 1, Counts(0, 0, 0, 0), Quad(0.0, 0.0, 0.0, 0.0)), Tally(0, Some(Player), 2, Counts(1, 0, 0, 0), Quad(1.0, 0.0, 0.0, 0.0)));
    Next(h, 2, Tally(0, Some(Player), 2, Counts(1, 0, 0, 0), Quad(1.0, 0.0, 0.0, 0.0)), Tally(-1, Some(Banker), 3, Counts(1, 1, 0, 0), Quad((1.0 / 2.0), (1.0 / 2.0), 0.0, 0.0)));
    Next(h, 3, Tally(-1, Some(Banker), 3, Counts(1, 1, 0, 0), Quad((1.0 / 2.0), (1.0 / 2.0), 0.0, 0.0)), Tally(-2, Some(Banker), 4, Counts(1, 1, 1, 0), Quad((1.0 / 3.0), (1.0 / 3.0), (1.0 / 3.0), 0.0)));
    Next(h, 4, Tally(-2, Some(Banker), 4, Counts(1, 1, 1, 0), Quad((1.0 / 3.0), (1.0 / 3.0), (1.0 / 3.0), 0.0)), Tally(-3, Some(Banker), 5, Counts(1, 1, 2, 0), Quad((1.0 / 4.0), (1.0 / 4.0), (1.0 / 2.0), 0.0)));
    Next(h, 5, Tally(-3, Some(Banker), 5, Counts(1, 1, 2, 0), Quad((1.0 / 4.0), (1.0 / 4.0), (1.0 / 2.0), 0.0)), Tally(-4, Some(Banker), 6, Counts(1, 1, 3, 0), Quad((1.0 / 5.0), (1.0 / 5.0), (3.0 / 5.0), 0.0)));
    Next(h, 6, Tally(-4, Some(Banker), 6, Counts(1, 1, 3, 0), Quad((1.0 / 5.0), (1.0 / 5.0), (3.0 / 5.0), 0.0)), Tally(-3, Some(Player), 7, Counts(2, 1, 3, 0), Quad((1.0 / 3.0), (1.0 / 6.0), (1.0 / 2.0), 0.0)));
    Next(h, 7, Tally(-3, Some(Player), 7, Counts(2, 1, 3, 0), Quad((1.0 / 3.0), (1.0 / 6.0), (1.0 / 2.0), 0.0)), Tally(-4, Some(Banker), 8, Counts(2, 2, 3, 0), Quad((2.0 / 7.0), (2.0 / 7.0), (3.0 / 7.0), 0.0)));
    Next(h, 8, Tally(-4, Some(Banker), 8, Counts(2, 2, 3, 0), Quad((2.0 / 7.0), (2.0 / 7.0), (3.0 / 7.0), 0.0)), Tally(-3, Some(Player), 9, Counts(3, 2, 3, 0), Quad((3.0 / 8.0), (1.0 / 4.0), (3.0 / 8.0), 0.0)));
    Next(h, 9, Tally(-3, Some(Player), 9, Counts(3, 2, 3, 0), Quad((3.0 / 8.0), (1.0 / 4.0), (3.0 / 8.0), 0.0)), Tally(-4, Some(Banker), 10, Counts(3, 3, 3, 0), Quad((1.0 / 3.0), (1.0 / 3.0), (1.0 / 3.0), 0.0)));
    Next(h, 10, Tally(-4, Some(Banker), 10, Counts(3, 3, 3, 0), Quad((1.0 / 3.0), (1.0 / 3.0), (1.0 / 3.0), 0.0)), Tally(-5, Some(Banker), 11, Counts(3, 3, 4, 0), Quad((3.0 / 10.0), (3.0 / 10.0), (2.0 / 5.0), 0.0)));
  }

  /** Rows 11 .. 20 of the first loop. */
  lemma {:induction false} LateRows(h: seq<Result>)
    requires Spelled(h)
    ensures RowAt(h, 11) == Row(-4, 1, Quad((4.0 / 11.0), (3.0 / 11.0), (4.0 / 11.0), 0.0))
    ensures RowAt(h, 12) == Row(-3, 4, Quad((1.0 / 3.0), (1.0 / 4.0), (1.0 / 3.0), (1.0 / 12.0)))
    ensures RowAt(h, 13) == Row(-2, 4, Quad((4.0 / 13.0), (3.0 / 13.0), (4.0 / 13.0), (2.0 / 13.0)))
    ensures RowAt(h, 14) == Row(-1, 4, Quad((2.0 / 7.0), (3.0 / 14.0), (2.0 / 7.0), (3.0 / 14.0)))
    ensures RowAt(h, 15) == Row(-2, 2, Quad((4.0 / 15.0), (4.0 / 15.0), (4.0 / 15.0), (1.0 / 5.0)))
    ensures RowAt(h, 16) == Row(-3, 3, Quad((1.0 / 4.0), (1.0 / 4.0), (5.0 / 16.0), (3.0 / 16.0)))
    ensures RowAt(h, 17) == Row(-4, 3, Quad((4.0 / 17.0), (4.0 / 17.0), (6.0 / 17.0), (3.0 / 17.0)))
    ensures RowAt(h, 18) == Row(-3, 1, Quad((5.0 / 18.0), (2.0 / 9.0), (1.0 / 3.0), (1.0 / 6.0)))
    ensures RowAt(h, 19) == Row(-4, 2, Quad((5.0 / 19.0), (5.0 / 19.0), (6.0 / 19.0), (3.0 / 19.0)))
    ensures RowAt(h, 20) == Row(-3, 1, Quad((3.0 / 10.0), (1.0 / 4.0), (3.0 / 10.0), (3.0 / 20.0)))
  {
    EarlyRows(h);
    Next(h, 11, Tally(-5, Some(Banker), 11, Counts(3, 3, 4, 0), Quad((3.0 / 10.0), (3.0 / 10.0), (2.0 / 5.0), 0.0)), Tally(-4, Some(Player), 12, Counts(4, 3, 4, 0), Quad((4.0 / 11.0), (3.0 / 11.0), (4.0 / 11.0), 0.0)));
    Next(h, 12, Tally(-4, Some(Player), 12, Counts(4, 3, 4, 0), Quad((4.0 / 11.0), (3.0 / 11.0), (4.0 / 11.0), 0.0)), Tally(-3, Some(Player), 13, Counts(4, 3, 4, 1), Quad((1.0 / 3.0), (1.0 / 4.0), (1.0 / 3.0), (1.0 / 12.0))));
    Next(h, 13, Tally(-3, Some(Player), 13, Counts(4, 3, 4, 1), Quad((1.0 / 3.0), (1.0 / 4.0), (1.0 / 3.0), (1.0 / 12.0))), Tally(-2, Some(Player), 14, Counts(4, 3, 4, 2), Quad((4.0 / 13.0), (3.0 / 13.0), (4.0 / 13.0), (2.0 / 13.0))));
    Next(h, 14, Tally(-2, Some(Player), 14, Counts(4, 3, 4, 2), Quad((4.0 / 13.0), (3.0 / 13.0), (4.0 / 13.0), (2.0 / 13.0))), Tally(-1, Some(Player), 15, Counts(4, 3, 4, 3), Quad((2.0 / 7.0), (3.0 / 14.0), (2.0 / 7.0), (3.0 / 14.0))));
    Next(h, 15, Tally(-1, Some(Player), 15, Counts(4, 3, 4, 3), Quad((2.0 / 7.0), (3.0 / 14.0), (2.0 / 7.0), (3.0 / 14.0))), Tally(-2, Some(Banker), 16, Counts(4, 4, 4, 3), Quad((4.0 / 15.0), (4.0 / 15.0), (4.0 / 15.0), (1.0 / 5.0))));
    Next(h, 16, Tally(-2, Some(Banker), 16, Counts(4, 4, 4, 3), Quad((4.0 / 15.0), (4.0 / 15.0), (4.0 / 15.0), (1.0 / 5.0))), Tally(-3, Some(Banker), 17, Counts(4, 4, 5, 3), Quad((1.0 / 4.0), (1.0 / 4.0), (5.0 / 16.0), (3.0 / 16.0))));
    Next(h, 17, Tally(-3, Some(Banker), 17, Counts(4, 4, 5, 3), Quad((1.0 / 4.0), (1.0 / 4.0), (5.0 / 16.0), (3.0 / 16.0))), Tally(-4, Some(Banker), 18, Counts(4, 4, 6, 3), Quad((4.0 / 17.0), (4.0 / 17.0), (6.0 / 17.0), (3.0 / 17.0))));
    Next(h, 18, Tally(-4, Some(Banker), 18, Counts(4, 4, 6, 3), Quad((4.0 / 17.0), (4.0 / 17.0), (6.0 / 17.0), (3.0 / 17.0))), Tally(-3, Some(Player), 19, Counts(5, 4, 6, 3), Quad((5.0 / 18.0), (2.0 / 9.0), (1.0 / 3.0), (1.0 / 6.0))));
    Next(h, 19, Tally(-3, Some(Player), 19, Counts(5, 4, 6, 3), Quad((5.0 / 18.0), (2.0 / 9.0), (1.0 / 3.0), (1.0 / 6.0))), Tally(-4, Some(Banker), 20, Counts(5, 5, 6, 3), Quad((5.0 / 19.0), (5.0 / 19.0), (6.0 / 19.0), (3.0 / 19.0))));
    Next(h, 20, Tally(-4, Some(Banker), 20, Counts(5, 5, 6, 3), Quad((5.0 / 19.0), (5.0 / 19.0), (6.0 / 19.0), (3.0 / 19.0))), Tally(-3, Some(Player), 21, Counts(6, 5, 6, 3), Quad((3.0 / 10.0), (1.0 / 4.0), (3.0 / 10.0), (3.0 / 20.0))));
  }

  /** The score column. */
  lemma {:induction false} ScoreColumn(h: seq<Result>)
    requires Spelled(h)
    ensures var c := Scores(Rows(h)); |c| == 21 && c[0] == -1 && c[1] == 0 && c[2] == -1 && c[3] == -2 && c[4] == -3 && c[5] == -4 && c[6] == -3 && c[7] == -4 && c[8] == -3 && c[9] == -4 && c[10] == -5 && c[11] == -4 && c[12] == -3 && c[13] == -2 && c[14] == -1 && c[15] == -2 && c[16] == -3 && c[17] == -4 && c[18] == -3 && c[19] == -4 && c[20] == -3
  {
    EarlyRows(h);
    LateRows(h);
  }

  /** proportion_3 from row 9 on. */
  lemma {:induction false} P3Column(h: seq<Result>)
    requires Spelled(h)
    ensures var s := P3(Rows(h)); |s| == 21 && s[9] == (1.0 / 3.0) && s[10] == (2.0 / 5.0) && s[11] == (4.0 / 11.0) && s[12] == (1.0 / 3.0) && s[13] == (4.0 / 13.0) && s[14] == (2.0 / 7.0) && s[15] == (4.0 / 15.0) && s[16] == (5.0 / 16.0) && s[17] == (6.0 / 17.0) && s[18] == (1.0 / 3.0) && s[19] == (6.0 / 19.0) && s[20] == (3.0 / 10.0)
  {
    EarlyRows(h);
    LateRows(h);
  }

  /** proportion_4 from row 9 on. */
  lemma {:induction false} P4Column(h: seq<Result>)
    requires Spelled(h)
    ensures var s := P4(Rows(h)); |s| == 21 && s[9] == 0.0 && s[10] == 0.0 && s[11] == 0.0 && s[12] == (1.0 / 12.0) && s[13] == (2.0 / 13.0) && s[14] == (3.0 / 14.0) && s[15] == (1.0 / 5.0) && s[16] == (3.0 / 16.0) && s[17] == (3.0 / 17.0) && s[18] == (1.0 / 6.0) && s[19] == (3.0 / 19.0) && s[20] == (3.0 / 20.0)
  {
    EarlyRows(h);
    LateRows(h);
  }

  /** One iteration of the high side of the support/resistance loop, from a known state. */
  lemma {:induction false} HighNext(c: seq<int>, k: nat, p: Pivot, p': Pivot)
    requires 2 <= k < |c| && HighsTo(c, k) == p && HighStep(p, c[k]) == p'
    ensures HighsTo(c, k + 1) == p'
  {
  }

  /** The resistance at row 20 is -1: the high -1 of row 3, verified at row 4. */
  lemma {:induction false} Resistance(c: seq<int>)
    requires |c| == 21 && c[0] == -1 && c[1] == 0 && c[2] == -1 && c[3] == -2 && c[4] == -3 && c[5] == -4 && c[6] == -3 && c[7] == -4 && c[8] == -3 && c[9] == -4 && c[10] == -5 && c[11] == -4 && c[12] == -3 && c[13] == -2 && c[14] == -1 && c[15] == -2 && c[16] == -3 && c[17] == -4 && c[18] == -3 && c[19] == -4 && c[20] == -3
    ensures ResistanceAt(c, 20) == Some(-1)
  {
    HighNext(c, 2, Pivot(None, false, None), Pivot(Some(-1), false, None));
    HighNext(c, 3, Pivot(Some(-1), false, None), Pivot(Some(-1), true, Some(-1)));
    HighNext(c, 4, Pivot(Some(-1), true, Some(-1)), Pivot(Some(-1), true, Some(-1)));
    HighNext(c, 5, Pivot(Some(-1), true, Some(-1)), Pivot(Some(-1), true, Some(-1)));
    HighNext(c, 6, Pivot(Some(-1), true, Some(-1)), Pivot(Some(-1), true, Some(-1)));
    HighNext(c, 7, Pivot(Some(-1), true, Some(-1)), Pivot(Some(-1), true, Some(-1)));
    HighNext(c, 8, Pivot(Some(-1), true, Some(-1)), Pivot(Some(-1), true, Some(-1)));
    HighNext(c, 9, Pivot(Some(-1), true, Some(-1)), Pivot(Some(-1), true, Some(-1)));
    HighNext(c, 10, Pivot(Some(-1), true, Some(-1)), Pivot(Some(-1), true, Some(-1)));
    HighNext(c, 11, Pivot(Some(-1), true, Some(-1)), Pivot(Some(-1), true, Some(-1)));
    HighNext(c, 12, Pivot(Some(-1), true, Some(-1)), Pivot(Some(-1), true, Some(-1)));
    HighNext(c, 13, Pivot(Some(-1), true, Some(-1)), Pivot(Some(-1), true, Some(-1)));
    HighNext(c, 14, Pivot(Some(-1), true, Some(-1)), Pivot(Some(-1), true, Some(-1)));
    HighNext(c, 15, Pivot(Some(-1), true, Some(-1)), Pivot(Some(-1), true, Some(-1)));
    HighNext(c, 16, Pivot(Some(-1), true, Some(-1)), Pivot(Some(-1), true, Some(-1)));
    HighNext(c, 17, Pivot(Some(-1), true, Some(-1)), Pivot(Some(-1), true, Some(-1)));
    HighNext(c, 18, Pivot(Some(-1), true, Some(-1)), Pivot(Some(-1), true, Some(-1)));
    HighNext(c, 19, Pivot(Some(-1), true, Some(-1)), Pivot(Some(-1), true, Some(-1)));
    HighNext(c, 20, Pivot(Some(-1), true, Some(-1)), Pivot(Some(-1), true, Some(-1)));
  }

  /** The gains and losses of proportion_3 over the ten deltas ending at row 19. */
  lemma {:induction false} WindowP3(s: seq<real>)
    requires |s| == 21 && s[9] == (1.0 / 3.0) && s[10] == (2.0 / 5.0) && s[11] == (4.0 / 11.0) && s[12] == (1.0 / 3.0) && s[13] == (4.0 / 13.0) && s[14] == (2.0 / 7.0) && s[15] == (4.0 / 15.0) && s[16] == (5.0 / 16.0) && s[17] == (6.0 / 17.0) && s[18] == (1.0 / 3.0) && s[19] == (6.0 / 19.0)
    ensures SumGain(s, 19, 10) == (13.0 / 85.0) && SumLoss(s, 19, 10) == (826.0 / 4845.0)
  {
    assert SumGain(s, 19, 1) == 0.0 && SumLoss(s, 19, 1) == (1.0 / 57.0);
    assert SumGain(s, 19, 2) == 0.0 && SumLoss(s, 19, 2) == (12.0 / 323.0);
    assert SumGain(s, 19, 3) == (11.0 / 272.0) && SumLoss(s, 19, 3) == (12.0 / 323.0);
    assert SumGain(s, 19, 4) == (22.0 / 255.0) && SumLoss(s, 19, 4) == (12.0 / 323.0);
    assert SumGain(s, 19, 5) == (22.0 / 255.0) && SumLoss(s, 19, 5) == (1906.0 / 33915.0);
    assert SumGain(s, 19, 6) == (22.0 / 255.0) && SumLoss(s, 19, 6) == (4924.0 / 62985.0);
    assert SumGain(s, 19, 7) == (22.0 / 255.0) && SumLoss(s, 19, 7) == (503.0 / 4845.0);
    assert SumGain(s, 19, 8) == (22.0 / 255.0) && SumLoss(s, 19, 8) == (7148.0 / 53295.0);
    assert SumGain(s, 19, 9) == (22.0 / 255.0) && SumLoss(s, 19, 9) == (826.0 / 4845.0);
    assert SumGain(s, 19, 10) == (13.0 / 85.0) && SumLoss(s, 19, 10) == (826.0 / 4845.0);
  }

  /** The gains and losses of proportion_4 over the ten deltas ending at row 19. */
  lemma {:induction false} WindowP4(s: seq<real>)
    requires |s| == 21 && s[9] == 0.0 && s[10] == 0.0 && s[11] == 0.0 && s[12] == (1.0 / 12.0) && s[13] == (2.0 / 13.0) && s[14] == (3.0 / 14.0) && s[15] == (1.0 / 5.0) && s[16] == (3.0 / 16.0) && s[17] == (3.0 / 17.0) && s[18] == (1.0 / 6.0) && s[19] == (3.0 / 19.0)
    ensures SumGain(s, 19, 10) == (3.0 / 14.0) && SumLoss(s, 19, 10) == (15.0 / 266.0)
  {
    assert SumGain(s, 19, 1) == 0.0 && SumLoss(s, 19, 1) == (1.0 / 114.0);
    assert SumGain(s, 19, 2) == 0.0 && SumLoss(s, 19, 2) == (6.0 / 323.0);
    assert SumGain(s, 19, 3) == 0.0 && SumLoss(s, 19, 3) == (9.0 / 304.0);
    assert SumGain(s, 19, 4) == 0.0 && SumLoss(s, 19, 4) == (4.0 / 95.0);
    assert SumGain(s, 19, 5) == 0.0 && SumLoss(s, 19, 5) == (15.0 / 266.0);
    assert SumGain(s, 19, 6) == (11.0 / 182.0) && SumLoss(s, 19, 6) == (15.0 / 266.0);
    assert SumGain(s, 19, 7) == (11.0 / 84.0) && SumLoss(s, 19, 7) == (15.0 / 266.0);
    assert SumGain(s, 19, 8) == (3.0 / 14.0) && SumLoss(s, 19, 8) == (15.0 / 266.0);
    assert SumGain(s, 19, 9) == (3.0 / 14.0) && SumLoss(s, 19, 9) == (15.0 / 266.0);
    assert SumGain(s, 19, 10) == (3.0 / 14.0) && SumLoss(s, 19, 10) == (15.0 / 266.0);
  }

  /** rsi_p3 <= rsi_p4 at row 19: about 47.3 against 79.2. */
  lemma {:induction false} RsiAtRow19(h: seq<Result>)
    requires Spelled(h)
    ensures var f := FrameOf(h); Le(f.rsiP3[19], f.rsiP4[19])
  {
    var rows := Rows(h);
    var s3, s4 := P3(rows), P4(rows);
    assert SumGain(s3, 19, 10) == (13.0 / 85.0) && SumLoss(s3, 19, 10) == (826.0 / 4845.0) by {
      P3Column(h);
      WindowP3(s3);
    }
    assert SumGain(s4, 19, 10) == (3.0 / 14.0) && SumLoss(s4, 19, 10) == (15.0 / 266.0) by {
      P4Column(h);
      WindowP4(s4);
    }
    assert RsiAt(s3, 19, RsiWindow) == Some(74100.0 / 1567.0);
    assert RsiAt(s4, 19, RsiWindow) == Some(475.0 / 6.0);
  }

  /** The slopes at row 20: p3 up over five rounds and down over two, p4 down over five. */
  lemma {:induction false} SlopesAtRow20(h: seq<Result>)
    requires Spelled(h)
    ensures var f := FrameOf(h);
      && Positive(f.slopeP3x5[20]) && Negative(f.slopeP4x5[20]) && Negative(f.slopeP3[20])
  {
    var rows := Rows(h);
    var s3, s4 := P3(rows), P4(rows);
    P3Column(h);
    P4Column(h);
    assert SlopeAt(s3, 20, LongOffset).value > 0.0;
    assert SlopeAt(s4, 20, LongOffset).value < 0.0;
    assert SlopeAt(s3, 20, ShortOffset).value < 0.0;
  }

  /** The score -3 and the resistance -1 at row 20. */
  lemma {:induction false} LevelsAtRow20(h: seq<Result>)
    requires Spelled(h)
    ensures var f := FrameOf(h); f.score[20] == -3 && f.resistance[20] == Some(-1)
  {
    var c := Scores(Rows(h));
    ScoreColumn(h);
    Resistance(c);
  }

  /** What the betting loop reads at row 20: the Banker bounce signal holds, the Player one and both slope entries do not. */
  lemma {:induction false} Signals(h: seq<Result>)
    requires Spelled(h)
    ensures var f := FrameOf(h);
      && BankerBounceSignal(f, 20) && !PlayerBounceSignal(f, 20)
      && !ResistanceSlopes(f, 20) && !SupportSlopes(f, 20)
  {
    RsiAtRow19(h);
    SlopesAtRow20(h);
    LevelsAtRow20(h);
  }

  /** At row 20 of a spelled history the loop is idle, and the two bounce entries part ways. */
  lemma {:induction false} Diverges(h: seq<Result>)
    requires Spelled(h)
    ensures var f := FrameOf(h);
      && Run(f, 20) == Initial
      && BounceEntry(f, 20, false) == Entry(BetBanker, true)
      && BounceEntryAsWritten(f, 20, false) == Entry(NoBet, false)
  {
    var f := FrameOf(h);
    Signals(h);
    WarmUpIdle(f, 20);
  }

  /** The decision recorded at row 20 is No Bet. */
  lemma {:induction false} RecordsNoBet(h: seq<Result>)
    requires Spelled(h)
    ensures Decisions(FrameOf(h))[20] == NoBet
  {
    var f := FrameOf(h);
    Diverges(h);
    assert SlopeEntry(f, 20, false).bet == NoBet by {
      Signals(h);
    }
    var p := PlanFor(f, 20, false, false, NoBet);
    assert p.bet == NoBet;
    assert Run(f, 21) == Stops(f, 20, Stake(p.bounce, p.slope, NoBet, Settle(NoBet, Initial.purse, h[20])));
    DecisionsRecorded(f, 21);
  }

  /** `History` is spelled out as `Spelled` says. */
  lemma {:induction false} HistorySpelled()
    ensures Spelled(History)
  {
  }

  /**
   * On the history (any h spelled as `History` is), the loop is idle when it reaches row 20;
   * the intended entry bets Banker there, while the entry as written, and so the loop, records No Bet.
   */
  lemma {:induction false} BankerBounceWitness(h: seq<Result>)
    requires Spelled(h)
    ensures var f := FrameOf(h);
      && Run(f, 20) == Initial
      && BounceEntry(f, 20, false) == Entry(BetBanker, true)
      && BounceEntryAsWritten(f, 20, false) == Entry(NoBet, false)
      && Decisions(f)[20] == NoBet
  {
    Diverges(h);
    RecordsNoBet(h);
  }
}
