/**
 * The first pass of update_result: one walk over the result history that writes the
 * cumulative score, the transition class (the new_column cell) and the four class
 * proportions of every round.
 *
 * The pass is specified by a fold over the rounds: `Tally` holds the loop's running
 * variables, `Advance` is one loop iteration, `TallyTo(h, i)` the variables before round i
 * and `RowAt` the cells written for a round.
 */
module Tracker {
  import opened Rounds

  /** Contribution of one round to the cumulative score. */
  function Delta(r: Result): int {
    match r
    case Player => 1
    case Banker => -1
    case Tie => 0
  }

  /** The new_column value written for round `cur` after the non-tie round `prev`; 0 means nothing is written. */
  function ClassOf(prev: Result, cur: Result): (k: nat)
    ensures 1 <= k <= 4 <==> prev != Tie && cur != Tie
    ensures k == 0 <==> prev == Tie || cur == Tie
  {
    match (prev, cur)
    case (Banker, Player) => 1
    case (Player, Banker) => 2
    case (Player, Player) => 4
    case (Banker, Banker) => 3
    case _ => 0
  }

  /** count_1 .. count_4. */
  datatype Counts = Counts(c1: nat, c2: nat, c3: nat, c4: nat)

  /** A row's proportion_1 .. proportion_4. */
  datatype Quad = Quad(p1: real, p2: real, p3: real, p4: real)

  const Zero := Quad(0.0, 0.0, 0.0, 0.0)
  const NoCounts := Counts(0, 0, 0, 0)

  function Bump(c: Counts, k: nat): Counts {
    if k == 1 then c.(c1 := c.c1 + 1)
    else if k == 2 then c.(c2 := c.c2 + 1)
    else if k == 3 then c.(c3 := c.c3 + 1)
    else if k == 4 then c.(c4 := c.c4 + 1)
    else c
  }

  function Total(c: Counts): nat {
    c.c1 + c.c2 + c.c3 + c.c4
  }

  /** count_k / d for each class k. */
  function Fractions(c: Counts, d: nat): Quad
    requires d > 0
  {
    Quad(Ratio(c.c1, d), Ratio(c.c2, d), Ratio(c.c3, d), Ratio(c.c4, d))
  }

  function Ratio(a: nat, d: nat): real
    requires d > 0
  {
    a as real / d as real
  }

  /** Four proportions that are each in [0, 1] and sum to exactly one. */
  ghost predicate Distribution(q: Quad) {
    && 0.0 <= q.p1 <= 1.0 && 0.0 <= q.p2 <= 1.0
    && 0.0 <= q.p3 <= 1.0 && 0.0 <= q.p4 <= 1.0
    && q.p1 + q.p2 + q.p3 + q.p4 == 1.0
  }

  /**
   * The loop's running variables: the score of the last row, the result at last_non_tie,
   * non_tie_rounds, the four counts and prev_proportion_1 .. prev_proportion_4.
   */
  datatype Tally = Tally(score: int, last: Option<Result>, nonTie: nat, counts: Counts, carried: Quad)

  const Start := Tally(0, None, 0, NoCounts, Zero)

  /** The class the loop assigns to round `r` when the running variables are `t`. */
  function ClassFor(t: Tally, r: Result): nat {
    if r != Tie && t.last.Some? then ClassOf(t.last.value, r) else 0
  }

  /** One iteration of the first loop. */
  function Advance(t: Tally, r: Result): Tally {
    if r == Tie then
      t.(score := t.score + Delta(r))
    else
      var n := t.nonTie + 1;
      var counts := Bump(t.counts, ClassFor(t, r));
      Tally(t.score + Delta(r), Some(r), n, counts,
            if n > 1 then Fractions(counts, n - 1) else t.carried)
  }

  /** The running variables after the loop has visited rounds 0 .. i-1 of `h`. */
  function TallyTo(h: seq<Result>, i: nat): Tally
    requires i <= |h|
  {
    if i == 0 then Start else Advance(TallyTo(h, i - 1), h[i - 1])
  }

  /** The cells of one row: Cumulative Wins/Losses, new_column and the proportions. */
  datatype Row = Row(score: int, cls: nat, props: Quad)

  /** The cells the first loop leaves in row i; a cell it does not write keeps the default 0. */
  function RowAt(h: seq<Result>, i: nat): Row
    requires i < |h|
  {
    RowFor(TallyTo(h, i), h[i])
  }

  /** The cells written for round `r` when the running variables are `t`. */
  function RowFor(t: Tally, r: Result): Row {
    var after := Advance(t, r);
    Row(after.score, ClassFor(t, r),
        if r == Tie || after.nonTie > 1 then after.carried else Zero)
  }

  /** The Cumulative Wins/Losses cell of row i, from the cell above it (0 above row 0). */
  method ScoreCell(h: seq<Result>, i: nat, above: int) returns (score: int)
    requires i < |h|
    ensures score == (if i > 0 then above else 0) + Delta(h[i])
  {
    if i > 0 {
      if h[i] == Player {
        score := above + 1;
      } else if h[i] == Banker {
        score := above - 1;
      } else {
        score := above;
      }
    } else {
      if h[i] == Player {
        score := 1;
      } else if h[i] == Banker {
        score := -1;
      } else {
        score := 0;
      }
    }
  }

  /** The new_column cell of round `cur` after the non-tie round `prev`; 0 when no branch assigns it. */
  method ClassCell(cur: Result, prev: Result) returns (cls: nat)
    ensures cls == ClassOf(prev, cur)
  {
    cls := 0;
    if cur == Player && prev == Banker {
      cls := 1;
    } else if cur == Banker && prev == Player {
      cls := 2;
    } else if cur == Player && prev == Player {
      cls := 4;
    } else if cur == Banker && prev == Banker {
      cls := 3;
    }
  }

  /** The count update for a row whose new_column is cls. */
  method CountClass(c1: nat, c2: nat, c3: nat, c4: nat, cls: nat) returns (d1: nat, d2: nat, d3: nat, d4: nat)
    ensures Counts(d1, d2, d3, d4) == Bump(Counts(c1, c2, c3, c4), cls)
  {
    d1, d2, d3, d4 := c1, c2, c3, c4;
    if cls == 1 {
      d1 := d1 + 1;
    } else if cls == 2 {
      d2 := d2 + 1;
    } else if cls == 3 {
      d3 := d3 + 1;
    } else if cls == 4 {
      d4 := d4 + 1;
    }
  }

  /** The result at last_non_tie, if it is set. */
  function LastResult(h: seq<Result>, lastNonTie: Option<nat>): Option<Result>
    requires lastNonTie.Some? ==> lastNonTie.value < |h|
  {
    if lastNonTie.Some? then Some(h[lastNonTie.value]) else None
  }

  /**
   * One iteration of the first loop for round i, on its running variables: `above` is the
   * score of the row above. It returns the cells of row i and the updated variables.
   */
  method VisitRound(h: seq<Result>, i: nat, above: int, lastNonTie: Option<nat>, nonTie: nat,
                    c1: nat, c2: nat, c3: nat, c4: nat, prev: Quad)
    returns (row: Row, lastNonTie': Option<nat>, nonTie': nat, d1: nat, d2: nat, d3: nat, d4: nat, prev': Quad)
    requires i < |h| && (lastNonTie.Some? ==> lastNonTie.value < i)
    ensures lastNonTie'.Some? ==> lastNonTie'.value <= i
    ensures var t := Tally(if i > 0 then above else 0, LastResult(h, lastNonTie), nonTie, Counts(c1, c2, c3, c4), prev);
      && row == RowFor(t, h[i])
      && Tally(row.score, LastResult(h, lastNonTie'), nonTie', Counts(d1, d2, d3, d4), prev') == Advance(t, h[i])
  {
    ghost var t := Tally(if i > 0 then above else 0, LastResult(h, lastNonTie), nonTie, Counts(c1, c2, c3, c4), prev);
    lastNonTie', nonTie', d1, d2, d3, d4, prev' := lastNonTie, nonTie, c1, c2, c3, c4, prev;
    // The three cells of row i; a cell not assigned below keeps its default 0.
    var score := ScoreCell(h, i, above);
    var cls: nat, props := 0, Zero;
    if h[i] != Tie {
      nonTie' := nonTie' + 1;
      if lastNonTie'.Some? {
        cls := ClassCell(h[i], h[lastNonTie'.value]);
      }
      assert cls == ClassFor(t, h[i]);
      lastNonTie' := Some(i);
      d1, d2, d3, d4 := CountClass(d1, d2, d3, d4, cls);
      if nonTie' > 1 {
        props := Fractions(Counts(d1, d2, d3, d4), nonTie' - 1);
        prev' := props;
      }
    } else {
      props := prev';
    }
    row := Row(score, cls, props);
  }

  /** The rows the first loop has written after visiting rounds 0 .. n-1. */
  function RowsTo(h: seq<Result>, n: nat): (rows: seq<Row>)
    requires n <= |h|
    ensures |rows| == n
  {
    if n == 0 then [] else RowsTo(h, n - 1) + [RowAt(h, n - 1)]
  }

  lemma {:induction false} RowsToAt(h: seq<Result>, n: nat)
    requires n <= |h|
    ensures forall k :: 0 <= k < n ==> RowsTo(h, n)[k] == RowAt(h, k)
  {
    if n > 0 {
      RowsToAt(h, n - 1);
    }
  }

  /** The first loop of update_result, writing the cells of a fresh table whose cells start at 0. */
  method FirstPass(h: seq<Result>) returns (rows: seq<Row>)
    ensures |rows| == |h|
    ensures forall i :: 0 <= i < |h| ==> rows[i] == RowAt(h, i)
  {
    var n := |h|;
    var table := new Row[n](_ => Row(0, 0, Zero));
    var nonTie: nat := 0;
    var c1: nat, c2: nat, c3: nat, c4: nat := 0, 0, 0, 0;
    var prev := Zero;
    var lastNonTie: Option<nat> := None;
    for i := 0 to n
      invariant lastNonTie.Some? ==> lastNonTie.value < i
      invariant TallyTo(h, i) == Tally(if i > 0 then table[i - 1].score else 0, LastResult(h, lastNonTie),
                                         nonTie, Counts(c1, c2, c3, c4), prev)
      invariant table[..i] == RowsTo(h, i)
    {
      var row;
      row, lastNonTie, nonTie, c1, c2, c3, c4, prev :=
        VisitRound(h, i, if i > 0 then table[i - 1].score else 0, lastNonTie, nonTie, c1, c2, c3, c4, prev);
      table[i] := row;
      assert table[..i + 1] == table[..i] + [row];
    }
    rows := table[..];
    assert rows == table[..n];
    RowsToAt(h, n);
  }

  // ---------------------------------------------------------------------------
  // Reference definitions and the properties of the first pass
  // ---------------------------------------------------------------------------

  /** The index of the most recent non-tie round before index i. */
  function PrevNonTie(h: seq<Result>, i: nat): (j: Option<nat>)
    requires i <= |h|
    ensures j.Some? ==> j.value < i && h[j.value] != Tie && forall k :: j.value < k < i ==> h[k] == Tie
    ensures j.None? ==> forall k :: 0 <= k < i ==> h[k] == Tie
    decreases i
  {
    if i == 0 then None else if h[i - 1] != Tie then Some(i - 1) else PrevNonTie(h, i - 1)
  }

  /** The result of the most recent non-tie round before index i. */
  function PrevNonTieResult(h: seq<Result>, i: nat): Option<Result>
    requires i <= |h|
  {
    var j := PrevNonTie(h, i);
    if j.Some? then Some(h[j.value]) else None
  }

  /** The number of non-tie rounds in h. */
  function NonTies(h: seq<Result>): nat {
    |h| - multiset(h)[Tie]
  }

  /** The running score is the number of Player wins minus the number of Banker wins. */
  lemma {:induction false} ScoreIsPlayerMinusBanker(h: seq<Result>, i: nat)
    requires i <= |h|
    ensures TallyTo(h, i).score == multiset(h[..i])[Player] as int - multiset(h[..i])[Banker] as int
    ensures TallyTo(h, i).nonTie == NonTies(h[..i])
  {
    if i > 0 {
      ScoreIsPlayerMinusBanker(h, i - 1);
      assert h[..i] == h[..i - 1] + [h[i - 1]];
      assert multiset(h[..i]) == multiset(h[..i - 1]) + multiset{h[i - 1]};
      AdvanceCounters(TallyTo(h, i - 1), h[i - 1]);
    }
  }

  /** One iteration adds the round's score to the running score and counts a non-tie round. */
  lemma {:induction false} AdvanceCounters(t: Tally, r: Result)
    ensures Advance(t, r).score == t.score + Delta(r)
    ensures Advance(t, r).nonTie == t.nonTie + (if r == Tie then 0 else 1)
  {
  }

  /** Cumulative Wins/Losses of row i counts Player minus Banker wins in rounds 0..i and moves by at most one per row. */
  lemma {:induction false} RowScore(h: seq<Result>, i: nat)
    requires i < |h|
    ensures RowAt(h, i).score == multiset(h[..i + 1])[Player] as int - multiset(h[..i + 1])[Banker] as int
    ensures i > 0 ==> RowAt(h, i).score - RowAt(h, i - 1).score == Delta(h[i])
    ensures i > 0 ==> -1 <= RowAt(h, i).score - RowAt(h, i - 1).score <= 1
  {
    ScoreIsPlayerMinusBanker(h, i + 1);
  }

  /** last_non_tie always points at the most recent non-tie round. */
  lemma {:induction false} LastIsPrevNonTie(h: seq<Result>, i: nat)
    requires i <= |h|
    ensures TallyTo(h, i).last == PrevNonTieResult(h, i)
    decreases i
  {
    if i > 0 {
      LastIsPrevNonTie(h, i - 1);
    }
  }

  /** The class table, each class relative to the previous non-tie round. */
  lemma {:induction false} ClassTable(h: seq<Result>, i: nat)
    requires i < |h|
    ensures RowAt(h, i).cls == 1 <==> h[i] == Player && PrevNonTieResult(h, i) == Some(Banker)
    ensures RowAt(h, i).cls == 2 <==> h[i] == Banker && PrevNonTieResult(h, i) == Some(Player)
    ensures RowAt(h, i).cls == 3 <==> h[i] == Banker && PrevNonTieResult(h, i) == Some(Banker)
    ensures RowAt(h, i).cls == 4 <==> h[i] == Player && PrevNonTieResult(h, i) == Some(Player)
    ensures RowAt(h, i).cls == 0 <==> h[i] == Tie || PrevNonTieResult(h, i) == None
  {
    LastIsPrevNonTie(h, i);
  }

  /** The invariants the running variables keep. */
  ghost predicate Coherent(t: Tally) {
    && (t.last.Some? <==> t.nonTie >= 1)
    && t.last != Some(Tie)
    && Total(t.counts) + 1 == t.nonTie + (if t.nonTie == 0 then 1 else 0)
    && (t.carried == Zero || Distribution(t.carried))
  }

  lemma {:induction false} UnitShare(a: real, d: real)
    requires 0.0 <= a <= d && d > 0.0
    ensures 0.0 <= a / d <= 1.0
  {
  }

  lemma {:induction false} SharesAdd(a: real, b: real, d: real)
    requires d > 0.0
    ensures a / d + b / d == (a + b) / d
  {
  }

  lemma {:induction false} QuarterShares(a1: real, a2: real, a3: real, a4: real, r: real)
    requires r > 0.0 && a1 >= 0.0 && a2 >= 0.0 && a3 >= 0.0 && a4 >= 0.0
    requires a1 + a2 + a3 + a4 == r
    ensures 0.0 <= a1 / r <= 1.0 && 0.0 <= a2 / r <= 1.0 && 0.0 <= a3 / r <= 1.0 && 0.0 <= a4 / r <= 1.0
    ensures a1 / r + a2 / r + a3 / r + a4 / r == 1.0
  {
    UnitShare(a1, r);
    UnitShare(a2, r);
    UnitShare(a3, r);
    UnitShare(a4, r);
    var b2, b3 := a1 + a2, a1 + a2 + a3;
    SharesAdd(a1, a2, r);
    SharesAdd(b2, a3, r);
    SharesAdd(b3, a4, r);
    assert (b3 + a4) / r == r / r;
    assert r / r == 1.0 by {
      assert (r / r) * r == 1.0 * r;
    }
  }

  lemma {:induction false} FractionsAreDistribution(c: Counts, d: nat)
    requires d > 0 && Total(c) == d
    ensures Distribution(Fractions(c, d))
  {
    var r := d as real;
    var a1, a2, a3, a4 := c.c1 as real, c.c2 as real, c.c3 as real, c.c4 as real;
    assert Fractions(c, d) == Quad(a1 / r, a2 / r, a3 / r, a4 / r);
    QuarterShares(a1, a2, a3, a4, r);
  }

  lemma {:induction false} AdvanceKeepsCoherent(t: Tally, r: Result)
    requires Coherent(t)
    ensures Coherent(Advance(t, r))
  {
    if r != Tie {
      var t' := Advance(t, r);
      assert Total(t'.counts) == Total(t.counts) + (if t.last.Some? then 1 else 0);
      if t'.nonTie > 1 {
        FractionsAreDistribution(t'.counts, t'.nonTie - 1);
      }
    }
  }

  /** count_1+count_2+count_3+count_4 == non_tie_rounds - 1 once a non-tie round was seen, and the carried proportions are zero or a distribution. */
  lemma {:induction false} TallyCoherent(h: seq<Result>, i: nat)
    requires i <= |h|
    ensures Coherent(TallyTo(h, i))
  {
    if i > 0 {
      TallyCoherent(h, i - 1);
      AdvanceKeepsCoherent(TallyTo(h, i - 1), h[i - 1]);
    }
  }

  /** The number of rows among the first n whose new_column is k. */
  function Labelled(h: seq<Result>, n: nat, k: nat): nat
    requires n <= |h|
  {
    if n == 0 then 0 else Labelled(h, n - 1, k) + (if RowAt(h, n - 1).cls == k then 1 else 0)
  }

  /** count_k is the number of rows so far labelled k. */
  function CountOf(c: Counts, k: nat): nat {
    if k == 1 then c.c1 else if k == 2 then c.c2 else if k == 3 then c.c3 else if k == 4 then c.c4 else 0
  }

  lemma {:induction false} LabelCount(h: seq<Result>, n: nat, k: nat)
    requires n <= |h| && 1 <= k <= 4
    ensures CountOf(TallyTo(h, n).counts, k) == Labelled(h, n, k)
  {
    if n > 0 {
      LabelCount(h, n - 1, k);
      var t := TallyTo(h, n - 1);
      assert RowAt(h, n - 1) == RowFor(t, h[n - 1]);
      var j := ClassFor(t, h[n - 1]);
      assert TallyTo(h, n).counts == Bump(t.counts, j);
      assert CountOf(Bump(t.counts, j), k) == CountOf(t.counts, k) + (if j == k then 1 else 0);
    }
  }

  /** count_k is the number of rows so far labelled k. */
  lemma {:induction false} CountsAreLabels(h: seq<Result>, n: nat)
    requires n <= |h|
    ensures TallyTo(h, n).counts == Counts(Labelled(h, n, 1), Labelled(h, n, 2), Labelled(h, n, 3), Labelled(h, n, 4))
  {
    LabelCount(h, n, 1);
    LabelCount(h, n, 2);
    LabelCount(h, n, 3);
    LabelCount(h, n, 4);
  }

  /** The proportions of a row are zeros or a distribution. */
  lemma {:induction false} RowProportionsShape(h: seq<Result>, i: nat)
    requires i < |h|
    ensures RowAt(h, i).props == Zero || Distribution(RowAt(h, i).props)
    ensures h[i] != Tie && NonTies(h[..i + 1]) > 1 ==> Distribution(RowAt(h, i).props)
  {
    var t' := TallyTo(h, i + 1);
    assert RowAt(h, i).props == if h[i] == Tie || t'.nonTie > 1 then t'.carried else Zero;
    assert Coherent(t') by {
      TallyCoherent(h, i + 1);
    }
    assert t'.nonTie == NonTies(h[..i + 1]) by {
      ScoreIsPlayerMinusBanker(h, i + 1);
    }
    if h[i] != Tie && t'.nonTie > 1 {
      FractionsAreDistribution(t'.counts, t'.nonTie - 1);
    }
  }

  /**
   * On a non-tie row with more than one non-tie round so far, P_k is the number of rows
   * labelled k so far divided by non_tie_rounds - 1.
   */
  lemma {:induction false} RowProportions(h: seq<Result>, i: nat)
    requires i < |h| && h[i] != Tie && NonTies(h[..i + 1]) > 1
    ensures RowAt(h, i).props == Fractions(Counts(Labelled(h, i + 1, 1), Labelled(h, i + 1, 2),
                                                  Labelled(h, i + 1, 3), Labelled(h, i + 1, 4)),
                                           NonTies(h[..i + 1]) - 1)
  {
    var t := TallyTo(h, i + 1);
    assert t.nonTie == NonTies(h[..i + 1]) by {
      ScoreIsPlayerMinusBanker(h, i + 1);
    }
    assert RowAt(h, i).props == Fractions(t.counts, t.nonTie - 1);
    CountsAreLabels(h, i + 1);
  }

  /** The proportions of the most recent row before index i that wrote them, or zeros. */
  function LatestProps(h: seq<Result>, i: nat): Quad
    requires i <= |h|
  {
    if i == 0 then Zero
    else if h[i - 1] != Tie && TallyTo(h, i).nonTie > 1 then RowAt(h, i - 1).props
    else LatestProps(h, i - 1)
  }

  lemma {:induction false} CarriedIsLatest(h: seq<Result>, i: nat)
    requires i <= |h|
    ensures TallyTo(h, i).carried == LatestProps(h, i)
  {
    if i > 0 {
      CarriedIsLatest(h, i - 1);
    }
  }

  /** A tie row gets no class and copies the most recently computed proportions (zeros if none). */
  lemma {:induction false} TieRow(h: seq<Result>, i: nat)
    requires i < |h| && h[i] == Tie
    ensures RowAt(h, i).cls == 0
    ensures RowAt(h, i).props == LatestProps(h, i)
    ensures TallyTo(h, i + 1) == TallyTo(h, i)
  {
    CarriedIsLatest(h, i);
  }

  /** The running variables depend only on the rounds visited so far. */
  lemma {:induction false} TallySamePrefix(a: seq<Result>, b: seq<Result>, n: nat)
    requires n <= |a| && n <= |b|
    requires forall k :: 0 <= k < n ==> a[k] == b[k]
    ensures TallyTo(a, n) == TallyTo(b, n)
  {
    if n > 0 {
      TallySamePrefix(a, b, n - 1);
    }
  }

  /** Inserting a tie leaves last_non_tie, non_tie_rounds, the counts, the carried proportions and the score as they were. */
  lemma {:induction false} TieInsertion(h: seq<Result>, s: seq<Result>, j: nat)
    requires j <= |s|
    ensures TallyTo(h + [Tie] + s, |h| + 1 + j) == TallyTo(h + s, |h| + j)
  {
    var a, b := h + [Tie] + s, h + s;
    if j == 0 {
      TallySamePrefix(a, b, |h|);
    } else {
      TieInsertion(h, s, j - 1);
      assert a[|h| + j] == s[j - 1] == b[|h| + j - 1];
    }
  }

  /** Every row after an inserted tie is the row it was without the tie. */
  lemma {:induction false} TieInsertionRows(h: seq<Result>, s: seq<Result>, j: nat)
    requires j < |s|
    ensures RowAt(h + [Tie] + s, |h| + 1 + j) == RowAt(h + s, |h| + j)
  {
    var a, b := h + [Tie] + s, h + s;
    assert a[|h| + 1 + j] == b[|h| + j] == s[j];
    TieInsertion(h, s, j);
    assert RowAt(a, |h| + 1 + j) == RowFor(TallyTo(b, |h| + j), s[j]);
  }
}
