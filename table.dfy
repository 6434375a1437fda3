/**
 * The game table after the first loop and data_processing: one column per DataFrame column
 * the betting loop reads, all of them functions of the list of results.
 */
module Table {
  import opened Rounds
  import opened Tracker
  import opened Oscillator
  import opened Pivots

  /** The window of calculate_rsi as data_processing calls it. */
  const RsiWindow: nat := 10
  /** The offsets of slope_p3/slope_p4 and of slope_p3_5/slope_p4_5. */
  const ShortOffset: nat := 2
  const LongOffset: nat := 5

  datatype Frame = Frame(
    result: seq<Result>,
    score: seq<int>,
    cls: seq<nat>,
    props: seq<Quad>,
    rsiP3: seq<Option<real>>,
    rsiP4: seq<Option<real>>,
    support: seq<Option<int>>,
    resistance: seq<Option<int>>,
    slopeP3: seq<Option<real>>,
    slopeP4: seq<Option<real>>,
    slopeP3x5: seq<Option<real>>,
    slopeP4x5: seq<Option<real>>)

  /** Every column has one cell per round. */
  predicate Shaped(f: Frame) {
    var n := |f.result|;
    && |f.score| == n && |f.cls| == n && |f.props| == n
    && |f.rsiP3| == n && |f.rsiP4| == n && |f.support| == n && |f.resistance| == n
    && |f.slopeP3| == n && |f.slopeP4| == n && |f.slopeP3x5| == n && |f.slopeP4x5| == n
  }

  /** The rows the first loop leaves, as a specification. */
  function Rows(h: seq<Result>): (rows: seq<Row>)
    ensures |rows| == |h|
    ensures forall i :: 0 <= i < |h| ==> rows[i] == RowAt(h, i)
  {
    seq(|h|, i requires 0 <= i < |h| => RowAt(h, i))
  }

  function Scores(rows: seq<Row>): (c: seq<int>)
    ensures |c| == |rows|
    ensures forall i :: 0 <= i < |rows| ==> c[i] == rows[i].score
  {
    seq(|rows|, i requires 0 <= i < |rows| => rows[i].score)
  }

  function Classes(rows: seq<Row>): (c: seq<nat>)
    ensures |c| == |rows|
    ensures forall i :: 0 <= i < |rows| ==> c[i] == rows[i].cls
  {
    seq(|rows|, i requires 0 <= i < |rows| => rows[i].cls)
  }

  function Props(rows: seq<Row>): (c: seq<Quad>)
    ensures |c| == |rows|
    ensures forall i :: 0 <= i < |rows| ==> c[i] == rows[i].props
  {
    seq(|rows|, i requires 0 <= i < |rows| => rows[i].props)
  }

  /** The proportion_3 column. */
  function P3(rows: seq<Row>): (c: seq<real>)
    ensures |c| == |rows|
    ensures forall i :: 0 <= i < |rows| ==> c[i] == rows[i].props.p3
  {
    seq(|rows|, i requires 0 <= i < |rows| => rows[i].props.p3)
  }

  /** The proportion_4 column. */
  function P4(rows: seq<Row>): (c: seq<real>)
    ensures |c| == |rows|
    ensures forall i :: 0 <= i < |rows| ==> c[i] == rows[i].props.p4
  {
    seq(|rows|, i requires 0 <= i < |rows| => rows[i].props.p4)
  }

  function SupportColumn(c: seq<int>): (s: seq<Option<int>>)
    ensures |s| == |c|
    ensures forall i :: 0 <= i < |c| ==> s[i] == SupportAt(c, i)
  {
    seq(|c|, i requires 0 <= i < |c| => SupportAt(c, i))
  }

  function ResistanceColumn(c: seq<int>): (s: seq<Option<int>>)
    ensures |s| == |c|
    ensures forall i :: 0 <= i < |c| ==> s[i] == ResistanceAt(c, i)
  {
    seq(|c|, i requires 0 <= i < |c| => ResistanceAt(c, i))
  }

  /** The table from the first loop's rows: data_processing, then the four slope columns. */
  function Assemble(h: seq<Result>, rows: seq<Row>): (f: Frame)
    requires |rows| == |h|
    ensures Shaped(f) && f.result == h
  {
    var c, p3, p4 := Scores(rows), P3(rows), P4(rows);
    Frame(h, c, Classes(rows), Props(rows),
          Rsi(p3, RsiWindow), Rsi(p4, RsiWindow),
          SupportColumn(c), ResistanceColumn(c),
          Slope(p3, ShortOffset), Slope(p4, ShortOffset),
          Slope(p3, LongOffset), Slope(p4, LongOffset))
  }

  /** The table update_result holds before its betting loop, for the results h. */
  function FrameOf(h: seq<Result>): (f: Frame)
    ensures Shaped(f) && f.result == h
  {
    Assemble(h, Rows(h))
  }

  /** The first loop, data_processing and the slope columns, as update_result runs them. */
  method BuildFrame(h: seq<Result>) returns (f: Frame)
    ensures f == FrameOf(h)
  {
    var rows := FirstPass(h);
    assert rows == Rows(h);
    var c := Scores(rows);
    var support, resistance := SupportResistance(c);
    assert support == SupportColumn(c);
    assert resistance == ResistanceColumn(c);
    f := Assemble(h, rows).(support := support, resistance := resistance);
  }

  /** Every proportion in the table lies in [0, 1]. */
  lemma {:induction false} PropsAreShares(h: seq<Result>, i: nat)
    requires i < |h|
    ensures 0.0 <= RowAt(h, i).props.p3 <= 1.0 && 0.0 <= RowAt(h, i).props.p4 <= 1.0
  {
    RowProportionsShape(h, i);
  }

  /** The proportion_3 and proportion_4 columns are series of shares. */
  lemma {:induction false} ShareSeries(h: seq<Result>)
    ensures forall j :: 0 <= j < |h| ==> 0.0 <= P3(Rows(h))[j] <= 1.0 && 0.0 <= P4(Rows(h))[j] <= 1.0
  {
    forall j | 0 <= j < |h|
      ensures 0.0 <= P3(Rows(h))[j] <= 1.0 && 0.0 <= P4(Rows(h))[j] <= 1.0
    {
      PropsAreShares(h, j);
    }
  }

  /** The slope of a proportion over two rounds stays within 1/2, and over five rounds within 1/5. */
  lemma {:induction false} FrameSlopes(h: seq<Result>, i: nat)
    requires i < |h|
    ensures var f := FrameOf(h);
      && (f.slopeP3[i].Some? ==> -0.5 <= f.slopeP3[i].value <= 0.5)
      && (f.slopeP4[i].Some? ==> -0.5 <= f.slopeP4[i].value <= 0.5)
      && (f.slopeP3x5[i].Some? ==> -0.2 <= f.slopeP3x5[i].value <= 0.2)
      && (f.slopeP4x5[i].Some? ==> -0.2 <= f.slopeP4x5[i].value <= 0.2)
  {
    var rows := Rows(h);
    ShareSeries(h);
    ShareSlopes(P3(rows), i);
    ShareSlopes(P4(rows), i);
  }

  lemma {:induction false} ShareSlopes(s: seq<real>, i: nat)
    requires i < |s|
    requires forall j :: 0 <= j < |s| ==> 0.0 <= s[j] <= 1.0
    ensures Slope(s, ShortOffset)[i].Some? ==> -0.5 <= Slope(s, ShortOffset)[i].value <= 0.5
    ensures Slope(s, LongOffset)[i].Some? ==> -0.2 <= Slope(s, LongOffset)[i].value <= 0.2
  {
    SlopeOfShares(s, i, ShortOffset);
    SlopeOfShares(s, i, LongOffset);
  }

  /** Whenever both levels of a row are defined, the support lies at or below the resistance. */
  lemma {:induction false} FrameLevels(h: seq<Result>, i: nat)
    requires i < |h|
    ensures var f := FrameOf(h);
      f.support[i].Some? && f.resistance[i].Some? ==> f.support[i].value <= f.resistance[i].value
  {
    var f := FrameOf(h);
    if f.support[i].Some? && f.resistance[i].Some? {
      SupportBelowResistance(Scores(Rows(h)), i);
    }
  }
}
