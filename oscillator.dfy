/**
 * The vectorised indicators of data_processing: the RSI-style oscillator (the inner
 * calculate_rsi, used with a window of 10 on proportion_3 and proportion_4) and
 * calculate_slope. Series are exact reals; an undefined cell is None.
 */
module Oscillator {
  import opened Rounds

  /** up = delta.clip(lower=0) at index j. */
  function Gain(s: seq<real>, j: nat): real
    requires 1 <= j < |s|
  {
    if s[j] - s[j - 1] > 0.0 then s[j] - s[j - 1] else 0.0
  }

  /** down = -1 * delta.clip(upper=0) at index j. */
  function Loss(s: seq<real>, j: nat): real
    requires 1 <= j < |s|
  {
    if s[j] - s[j - 1] < 0.0 then s[j - 1] - s[j] else 0.0
  }

  /** The sum of the gains over the w deltas ending at index i. */
  function SumGain(s: seq<real>, i: nat, w: nat): (r: real)
    requires w <= i < |s|
    ensures r >= 0.0
    decreases w
  {
    if w == 0 then 0.0 else Gain(s, i - w + 1) + SumGain(s, i, w - 1)
  }

  /** The sum of the losses over the w deltas ending at index i. */
  function SumLoss(s: seq<real>, i: nat, w: nat): (r: real)
    requires w <= i < |s|
    ensures r >= 0.0
    decreases w
  {
    if w == 0 then 0.0 else Loss(s, i - w + 1) + SumLoss(s, i, w - 1)
  }

  // Small facts of real arithmetic, each proved on its own.

  lemma {:induction false} Cross(x: real, y: real, u: real, v: real)
    requires y != 0.0 && v != 0.0 && x * v == u * y
    ensures x / y == u / v
  {
    assert x / y == (x * v) / (y * v);
    assert u / v == (u * y) / (v * y);
  }

  lemma {:induction false} MeanRatio(g: real, l: real, w: real)
    requires l > 0.0 && w > 0.0
    ensures (g / w) / (l / w) == g / l
  {
    var a, b := g / w, l / w;
    assert a * w == g;
    assert b * w == l;
    assert a * l == a * b * w == g * b;
    assert b != 0.0;
    Cross(a, b, g, l);
  }

  lemma {:induction false} OnePlusRatio(g: real, l: real)
    requires l > 0.0
    ensures 1.0 + g / l == (l + g) / l
  {
    assert (l + g) / l == l / l + g / l;
    assert l / l == 1.0;
  }

  lemma {:induction false} ScaleStrict(x: real, y: real, t: real)
    requires t > 0.0
    ensures x > y ==> x * t > y * t
  {
    assert x * t - y * t == (x - y) * t;
  }

  lemma {:induction false} DivMonotone(a: real, b: real, k: real)
    requires k > 0.0 && a <= b
    ensures a / k <= b / k
  {
    var x, y := a / k, b / k;
    assert x * k == a;
    assert y * k == b;
    ScaleStrict(x, y, k);
  }

  /** Dividing by a positive k keeps the sign, and multiplying back restores the value. */
  lemma {:induction false} MeanSign(d: real, k: real)
    requires k > 0.0
    ensures (d / k) * k == d
    ensures d / k > 0.0 <==> d > 0.0
  {
    var x := d / k;
    assert x * k == d;
    ScaleStrict(x, 0.0, k);
    ScaleStrict(0.0, x, k);
  }

  /** The share of gains is above one half exactly when gains exceed losses. */
  lemma {:induction false} ShareAboveHalf(g: real, l: real)
    requires g + l > 0.0
    ensures 100.0 * g / (g + l) > 50.0 <==> g > l
  {
    var t := g + l;
    var x := 100.0 * g / t;
    assert x * t == 100.0 * g;
    ScaleStrict(x, 50.0, t);
    ScaleStrict(50.0, x, t);
    HalfOfTotal(g, l, x * t);
    assert x > 50.0 <==> x * t > 50.0 * t;
  }

  lemma {:induction false} HalfOfTotal(g: real, l: real, h: real)
    requires h == 100.0 * g
    ensures h > 50.0 * (g + l) <==> g > l
    ensures h < 50.0 * (g + l) <==> g < l
  {
  }

  lemma {:induction false} Reciprocal(l: real, t: real)
    requires l > 0.0 && t > 0.0
    ensures 100.0 / (t / l) == 100.0 * l / t
  {
    var q := t / l;
    assert q * l == t;
    Cross(100.0, q, 100.0 * l, t);
  }

  lemma {:induction false} Complement(g: real, l: real)
    requires g + l > 0.0
    ensures 100.0 - 100.0 * l / (g + l) == 100.0 * g / (g + l)
  {
    var t := g + l;
    assert 100.0 * l / t + 100.0 * g / t == (100.0 * l + 100.0 * g) / t;
    assert (100.0 * l + 100.0 * g) / t == 100.0 * t / t == 100.0;
  }

  lemma {:induction false} ZeroMean(l: real, w: real)
    requires l >= 0.0 && w > 0.0
    ensures l / w == 0.0 <==> l == 0.0
    ensures l / w > 0.0 <==> l > 0.0
    ensures l / w >= 0.0
  {
    var x := l / w;
    assert x * w == l;
    ScaleStrict(0.0, x, w);
  }

  lemma {:induction false} ShareBound(gains: real, losses: real)
    requires gains >= 0.0 && losses >= 0.0 && gains + losses > 0.0
    ensures 0.0 <= 100.0 * gains / (gains + losses) <= 100.0
  {
    var t := gains + losses;
    assert 100.0 * gains / t <= 100.0 * t / t;
  }

  /** rs = roll_up / roll_down and rsi = 100 - 100 / (1 + rs), with inf for a positive roll_up over a zero roll_down. */
  function RsiOf(rollUp: real, rollDown: real): Option<real>
    requires rollUp >= 0.0 && rollDown >= 0.0
  {
    if rollDown == 0.0 then
      (if rollUp > 0.0 then Some(100.0) else None)
    else
      assert rollUp / rollDown >= 0.0 by {
        ZeroMean(rollUp, rollDown);
      }
      Some(100.0 - 100.0 / (1.0 + rollUp / rollDown))
  }

  /** On the means of the gains and losses, the oscillator is the share of gains in all moves, scaled to 100. */
  lemma {:induction false} RsiOfMeans(g: real, l: real, w: real)
    requires g >= 0.0 && l >= 0.0 && w > 0.0
    ensures RsiOf(g / w, l / w).Some? <==> g > 0.0 || l > 0.0
    ensures RsiOf(g / w, l / w).Some? ==> RsiOf(g / w, l / w).value == 100.0 * g / (g + l)
    ensures RsiOf(g / w, l / w).Some? ==> 0.0 <= RsiOf(g / w, l / w).value <= 100.0
  {
    ZeroMean(g, w);
    ZeroMean(l, w);
    if l > 0.0 {
      MeanRatio(g, l, w);
      OnePlusRatio(g, l);
      Reciprocal(l, l + g);
      Complement(g, l);
      ShareBound(g, l);
    } else if g > 0.0 {
      assert 100.0 * g / (g + l) == 100.0 * g / g == 100.0;
    }
  }

  /**
   * The oscillator at index i from the rolling means of the last w gains and losses; NaN
   * until w deltas exist and when both means are 0.
   */
  function RsiAt(s: seq<real>, i: nat, w: nat): (r: Option<real>)
    requires i < |s|
    ensures r.Some? <==> 0 < w <= i && (SumGain(s, i, w) > 0.0 || SumLoss(s, i, w) > 0.0)
    ensures r.Some? ==> r.value == 100.0 * SumGain(s, i, w) / (SumGain(s, i, w) + SumLoss(s, i, w))
    ensures r.Some? ==> 0.0 <= r.value <= 100.0
  {
    if w == 0 || i < w then None
    else
      ZeroMean(SumGain(s, i, w), w as real);
      ZeroMean(SumLoss(s, i, w), w as real);
      RsiOfMeans(SumGain(s, i, w), SumLoss(s, i, w), w as real);
      RsiOf(SumGain(s, i, w) / w as real, SumLoss(s, i, w) / w as real)
  }

  /** calculate_rsi(series, window): the oscillator for every index. */
  function Rsi(s: seq<real>, w: nat): (r: seq<Option<real>>)
    ensures |r| == |s|
    ensures forall i :: 0 <= i < |s| ==> r[i] == RsiAt(s, i, w)
    ensures forall i :: 0 <= i < |s| && i < w ==> r[i] == None
    ensures forall i :: 0 <= i < |s| && r[i].Some? ==> 0.0 <= r[i].value <= 100.0
  {
    seq(|s|, i requires 0 <= i < |s| => RsiAt(s, i, w))
  }

  /** The slope at index i: (s[i] - s[i - offset]) / offset, NaN before offset (and everywhere for offset 0, where it is 0/0). */
  function SlopeAt(s: seq<real>, i: nat, offset: nat): (r: Option<real>)
    requires i < |s|
    ensures r.Some? <==> 0 < offset <= i
    ensures r.Some? ==> (r.value > 0.0 <==> s[i] > s[i - offset])
    ensures r.Some? ==> (r.value < 0.0 <==> s[i] < s[i - offset])
  {
    if offset > 0 && i >= offset then Some((s[i] - s[i - offset]) / offset as real) else None
  }

  /** calculate_slope(series, offset) for every index. */
  function Slope(s: seq<real>, offset: nat): (r: seq<Option<real>>)
    ensures |r| == |s|
    ensures forall i :: 0 <= i < |s| ==> r[i] == SlopeAt(s, i, offset)
    ensures forall i :: 0 <= i < |s| ==> (r[i].Some? <==> 0 < offset <= i)
  {
    seq(|s|, i requires 0 <= i < |s| => SlopeAt(s, i, offset))
  }

  /** Gains minus losses over a window telescope to the net move across it. */
  lemma {:induction false} NetMove(s: seq<real>, i: nat, w: nat)
    requires w <= i < |s|
    ensures SumGain(s, i, w) - SumLoss(s, i, w) == s[i] - s[i - w]
    decreases w
  {
    if w > 0 {
      NetMove(s, i, w - 1);
    }
  }

  /** Over the same window, the slope is the mean net move, and the oscillator is above 50 exactly when that slope is positive. */
  lemma {:induction false} SlopeAgreesWithRsi(s: seq<real>, i: nat, w: nat)
    requires 0 < w <= i < |s|
    ensures SlopeAt(s, i, w).value * w as real == SumGain(s, i, w) - SumLoss(s, i, w)
    ensures RsiAt(s, i, w).Some? ==> (RsiAt(s, i, w).value > 50.0 <==> SlopeAt(s, i, w).value > 0.0)
  {
    NetMove(s, i, w);
    MeanSign(s[i] - s[i - w], w as real);
    if SumGain(s, i, w) + SumLoss(s, i, w) > 0.0 {
      ShareAboveHalf(SumGain(s, i, w), SumLoss(s, i, w));
    }
  }

  /** On a series of proportions the slope over `offset` rounds is at most 1/offset in size. */
  lemma {:induction false} SlopeOfShares(s: seq<real>, i: nat, offset: nat)
    requires i < |s|
    requires forall j :: 0 <= j < |s| ==> 0.0 <= s[j] <= 1.0
    ensures SlopeAt(s, i, offset).Some? ==>
              -1.0 / offset as real <= SlopeAt(s, i, offset).value <= 1.0 / offset as real
  {
    if offset > 0 && i >= offset {
      var d := s[i] - s[i - offset];
      assert -1.0 <= d <= 1.0;
      var k := offset as real;
      DivMonotone(d, 1.0, k);
      DivMonotone(-1.0, d, k);
      assert -1.0 / k == -(1.0 / k);
    }
  }
}
