/**
 * calculate_support_resistance: a single pass over the cumulative score from index 2 on.
 * Each side keeps its running extreme, a "verified" flag and the level in force. A low is
 * verified once a later score rises above it; the support is then that low, and it is kept
 * until another low is verified. The resistance is the same rule for highs, mirrored.
 */
module Pivots {
  import opened Rounds

  /**
   * One side's state: the running extreme (None plays the initial +inf for lows and -inf
   * for highs), whether it is verified, and the level in force (None plays NaN).
   */
  datatype Pivot = Pivot(last: Option<int>, verified: bool, current: Option<int>)

  const Fresh := Pivot(None, false, None)

  /** One iteration of the low side: a new low resets the flag, a rise above the low sets it. */
  function LowStep(p: Pivot, x: int): Pivot {
    var q :=
      if p.last.None? || x < p.last.value then p.(last := Some(x), verified := false)
      else if !p.verified && x > p.last.value then p.(verified := true)
      else p;
    if q.verified then q.(current := q.last) else q
  }

  /** One iteration of the high side: a new high resets the flag, a fall below the high sets it. */
  function HighStep(p: Pivot, x: int): Pivot {
    var q :=
      if p.last.None? || x > p.last.value then p.(last := Some(x), verified := false)
      else if !p.verified && x < p.last.value then p.(verified := true)
      else p;
    if q.verified then q.(current := q.last) else q
  }

  /** The low side after the iterations for indices 2 .. i-1. */
  function LowsTo(c: seq<int>, i: nat): Pivot
    requires i <= |c|
  {
    if i <= 2 then Fresh else LowStep(LowsTo(c, i - 1), c[i - 1])
  }

  /** The high side after the iterations for indices 2 .. i-1. */
  function HighsTo(c: seq<int>, i: nat): Pivot
    requires i <= |c|
  {
    if i <= 2 then Fresh else HighStep(HighsTo(c, i - 1), c[i - 1])
  }

  /** support[i]: NaN at indices 0 and 1 (never written) and at index 2 (a first low is never verified at once). */
  function SupportAt(c: seq<int>, i: nat): (r: Option<int>)
    requires i < |c|
    ensures i <= 2 ==> r == None
  {
    if i < 2 then None
    else
      assert i == 2 ==> LowsTo(c, i + 1) == LowStep(Fresh, c[2]);
      LowsTo(c, i + 1).current
  }

  /** resistance[i], with the same undefined prefix. */
  function ResistanceAt(c: seq<int>, i: nat): (r: Option<int>)
    requires i < |c|
    ensures i <= 2 ==> r == None
  {
    if i < 2 then None
    else
      assert i == 2 ==> HighsTo(c, i + 1) == HighStep(Fresh, c[2]);
      HighsTo(c, i + 1).current
  }

  /** The loop of calculate_support_resistance, writing both columns. */
  method SupportResistance(c: seq<int>) returns (support: seq<Option<int>>, resistance: seq<Option<int>>)
    ensures |support| == |c| && |resistance| == |c|
    ensures forall i :: 0 <= i < |c| ==> support[i] == SupportAt(c, i)
    ensures forall i :: 0 <= i < |c| ==> resistance[i] == ResistanceAt(c, i)
  {
    var sup := new Option<int>[|c|](_ => None);
    var res := new Option<int>[|c|](_ => None);
    var lastLow: Option<int> := None;
    var lastHigh: Option<int> := None;
    var lowVerified, highVerified := false, false;
    var currentSupport: Option<int> := None;
    var currentResistance: Option<int> := None;
    var i := 2;
    while i < |c|
      invariant 2 <= i && (i <= |c| || |c| < 2)
      invariant |c| >= 2 ==> Pivot(lastLow, lowVerified, currentSupport) == LowsTo(c, i)
      invariant |c| >= 2 ==> Pivot(lastHigh, highVerified, currentResistance) == HighsTo(c, i)
      invariant forall k :: 0 <= k < i && k < |c| ==> sup[k] == SupportAt(c, k)
      invariant forall k :: 0 <= k < i && k < |c| ==> res[k] == ResistanceAt(c, k)
    {
      var x := c[i];
      if lastLow.None? || x < lastLow.value {
        lastLow := Some(x);
        lowVerified := false;
      } else if !lowVerified && x > lastLow.value {
        lowVerified := true;
      }
      if lowVerified {
        currentSupport := lastLow;
      }
      sup[i] := currentSupport;

      if lastHigh.None? || x > lastHigh.value {
        lastHigh := Some(x);
        highVerified := false;
      } else if !highVerified && x < lastHigh.value {
        highVerified := true;
      }
      if highVerified {
        currentResistance := lastHigh;
      }
      res[i] := currentResistance;
      i := i + 1;
    }
    support, resistance := sup[..], res[..];
  }

  // ----- The support as a prefix minimum -----

  /** The smallest score among indices 2 .. k-1. */
  function RunMin(c: seq<int>, k: nat): (m: int)
    requires 2 < k <= |c|
    ensures forall j :: 2 <= j < k ==> m <= c[j]
    ensures exists j :: 2 <= j < k && m == c[j]
    decreases k
  {
    if k == 3 then c[2]
    else if c[k - 1] < RunMin(c, k - 1) then c[k - 1]
    else RunMin(c, k - 1)
  }

  /** The latest index k in 3 .. i at which the score rose above its running minimum RunMin(c, k). */
  function LatestCrossing(c: seq<int>, i: nat): (k: Option<nat>)
    requires i < |c|
    ensures k.Some? ==> 2 < k.value <= i && c[k.value] > RunMin(c, k.value)
    decreases i
  {
    if i <= 2 then None
    else if c[i] > RunMin(c, i) then Some(i)
    else LatestCrossing(c, i - 1)
  }

  /** No crossing lies after the latest one, and a crossing once seen is never lost. */
  lemma {:induction false} CrossingIsLatest(c: seq<int>, i: nat, j: nat)
    requires 2 < j <= i < |c|
    requires c[j] > RunMin(c, j)
    ensures LatestCrossing(c, i).Some? && j <= LatestCrossing(c, i).value
    decreases i
  {
    if i > j && c[i] <= RunMin(c, i) {
      CrossingIsLatest(c, i - 1, j);
    }
  }

  /** The reference support: the running minimum as it stood at the latest crossing. */
  function SupportRef(c: seq<int>, i: nat): Option<int>
    requires i < |c|
  {
    match LatestCrossing(c, i)
    case None => None
    case Some(k) => Some(RunMin(c, k))
  }

  /** The running minimum only falls as the prefix grows. */
  lemma {:induction false} RunMinFalls(c: seq<int>, k: nat, j: nat)
    requires 2 < k <= j <= |c|
    ensures RunMin(c, j) <= RunMin(c, k)
    decreases j
  {
    if j > k {
      RunMinFalls(c, k, j - 1);
    }
  }

  /** What the low side holds after index i: the running minimum, and the flag set exactly by a crossing since the last new low. */
  ghost predicate LowInvariant(c: seq<int>, i: nat)
    requires 2 <= i < |c|
  {
    var s := LowsTo(c, i + 1);
    s.last == Some(RunMin(c, i + 1))
    && (s.verified ==> s.current == s.last)
    && s.current == SupportRef(c, i)
    && (s.verified <==>
          LatestCrossing(c, i).Some? && RunMin(c, LatestCrossing(c, i).value) == RunMin(c, i + 1))
  }

  lemma {:induction false} LowsInvariant(c: seq<int>, i: nat)
    requires 2 <= i < |c|
    ensures LowInvariant(c, i)
    decreases i
  {
    if i > 2 {
      LowsInvariant(c, i - 1);
      var k := LatestCrossing(c, i - 1);
      if k.Some? {
        RunMinFalls(c, k.value, i);
      }
    }
  }

  /** The support at i is the running minimum at the latest round where the score rose above it, and NaN if none has. */
  lemma {:induction false} SupportIsVerifiedLow(c: seq<int>, i: nat)
    requires i < |c|
    ensures SupportAt(c, i) == SupportRef(c, i)
  {
    if i >= 2 {
      LowsInvariant(c, i);
    }
  }

  /** Once defined the support stays defined, and it never rises. */
  lemma {:induction false} SupportStaysDefined(c: seq<int>, i: nat, j: nat)
    requires i <= j < |c|
    requires SupportAt(c, i).Some?
    ensures SupportAt(c, j).Some?
    ensures SupportAt(c, j).value <= SupportAt(c, i).value
  {
    SupportIsVerifiedLow(c, i);
    SupportIsVerifiedLow(c, j);
    var k := LatestCrossing(c, i).value;
    CrossingIsLatest(c, j, k);
    RunMinFalls(c, k, LatestCrossing(c, j).value);
  }

  /** A defined support is a score that occurred, at most the score at index 2 and at least the minimum so far. */
  lemma {:induction false} SupportBounds(c: seq<int>, i: nat)
    requires i < |c|
    requires SupportAt(c, i).Some?
    ensures c[2] >= SupportAt(c, i).value >= RunMin(c, i + 1)
    ensures exists j :: 2 <= j < i && c[j] == SupportAt(c, i).value
  {
    SupportIsVerifiedLow(c, i);
    RunMinFalls(c, LatestCrossing(c, i).value, i + 1);
  }

  // ----- The resistance, as the mirror image of the support -----

  function Negate(c: seq<int>): (r: seq<int>)
    ensures |r| == |c|
    ensures forall j :: 0 <= j < |c| ==> r[j] == -c[j]
  {
    seq(|c|, j requires 0 <= j < |c| => -c[j])
  }

  function NegOpt(v: Option<int>): Option<int> {
    if v.Some? then Some(-v.value) else None
  }

  function Flip(p: Pivot): Pivot {
    Pivot(NegOpt(p.last), p.verified, NegOpt(p.current))
  }

  /** The high side on c is the low side on -c, with the levels negated. */
  lemma {:induction false} HighsMirrorLows(c: seq<int>, i: nat)
    requires i <= |c|
    ensures HighsTo(c, i) == Flip(LowsTo(Negate(c), i))
    decreases i
  {
    if i > 2 {
      HighsMirrorLows(c, i - 1);
    }
  }

  lemma {:induction false} ResistanceMirrorsSupport(c: seq<int>, i: nat)
    requires i < |c|
    ensures ResistanceAt(c, i) == NegOpt(SupportAt(Negate(c), i))
  {
    if i >= 2 {
      HighsMirrorLows(c, i + 1);
    }
  }

  /** Once defined the resistance stays defined, and it never falls. */
  lemma {:induction false} ResistanceStaysDefined(c: seq<int>, i: nat, j: nat)
    requires i <= j < |c|
    requires ResistanceAt(c, i).Some?
    ensures ResistanceAt(c, j).Some?
    ensures ResistanceAt(c, j).value >= ResistanceAt(c, i).value
  {
    ResistanceMirrorsSupport(c, i);
    ResistanceMirrorsSupport(c, j);
    SupportStaysDefined(Negate(c), i, j);
  }

  /** A defined resistance is a score that occurred, and at least the score at index 2. */
  lemma {:induction false} ResistanceBounds(c: seq<int>, i: nat)
    requires i < |c|
    requires ResistanceAt(c, i).Some?
    ensures c[2] <= ResistanceAt(c, i).value
    ensures exists j :: 2 <= j < i && c[j] == ResistanceAt(c, i).value
  {
    ResistanceMirrorsSupport(c, i);
    SupportBounds(Negate(c), i);
    var j :| 2 <= j < i && Negate(c)[j] == SupportAt(Negate(c), i).value;
    assert c[j] == ResistanceAt(c, i).value;
  }

  /** Whenever both are defined, the support lies at or below the resistance. */
  lemma {:induction false} SupportBelowResistance(c: seq<int>, i: nat)
    requires i < |c|
    requires SupportAt(c, i).Some? && ResistanceAt(c, i).Some?
    ensures SupportAt(c, i).value <= ResistanceAt(c, i).value
  {
    SupportBounds(c, i);
    ResistanceBounds(c, i);
  }
}
