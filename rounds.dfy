/** Round outcomes, betting decisions and the "undefined value" wrapper shared by every module. */
module Rounds {

  /** The winner of one round, as entered by the operator. */
  datatype Result = Player | Banker | Tie

  /** The recommendation stored in the next_rd_decision column for the following round. */
  datatype Decision = NoBet | BetPlayer | BetBanker

  /** A possibly undefined indicator value: None stands for NaN. */
  datatype Option<+T> = None | Some(value: T)

  /** Cell k of an indicator column, undefined outside the column. */
  function At<T>(col: seq<Option<T>>, k: int): (v: Option<T>)
    ensures v.Some? ==> 0 <= k < |col| && col[k] == v
  {
    if 0 <= k < |col| then col[k] else None
  }

  /** Cell k of a column whose cells are always defined, None outside the column. */
  function Cell<T>(col: seq<T>, k: int): (v: Option<T>)
    ensures v.Some? <==> 0 <= k < |col|
    ensures v.Some? ==> col[k] == v.value
  {
    if 0 <= k < |col| then Some(col[k]) else None
  }

  /** Comparisons on possibly undefined values: any comparison with NaN is false. */
  predicate Le(a: Option<real>, b: Option<real>) {
    a.Some? && b.Some? && a.value <= b.value
  }

  predicate LeInt(a: Option<int>, b: Option<int>) {
    a.Some? && b.Some? && a.value <= b.value
  }

  predicate Positive(a: Option<real>) {
    a.Some? && a.value > 0.0
  }

  predicate Negative(a: Option<real>) {
    a.Some? && a.value < 0.0
  }
}
