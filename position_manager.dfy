/** Capital-allocation admission check: each strategy may hold at most its
    budget fraction of the total assets. Models
    open_quant_app/manager/PositionManager.py. */
module Positions {
  import opened Common

  /** The fields of a gateway position record that the admission check reads. */
  datatype XtPosition = XtPosition(openPrice: real, canUseVolume: int, frozenVolume: int)

  /** Value of one position at its open price, counting usable and frozen shares. */
  function Held(p: XtPosition): real
  {
    p.openPrice * ((p.canUseVolume + p.frozenVolume) as real)
  }

  /** The budget list built in average mode: `n` equal shares of 1/n. */
  function AverageBudget(n: nat): (r: seq<real>)
    ensures |r| == n
    ensures forall i :: 0 <= i < n ==> r[i] * (n as real) == 1.0
  {
    seq(n, i requires 0 <= i < n => 1.0 / (n as real))
  }

  function SumReals(s: seq<real>): real
  {
    if |s| == 0 then 0.0 else SumReals(s[..|s| - 1]) + s[|s| - 1]
  }

  /** The exposure of a list of position records, summed left to right;
      None as soon as one record is missing. */
  function Exposure(ps: seq<Option<XtPosition>>): Option<real>
  {
    if |ps| == 0 then Some(0.0)
    else match (Exposure(ps[..|ps| - 1]), ps[|ps| - 1])
      case (Some(e), Some(p)) => Some(e + Held(p))
      case _ => None
  }

  predicate AllPresent(ps: seq<Option<XtPosition>>)
  {
    forall i :: 0 <= i < |ps| ==> ps[i].Some?
  }

  /** The admission decision of `is_position_limit`: Ok(true) means the order
      is limited. A missing record answers Ok(false) before the budget list is
      indexed; an out-of-range strategy id raises IndexError otherwise. */
  function Limited(budget: seq<real>, ps: seq<Option<XtPosition>>, strategyId: int,
                   volume: int, price: real, totalAssets: real): (r: Result<bool>)
    ensures r.Err? ==> r.error == IndexError
    ensures r.Err? <==> Exposure(ps).Some? && PyIndex(|budget|, strategyId).None?
  {
    match Exposure(ps)
    case None => Ok(false)
    case Some(e) =>
      match PyIndex(|budget|, strategyId)
      case None => Err(IndexError)
      case Some(j) => Ok(e + price * (volume as real) >= budget[j] * totalAssets)
  }

  /** The fold fails exactly when some record is missing. */
  lemma {:induction false} ExposureMissing(ps: seq<Option<XtPosition>>)
    ensures Exposure(ps).None? <==> !AllPresent(ps)
  {
    if |ps| > 0 {
      var init := ps[..|ps| - 1];
      ExposureMissing(init);
      if !AllPresent(init) {
        var i :| 0 <= i < |init| && init[i].None?;
        assert ps[i].None?;
      }
      if !AllPresent(ps) && ps[|ps| - 1].Some? {
        var i :| 0 <= i < |ps| && ps[i].None?;
        assert init[i].None?;
      }
    }
  }

  /** With every record present, the exposure is the sum of the held values. */
  lemma {:induction false} ExposureIsSum(ps: seq<Option<XtPosition>>)
    requires AllPresent(ps)
    ensures Exposure(ps) == Some(SumReals(seq(|ps|, i requires 0 <= i < |ps| => Held(ps[i].value))))
  {
    if |ps| > 0 {
      var init := ps[..|ps| - 1];
      ExposureIsSum(init);
      var all := seq(|ps|, i requires 0 <= i < |ps| => Held(ps[i].value));
      assert all[..|ps| - 1] == seq(|init|, i requires 0 <= i < |init| => Held(init[i].value));
    }
  }

  /** A missing record means "not limited", whatever the amounts. */
  lemma MissingIsNotLimited(budget: seq<real>, ps: seq<Option<XtPosition>>, strategyId: int,
                            volume: int, price: real, totalAssets: real)
    requires exists i :: 0 <= i < |ps| && ps[i].None?
    ensures Limited(budget, ps, strategyId, volume, price, totalAssets) == Ok(false)
  {
    ExposureMissing(ps);
  }

  /** With all records present and a valid strategy id, the order is limited
      exactly when exposure plus its value reaches the budget (equality limits). */
  lemma LimitedIff(budget: seq<real>, ps: seq<Option<XtPosition>>, strategyId: int,
                   volume: int, price: real, totalAssets: real)
    requires AllPresent(ps) && 0 <= strategyId < |budget|
    ensures Exposure(ps).Some?
    ensures Limited(budget, ps, strategyId, volume, price, totalAssets)
            == Ok(Exposure(ps).value + price * (volume as real) >= budget[strategyId] * totalAssets)
  {
    ExposureMissing(ps);
  }

  /** With a non-negative price, a larger volume is limited whenever a smaller one is. */
  lemma LimitMonotone(budget: seq<real>, ps: seq<Option<XtPosition>>, strategyId: int,
                      v: int, w: int, price: real, totalAssets: real)
    requires price >= 0.0 && v <= w
    requires Limited(budget, ps, strategyId, v, price, totalAssets) == Ok(true)
    ensures Limited(budget, ps, strategyId, w, price, totalAssets) == Ok(true)
  {
    assert price * (v as real) <= price * (w as real) by {
      assert price * (w as real) - price * (v as real) == price * ((w - v) as real);
    }
  }

  /** Equity 100000, budget 0.5, nothing held: 100 shares at 500 are limited
      (50000 is not below 50000), 99 shares are not. */
  lemma BudgetBoundaryExample()
    ensures Limited([0.5], [], 0, 100, 500.0, 100000.0) == Ok(true)
    ensures Limited([0.5], [], 0, 99, 500.0, 100000.0) == Ok(false)
  {
  }

  /** The average-mode budget shares add up to the whole of the assets. */
  lemma {:induction false} AverageBudgetSumsToOne(n: nat)
    requires n > 0
    ensures SumReals(AverageBudget(n)) == 1.0
  {
    var b := AverageBudget(n);
    forall k | 0 <= k <= n
      ensures SumReals(b[..k]) == (k as real) / (n as real)
    {
      PrefixSum(n, k);
    }
    assert b[..n] == b;
  }

  lemma {:induction false} PrefixSum(n: nat, k: nat)
    requires 0 < n && k <= n
    ensures SumReals(AverageBudget(n)[..k]) == (k as real) / (n as real)
  {
    var b := AverageBudget(n);
    if k > 0 {
      PrefixSum(n, k - 1);
      assert b[..k][..k - 1] == b[..k - 1];
    }
  }

  class PositionManager {
    const positionAvgMode: bool
    /** The number of configured stock tuples, one per strategy. */
    const num: nat
    /** The budget fraction of every strategy. */
    const positions: seq<real>

    /** Average mode gives every strategy 1/num; otherwise the configured list
        is kept even when its length differs from num (that only logs). */
    constructor (avgMode: bool, stockTuples: nat, configured: seq<real>)
      ensures positionAvgMode == avgMode && num == stockTuples
      ensures avgMode ==> positions == AverageBudget(stockTuples)
      ensures !avgMode ==> positions == configured
    {
      positionAvgMode := avgMode;
      num := stockTuples;
      var ps: seq<real> := [];
      if avgMode {
        var i := 0;
        while i < stockTuples
          invariant 0 <= i <= stockTuples
          invariant ps == AverageBudget(stockTuples)[..i]
        {
          ps := ps + [1.0 / (stockTuples as real)];
          i := i + 1;
        }
      } else {
        ps := configured;
      }
      positions := ps;
    }

    /** Sums the exposure of the given records and compares it, plus the
        proposed order, with this strategy's share of the total assets. */
    method IsPositionLimit(positionData: seq<Option<XtPosition>>, strategyId: int, volume: int,
                           price: real, totalAssets: real) returns (r: Result<bool>)
      ensures r == Limited(positions, positionData, strategyId, volume, price, totalAssets)
    {
      var stockAssets := 0.0;
      var i := 0;
      while i < |positionData|
        invariant 0 <= i <= |positionData|
        invariant Exposure(positionData[..i]) == Some(stockAssets)
      {
        assert positionData[..i + 1][..i] == positionData[..i];
        match positionData[i]
        case None =>
          ExposureMissing(positionData);
          return Ok(false);
        case Some(p) =>
          stockAssets := stockAssets + Held(p);
        i := i + 1;
      }
      assert positionData[..i] == positionData;
      match PyIndex(|positions|, strategyId)
      case None =>
        return Err(IndexError);
      case Some(j) =>
        return Ok(stockAssets + price * (volume as real) >= positions[j] * totalAssets);
    }
  }
}
