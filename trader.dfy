/** The trading front end: the admission checks that run before an order is
    sent to the broker gateway, the volume caps, and the routing of
    `order_stock` to the gateway or to the back tester. Models
    open_quant_app/trade/Trader.py.

    The gateway is not called: what its queries answer at the moment of the
    call is a `Gateway` value passed in, and the order id it would return for
    a sent order is part of that value. */
module Trading {
  import opened Common
  import opened Positions
  import opened BackTest

  datatype TradeMode = Market | Backtest

  /** The fields of a gateway order and asset record that the trader reads. */
  datatype XtOrder = XtOrder(stockCode: string, orderVolume: int, price: real)
  datatype XtAsset = XtAsset(totalAsset: real)

  /** What the gateway's queries answer: the position of each held stock,
      the asset record (None when the query fails), the open orders, and the
      id the gateway answers to a sent order. */
  datatype Gateway = Gateway(positions: map<string, XtPosition>, asset: Option<XtAsset>,
                             orders: seq<XtOrder>, reply: int)

  /** Where `order_stock` sent the order. */
  datatype Route = NotSent | ToGateway | ToBackTester

  /** `query_position_by_stock`: None for a stock without a position. */
  function PositionOf(gw: Gateway, stockId: string): (r: Option<XtPosition>)
    ensures r.Some? <==> stockId in gw.positions
    ensures r.Some? ==> r.value == gw.positions[stockId]
  {
    if stockId in gw.positions then Some(gw.positions[stockId]) else None
  }

  // ---------------------------------------------------------------------
  // Selling

  /** `can_sell`: a missing position or more than the usable volume refuses. */
  predicate CanSell(position: Option<XtPosition>, volume: int)
  {
    position.Some? && volume <= position.value.canUseVolume
  }

  /** `max_can_sell`: the requested volume capped at the usable volume; a
      missing position raises AttributeError. */
  function MaxCanSell(position: Option<XtPosition>, volume: int): (r: Result<int>)
    ensures r.Err? <==> position.None?
    ensures r.Err? ==> r.error == AttributeError
    ensures r.Ok? ==> r.value <= volume && r.value <= position.value.canUseVolume
    ensures r.Ok? ==> r.value == volume || r.value == position.value.canUseVolume
  {
    match position
    case None => Err(AttributeError)
    case Some(p) => if p.canUseVolume < volume then Ok(p.canUseVolume) else Ok(volume)
  }

  /** The capped volume is the largest one not above the request that
      `can_sell` admits. */
  lemma MaxCanSellIsLargestSellable(position: Option<XtPosition>, volume: int, w: int)
    requires position.Some?
    ensures CanSell(position, MaxCanSell(position, volume).value)
    ensures w <= volume && CanSell(position, w) ==> w <= MaxCanSell(position, volume).value
  {
  }

  // ---------------------------------------------------------------------
  // Buying

  /** The gateway records of the strategy's stocks, in tuple order. */
  function QueriedPositions(gw: Gateway, ids: seq<string>): (r: seq<Option<XtPosition>>)
    ensures |r| == |ids|
    ensures forall i :: 0 <= i < |ids| ==> r[i] == PositionOf(gw, ids[i])
  {
    seq(|ids|, i requires 0 <= i < |ids| => PositionOf(gw, ids[i]))
  }

  /** `can_buy` in market mode: IndexError for an unknown strategy,
      AttributeError when the asset query fails, otherwise the negated
      admission check at the gateway's total asset. */
  function MarketCanBuy(stockIds: seq<seq<string>>, budget: seq<real>, gw: Gateway,
                      volume: int, price: real, strategyId: int): (r: Result<bool>)
    ensures r.Err? ==> r.error == IndexError || r.error == AttributeError
    ensures r.Ok? ==> PyIndex(|stockIds|, strategyId).Some? && gw.asset.Some?
  {
    match PyIndex(|stockIds|, strategyId)
    case None => Err(IndexError)
    case Some(j) =>
      match gw.asset
      case None => Err(AttributeError)
      case Some(asset) =>
        match Limited(budget, QueriedPositions(gw, stockIds[j]), strategyId, volume, price, asset.totalAsset)
        case Err(e) => Err(e)
        case Ok(limited) => Ok(!limited)
  }

  /** A strategy holding no position in one of its stocks may always buy,
      whatever the amounts: the admission check treats a missing record as
      "not limited". */
  lemma MissingPositionAdmits(stockIds: seq<seq<string>>, budget: seq<real>, gw: Gateway,
                              volume: int, price: real, strategyId: int, stockId: string)
    requires 0 <= strategyId < |stockIds| && gw.asset.Some?
    requires stockId in stockIds[strategyId] && stockId !in gw.positions
    ensures MarketCanBuy(stockIds, budget, gw, volume, price, strategyId) == Ok(true)
  {
    var ids := stockIds[strategyId];
    var i :| 0 <= i < |ids| && ids[i] == stockId;
    MissingIsNotLimited(budget, QueriedPositions(gw, ids), strategyId, volume, price, gw.asset.value.totalAsset);
  }

  /** With every position present, a buy is admitted exactly when the held
      value plus the order stays strictly below the strategy's budget share. */
  lemma CanBuyIff(stockIds: seq<seq<string>>, budget: seq<real>, gw: Gateway,
                  volume: int, price: real, strategyId: int)
    requires 0 <= strategyId < |stockIds| && 0 <= strategyId < |budget| && gw.asset.Some?
    requires forall k :: k in stockIds[strategyId] ==> k in gw.positions
    ensures MarketCanBuy(stockIds, budget, gw, volume, price, strategyId)
            == Ok(PositionValue(gw, stockIds[strategyId]) + price * (volume as real)
                  < budget[strategyId] * gw.asset.value.totalAsset)
  {
    var ids := stockIds[strategyId];
    var ps := QueriedPositions(gw, ids);
    assert AllPresent(ps);
    LimitedIff(budget, ps, strategyId, volume, price, gw.asset.value.totalAsset);
    ExposureMatchesPositionValue(gw, ids);
  }

  /** The value `max_can_buy` gives the strategy's positions: usable plus
      frozen shares at the open price, skipping stocks without a position. */
  function PositionValue(gw: Gateway, ids: seq<string>): real
  {
    if |ids| == 0 then 0.0
    else
      PositionValue(gw, ids[..|ids| - 1])
      + match PositionOf(gw, ids[|ids| - 1])
        case None => 0.0
        case Some(p) => Held(p)
  }

  /** The value of the open orders on the strategy's stocks. */
  function OrderValue(orders: seq<XtOrder>, ids: seq<string>): real
  {
    if |orders| == 0 then 0.0
    else
      var o := orders[|orders| - 1];
      OrderValue(orders[..|orders| - 1], ids) + if o.stockCode in ids then (o.orderVolume as real) * o.price else 0.0
  }

  /** When every record is present, `max_can_buy` and the admission check
      value the positions the same way. */
  lemma {:induction false} ExposureMatchesPositionValue(gw: Gateway, ids: seq<string>)
    requires forall k :: k in ids ==> k in gw.positions
    ensures Exposure(QueriedPositions(gw, ids)) == Some(PositionValue(gw, ids))
  {
    if |ids| > 0 {
      var init := ids[..|ids| - 1];
      ExposureMatchesPositionValue(gw, init);
      assert QueriedPositions(gw, ids)[..|ids| - 1] == QueriedPositions(gw, init);
    }
  }

  /** The volume `max_can_buy` computes from the money left over. */
  function AffordableVolume(available: real, price: real): int
    requires price != 0.0
  {
    Max((available / price / 10.0).Floor, 0)
  }

  /** `max_can_buy`: IndexError for an unknown strategy; 0 when the asset
      query fails, the price or the volume is 0; otherwise the request capped
      at the affordable volume. */
  function MaxCanBuySpec(stockIds: seq<seq<string>>, gw: Gateway, volume: int, price: real, strategyId: int)
    : (r: Result<int>)
    ensures r.Err? <==> PyIndex(|stockIds|, strategyId).None?
    ensures r.Err? ==> r.error == IndexError
    ensures r.Ok? && volume >= 0 ==> 0 <= r.value <= volume
  {
    match PyIndex(|stockIds|, strategyId)
    case None => Err(IndexError)
    case Some(j) =>
      var ids := stockIds[j];
      if gw.asset.None? || price == 0.0 || volume == 0 then Ok(0)
      else
        var available := gw.asset.value.totalAsset - PositionValue(gw, ids) - OrderValue(gw.orders, ids);
        Ok(Min(volume, AffordableVolume(available, price)))
  }

  lemma FloorScale(available: real, price: real)
    requires price > 0.0
    ensures (available / price / 10.0) * (price * 10.0) == available
  {
  }

  lemma MulMonotone(x: real, y: real, d: real)
    requires d > 0.0 && x <= y
    ensures x * d <= y * d
  {
    assert y * d - x * d == (y - x) * d;
  }

  lemma MulStrict(x: real, y: real, d: real)
    requires d > 0.0 && x < y
    ensures x * d < y * d
  {
    assert y * d - x * d == (y - x) * d;
  }

  /** With a positive price, the cap on a non-negative request lies in
      [0, volume]; a positive cap buys no more than the money left over pays
      for at ten times the price, and a cap below the request is the largest
      such volume. */
  lemma MaxCanBuyBounds(stockIds: seq<seq<string>>, gw: Gateway, volume: int, price: real, strategyId: int)
    requires 0 <= strategyId < |stockIds| && gw.asset.Some? && price > 0.0 && volume >= 0
    ensures var r := MaxCanBuySpec(stockIds, gw, volume, price, strategyId);
      var ids := stockIds[strategyId];
      var available := gw.asset.value.totalAsset - PositionValue(gw, ids) - OrderValue(gw.orders, ids);
      && r.Ok? && 0 <= r.value <= volume
      && (r.value > 0 ==> (r.value as real) * (price * 10.0) <= available)
      && (r.value < volume ==> ((r.value + 1) as real) * (price * 10.0) > available)
  {
    var ids := stockIds[strategyId];
    var available := gw.asset.value.totalAsset - PositionValue(gw, ids) - OrderValue(gw.orders, ids);
    var q := available / price / 10.0;
    var d := price * 10.0;
    FloorScale(available, price);
    if volume > 0 {
      var r := Min(volume, AffordableVolume(available, price));
      if r > 0 {
        MulMonotone(r as real, q, d);
      }
      if r < volume {
        assert q < (q.Floor + 1) as real;
        assert q < (r + 1) as real;
        MulStrict(q, (r + 1) as real, d);
        assert q * d == available;
        assert ((r + 1) as real) * d > available;
        assert MaxCanBuySpec(stockIds, gw, volume, price, strategyId) == Ok(r);
      }
    }
  }

  /** A zero price or volume, or a failed asset query, caps the order at 0. */
  lemma MaxCanBuyZero(stockIds: seq<seq<string>>, gw: Gateway, volume: int, price: real, strategyId: int)
    requires 0 <= strategyId < |stockIds|
    requires gw.asset.None? || price == 0.0 || volume == 0
    ensures MaxCanBuySpec(stockIds, gw, volume, price, strategyId) == Ok(0)
  {
  }

  // ---------------------------------------------------------------------
  // Routing

  /** `order_stock` in market mode: a zero volume returns 0 at once; a buy
      the admission check lets through and a sell the position covers go to
      the gateway and return its answer; anything else returns -1. */
  function MarketOrderSpec(stockIds: seq<seq<string>>, budget: seq<real>, gw: Gateway, stockId: string,
                           orderType: OrderType, volume: int, price: real, strategyId: int): (Route, Result<int>)
  {
    if volume == 0 then (NotSent, Ok(0))
    else if orderType == StockBuy then
      match MarketCanBuy(stockIds, budget, gw, volume, price, strategyId)
      case Err(e) => (NotSent, Err(e))
      case Ok(admitted) => if admitted then (ToGateway, Ok(gw.reply)) else (NotSent, Ok(-1))
    else if orderType == StockSell && CanSell(PositionOf(gw, stockId), volume) then (ToGateway, Ok(gw.reply))
    else (NotSent, Ok(-1))
  }

  /** An order reaches the gateway exactly when it is a non-empty buy the
      admission check admits or a non-empty sell the position covers; an
      order that is neither sent nor empty answers -1 or the admission
      check's exception. */
  lemma GatewayOnlyWhenAdmitted(stockIds: seq<seq<string>>, budget: seq<real>, gw: Gateway, stockId: string,
                                orderType: OrderType, volume: int, price: real, strategyId: int)
    ensures var (route, r) := MarketOrderSpec(stockIds, budget, gw, stockId, orderType, volume, price, strategyId);
      && route != ToBackTester
      && (route == ToGateway <==>
            volume != 0
            && ((orderType == StockBuy && MarketCanBuy(stockIds, budget, gw, volume, price, strategyId) == Ok(true))
                || (orderType == StockSell && CanSell(PositionOf(gw, stockId), volume))))
      && (route == ToGateway ==> r == Ok(gw.reply))
      && (route == NotSent && volume != 0 ==> r == Ok(-1) || r.Err?)
  {
  }

  /** A zero volume returns 0 without consulting anything. */
  lemma ZeroVolumeNotSent(stockIds: seq<seq<string>>, budget: seq<real>, gw: Gateway, stockId: string,
                          orderType: OrderType, price: real, strategyId: int)
    ensures MarketOrderSpec(stockIds, budget, gw, stockId, orderType, 0, price, strategyId) == (NotSent, Ok(0))
  {
  }

  class Trader {
    const stockIds: seq<seq<string>>
    const mode: TradeMode
    const backTester: BackTester
    const positionManager: PositionManager

    constructor (stockIds: seq<seq<string>>, mode: TradeMode, avgMode: bool, configured: seq<real>,
                 simulate: Holding -> XtPosition, cash: real)
      ensures this.stockIds == stockIds && this.mode == mode
      ensures fresh(backTester) && fresh(backTester.account) && backTester.Valid()
      ensures backTester.State() == LedgerState(cash, [], map[], [])
      ensures backTester.Config() == TesterConfig(stockIds, positionManager.positions, simulate)
      ensures positionManager.positions == if avgMode then AverageBudget(|stockIds|) else configured
    {
      this.stockIds := stockIds;
      this.mode := mode;
      backTester := new BackTester(stockIds, avgMode, configured, simulate, cash);
      positionManager := new PositionManager(avgMode, |stockIds|, configured);
    }

    /** Collects the gateway record of every stock of the strategy and asks
        the admission check. */
    method CanBuy(gw: Gateway, volume: int, price: real, strategyId: int) returns (r: Result<bool>)
      ensures r == MarketCanBuy(stockIds, positionManager.positions, gw, volume, price, strategyId)
    {
      var j := PyIndex(|stockIds|, strategyId);
      if j.None? {
        return Err(IndexError);
      }
      var ids := stockIds[j.value];
      var positionData: seq<Option<XtPosition>> := [];
      var i := 0;
      while i < |ids|
        invariant 0 <= i <= |ids|
        invariant positionData == QueriedPositions(gw, ids[..i])
      {
        positionData := positionData + [PositionOf(gw, ids[i])];
        i := i + 1;
      }
      assert ids[..i] == ids;
      if gw.asset.None? {
        return Err(AttributeError);
      }
      var limited := positionManager.IsPositionLimit(positionData, strategyId, volume, price, gw.asset.value.totalAsset);
      match limited
      case Err(e) => return Err(e);
      case Ok(b) => return Ok(!b);
    }

    /** Sums the held and the ordered value of the strategy's stocks and caps
        the request at what the rest of the total asset pays for. */
    method MaxCanBuy(gw: Gateway, volume: int, price: real, strategyId: int) returns (r: Result<int>)
      ensures r == MaxCanBuySpec(stockIds, gw, volume, price, strategyId)
    {
      var j := PyIndex(|stockIds|, strategyId);
      if j.None? {
        return Err(IndexError);
      }
      var ids := stockIds[j.value];
      var positionVal := 0.0;
      var i := 0;
      while i < |ids|
        invariant 0 <= i <= |ids|
        invariant positionVal == PositionValue(gw, ids[..i])
      {
        assert ids[..i + 1][..i] == ids[..i];
        var position := PositionOf(gw, ids[i]);
        if position.Some? {
          positionVal := positionVal + Held(position.value);
        }
        i := i + 1;
      }
      assert ids[..i] == ids;
      var orderVal := 0.0;
      var k := 0;
      while k < |gw.orders|
        invariant 0 <= k <= |gw.orders|
        invariant orderVal == OrderValue(gw.orders[..k], ids)
      {
        assert gw.orders[..k + 1][..k] == gw.orders[..k];
        var order := gw.orders[k];
        if order.stockCode in ids {
          orderVal := orderVal + (order.orderVolume as real) * order.price;
        }
        k := k + 1;
      }
      assert gw.orders[..k] == gw.orders;
      if gw.asset.None? {
        return Ok(0);
      }
      var totalAsset := gw.asset.value.totalAsset;
      if price == 0.0 || volume == 0 {
        return Ok(0);
      }
      var canBuyVol := Max((( totalAsset - positionVal - orderVal) / price / 10.0).Floor, 0);
      if volume > canBuyVol {
        return Ok(canBuyVol);
      }
      return Ok(volume);
    }

    /** Routes an order: market mode asks the admission checks and the
        gateway, backtest mode hands the order to the back tester. */
    method OrderStock(gw: Gateway, stockId: string, orderType: OrderType, volume: nat, price: real, strategyId: int)
      returns (route: Route, r: Result<int>)
      requires backTester.Valid()
      modifies backTester, backTester.account, backTester.stocks.Values
      ensures backTester.Valid()
      ensures mode == Market || volume == 0 ==> backTester.State() == old(backTester.State())
      ensures mode == Market ==>
        (route, r) == MarketOrderSpec(stockIds, positionManager.positions, gw, stockId, orderType, volume, price, strategyId)
      ensures mode == Backtest && volume == 0 ==> (route, r) == (NotSent, Ok(0))
      ensures mode == Backtest && volume != 0 ==>
        && route == ToBackTester
        && (backTester.State(), r)
           == OrderStockSpec(old(backTester.State()), backTester.Config(), stockId, orderType, volume, price, strategyId)
    {
      if volume == 0 {
        return NotSent, Ok(0);
      }
      route, r := NotSent, Ok(-1);
      if mode == Market {
        if orderType == StockBuy {
          var admitted := CanBuy(gw, volume, price, strategyId);
          if admitted.Err? {
            return NotSent, Err(admitted.error);
          }
          if admitted.value {
            route, r := ToGateway, Ok(gw.reply);
          }
        } else if orderType == StockSell && CanSell(PositionOf(gw, stockId), volume) {
          route, r := ToGateway, Ok(gw.reply);
        }
      } else {
        r := backTester.OrderStock(stockId, orderType, volume, price, strategyId);
        route := ToBackTester;
      }
    }
  }
}
