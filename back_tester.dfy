/** The offline simulated ledger: per-stock positions, a cash account and an
    append-only trade record list. Models open_quant_app/backtest/BackTester.py.

    Every method of the classes is proved against a pure function on the
    abstract state `LedgerState`; the accounting properties are lemmas about
    those functions. */
module BackTest {
  import opened Common
  import opened Positions

  /** The value of one `BackPosition`: last trade price, volume-weighted
      average price and volume. */
  datatype Holding = Holding(price: real, avgPrice: real, volume: int)

  /** The order types the ledger distinguishes; the numeric codes of
      `xtconstant` are not part of this model. */
  datatype OrderType = StockBuy | StockSell | OtherType(code: int)

  /** One applied trade, as appended to the record list. */
  datatype BackOrder = BackOrder(orderType: OrderType, price: real, volume: nat, stockId: string, strategyId: int)

  /** What the tester takes from the configuration: the stock tuple of every
      strategy, the budget fractions, and how a holding is presented to the
      admission check as a gateway position record. */
  datatype TesterConfig = TesterConfig(stockIds: seq<seq<string>>, budget: seq<real>,
                                       simulate: Holding -> XtPosition)

  /** The abstract state of a tester: cash, the stock ids in the order they
      were first traded, the holding of each, and the trade records. */
  datatype LedgerState = LedgerState(cash: real, keys: seq<string>, book: map<string, Holding>,
                                     records: seq<BackOrder>)

  function MarketValue(h: Holding): real { h.price * (h.volume as real) }

  function CostBasis(h: Holding): real { h.avgPrice * (h.volume as real) }

  /** A buy of `volume` shares at `price`; a zero volume changes nothing. */
  function BuyHolding(h: Holding, price: real, volume: nat): (r: Holding)
    requires volume == 0 || h.volume + volume != 0
    ensures volume == 0 ==> r == h
    ensures volume > 0 ==> r.price == price && r.volume == h.volume + volume
    ensures volume > 0 ==> CostBasis(r) == CostBasis(h) + price * (volume as real)
  {
    if volume == 0 then h
    else
      var n := h.volume + volume;
      Holding(price, (h.avgPrice * (h.volume as real) + price * (volume as real)) / (n as real), n)
  }

  /** A sell: the last price and the volume change, the average price does not. */
  function SellHolding(h: Holding, price: real, volume: nat): Holding
  {
    Holding(price, h.avgPrice, h.volume - volume)
  }

  /** A sell removes the sold shares at their average price from the cost basis. */
  lemma SellCost(h: Holding, price: real, volume: nat)
    ensures CostBasis(SellHolding(h, price, volume)) == CostBasis(h) - h.avgPrice * (volume as real)
  {
    var a := h.avgPrice;
    var x := h.volume as real;
    var y := volume as real;
    assert (h.volume - volume) as real == x - y;
    MulDistribSub(a, x, y);
  }

  // Facts of real arithmetic, stated once so the proofs below stay linear.

  lemma MulDistribSub(a: real, x: real, y: real)
    ensures a * (x - y) == a * x - a * y
  {
  }

  lemma MulDistribSubRight(x: real, y: real, a: real)
    ensures (x - y) * a == x * a - y * a
  {
  }

  lemma MulDistribAdd(a: real, x: real, y: real)
    ensures a * (x + y) == a * x + a * y
  {
  }

  lemma MulSigns(x: real, y: real)
    requires y >= 0.0
    ensures x >= 0.0 ==> x * y >= 0.0
    ensures x <= 0.0 ==> x * y <= 0.0
  {
  }

  lemma SignByPositive(x: real, n: real)
    requires n > 0.0
    ensures x * n >= 0.0 ==> x >= 0.0
    ensures x * n <= 0.0 ==> x <= 0.0
  {
  }

  /** Starting from a non-negative volume, the new average price lies
      between the old average and the buy price. */
  lemma AveragePriceBetween(h: Holding, price: real, volume: nat)
    requires h.volume >= 0 && volume > 0
    ensures var r := BuyHolding(h, price, volume);
      (h.avgPrice <= price ==> h.avgPrice <= r.avgPrice <= price) &&
      (price <= h.avgPrice ==> price <= r.avgPrice <= h.avgPrice)
  {
    var r := BuyHolding(h, price, volume);
    var a, b := h.volume as real, volume as real;
    var n := a + b;
    assert n > 0.0;
    assert r.avgPrice * n == h.avgPrice * a + price * b;
    MulDistribAdd(h.avgPrice, a, b);
    MulDistribAdd(price, a, b);
    // (r - avg) * n == (price - avg) * b  and  (r - price) * n == (avg - price) * a
    MulDistribSub(n, r.avgPrice, h.avgPrice);
    MulDistribSub(n, r.avgPrice, price);
    MulDistribSub(b, price, h.avgPrice);
    MulDistribSub(a, h.avgPrice, price);
    assert (r.avgPrice - h.avgPrice) * n == (price - h.avgPrice) * b;
    assert (r.avgPrice - price) * n == (h.avgPrice - price) * a;
    MulSigns(price - h.avgPrice, b);
    MulSigns(h.avgPrice - price, a);
    SignByPositive(r.avgPrice - h.avgPrice, n);
    SignByPositive(r.avgPrice - price, n);
  }

  /** Stock ids are distinct, name exactly the book's entries, and no held
      volume is negative. */
  predicate WellFormed(L: LedgerState)
  {
    && (forall i, j :: 0 <= i < j < |L.keys| ==> L.keys[i] != L.keys[j])
    && (forall k :: k in L.book ==> k in L.keys)
    && (forall k :: k in L.keys ==> k in L.book)
    && (forall k :: k in L.book ==> L.book[k].volume >= 0)
  }

  /** Sum of `f` over the holdings of `keys`, in key order. */
  function SumOver(keys: seq<string>, book: map<string, Holding>, f: Holding -> real): real
    requires forall k :: k in keys ==> k in book
  {
    if |keys| == 0 then 0.0
    else SumOver(keys[..|keys| - 1], book, f) + f(book[keys[|keys| - 1]])
  }

  /** `value()`: cash plus every position at its last trade price. */
  function LedgerValue(L: LedgerState): real
    requires WellFormed(L)
  {
    SumOver(L.keys, L.book, MarketValue) + L.cash
  }

  /** Cash plus the cost basis of every position. */
  function LedgerCost(L: LedgerState): real
    requires WellFormed(L)
  {
    SumOver(L.keys, L.book, CostBasis) + L.cash
  }

  /** `order_stock` first creates an empty position for an unknown stock. */
  function Register(L: LedgerState, stockId: string): (r: LedgerState)
    requires WellFormed(L)
    ensures WellFormed(r) && stockId in r.book
    ensures r.cash == L.cash && r.records == L.records
    ensures forall k :: k in L.book ==> k in r.book && r.book[k] == L.book[k]
  {
    if stockId in L.book then L
    else L.(keys := L.keys + [stockId], book := L.book[stockId := Holding(0.0, 0.0, 0)])
  }

  /** The admission records `can_buy` builds from the tester's own book. */
  function SimulatedPositions(ids: seq<string>, book: map<string, Holding>,
                              simulate: Holding -> XtPosition): seq<Option<XtPosition>>
    requires forall i :: 0 <= i < |ids| ==> ids[i] in book
  {
    seq(|ids|, i requires 0 <= i < |ids| => Some(simulate(book[ids[i]])))
  }

  predicate AllTraded(ids: seq<string>, book: map<string, Holding>)
  {
    forall i :: 0 <= i < |ids| ==> ids[i] in book
  }

  /** `can_buy`: IndexError for an unknown strategy, KeyError when one of its
      stocks has no position yet, otherwise the negated admission check valued
      at the ledger's total. */
  function CanBuySpec(L: LedgerState, cfg: TesterConfig, volume: nat, price: real, strategyId: int): (r: Result<bool>)
    requires WellFormed(L)
    ensures r.Err? ==> r.error == IndexError || r.error == KeyError
    ensures PyIndex(|cfg.stockIds|, strategyId).None? ==> r == Err(IndexError)
    ensures r.Ok? ==>
      PyIndex(|cfg.stockIds|, strategyId).Some?
      && AllTraded(cfg.stockIds[PyIndex(|cfg.stockIds|, strategyId).value], L.book)
  {
    match PyIndex(|cfg.stockIds|, strategyId)
    case None => Err(IndexError)
    case Some(j) =>
      var ids := cfg.stockIds[j];
      if !AllTraded(ids, L.book) then Err(KeyError)
      else
        match Limited(cfg.budget, SimulatedPositions(ids, L.book, cfg.simulate), strategyId,
                      volume, price, LedgerValue(L))
        case Err(e) => Err(e)
        case Ok(limited) => Ok(!limited)
  }

  /** `can_sell`: the stock is held with at least `volume` shares. */
  predicate CanSellSpec(L: LedgerState, stockId: string, volume: nat)
  {
    stockId in L.book && volume <= L.book[stockId].volume
  }

  function ApplyBuy(L: LedgerState, stockId: string, volume: nat, price: real, strategyId: int): (r: LedgerState)
    requires WellFormed(L) && stockId in L.book
    ensures WellFormed(r)
  {
    L.(cash := L.cash - price * (volume as real),
       book := L.book[stockId := BuyHolding(L.book[stockId], price, volume)],
       records := L.records + [BackOrder(StockBuy, price, volume, stockId, strategyId)])
  }

  function ApplySell(L: LedgerState, stockId: string, volume: nat, price: real, strategyId: int): (r: LedgerState)
    requires WellFormed(L) && CanSellSpec(L, stockId, volume)
    ensures WellFormed(r)
  {
    L.(cash := L.cash + price * (volume as real),
       book := L.book[stockId := SellHolding(L.book[stockId], price, volume)],
       records := L.records + [BackOrder(StockSell, price, volume, stockId, strategyId)])
  }

  /** The dispatch of `order_stock` once the traded stock has a position: a
      buy the admission check lets through, a sell the position covers, or
      the code -1; an exception of `can_buy` propagates. */
  function Settle(L: LedgerState, cfg: TesterConfig, stockId: string, orderType: OrderType,
                  volume: nat, price: real, strategyId: int): (out: (LedgerState, Result<int>))
    requires WellFormed(L) && stockId in L.book
    ensures WellFormed(out.0)
  {
    var admitted := if orderType == StockBuy then CanBuySpec(L, cfg, volume, price, strategyId) else Ok(false);
    if admitted.Err? then (L, Err(admitted.error))
    else if admitted.value then (ApplyBuy(L, stockId, volume, price, strategyId), Ok(0))
    else if orderType == StockSell && CanSellSpec(L, stockId, volume) then
      (ApplySell(L, stockId, volume, price, strategyId), Ok(0))
    else (L, Ok(-1))
  }

  /** `order_stock`: the new state and the returned code (0 accepted, -1
      rejected), or the exception `can_buy` raised. */
  function OrderStockSpec(L: LedgerState, cfg: TesterConfig, stockId: string, orderType: OrderType,
                          volume: nat, price: real, strategyId: int): (out: (LedgerState, Result<int>))
    requires WellFormed(L)
    ensures WellFormed(out.0)
  {
    Settle(Register(L, stockId), cfg, stockId, orderType, volume, price, strategyId)
  }

  // ---------------------------------------------------------------------
  // Sums over the book

  lemma {:induction false} SumOverUpdate(keys: seq<string>, book: map<string, Holding>,
                                         f: Holding -> real, k: string, h: Holding)
    requires forall x :: x in keys ==> x in book
    requires forall i, j :: 0 <= i < j < |keys| ==> keys[i] != keys[j]
    requires k in book
    ensures k in keys ==> SumOver(keys, book[k := h], f) == SumOver(keys, book, f) - f(book[k]) + f(h)
    ensures k !in keys ==> SumOver(keys, book[k := h], f) == SumOver(keys, book, f)
  {
    if |keys| > 0 {
      var init := keys[..|keys| - 1];
      SumOverUpdate(init, book, f, k, h);
      if keys[|keys| - 1] == k {
        assert k !in init;
      } else if k in keys {
        var i :| 0 <= i < |keys| && keys[i] == k;
        assert init[i] == k;
      }
    }
  }

  lemma {:induction false} SumOverFresh(keys: seq<string>, book: map<string, Holding>,
                                        f: Holding -> real, k: string, h: Holding)
    requires forall x :: x in keys ==> x in book
    requires k !in keys
    ensures SumOver(keys, book[k := h], f) == SumOver(keys, book, f)
  {
    if |keys| > 0 {
      SumOverFresh(keys[..|keys| - 1], book, f, k, h);
    }
  }

  /** Registering a new stock adds a zero-volume position, which is worth nothing. */
  lemma RegisterKeepsSums(L: LedgerState, stockId: string, f: Holding -> real)
    requires WellFormed(L)
    requires f(Holding(0.0, 0.0, 0)) == 0.0
    ensures SumOver(Register(L, stockId).keys, Register(L, stockId).book, f) == SumOver(L.keys, L.book, f)
  {
    if stockId !in L.book {
      var r := Register(L, stockId);
      SumOverFresh(L.keys, L.book, f, stockId, Holding(0.0, 0.0, 0));
      assert r.keys[..|r.keys| - 1] == L.keys;
    }
  }

  // ---------------------------------------------------------------------
  // Properties of order_stock

  /** An accepted buy withdraws price × volume, updates only the traded
      position, and appends exactly one BUY record. */
  lemma AcceptedBuy(L: LedgerState, cfg: TesterConfig, stockId: string, volume: nat, price: real, strategyId: int)
    requires WellFormed(L)
    requires OrderStockSpec(L, cfg, stockId, StockBuy, volume, price, strategyId).1 == Ok(0)
    ensures var L' := OrderStockSpec(L, cfg, stockId, StockBuy, volume, price, strategyId).0;
      && L'.cash == L.cash - price * (volume as real)
      && L'.records == L.records + [BackOrder(StockBuy, price, volume, stockId, strategyId)]
      && L'.book == Register(L, stockId).book[stockId := BuyHolding(Register(L, stockId).book[stockId], price, volume)]
  {
  }

  /** An accepted sell deposits price × volume, keeps the average price,
      lowers the volume, and appends exactly one SELL record. */
  lemma AcceptedSell(L: LedgerState, cfg: TesterConfig, stockId: string, volume: nat, price: real, strategyId: int)
    requires WellFormed(L)
    requires OrderStockSpec(L, cfg, stockId, StockSell, volume, price, strategyId).1 == Ok(0)
    ensures var L' := OrderStockSpec(L, cfg, stockId, StockSell, volume, price, strategyId).0;
      var before := Register(L, stockId).book[stockId];
      && L'.cash == L.cash + price * (volume as real)
      && L'.records == L.records + [BackOrder(StockSell, price, volume, stockId, strategyId)]
      && L'.book[stockId] == Holding(price, before.avgPrice, before.volume - volume)
      && (forall k :: k in L.book && k != stockId ==> L'.book[k] == L.book[k])
  {
  }

  /** Selling more than is held is rejected with -1 and changes neither cash,
      nor records, nor any existing position; at most an empty position for a
      new stock id is added. */
  lemma OversellRejected(L: LedgerState, cfg: TesterConfig, stockId: string, volume: nat, price: real, strategyId: int)
    requires WellFormed(L)
    requires volume > (if stockId in L.book then L.book[stockId].volume else 0)
    ensures var (L', r) := OrderStockSpec(L, cfg, stockId, StockSell, volume, price, strategyId);
      && r == Ok(-1)
      && L' == Register(L, stockId)
      && L'.cash == L.cash && L'.records == L.records
      && (forall k :: k in L.book ==> L'.book[k] == L.book[k])
  {
  }

  /** The record list is append-only: one record exactly when the order is
      accepted, none otherwise. */
  lemma RecordsAppendOnly(L: LedgerState, cfg: TesterConfig, stockId: string, orderType: OrderType,
                          volume: nat, price: real, strategyId: int)
    requires WellFormed(L)
    ensures var (L', r) := OrderStockSpec(L, cfg, stockId, orderType, volume, price, strategyId);
      && |L'.records| == |L.records| + (if r == Ok(0) then 1 else 0)
      && L'.records[..|L.records|] == L.records
      && (r == Ok(0) ==> L'.records[|L.records|] == BackOrder(orderType, price, volume, stockId, strategyId))
  {
    var (L', r) := OrderStockSpec(L, cfg, stockId, orderType, volume, price, strategyId);
    assert L'.records[..|L.records|] == L.records;
  }

  /** A buy moves value from cash into the cost basis and changes neither's sum. */
  lemma BuyKeepsCost(L: LedgerState, stockId: string, volume: nat, price: real, strategyId: int)
    requires WellFormed(L) && stockId in L.book
    ensures LedgerCost(ApplyBuy(L, stockId, volume, price, strategyId)) == LedgerCost(L)
  {
    SumOverUpdate(L.keys, L.book, CostBasis, stockId, BuyHolding(L.book[stockId], price, volume));
  }

  /** A sell moves cash and cost basis apart by the realised profit. */
  lemma SellRealisesProfit(L: LedgerState, stockId: string, volume: nat, price: real, strategyId: int)
    requires WellFormed(L) && CanSellSpec(L, stockId, volume)
    ensures LedgerCost(ApplySell(L, stockId, volume, price, strategyId))
            == LedgerCost(L) + (price - L.book[stockId].avgPrice) * (volume as real)
  {
    var a := L.book[stockId].avgPrice;
    var v := volume as real;
    SellBookCost(L.keys, L.book, stockId, volume, price);
    MulDistribSubRight(price, a, v);
  }

  /** The sold shares leave the book's cost basis at their average price. */
  lemma SellBookCost(keys: seq<string>, book: map<string, Holding>, k: string, volume: nat, price: real)
    requires forall x :: x in keys ==> x in book
    requires forall i, j :: 0 <= i < j < |keys| ==> keys[i] != keys[j]
    requires k in keys
    ensures SumOver(keys, book[k := SellHolding(book[k], price, volume)], CostBasis)
            == SumOver(keys, book, CostBasis) - book[k].avgPrice * (volume as real)
  {
    SumOverUpdate(keys, book, CostBasis, k, SellHolding(book[k], price, volume));
    SellCost(book[k], price, volume);
  }

  /** Creating the empty position changes neither the ledger's cost basis
      nor its value. */
  lemma RegisterKeepsCost(L: LedgerState, stockId: string)
    requires WellFormed(L)
    ensures LedgerCost(Register(L, stockId)) == LedgerCost(L)
  {
    RegisterKeepsSums(L, stockId, CostBasis);
  }

  lemma RegisterKeepsValue(L: LedgerState, stockId: string)
    requires WellFormed(L)
    ensures LedgerValue(Register(L, stockId)) == LedgerValue(L)
  {
    RegisterKeepsSums(L, stockId, MarketValue);
  }

  /** Ledger balance: once the traded stock has a position, cash plus cost
      basis is unchanged by a buy, whatever the admission check answers, and
      moves by the realised profit (price − average price) × volume when a
      sell is accepted. Together with `RegisterKeepsCost` this covers every
      call of `order_stock`. */
  lemma CostBalance(L: LedgerState, cfg: TesterConfig, stockId: string, orderType: OrderType,
                    volume: nat, price: real, strategyId: int)
    requires WellFormed(L) && stockId in L.book
    ensures var out := Settle(L, cfg, stockId, orderType, volume, price, strategyId);
      LedgerCost(out.0) == LedgerCost(L)
        + (if out.1 == Ok(0) && orderType == StockSell then (price - L.book[stockId].avgPrice) * (volume as real) else 0.0)
  {
    var out := Settle(L, cfg, stockId, orderType, volume, price, strategyId);
    if orderType == StockBuy && CanBuySpec(L, cfg, volume, price, strategyId) == Ok(true) {
      BuyKeepsCost(L, stockId, volume, price, strategyId);
    } else if orderType == StockSell && CanSellSpec(L, stockId, volume) {
      SellRealisesProfit(L, stockId, volume, price, strategyId);
    }
  }

  /** A buy for a strategy one of whose other stocks was never traded raises
      KeyError: only the traded stock gets a position automatically. */
  lemma UntradedPartnerRaises(L: LedgerState, cfg: TesterConfig, stockId: string, volume: nat, price: real,
                              strategyId: int, other: string)
    requires WellFormed(L) && 0 <= strategyId < |cfg.stockIds|
    requires other in cfg.stockIds[strategyId] && other != stockId && other !in L.book
    ensures OrderStockSpec(L, cfg, stockId, StockBuy, volume, price, strategyId)
            == (Register(L, stockId), Err(KeyError))
  {
    var ids := cfg.stockIds[strategyId];
    var i :| 0 <= i < |ids| && ids[i] == other;
    assert !AllTraded(ids, Register(L, stockId).book);
  }

  // ---------------------------------------------------------------------
  // The stateful classes

  class BackPosition {
    var price: real
    var avgPrice: real
    var volume: int
    const stockId: string

    function View(): Holding
      reads this
    {
      Holding(price, avgPrice, volume)
    }

    constructor (stockId: string, price: real, volume: int)
      ensures this.stockId == stockId && View() == Holding(price, price, volume)
    {
      this.price := price;
      avgPrice := price;
      this.volume := volume;
      this.stockId := stockId;
    }

    method Buy(price: real, volume: nat)
      requires volume == 0 || this.volume + volume != 0
      modifies this
      ensures View() == BuyHolding(old(View()), price, volume)
    {
      if volume == 0 {
        return;
      }
      this.price := price;
      avgPrice := (avgPrice * (this.volume as real) + price * (volume as real)) / ((this.volume + volume) as real);
      this.volume := this.volume + volume;
    }

    method Sell(price: real, volume: nat) returns (money: real)
      modifies this
      ensures View() == SellHolding(old(View()), price, volume)
      ensures money == price * (volume as real)
    {
      this.price := price;
      this.volume := this.volume - volume;
      money := price * (volume as real);
    }

    method Value() returns (v: real)
      ensures v == MarketValue(View())
    {
      v := price * (volume as real);
    }
  }

  class BackAccount {
    const initialCash: real
    var cash: real

    constructor (cash: real)
      ensures initialCash == cash && this.cash == cash
    {
      initialCash := cash;
      this.cash := cash;
    }

    method Deposit(money: real)
      modifies this
      ensures cash == old(cash) + money
    {
      cash := cash + money;
    }

    method Withdraw(money: real)
      modifies this
      ensures cash == old(cash) - money
    {
      cash := cash - money;
    }
  }

  class BackTester {
    const account: BackAccount
    const stockIds: seq<seq<string>>
    const positionManager: PositionManager
    const simulate: Holding -> XtPosition
    var stocks: map<string, BackPosition>
    /** The keys of `stocks` in insertion order (Python's dict order). */
    var keys: seq<string>
    var records: seq<BackOrder>

    ghost function State(): LedgerState
      reads this, account, stocks.Values
    {
      LedgerState(account.cash, keys, map k | k in stocks :: stocks[k].View(), records)
    }

    function Config(): TesterConfig
    {
      TesterConfig(stockIds, positionManager.positions, simulate)
    }

    /** Each position object is filed under its own stock id, so distinct
        ids name distinct objects. */
    ghost predicate Valid()
      reads this, account, stocks.Values
    {
      && (forall k :: k in stocks ==> stocks[k].stockId == k)
      && WellFormed(State())
    }

    /** The tester starts with no positions at all: the source's set-up loop
        runs over the still empty position dictionary. */
    constructor (stockIds: seq<seq<string>>, avgMode: bool, configured: seq<real>,
                 simulate: Holding -> XtPosition, cash: real)
      ensures Valid() && fresh(account)
      ensures State() == LedgerState(cash, [], map[], [])
      ensures Config() == TesterConfig(stockIds, if avgMode then AverageBudget(|stockIds|) else configured, simulate)
    {
      account := new BackAccount(cash);
      this.stockIds := stockIds;
      stocks := map[];
      keys := [];
      records := [];
      positionManager := new PositionManager(avgMode, |stockIds|, configured);
      this.simulate := simulate;
    }

    /** Cash plus every position at its last trade price. */
    method Value() returns (v: real)
      requires Valid()
      ensures v == LedgerValue(State())
    {
      var sum := 0.0;
      var i := 0;
      while i < |keys|
        invariant 0 <= i <= |keys|
        invariant sum == SumOver(keys[..i], State().book, MarketValue)
      {
        assert keys[..i + 1][..i] == keys[..i];
        var pv := stocks[keys[i]].Value();
        sum := sum + pv;
        i := i + 1;
      }
      assert keys[..i] == keys;
      v := sum + account.cash;
    }

    method CanBuy(volume: nat, price: real, strategyId: int) returns (r: Result<bool>)
      requires Valid()
      ensures r == CanBuySpec(State(), Config(), volume, price, strategyId)
    {
      var j := PyIndex(|stockIds|, strategyId);
      if j.None? {
        return Err(IndexError);
      }
      var ids := stockIds[j.value];
      var xtPositions: seq<Option<XtPosition>> := [];
      var i := 0;
      while i < |ids|
        invariant 0 <= i <= |ids|
        invariant AllTraded(ids[..i], State().book)
        invariant xtPositions == SimulatedPositions(ids[..i], State().book, simulate)
      {
        if ids[i] !in stocks {
          assert !AllTraded(ids, State().book);
          return Err(KeyError);
        }
        var backPosition := stocks[ids[i]];
        xtPositions := xtPositions + [Some(simulate(backPosition.View()))];
        i := i + 1;
      }
      assert ids[..i] == ids;
      var totalAssets := Value();
      var limited := positionManager.IsPositionLimit(xtPositions, strategyId, volume, price, totalAssets);
      match limited
      case Err(e) => return Err(e);
      case Ok(b) => return Ok(!b);
    }

    method CanSell(stockId: string, volume: nat, strategyId: int) returns (b: bool)
      requires Valid()
      ensures b == CanSellSpec(State(), stockId, volume)
    {
      if stockId !in stocks {
        return false;
      }
      var position := stocks[stockId];
      if position.volume < volume {
        return false;
      }
      return true;
    }

    /** The first step of `order_stock`: an unknown stock gets an empty
        position, appended after the known ones. */
    method OpenPosition(stockId: string)
      requires Valid()
      modifies this
      ensures Valid() && stockId in stocks
      ensures fresh(stocks.Values - old(stocks.Values))
      ensures State() == Register(old(State()), stockId)
    {
      if stockId !in stocks {
        ghost var L0 := State();
        var p := new BackPosition(stockId, 0.0, 0);
        stocks := stocks[stockId := p];
        keys := keys + [stockId];
        assert State().book == L0.book[stockId := Holding(0.0, 0.0, 0)];
        assert State() == Register(L0, stockId);
      }
    }

    /** A buy of an admitted order: the position, the cash and the records. */
    method ExecuteBuy(stockId: string, volume: nat, price: real, strategyId: int)
      requires Valid() && stockId in stocks
      modifies this, account, stocks[stockId]
      ensures Valid()
      ensures State() == ApplyBuy(old(State()), stockId, volume, price, strategyId)
    {
      ghost var L0 := State();
      var position := stocks[stockId];
      assert position.View() == L0.book[stockId];
      position.Buy(price, volume);
      account.Withdraw(price * (volume as real));
      records := records + [BackOrder(StockBuy, price, volume, stockId, strategyId)];
      assert forall k :: k in stocks && k != stockId ==> stocks[k] != position && stocks[k].View() == L0.book[k];
      assert State().book == L0.book[stockId := BuyHolding(L0.book[stockId], price, volume)];
      assert State() == ApplyBuy(L0, stockId, volume, price, strategyId);
    }

    /** A sell the position covers: the position, the cash and the records. */
    method ExecuteSell(stockId: string, volume: nat, price: real, strategyId: int)
      requires Valid() && stockId in stocks && CanSellSpec(State(), stockId, volume)
      modifies this, account, stocks[stockId]
      ensures Valid()
      ensures State() == ApplySell(old(State()), stockId, volume, price, strategyId)
    {
      ghost var L0 := State();
      var position := stocks[stockId];
      assert position.View() == L0.book[stockId];
      var money := position.Sell(price, volume);
      account.Deposit(money);
      records := records + [BackOrder(StockSell, price, volume, stockId, strategyId)];
      assert forall k :: k in stocks && k != stockId ==> stocks[k] != position && stocks[k].View() == L0.book[k];
      assert State().book == L0.book[stockId := SellHolding(L0.book[stockId], price, volume)];
      assert State() == ApplySell(L0, stockId, volume, price, strategyId);
    }

    /** The dispatch of `order_stock` once the stock has a position. */
    method SettleOrder(stockId: string, orderType: OrderType, volume: nat, price: real, strategyId: int)
      returns (r: Result<int>)
      requires Valid() && stockId in stocks
      modifies this, account, stocks.Values
      ensures Valid()
      ensures (State(), r) == Settle(old(State()), Config(), stockId, orderType, volume, price, strategyId)
    {
      var admitted: Result<bool> := Ok(false);
      if orderType == StockBuy {
        admitted := CanBuy(volume, price, strategyId);
      }
      if admitted.Err? {
        return Err(admitted.error);
      }
      if admitted.value {
        ExecuteBuy(stockId, volume, price, strategyId);
        return Ok(0);
      }
      var sellable := false;
      if orderType == StockSell {
        sellable := CanSell(stockId, volume, strategyId);
      }
      if sellable {
        ExecuteSell(stockId, volume, price, strategyId);
        return Ok(0);
      }
      return Ok(-1);
    }

    method OrderStock(stockId: string, orderType: OrderType, volume: nat, price: real, strategyId: int)
      returns (r: Result<int>)
      requires Valid()
      modifies this, account, stocks.Values
      ensures Valid()
      ensures (State(), r) == OrderStockSpec(old(State()), Config(), stockId, orderType, volume, price, strategyId)
    {
      OpenPosition(stockId);
      r := SettleOrder(stockId, orderType, volume, price, strategyId);
    }
  }
}
