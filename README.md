# open-quant-app core in Dafny

This project models the decision and bookkeeping core of open-quant-app, a
quantitative-trading front end for a broker gateway (QMT / xtquant):

- the capital-allocation admission check (`PositionManager`);
- the offline simulated ledger used for backtests (`BackPosition`,
  `BackAccount`, `BackOrder`, `BackTester`);
- the order-tuple tracker (`OrderManager`);
- the trader's pre-trade checks, volume caps and order routing (`Trader`),
  with the gateway's query answers as inputs;
- the trading-session clock (`TimeUtils`);
- from `xtdata.py`: bar-time construction and bar merging
  (`TimeListBuilder`, `MergeData`, `merge_data`), `convertTimetag`, and the
  ST-status interval builder of `get_his_st_data`;
- the bounded record buffer (`FixedQueue`).

Each source file is one Dafny module. `xtdata.py` is split into three
modules: `Bars`, `TimeTags` and `StHistory`. `Common` holds `Option`,
`Result`, the Python exceptions the core can raise (KeyError, IndexError,
AttributeError), Python's negative list indexing, and two integer facts.

Objects whose fields the source updates in place are classes with the same
fields. Each method is proved equal to a pure function of the old state,
for example `BackTester.OrderStock` against `OrderStockSpec` and
`MergeData.Push` against `PushSpec`. The properties the source promises are
lemmas about those functions. Prices, cash and budget fractions are exact
`real`s. Times are integer seconds in `TradingClock` and integer
milliseconds in `Bars` and `TimeTags`.

Behaviours of the source worth noting:

- An admitted zero-volume buy in the back tester still withdraws 0,
  appends a BUY record and returns 0 (`BackTester.py:115-119`). It is not a
  no-op. When the strategy's exposure already reaches its share, the same
  order answers -1 and records nothing.
- A rejected sell of an unknown stock still adds an empty position for it
  (`BackTester.py:113-114`).
- A budget list whose length differs from the number of stock tuples only
  logs (`PositionManager.py:16-19`). A strategy id beyond the list raises
  IndexError at the admission check, not at start-up.
- The tester's set-up loop walks the freshly created, empty position dict
  (`BackTester.py:59-61`), so no position exists before its first trade. A
  buy for a multi-stock strategy then raises KeyError while any of the
  strategy's other stocks is untraded (`BackTest.UntradedPartnerRaises`).
- `OrderManager.handle` only compacts: `handle_once` returns its argument
  unchanged (`OrderManager.py:50-51`), so no order is cancelled or
  reconciled.

## Model

| member | source | states |
|---|---|---|
| Common.PyIndex | open_quant_app/backtest/BackTester.py:70 | Python list indexing: defined exactly for -n..n-1, and a negative index counts from the end |
| Positions.AverageBudget | open_quant_app/manager/PositionManager.py:12-14 | average mode gives one entry per stock tuple, each exactly 1/num |
| Positions.AverageBudgetSumsToOne | open_quant_app/manager/PositionManager.py:12-14 | the average-mode fractions add up to 1 |
| Positions.PrefixSum | open_quant_app/manager/PositionManager.py:13-14 | after k appends of 1/num the fractions sum to k/num |
| Positions.PositionManager.constructor | open_quant_app/manager/PositionManager.py:8-19 | average mode builds 1/num per tuple; otherwise the configured list is kept whatever its length |
| Positions.PositionManager.IsPositionLimit | open_quant_app/manager/PositionManager.py:21-33 | the loop computes the admission check `Limited` and changes no state |
| Positions.Exposure | open_quant_app/manager/PositionManager.py:23-27 | the held value of the strategy's records, summed in tuple order; its meaning is stated by `ExposureMissing` and `ExposureIsSum` |
| Positions.ExposureMissing | open_quant_app/manager/PositionManager.py:24-26 | the exposure fold stops (None) exactly when some record is missing |
| Positions.ExposureIsSum | open_quant_app/manager/PositionManager.py:23-27 | with all records present, exposure is the sum of open price × (usable + frozen volume); empty gives 0 |
| Positions.MissingIsNotLimited | open_quant_app/manager/PositionManager.py:24-26 | any missing record means "not limited", whatever the amounts |
| Positions.Limited | open_quant_app/manager/PositionManager.py:21-33 | `is_position_limit`: it raises only IndexError, and does so exactly when every record is present and the strategy id is outside the budget list |
| Positions.LimitedIff | open_quant_app/manager/PositionManager.py:28-33 | limited exactly when exposure + price × volume ≥ budget share × total assets; equality is limited |
| Positions.LimitMonotone | open_quant_app/manager/PositionManager.py:28 | at a non-negative price, a limited volume stays limited for every larger volume |
| Positions.BudgetBoundaryExample | open_quant_app/manager/PositionManager.py:28 | with budget 0.5 and total 100000, 100 @ 500 is limited and 99 @ 500 is not |
| BackTest.BuyHolding | open_quant_app/backtest/BackTester.py:18-23 | a zero-volume buy changes nothing; otherwise the last price is the buy price, volumes add, and the cost basis grows by price × volume |
| BackTest.SellHolding | open_quant_app/backtest/BackTester.py:25-28 | a sell at a price; `SellCost` states that the average price stays and the sold shares leave the cost basis |
| BackTest.SellCost | open_quant_app/backtest/BackTester.py:25-28 | a sell removes the sold shares from the cost basis at the unchanged average price |
| BackTest.AveragePriceBetween | open_quant_app/backtest/BackTester.py:22 | the new average price lies between the old average and the buy price |
| BackTest.LedgerValue | open_quant_app/backtest/BackTester.py:105-110 | cash plus every position at its last price; `RegisterKeepsValue` states that registering leaves it unchanged |
| BackTest.CanBuySpec | open_quant_app/backtest/BackTester.py:68-77 | `can_buy`: only IndexError or KeyError is raised, an unknown strategy raises IndexError, and an answer implies every stock of the strategy has a position |
| BackTest.CanSellSpec | open_quant_app/backtest/BackTester.py:79-89 | the stock is held with at least the volume; `AcceptedSell` and `OversellRejected` state what `order_stock` does on each side of it |
| BackTest.Register | open_quant_app/backtest/BackTester.py:113-114 | an unknown stock gets a position; cash, records and existing positions are untouched |
| BackTest.ApplyBuy | open_quant_app/backtest/BackTester.py:116-118 | an executed buy keeps the ledger well formed (distinct ids, no negative volume) |
| BackTest.ApplySell | open_quant_app/backtest/BackTester.py:121-123 | an executed sell the position covers keeps every volume non-negative |
| BackTest.Settle | open_quant_app/backtest/BackTester.py:115-126 | the dispatch of `order_stock` keeps the ledger well formed |
| BackTest.OrderStockSpec | open_quant_app/backtest/BackTester.py:112-126 | no order leaves a negative volume or an unlisted position |
| BackTest.AcceptedBuy | open_quant_app/backtest/BackTester.py:115-119 | an accepted buy withdraws price × volume, updates only the traded position, and appends one BUY record |
| BackTest.AcceptedSell | open_quant_app/backtest/BackTester.py:120-124 | an accepted sell deposits price × volume, keeps the average price, lowers the volume, touches no other position, and appends one SELL record |
| BackTest.OversellRejected | open_quant_app/backtest/BackTester.py:79-89 | selling more than is held answers -1 and changes cash, records and every existing position not at all; at most an empty position is added |
| BackTest.RecordsAppendOnly | open_quant_app/backtest/BackTester.py:112-126 | the record list only grows: one record exactly when the answer is 0, carrying the order's fields |
| BackTest.BuyKeepsCost | open_quant_app/backtest/BackTester.py:116-117 | a buy leaves cash plus cost basis unchanged |
| BackTest.SellRealisesProfit | open_quant_app/backtest/BackTester.py:121-122 | a sell moves cash plus cost basis by (price − average price) × volume |
| BackTest.SellBookCost | open_quant_app/backtest/BackTester.py:121 | the sold shares leave the book's cost basis at their average price |
| BackTest.RegisterKeepsSums | open_quant_app/backtest/BackTester.py:113-114 | an empty position adds nothing to any per-position sum |
| BackTest.RegisterKeepsCost | open_quant_app/backtest/BackTester.py:113-114 | creating the empty position leaves cash plus cost basis unchanged |
| BackTest.RegisterKeepsValue | open_quant_app/backtest/BackTester.py:105-114 | creating the empty position leaves `value()` unchanged |
| BackTest.CostBalance | open_quant_app/backtest/BackTester.py:115-126 | ledger balance: cash plus cost basis changes only by the realised profit of an accepted sell |
| BackTest.UntradedPartnerRaises | open_quant_app/backtest/BackTester.py:70-71 | a buy for a strategy with another never-traded stock raises KeyError |
| BackTest.BackPosition.constructor | open_quant_app/backtest/BackTester.py:12-16 | last price and average price start at the given price |
| BackTest.BackPosition.Buy | open_quant_app/backtest/BackTester.py:18-23 | updates the position as `BuyHolding` |
| BackTest.BackPosition.Sell | open_quant_app/backtest/BackTester.py:25-28 | updates the position as `SellHolding` and returns price × volume |
| BackTest.BackPosition.Value | open_quant_app/backtest/BackTester.py:30-31 | last price × volume |
| BackTest.BackAccount.constructor | open_quant_app/backtest/BackTester.py:35-37 | initial cash and cash are the given amount |
| BackTest.BackAccount.Deposit | open_quant_app/backtest/BackTester.py:39-40 | cash grows by the amount |
| BackTest.BackAccount.Withdraw | open_quant_app/backtest/BackTester.py:42-43 | cash shrinks by the amount |
| BackTest.BackTester.constructor | open_quant_app/backtest/BackTester.py:56-63 | cash as given, no positions, no records, the budget of a fresh position manager |
| BackTest.BackTester.Value | open_quant_app/backtest/BackTester.py:105-110 | cash plus every position at its last price |
| BackTest.BackTester.CanBuy | open_quant_app/backtest/BackTester.py:68-77 | the negated admission check over the strategy's simulated records at the ledger's value, with its IndexError and KeyError cases |
| BackTest.BackTester.CanSell | open_quant_app/backtest/BackTester.py:79-89 | true exactly when the stock is held with at least the volume |
| BackTest.BackTester.OpenPosition | open_quant_app/backtest/BackTester.py:113-114 | the new state is `Register` of the old |
| BackTest.BackTester.ExecuteBuy | open_quant_app/backtest/BackTester.py:116-118 | the new state is `ApplyBuy` of the old |
| BackTest.BackTester.ExecuteSell | open_quant_app/backtest/BackTester.py:121-123 | the new state is `ApplySell` of the old |
| BackTest.BackTester.SettleOrder | open_quant_app/backtest/BackTester.py:115-126 | state and answer are `Settle` of the old state |
| BackTest.BackTester.OrderStock | open_quant_app/backtest/BackTester.py:112-126 | state and answer are `OrderStockSpec` of the old state |
| Trading.PositionOf | open_quant_app/trade/Trader.py:103-105 | a stock's position record, None exactly when it has none |
| Trading.CanSell | open_quant_app/trade/Trader.py:115-124 | `can_sell`: a missing position or a volume above the usable one refuses; `MaxCanSellIsLargestSellable` relates it to `max_can_sell` |
| Trading.MaxCanSell | open_quant_app/trade/Trader.py:126-132 | AttributeError on a missing position; otherwise the smaller of the request and the usable volume |
| Trading.MaxCanSellIsLargestSellable | open_quant_app/trade/Trader.py:115-132 | the capped volume passes `can_sell`, and no sellable volume up to the request is larger |
| Trading.QueriedPositions | open_quant_app/trade/Trader.py:136-139 | one record per stock of the tuple, in order |
| Trading.MarketCanBuy | open_quant_app/trade/Trader.py:134-142 | market-mode `can_buy`: only IndexError or AttributeError is raised, and an answer implies a known strategy and a successful asset query |
| Trading.MissingPositionAdmits | open_quant_app/trade/Trader.py:134-142 | a strategy missing a position in one of its stocks may always buy |
| Trading.CanBuyIff | open_quant_app/trade/Trader.py:134-142 | with all positions present, a buy is admitted exactly when held value + price × volume < budget share × total asset |
| Trading.ExposureMatchesPositionValue | open_quant_app/trade/Trader.py:146-153 | with all positions present, `max_can_buy`'s position value equals the admission check's exposure |
| Trading.MaxCanBuySpec | open_quant_app/trade/Trader.py:144-172 | `max_can_buy`: IndexError exactly for an unknown strategy, and otherwise a cap in [0, volume] for a non-negative request |
| Trading.MaxCanBuyBounds | open_quant_app/trade/Trader.py:144-172 | the cap is in [0, volume], affordable at ten times the price, and the largest such volume when below the request |
| Trading.MaxCanBuyZero | open_quant_app/trade/Trader.py:160-165 | a failed asset query, a zero price or a zero volume caps at 0 |
| Trading.MarketOrderSpec | open_quant_app/trade/Trader.py:65-83 | market-mode `order_stock`, the route and the answer; `GatewayOnlyWhenAdmitted` and `ZeroVolumeNotSent` state its cases |
| Trading.GatewayOnlyWhenAdmitted | open_quant_app/trade/Trader.py:65-83 | in market mode an order reaches the gateway exactly when it is a non-empty admitted buy or covered sell; any other non-empty order answers -1 or the check's exception |
| Trading.ZeroVolumeNotSent | open_quant_app/trade/Trader.py:67-68 | a zero volume answers 0 without consulting anything |
| Trading.Trader.constructor | open_quant_app/trade/Trader.py:22-33 | stores the stock tuples and mode, and builds a fresh back tester and position manager from the same configuration |
| Trading.Trader.CanBuy | open_quant_app/trade/Trader.py:134-142 | the loop computes `MarketCanBuy` |
| Trading.Trader.MaxCanBuy | open_quant_app/trade/Trader.py:144-172 | the two sums and the cap compute `MaxCanBuySpec` |
| Trading.Trader.OrderStock | open_quant_app/trade/Trader.py:65-83 | zero volume answers 0 and sends nothing; market mode follows `MarketOrderSpec` and leaves the back tester alone; backtest mode is exactly the back tester's `order_stock` |
| Orders.NewOrderTuple | open_quant_app/manager/OrderManager.py:16-20 | a new tuple starts as INIT with the given stocks and orders |
| Orders.Unfinished | open_quant_app/manager/OrderManager.py:47-48 | the non-FINISHED tuples; the four lemmas below state which survive and in what order |
| Orders.UnfinishedMembers | open_quant_app/manager/OrderManager.py:47-48 | a tuple survives compaction exactly when it was present and is not FINISHED |
| Orders.UnfinishedConcat | open_quant_app/manager/OrderManager.py:47-48 | compaction works piecewise, so survivors keep their relative order |
| Orders.UnfinishedIdempotent | open_quant_app/manager/OrderManager.py:47-48 | compacting twice is compacting once |
| Orders.UnfinishedShrinks | open_quant_app/manager/OrderManager.py:47-48 | compaction never grows the list and leaves no FINISHED tuple |
| Orders.OrderManager.constructor | open_quant_app/manager/OrderManager.py:31-36 | starts with no tuples and stores its parameters |
| Orders.OrderManager.Insert | open_quant_app/manager/OrderManager.py:38-39 | appends at the end; size grows by one |
| Orders.OrderManager.Size | open_quant_app/manager/OrderManager.py:41-42 | the number of tuples |
| Orders.OrderManager.Empty | open_quant_app/manager/OrderManager.py:44-45 | true exactly when there are no tuples |
| Orders.OrderManager.ClearFinished | open_quant_app/manager/OrderManager.py:47-48 | the list becomes its non-FINISHED tuples in order |
| Orders.OrderManager.Handle | open_quant_app/manager/OrderManager.py:53-59 | equals compaction: no FINISHED tuple remains and the size never grows |
| TradingClock.At | open_quant_app/utils/TimeUtils.py:6-19 | `replace` keeps the date and sets the time of day |
| TradingClock.MorningStart | open_quant_app/utils/TimeUtils.py:6-7 | the same date at 09:30:00 |
| TradingClock.MorningEnd | open_quant_app/utils/TimeUtils.py:10-11 | the same date at 11:30:00 |
| TradingClock.AfternoonStart | open_quant_app/utils/TimeUtils.py:14-15 | the same date at 13:00:00 |
| TradingClock.AfternoonEnd | open_quant_app/utils/TimeUtils.py:18-19 | the same date at 15:00:00 |
| TradingClock.TradeTimeSeg | open_quant_app/utils/TimeUtils.py:22-30 | four strictly increasing moments, all on the day of `now` |
| TradingClock.TradeTimeSegIsBoundaries | open_quant_app/utils/TimeUtils.py:22-30 | start + 2 h equals the 11:30 and 15:00 boundaries, so the list is the four session boundaries |
| TradingClock.JudgeTradeTime | open_quant_app/utils/TimeUtils.py:33-35 | `judge_trade_time`; `JudgeTradeTimeIff` states it by time of day |
| TradingClock.JudgeTradeTimeIff | open_quant_app/utils/TimeUtils.py:33-35 | trading time is exactly 09:30–11:30 or 13:00–15:00 of any day, ends included |
| TradingClock.NextTradeTimestamp | open_quant_app/utils/TimeUtils.py:38-47 | `next_trade_timestamp`; the five lemmas below state each of its cases and that it moves forward |
| TradingClock.NextInsideSession | open_quant_app/utils/TimeUtils.py:39-40 | inside a session the next moment is one period on |
| TradingClock.NextInLunchBreak | open_quant_app/utils/TimeUtils.py:42-43 | in the lunch break the next moment is 13:00:00 of the same day |
| TradingClock.NextAfterClose | open_quant_app/utils/TimeUtils.py:44-45 | after the close the next moment is 09:30:00 of the next day |
| TradingClock.NextBeforeOpen | open_quant_app/utils/TimeUtils.py:46-47 | before the open the next moment is only one period on |
| TradingClock.NextIsLater | open_quant_app/utils/TimeUtils.py:38-47 | with a positive period the next moment is strictly later |
| Bars.ParseTime | open_quant_app/xtquant/xtdata.py:1097-1104 | hour, minute and second are digit pairs, and for 0 ≤ ft < 1000000 they rebuild ft |
| Bars.TicksMembers | open_quant_app/xtquant/xtdata.py:1088-1091 | the appended times are exactly the points up to the end a whole number of periods after the first |
| Bars.TicksIncreasing | open_quant_app/xtquant/xtdata.py:1088-1091 | the appended times strictly increase |
| Bars.TimerNext | open_quant_app/xtquant/xtdata.py:1112-1116 | the cursor stays in range, and the date moves by exactly one day exactly when it wraps |
| Bars.FirstAboveIsFirst | open_quant_app/xtquant/xtdata.py:1121-1126 | `locate` picks the first bar time above t, or 0 when there is none |
| Bars.TimerLocate | open_quant_app/xtquant/xtdata.py:1118-1126 | locating keeps the cursor in range and the bar times unchanged |
| Bars.NextAdvances | open_quant_app/xtquant/xtdata.py:1106-1116 | for increasing bar times spanning less than a day, `next` moves `get` strictly forward |
| Bars.TimeListBuilder.constructor | open_quant_app/xtquant/xtdata.py:1068-1077 | date 0, no bar times, cursor 0 |
| Bars.TimeListBuilder.Init | open_quant_app/xtquant/xtdata.py:1079-1095 | fails unchanged on no sessions or a non-positive period; otherwise appends every session's bar times, resets the cursor and succeeds exactly when the list is non-empty |
| Bars.TimeListBuilder.AppendTicks | open_quant_app/xtquant/xtdata.py:1088-1091 | appends the bar times of one session |
| Bars.TimeListBuilder.Get | open_quant_app/xtquant/xtdata.py:1106-1110 | the current bar time, or the bare date with no bar times |
| Bars.TimeListBuilder.Next | open_quant_app/xtquant/xtdata.py:1112-1116 | the new state is `TimerNext` of the old |
| Bars.TimeListBuilder.Locate | open_quant_app/xtquant/xtdata.py:1118-1126 | the new state is `TimerLocate` of the old |
| Bars.Merge | open_quant_app/xtquant/xtdata.py:1167-1184 | first, last, the larger, the smaller, or the sum of two samples |
| Bars.LowerAscii | open_quant_app/xtquant/xtdata.py:1197 | lowering keeps the length, leaves no capital letter and keeps every other character |
| Bars.FieldKind | open_quant_app/xtquant/xtdata.py:1188-1197 | a merge kind exactly for the lower-cased names open, high, low, close, volume and amount |
| Bars.FieldKindIgnoresCase | open_quant_app/xtquant/xtdata.py:1188-1197 | the field lookup does not depend on letter case |
| Bars.FieldKindExample | open_quant_app/xtquant/xtdata.py:1188-1197 | "HIGH" merges by maximum, "Volume" by sum, and "vwap" is unknown |
| Bars.PushSpec | open_quant_app/xtquant/xtdata.py:1149-1164 | a sample no later than the last bar time merges into the last bar and leaves the bar times alone; any other sample appends exactly one bar time and the sample itself; the two lists stay equally long |
| Bars.PushAll | open_quant_app/xtquant/xtdata.py:1199-1200 | pushing every sample keeps the two lists equally long |
| Bars.PushAllLength | open_quant_app/xtquant/xtdata.py:1199-1200 | no more bars than samples, and at least one when there is a sample |
| Bars.PushAddsToSum | open_quant_app/xtquant/xtdata.py:1149-1164 | a summing push adds its sample to the bars' total |
| Bars.PushAllConservesSum | open_quant_app/xtquant/xtdata.py:1167-1168 | with summing merges the bars add up to the samples |
| Bars.FirstBarHoldsFirstSample | open_quant_app/xtquant/xtdata.py:1179-1180 | with "open" merging the first bar holds the first sample |
| Bars.MergeData.constructor | open_quant_app/xtquant/xtdata.py:1130-1141 | no cursor and empty result lists |
| Bars.MergeData.Init | open_quant_app/xtquant/xtdata.py:1143-1147 | a fresh cursor built over the configured sessions and period |
| Bars.MergeData.Push | open_quant_app/xtquant/xtdata.py:1149-1164 | the new state is `PushSpec` of the old |
| Bars.MergeDataSpec | open_quant_app/xtquant/xtdata.py:1187-1205 | KeyError exactly for an unknown field name, IndexError exactly for a known one with fewer samples than times, no other error |
| Bars.MergeDataShape | open_quant_app/xtquant/xtdata.py:1187-1205 | the returned lists are equally long and no longer than the input |
| Bars.MergeDataRun | open_quant_app/xtquant/xtdata.py:1187-1205 | KeyError for an unknown field, IndexError for too few samples, otherwise the bars of every sample |
| TimeTags.ParseStamp | open_quant_app/xtquant/xtdata.py:387-392 | a parse succeeds only at length 8 or 14 and gives a valid date and time; a bare date is midnight |
| TimeTags.ConvertTimetag | open_quant_app/xtquant/xtdata.py:383-404 | a value exactly when the string parses, so never unless it has 8 or 14 characters |
| TimeTags.DateBoundsSpanDay | open_quant_app/xtquant/xtdata.py:394-397 | a bare date's lower bound is Beijing midnight, and its upper bound is 86400000 − 1 higher |
| TimeTags.FullStampIgnoresBound | open_quant_app/xtquant/xtdata.py:396-397 | the upper-bound flag does not affect a 14-character stamp |
| TimeTags.MidnightStampIsDate | open_quant_app/xtquant/xtdata.py:387-394 | "YYYYMMDD000000" and "YYYYMMDD" give the same moment |
| TimeTags.YearLength | open_quant_app/xtquant/xtdata.py:394 | the calendar gives a year 366 days when it is a leap year and 365 otherwise |
| TimeTags.NextDateIsNextDay | open_quant_app/xtquant/xtdata.py:394 | consecutive calendar days have consecutive day numbers, across month ends, year ends and leap days |
| TimeTags.NextDayIsOneDayLater | open_quant_app/xtquant/xtdata.py:394 | consecutive dates are 86400000 ms apart |
| TimeTags.EpochAnchor | open_quant_app/xtquant/xtdata.py:385-394 | "19700101" is −28800000 and "19700101080000" is 0 |
| StHistory.Split | open_quant_app/xtquant/xtdata.py:1728 | `split(',')` always gives at least one piece |
| StHistory.SplitJoin | open_quant_app/xtquant/xtdata.py:1728 | joining the pieces with ',' gives the line back |
| StHistory.SplitPiecesLackSeparator | open_quant_app/xtquant/xtdata.py:1728 | no piece contains ',' |
| StHistory.StatusRows | open_quant_app/xtquant/xtdata.py:1727-1731 | at most one status change per line |
| StHistory.StatusRowsMembers | open_quant_app/xtquant/xtdata.py:1727-1731 | a change is kept exactly when some line has at least four columns with the stock code first, and it carries that line's third and fourth columns |
| StHistory.StatusRowsConcat | open_quant_app/xtquant/xtdata.py:1727-1731 | the rows of consecutive pieces of the file come out in file order |
| StHistory.Label | open_quant_app/xtquant/xtdata.py:1750-1757 | a flag names a label exactly when it is "1", "2" or "3" |
| StHistory.LastColumnFlagIgnored | open_quant_app/xtquant/xtdata.py:1730-1731 | a flag read from the last column keeps its newline and names no label |
| StHistory.Spans | open_quant_app/xtquant/xtdata.py:1739-1746 | one span per change, starting at the change's date and carrying its flag |
| StHistory.SpansTile | open_quant_app/xtquant/xtdata.py:1744-1746 | each span ends where the next begins; the last ends at 20380119 |
| StHistory.Collect | open_quant_app/xtquant/xtdata.py:1759-1761 | only "ST", "*ST" and "PT" appear, each with at least one interval |
| StHistory.CollectIsGrouping | open_quant_app/xtquant/xtdata.py:1736-1762 | a label is present exactly when some change carries it, and then lists exactly that label's intervals in file order |
| StHistory.HisStData | open_quant_app/xtquant/xtdata.py:1718-1762 | `get_his_st_data`: empty for an unreadable file, otherwise only the three labels, each with at least one interval |
| StHistory.UnknownStockHasNoHistory | open_quant_app/xtquant/xtdata.py:1727-1734 | a stock named on no line has an empty history |
| StHistory.UnknownStockHasNoRows | open_quant_app/xtquant/xtdata.py:1727-1731 | a stock named on no line has no status changes |
| StHistory.ReadStatus | open_quant_app/xtquant/xtdata.py:1727-1731 | the first loop computes `StatusRows` |
| StHistory.File | open_quant_app/xtquant/xtdata.py:1750-1761 | one step of the second loop computes `FileUnder` |
| StHistory.GroupStatus | open_quant_app/xtquant/xtdata.py:1736-1762 | the second loop computes `Collect` of the spans |
| StHistory.HisStDataRun | open_quant_app/xtquant/xtdata.py:1718-1762 | empty when the file cannot be read or names no change; otherwise the grouped intervals |
| Bounded.Pushed | open_quant_app/utils/FixedQueue.py:8-9 | an append never exceeds the capacity, puts the item at the newest end, grows below capacity, and drops the oldest at capacity |
| Bounded.PushAll | open_quant_app/utils/FixedQueue.py:5-9 | any sequence of appends stays within the capacity |
| Bounded.HoldsNewest | open_quant_app/utils/FixedQueue.py:5-9 | from empty, the queue holds exactly the newest `maxlen` items, oldest first |
| Bounded.WindowStep | open_quant_app/utils/FixedQueue.py:8-9 | appending to the window of a history gives the window of the longer history |
| Bounded.FixedQueue.constructor | open_quant_app/utils/FixedQueue.py:5-6 | empty, with the given capacity |
| Bounded.FixedQueue.Append | open_quant_app/utils/FixedQueue.py:8-9 | the new contents are `Pushed` of the old, and the capacity holds |
| Bounded.FixedQueue.Len | open_quant_app/utils/FixedQueue.py:4 | the length, never above the capacity |

## Left out

- Gateway and broker I/O: the answers of `query_position_by_stock`, `query_stock_asset` and `query_orders`, and the id `xt_trader.order_stock` returns, are one `Gateway` value. The model assumes the repeated queries of one call answer alike.
- `Trader.start`, `close`, `info`, `cancel_order_stock`, `BackTester.info` and `report`, and all logging: I/O only.
- The environment path, session id, account id and callback that the `Trader` constructor stores: they only feed gateway calls.
- The numeric codes of `xtconstant.STOCK_BUY` and `STOCK_SELL`: the `OrderType` datatype stands for them. `price_type`, `strategy_name` and `comment` only go to the gateway.
- The field mapping of the `XtPosition` that `BackTester.can_buy` builds: its constructor lives in `xttype`, which is not part of this model. It is the `simulate` parameter of the tester configuration.
- Volumes in the back tester and in `Trader.OrderStock` are natural numbers. Negative volumes are not modelled.
- Floating point: prices, cash and budget fractions are exact reals. IEEE rounding, and so the `np.isnan` guard of `max_can_buy`, are not modelled.
- TradingClock.At: models `datetime.replace` at one-second granularity. Microseconds, which `get_morning_end` clears and the other helpers keep, are not modelled.
- The `datetime.now()` default arguments and the wall-clock read of `get_trade_time_seg`: the moment is a parameter.
- Bars: session scopes are the integers that `int()` makes of the configured strings. The string conversion is not modelled, and `parse_time`'s float division is taken as exact.
- Bars.LowerAscii: lower-cases ASCII letters only. Python's `lower()` also folds other alphabets, which no valid field name uses.
- TimeTags.ParseStamp: accepts strings of ASCII digits only. Python's `strptime` also accepts Unicode decimal digits and a space before a one-digit day (for example "202001 1"). For those inputs the model answers None.
- StHistory: the file's name and its opening are not modelled. The lines are a parameter, None when the file cannot be opened.
- StHistory.HisStDataRun: the result is a map, so the order in which Python's dict lists the labels is not modelled.
- OrderTuple and Order are values. The model does not capture that `handle` could see changes made through other references to the same tuple.
- The `trader`, `delay` and `sliding_point` fields of `OrderManager` are stored but no operation reads them.
- `TimeListBuilder` and `MergeData` take their period, sessions and merge kind at construction, where the source assigns those fields after construction. A `MergeData.push` before `init` (which raises AttributeError) is excluded by its precondition.
