/** The order-tuple tracker: a list of order groups, each with a status, from
    which finished groups are compacted away. Models
    open_quant_app/manager/OrderManager.py. */
module Orders {
  import Trading

  datatype OrderStatus = Init | SellUnfinished | BuyUnfinished | Finished

  /** One order sent to the gateway and the moment it was sent (seconds). */
  datatype Order = Order(orderId: int, orderTimestamp: int)

  /** A group of orders placed together for the stocks of one strategy. */
  datatype OrderTuple = OrderTuple(stockIds: seq<string>, orders: seq<Order>, status: OrderStatus)

  /** A new tuple starts in the INIT status. */
  function NewOrderTuple(stockIds: seq<string>, orders: seq<Order>): (t: OrderTuple)
    ensures t.status == Init && t.stockIds == stockIds && t.orders == orders
  {
    OrderTuple(stockIds, orders, Init)
  }

  /** The tuples of `s` that are not FINISHED, in their original order. */
  function Unfinished(s: seq<OrderTuple>): seq<OrderTuple>
  {
    if |s| == 0 then []
    else Unfinished(s[..|s| - 1]) + if s[|s| - 1].status == Finished then [] else [s[|s| - 1]]
  }

  /** A tuple survives compaction exactly when it was there and is not FINISHED. */
  lemma {:induction false} UnfinishedMembers(s: seq<OrderTuple>, t: OrderTuple)
    ensures t in Unfinished(s) <==> t in s && t.status != Finished
  {
    if |s| > 0 {
      var init := s[..|s| - 1];
      UnfinishedMembers(init, t);
      assert s == init + [s[|s| - 1]];
    }
  }

  /** Compaction works piecewise, so the survivors keep their relative order. */
  lemma {:induction false} UnfinishedConcat(a: seq<OrderTuple>, b: seq<OrderTuple>)
    ensures Unfinished(a + b) == Unfinished(a) + Unfinished(b)
  {
    if |b| > 0 {
      var init := b[..|b| - 1];
      UnfinishedConcat(a, init);
      assert (a + b)[..|a + b| - 1] == a + init;
    } else {
      assert a + b == a;
    }
  }

  /** Compacting twice is compacting once. */
  lemma {:induction false} UnfinishedIdempotent(s: seq<OrderTuple>)
    ensures Unfinished(Unfinished(s)) == Unfinished(s)
  {
    if |s| > 0 {
      var init := s[..|s| - 1];
      var last := s[|s| - 1];
      UnfinishedIdempotent(init);
      var tail := if last.status == Finished then [] else [last];
      UnfinishedConcat(Unfinished(init), tail);
      if last.status != Finished {
        assert [last][..0] == [];
      }
    }
  }

  /** Compaction never grows the list and leaves no FINISHED tuple. */
  lemma {:induction false} UnfinishedShrinks(s: seq<OrderTuple>)
    ensures |Unfinished(s)| <= |s|
    ensures forall i :: 0 <= i < |Unfinished(s)| ==> Unfinished(s)[i].status != Finished
  {
    if |s| > 0 {
      UnfinishedShrinks(s[..|s| - 1]);
    }
  }

  class OrderManager {
    var orders: seq<OrderTuple>
    const trader: Trading.Trader
    const stockIds: seq<string>
    /** Stored but never read by any operation. */
    const delay: real
    const slidingPoint: real

    constructor (trader: Trading.Trader, stockIds: seq<string>, delay: real, slidingPoint: real)
      ensures orders == [] && this.trader == trader && this.stockIds == stockIds
      ensures this.delay == delay && this.slidingPoint == slidingPoint
    {
      orders := [];
      this.trader := trader;
      this.stockIds := stockIds;
      this.delay := delay;
      this.slidingPoint := slidingPoint;
    }

    method Insert(orderTuple: OrderTuple)
      modifies this
      ensures orders == old(orders) + [orderTuple]
      ensures |orders| == |old(orders)| + 1
    {
      orders := orders + [orderTuple];
    }

    method Size() returns (n: nat)
      ensures n == |orders|
    {
      n := |orders|;
    }

    method Empty() returns (b: bool)
      ensures b <==> |orders| == 0
    {
      var n := Size();
      b := n == 0;
    }

    /** Rebuilds the list without the FINISHED tuples. */
    method ClearFinished()
      modifies this
      ensures orders == Unfinished(old(orders))
    {
      var kept: seq<OrderTuple> := [];
      var i := 0;
      while i < |orders|
        invariant 0 <= i <= |orders|
        invariant kept == Unfinished(orders[..i])
      {
        assert orders[..i + 1][..i] == orders[..i];
        if orders[i].status != Finished {
          kept := kept + [orders[i]];
        }
        i := i + 1;
      }
      assert orders[..i] == orders;
      orders := kept;
    }

    /** The per-tuple step of `handle`: it returns the tuple unchanged. */
    function HandleOnce(orderTuple: OrderTuple): OrderTuple
    {
      orderTuple
    }

    /** Passes every tuple through `HandleOnce`, then compacts. */
    method Handle()
      modifies this
      ensures orders == Unfinished(old(orders))
      ensures |orders| <= |old(orders)|
      ensures forall t :: t in orders ==> t.status != Finished
    {
      var n := Size();
      var i := 0;
      while i < n
        invariant 0 <= i <= n == |orders|
        invariant orders == old(orders)
      {
        orders := orders[i := HandleOnce(orders[i])];
        i := i + 1;
      }
      ClearFinished();
      UnfinishedShrinks(old(orders));
      forall t | t in orders
        ensures t.status != Finished
      {
        UnfinishedMembers(old(orders), t);
      }
    }
  }
}
