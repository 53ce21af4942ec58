/** A bounded record buffer: a double-ended queue with a maximum length that
    forgets its oldest item when a new one arrives at capacity. Models
    open_quant_app/utils/FixedQueue.py. */
module Bounded {

  /** The contents after appending `x` to `q` in a queue of capacity `maxlen`. */
  function Pushed<T>(q: seq<T>, maxlen: nat, x: T): (r: seq<T>)
    requires |q| <= maxlen
    ensures |r| <= maxlen
    ensures maxlen == 0 ==> r == []
    ensures maxlen > 0 ==> |r| > 0 && r[|r| - 1] == x
    ensures |q| < maxlen ==> r == q + [x]
    ensures 0 < maxlen == |q| ==> |r| == maxlen && r == q[1..] + [x]
  {
    if maxlen == 0 then []
    else if |q| < maxlen then q + [x]
    else q[1..] + [x]
  }

  /** The last `maxlen` items of `xs`, or all of them when there are fewer. */
  function Window<T>(xs: seq<T>, maxlen: nat): (r: seq<T>)
  {
    if |xs| <= maxlen then xs else xs[|xs| - maxlen..]
  }

  /** Appending the items of `xs` one after the other. */
  function PushAll<T>(q: seq<T>, maxlen: nat, xs: seq<T>): (r: seq<T>)
    requires |q| <= maxlen
    ensures |r| <= maxlen
  {
    if |xs| == 0 then q
    else Pushed(PushAll(q, maxlen, xs[..|xs| - 1]), maxlen, xs[|xs| - 1])
  }

  /** Whatever was appended, a queue that started empty holds exactly the
      newest `maxlen` items, oldest first. */
  lemma {:induction false} HoldsNewest<T>(maxlen: nat, xs: seq<T>)
    ensures PushAll([], maxlen, xs) == Window(xs, maxlen)
  {
    if |xs| > 0 {
      var init := xs[..|xs| - 1];
      var x := xs[|xs| - 1];
      HoldsNewest(maxlen, init);
      assert init + [x] == xs;
      WindowStep(init, maxlen, x);
    }
  }

  /** Appending to the window of a history gives the window of the longer history. */
  lemma WindowStep<T>(init: seq<T>, maxlen: nat, x: T)
    ensures Pushed(Window(init, maxlen), maxlen, x) == Window(init + [x], maxlen)
  {
    var xs := init + [x];
    if maxlen > 0 && |init| >= maxlen {
      var lo := |xs| - maxlen;
      assert Window(init, maxlen)[1..] == init[lo..];
      assert init[lo..] + [x] == xs[lo..];
    }
  }

  class FixedQueue<T> {
    const maxlen: nat
    var items: seq<T>

    ghost predicate Valid()
      reads this
    {
      |items| <= maxlen
    }

    constructor (size: nat)
      ensures Valid() && maxlen == size && items == []
    {
      maxlen := size;
      items := [];
    }

    /** Adds `x` at the newest end, dropping the oldest item at capacity. */
    method Append(x: T)
      requires Valid()
      modifies this
      ensures Valid()
      ensures items == Pushed(old(items), maxlen, x)
    {
      if maxlen == 0 {
        return;
      }
      if |items| == maxlen {
        items := items[1..];
      }
      items := items + [x];
    }

    method Len() returns (n: nat)
      requires Valid()
      ensures n == |items| && n <= maxlen
    {
      n := |items|;
    }
  }
}
