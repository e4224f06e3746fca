/** The FIFO order queue of a store. Each method is one critical section of its mutex. */
module OrderQueues {
  import opened Options
  import opened Orders

  class OrderQueue {
    var orders: seq<Order>

    constructor ()
      ensures orders == []
    {
      orders := [];
    }

    method Push(order: Order)
      modifies this
      ensures orders == old(orders) + [Pushed(order)]
    {
      var stored := order;
      if order.status == Unset {
        stored := order.(status := Queued);
      }
      orders := orders + [stored];
    }

    method Pop() returns (order: Option<Order>)
      modifies this
      ensures old(orders) == [] ==> order == None && orders == []
      ensures old(orders) != [] ==> order.Some? && old(orders) == [order.value] + orders
    {
      if |orders| == 0 {
        return None;
      }
      order := Some(orders[0]);
      orders := orders[1..];
    }

    method Len() returns (n: nat)
      ensures n == |orders|
    {
      n := |orders|;
    }

    method ExtractNonPerishables(maxCount: nat) returns (extracted: seq<Order>)
      modifies this
      ensures extracted == Extract(old(orders), maxCount).0
      ensures orders == Extract(old(orders), maxCount).1
    {
      hide Extract;
      extracted := [];
      var remaining := [];
      var i := 0;
      while i < |orders|
        invariant i <= |orders|
        invariant orders == old(orders)
        invariant |extracted| <= maxCount
        invariant Extract(orders, maxCount).0 == extracted + Extract(orders[i..], maxCount - |extracted|).0
        invariant Extract(orders, maxCount).1 == remaining + Extract(orders[i..], maxCount - |extracted|).1
      {
        var ord := orders[i];
        ExtractFrom(orders, i, maxCount - |extracted|);
        if !ord.perishable && |extracted| < maxCount {
          extracted := extracted + [ord];
        } else {
          remaining := remaining + [ord];
        }
        i := i + 1;
      }
      assert orders[i..] == [];
      NothingToExtract(maxCount - |extracted|);
      orders := remaining;
    }

    method ConsolidateOrdersByCart(cartId: string) returns (passes: nat, merged: nat)
      modifies this
      ensures orders == Consolidated(old(orders), cartId)
      ensures merged == MergeCount(old(orders), cartId)
      ensures passes == if merged == 0 then 0 else 1
    {
      NothingMatches(cartId);
      hide Matching, Others;
      if |orders| < 2 || cartId == "" {
        return 0, 0;
      }
      var matching, remaining := [], [];
      var i := 0;
      while i < |orders|
        invariant i <= |orders|
        invariant orders == old(orders)
        invariant Matching(orders, cartId) == matching + Matching(orders[i..], cartId)
        invariant Others(orders, cartId) == remaining + Others(orders[i..], cartId)
      {
        var ord := orders[i];
        MatchingFrom(orders, i, cartId);
        if ord.cartId == cartId && !ord.consolidated {
          matching := matching + [ord];
        } else {
          remaining := remaining + [ord];
        }
        i := i + 1;
      }
      assert orders[i..] == [];
      if |matching| < 2 {
        return 0, 0;
      }
      var primary := matching[0].(consolidated := true, count := |matching|);
      orders := [primary] + remaining;
      return 1, |matching|;
    }
  }
}
