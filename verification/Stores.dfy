/** A dark store: its queue, its counters and its load. */
module Stores {
  import opened Orders
  import opened OrderQueues

  datatype Location = Location(lat: real, lng: real)

  /** The great-circle distance in km; nothing is assumed about it. */
  type Distance = (Location, Location) -> real

  /**
   * The exact quotient items / capacity. The comparisons say what the comparison of
   * the floating-point quotient says, infinities and not-a-number included.
   */
  datatype Load = Load(items: int, capacity: int) {
    /** load <= pct / 100 */
    predicate AtMost(pct: int) {
      if capacity > 0 then 100 * items <= pct * capacity
      else if capacity < 0 then 100 * items >= pct * capacity
      else items < 0
    }

    /** load < pct / 100 */
    predicate Below(pct: int) {
      if capacity > 0 then 100 * items < pct * capacity
      else if capacity < 0 then 100 * items > pct * capacity
      else items < 0
    }
  }

  /**
   * The comparisons are those of the real quotient, for every capacity that has one. With a
   * capacity of zero the quotient is infinite or no number: only one that is infinite and
   * negative, for fewer than no items, is below anything.
   */
  lemma LoadIsQuotient(l: Load, pct: int)
    ensures l.capacity != 0 ==>
              && (l.AtMost(pct) <==> l.items as real / l.capacity as real <= pct as real / 100.0)
              && (l.Below(pct) <==> l.items as real / l.capacity as real < pct as real / 100.0)
    ensures l.capacity == 0 ==> (l.AtMost(pct) <==> l.items < 0) && (l.Below(pct) <==> l.items < 0)
  {
    if l.capacity > 0 {
      QuotientCompares(l.items as real, l.capacity as real, pct as real);
    } else if l.capacity < 0 {
      QuotientCompares(-l.items as real, -l.capacity as real, pct as real);
      NegatedQuotient(l.items as real, l.capacity as real);
    }
  }

  lemma QuotientCompares(items: real, capacity: real, pct: real)
    requires capacity > 0.0
    ensures 100.0 * items <= pct * capacity <==> items / capacity <= pct / 100.0
    ensures 100.0 * items < pct * capacity <==> items / capacity < pct / 100.0
  {
    var q, p := items / capacity, pct / 100.0;
    assert q * capacity == items && 100.0 * (p * capacity) == pct * capacity;
    ScaledCompares(q, p, capacity);
  }

  lemma ScaledCompares(x: real, y: real, k: real)
    requires k > 0.0
    ensures x <= y <==> x * k <= y * k
    ensures x < y <==> x * k < y * k
  {
    if x <= y {
      assert x * k <= y * k;
    }
    if x < y {
      assert x * k < y * k;
    }
    if y < x {
      assert y * k < x * k;
    }
    if y <= x {
      assert y * k <= x * k;
    }
  }

  lemma NegatedQuotient(a: real, b: real)
    requires b != 0.0
    ensures -a / -b == a / b
  {
    var q := a / b;
    assert q * b == a;
    assert q * -b == -a;
    assert q * -b / -b == q;
  }

  datatype StoreState = StoreState(
    id: string,
    location: Location,
    capacity: int,
    pickers: nat,
    queue: seq<Order>,
    received: int,
    completed: int,
    reRoutedIn: int,
    reRoutedOut: int,
    picking: int,
    lastReRouteNs: int)
  {
    function Items(): int {
      |queue| + picking
    }

    function CurrentLoad(): Load {
      Load(Items(), capacity)
    }

    function Enqueued(o: Order): StoreState {
      this.(queue := queue + [Pushed(o)])
    }
  }

  class Store {
    const id: string
    const location: Location
    const capacity: int
    const pickerCount: nat
    const currentQueue: OrderQueue
    var receivedCount: int
    var completedCount: int
    var reRoutedInCount: int
    var reRoutedOutCount: int
    var activePickingCount: int
    var lastReRouteSimTimeNs: int

    ghost function State(): StoreState
      reads this, currentQueue
    {
      StoreState(id, location, capacity, pickerCount, currentQueue.orders, receivedCount, completedCount,
                 reRoutedInCount, reRoutedOutCount, activePickingCount, lastReRouteSimTimeNs)
    }

    constructor (id: string, location: Location, capacity: int, pickerCount: nat)
      ensures fresh(currentQueue)
      ensures State() == StoreState(id, location, capacity, pickerCount, [], 0, 0, 0, 0, 0, 0)
    {
      this.id, this.location, this.capacity, this.pickerCount := id, location, capacity, pickerCount;
      currentQueue := new OrderQueue();
      receivedCount, completedCount, reRoutedInCount, reRoutedOutCount := 0, 0, 0, 0;
      activePickingCount, lastReRouteSimTimeNs := 0, 0;
    }

    method EnqueueOrder(order: Order)
      modifies currentQueue
      ensures State() == old(State()).Enqueued(order)
    {
      currentQueue.Push(order);
    }

    method IncrReceived()
      modifies this`receivedCount
      ensures State() == old(State()).(received := old(receivedCount) + 1)
    {
      receivedCount := receivedCount + 1;
    }

    method IncrReRoutedIn()
      modifies this`reRoutedInCount
      ensures State() == old(State()).(reRoutedIn := old(reRoutedInCount) + 1)
    {
      reRoutedInCount := reRoutedInCount + 1;
    }

    method IncrReRoutedOut()
      modifies this`reRoutedOutCount
      ensures State() == old(State()).(reRoutedOut := old(reRoutedOutCount) + 1)
    {
      reRoutedOutCount := reRoutedOutCount + 1;
    }

    method SetLastReRouteSimTimeNs(val: int)
      modifies this`lastReRouteSimTimeNs
      ensures State() == old(State()).(lastReRouteNs := val)
    {
      lastReRouteSimTimeNs := val;
    }

    method IncrPicking()
      modifies this`activePickingCount
      ensures State() == old(State()).(picking := old(activePickingCount) + 1)
    {
      activePickingCount := activePickingCount + 1;
    }

    method DecrPickingAndIncrCompleted()
      modifies this`activePickingCount, this`completedCount
      ensures State() == old(State()).(picking := old(activePickingCount) - 1, completed := old(completedCount) + 1)
    {
      activePickingCount := activePickingCount - 1;
      completedCount := completedCount + 1;
    }

    method ComputeLoad() returns (load: Load)
      ensures load == State().CurrentLoad()
    {
      var queueLen := currentQueue.Len();
      load := Load(queueLen + activePickingCount, capacity);
    }
  }

  /** No two entries share a store object or a queue object. */
  ghost predicate Separate(stores: seq<Store>) {
    forall i, j :: 0 <= i < j < |stores| ==>
      stores[i] != stores[j] && stores[i].currentQueue != stores[j].currentQueue
  }

  ghost function Footprint(stores: seq<Store>): set<object> {
    (set s: Store | s in stores :: s as object) + (set s: Store | s in stores :: s.currentQueue as object)
  }

  lemma InFootprint(stores: seq<Store>, i: nat)
    requires i < |stores|
    ensures {stores[i] as object, stores[i].currentQueue as object} <= Footprint(stores)
  {
    assert stores[i] in stores;
  }

  ghost function States(stores: seq<Store>): (states: seq<StoreState>)
    reads Footprint(stores)
    ensures |states| == |stores|
    ensures forall i :: 0 <= i < |stores| ==> states[i] == stores[i].State()
  {
    if stores == [] then [] else States(stores[..|stores| - 1]) + [stores[|stores| - 1].State()]
  }
}
