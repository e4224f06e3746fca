/** A dispatcher and a picker by themselves: what an uninterrupted pass of each loop does. */
module Pickers {
  import opened Options
  import opened Orders
  import opened Stores
  import opened Runs
  import opened Policy

  function Waiting(orders: seq<Order>): seq<Order> {
    if orders == [] then [] else Waiting(orders[..|orders| - 1]) + [Pushed(orders[|orders| - 1])]
  }

  /** The acts of a dispatcher, one arrival after the other. */
  function Arrivals(store: nat, orders: seq<Order>): seq<Act> {
    if orders == [] then [] else [Arrive(store, orders[0])] + Arrivals(store, orders[1..])
  }

  class PickerPool {
    const store: Store

    constructor (store: Store)
      ensures this.store == store
    {
      this.store := store;
    }

    /** One turn of a picker that nobody interrupts: it serves the first order in line, if any. */
    method ServeNext() returns (served: Option<Order>)
      modifies store, store.currentQueue
      ensures var s := old(store.State());
              if s.queue == [] then served == None && store.State() == s
              else
                && served == Some(s.queue[0].(status := Completed))
                && store.State() == s.(queue := s.queue[1..], completed := s.completed + 1)
    {
      var order := store.currentQueue.Pop();
      if order.None? {
        return None;
      }
      var ord := order.value.(status := Picking);
      store.IncrPicking();
      ord := ord.(status := Completed);
      store.DecrPickingAndIncrCompleted();
      served := Some(ord);
    }

    /**
     * The loop of the only picker of a store nobody else touches: `cancelled` are the
     * answers it gets when it looks for cancellation, once a turn. It serves the orders in
     * line one after the other until it finds itself cancelled, and completes the one it is on.
     */
    method Work(cancelled: seq<bool>) returns (served: seq<Order>)
      modifies store, store.currentQueue
      ensures var s, n := old(store.State()), Served(|old(store.State()).queue|, cancelled);
              && served == AllCompleted(s.queue[..n])
              && store.State() == s.(queue := s.queue[n..], completed := s.completed + n)
    {
      served := [];
      ghost var s := store.State();
      var turn := 0;
      while turn < |cancelled| && !cancelled[turn]
        invariant turn <= |cancelled| && turn <= Uncancelled(cancelled)
        invariant |served| == if turn < |s.queue| then turn else |s.queue|
        invariant served == AllCompleted(s.queue[..|served|])
        invariant store.State() == s.(queue := s.queue[|served|..], completed := s.completed + |served|)
      {
        UncancelledAt(cancelled, turn);
        var order := ServeNext();
        if order.Some? {
          assert s.queue[..|served| + 1][..|served|] == s.queue[..|served|];
          served := served + [order.value];
        }
        turn := turn + 1;
      }
      UncancelledAt(cancelled, turn);
    }
  }

  /** How many turns a picker takes before it finds itself cancelled. */
  function Uncancelled(cancelled: seq<bool>): (n: nat)
    ensures n <= |cancelled|
  {
    if cancelled == [] || cancelled[0] then 0 else 1 + Uncancelled(cancelled[1..])
  }

  lemma {:induction false} UncancelledAt(cancelled: seq<bool>, turn: nat)
    requires turn <= |cancelled| && turn <= Uncancelled(cancelled)
    ensures turn == Uncancelled(cancelled) <==> turn == |cancelled| || cancelled[turn]
  {
    if turn > 0 {
      UncancelledAt(cancelled[1..], turn - 1);
    }
  }

  function Served(waiting: nat, cancelled: seq<bool>): (n: nat)
    ensures n <= waiting
  {
    if Uncancelled(cancelled) < waiting then Uncancelled(cancelled) else waiting
  }

  function AllCompleted(orders: seq<Order>): seq<Order> {
    if orders == [] then []
    else AllCompleted(orders[..|orders| - 1]) + [orders[|orders| - 1].(status := Completed)]
  }

  /** A dispatcher's whole schedule: every order is pushed, then counted for the store and for the network. */
  method Dispatch(store: Store, schedule: seq<Order>, createdBefore: int) returns (created: int)
    modifies store, store.currentQueue
    ensures created == createdBefore + |schedule|
    ensures store.State() == old(store.State()).(queue := old(store.State()).queue + Waiting(schedule),
                                                 received := old(store.State()).received + |schedule|)
  {
    created := createdBefore;
    var i := 0;
    while i < |schedule|
      invariant i <= |schedule| && created == createdBefore + i
      invariant store.State() == old(store.State()).(queue := old(store.State()).queue + Waiting(schedule[..i]),
                                                     received := old(store.State()).received + i)
    {
      assert schedule[..i + 1][..i] == schedule[..i];
      store.EnqueueOrder(schedule[i]);
      store.IncrReceived();
      created := created + 1;
      i := i + 1;
    }
    assert schedule[..i] == schedule;
  }

  /** The network with store `i` replaced. */
  function Replaced(site: Site, i: nat, s: StoreState): Site
    requires i < |site.world.stores|
  {
    site.(world := site.world.(stores := site.world.stores[i := s]))
  }

  /** A dispatcher's schedule is a run of arrivals: the queue grows at its end, in the schedule's order. */
  lemma {:induction false} ArrivalsQueueUp(e: Engine, site: Site, dist: Distance, i: nat, orders: seq<Order>)
    requires i < |site.world.stores| == |site.held|
    ensures var s := site.world.stores[i];
            var s' := s.(queue := s.queue + Waiting(orders), received := s.received + |orders|);
            EngineRun(e, site, dist, Arrivals(i, orders)) == Trace(e, Replaced(site, i, s'), [])
    decreases |orders|
  {
    assert EngineRun(e, site, dist, []) == Trace(e, site, []);
    hide EngineRun, Waiting, Moves;
    var s := site.world.stores[i];
    if orders == [] {
      assert Waiting([]) == [] by { NobodyWaits(); }
      assert s.queue + [] == s.queue;
      assert site.world.stores[i := s] == site.world.stores;
    } else {
      var a := Arrive(i, orders[0]);
      WaitingFirst(orders);
      ArriveFirst(e, site, dist, a, Arrivals(i, orders[1..]));
      ArrivalsQueueUp(e, Moves(site, a), dist, i, orders[1..]);
      assert (s.queue + [Pushed(orders[0])]) + Waiting(orders[1..]) == s.queue + Waiting(orders);
    }
  }

  lemma NobodyWaits()
    ensures Waiting([]) == []
  {
  }

  lemma ArriveFirst(e: Engine, site: Site, dist: Distance, a: Act, rest: seq<Act>)
    requires Enabled(site, a) && a.Arrive?
    ensures EngineRun(e, site, dist, [a] + rest) == EngineRun(e, Moves(site, a), dist, rest)
    ensures var s := site.world.stores[a.store];
            Moves(site, a)
            == Replaced(site, a.store, s.(queue := s.queue + [Pushed(a.order)], received := s.received + 1))
  {
    assert ([a] + rest)[1..] == rest;
  }

  lemma {:induction false} WaitingFirst(orders: seq<Order>)
    requires orders != []
    ensures Waiting(orders) == [Pushed(orders[0])] + Waiting(orders[1..])
  {
    if |orders| > 1 {
      var k := |orders| - 1;
      WaitingFirst(orders[..k]);
      assert orders[..k][1..] == orders[1..][..k - 1];
    } else {
      assert orders[1..] == [] && orders[..0] == [];
    }
  }

  function Turns(store: nat, n: nat): seq<Act> {
    if n == 0 then [] else [Pop(store), Mark(store), Complete(store)] + Turns(store, n - 1)
  }

  lemma RunFirst(e: Engine, site: Site, dist: Distance, a: Act, rest: seq<Act>)
    requires Enabled(site, a) && !a.Assess?
    ensures EngineRun(e, site, dist, [a] + rest) == EngineRun(e, Moves(site, a), dist, rest)
  {
    assert ([a] + rest)[1..] == rest;
  }

  /** The picker's loop is a run of that many pops, each followed by its mark and its completion. */
  lemma {:induction false} WorkIsARun(e: Engine, site: Site, dist: Distance, i: nat, n: nat)
    requires i < |site.world.stores| == |site.held|
    requires site.world.stores[i].picking >= 0 && n <= |site.world.stores[i].queue|
    ensures var s := site.world.stores[i];
            EngineRun(e, site, dist, Turns(i, n))
            == Trace(e, Replaced(site, i, s.(queue := s.queue[n..], completed := s.completed + n)), [])
    decreases n
  {
    assert EngineRun(e, site, dist, []) == Trace(e, site, []);
    hide EngineRun;
    var s := site.world.stores[i];
    if n == 0 {
      assert s.queue[0..] == s.queue && site.world.stores[i := s] == site.world.stores;
    } else {
      var site' := Replaced(site, i, s.(queue := s.queue[1..], completed := s.completed + 1));
      TurnIsPickAndComplete(e, site, dist, i, Turns(i, n - 1));
      WorkIsARun(e, site', dist, i, n - 1);
      assert s.queue[1..][n - 1..] == s.queue[n..];
      assert site'.world.stores[i := site'.world.stores[i].(queue := s.queue[n..], completed := s.completed + n)]
             == site.world.stores[i := s.(queue := s.queue[n..], completed := s.completed + n)];
    }
  }

  /** Popping, marking and then completing the first order in line is one turn of a picker. */
  lemma TurnIsPickAndComplete(e: Engine, site: Site, dist: Distance, i: nat, rest: seq<Act>)
    requires i < |site.world.stores| == |site.held|
    requires site.world.stores[i].queue != [] && site.world.stores[i].picking >= 0
    ensures var s := site.world.stores[i];
            var site' := Replaced(site, i, s.(queue := s.queue[1..], completed := s.completed + 1));
            EngineRun(e, site, dist, [Pop(i), Mark(i), Complete(i)] + rest) == EngineRun(e, site', dist, rest)
  {
    hide EngineRun;
    var s := site.world.stores[i];
    var site' := Replaced(site, i, s.(queue := s.queue[1..], completed := s.completed + 1));
    var popped := Moves(site, Pop(i));
    var marked := Moves(popped, Mark(i));
    assert Moves(marked, Complete(i)).held == site.held;
    assert Moves(marked, Complete(i)).world.stores == site'.world.stores;
    RunFirst(e, marked, dist, Complete(i), rest);
    RunFirst(e, popped, dist, Mark(i), [Complete(i)] + rest);
    RunFirst(e, site, dist, Pop(i), [Mark(i)] + ([Complete(i)] + rest));
    assert [Pop(i), Mark(i), Complete(i)] + rest == [Pop(i)] + ([Mark(i)] + ([Complete(i)] + rest));
  }
}
