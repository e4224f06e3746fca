/**
 * The accounting check without its two counters does fail: from every start in which
 * enough orders of one cart open the schedule of a store, some run ends in a report that
 * the counters pass and the scan of the queues does not.
 */
module Fallback {
  import opened Options
  import opened Orders
  import opened Stores
  import opened Policy
  import opened Protocol
  import opened Accounting
  import opened Shutdown
  import opened Progress
  import opened Granularity
  import opened Schedules

  /** The first `k` orders of a store's schedule are of one cart and fill the store beyond the trigger. */
  ghost predicate Crowd(n: Net, i: nat, k: nat, cart: string) {
    && Initial(n) && n.engine.mode == FullOrchestration && cart != ""
    && i < |n.crews| && n.world.stores[i].pickers > 0
    && 2 <= k <= |n.crews[i].plan| && !Load(k, n.world.stores[i].capacity).AtMost(TRIGGER_PCT)
    && forall o | o in n.crews[i].plan[..k] :: o.cartId == cart
  }

  /** Every order in the line may be merged into the others. */
  predicate OfOneCart(q: seq<Order>, cart: string) {
    forall o | o in q :: Mergeable(o, cart)
  }

  lemma {:induction false} AllMatch(q: seq<Order>, cart: string)
    requires OfOneCart(q, cart)
    ensures Matching(q, cart) == q && Others(q, cart) == []
  {
    if q != [] {
      assert q[0] in q;
      AllMatch(q[1..], cart);
    }
  }

  lemma OneOrderIsLeft(q: seq<Order>, cart: string)
    requires OfOneCart(q, cart) && |q| >= 2 && cart != ""
    ensures MergeCount(q, cart) == |q|
    ensures Consolidated(q, cart) == [q[0].(consolidated := true, count := |q|)]
  {
    AllMatch(q, cart);
  }

  /** A store's picker waits, and the engine rests; nothing has happened but arrivals. */
  ghost predicate Waits(n: Net, i: nat) {
    && Shape(n) && n.pc == Resting && i < |n.crews| && |n.crews[i].workers| > 0
    && n.crews[i].dispatcher == Between && !n.crews[i].cancelled && n.crews[i].workers[0] == AtTop
    && n.world.stores[i].picking == 0 && n.clock <= 1
  }

  /** The first orders of the schedule arrive. */
  lemma {:induction false} CrowdArrives(n: Net, i: nat, k: nat, cart: string) returns (actions: seq<Action>, n': Net)
    requires Waits(n, i) && k <= |n.crews[i].plan| && OfOneCart(n.world.stores[i].queue, cart)
    requires forall o | o in n.crews[i].plan[..k] :: Mergeable(o, cart)
    ensures Run(n, actions) == Some(n') && Waits(n', i) && n'.engine == n.engine
    ensures OfOneCart(n'.world.stores[i].queue, cart)
    ensures |n'.world.stores[i].queue| == |n.world.stores[i].queue| + k
    ensures n'.world.stores[i].capacity == n.world.stores[i].capacity
    decreases k
  {
    NoSteps(n);
    assert Shape(n);
    hide Run, Shape, OfOneCart;
    if k == 0 {
      actions, n' := [], n;
    } else {
      var plan := n.crews[i].plan;
      var first := [Dispatch(i)] + ([Dispatch(i)] + [Dispatch(i)]);
      var m := ArriveInSteps(n, i);
      assert plan[..k][0] == plan[0] && plan[0] in plan[..k];
      PushedIsMergeable(n.world.stores[i].queue, plan[0], cart);
      assert forall o | o in plan[1..][..k - 1] :: o in plan[..k];
      var rest;
      rest, n' := CrowdArrives(m, i, k - 1, cart);
      actions := first + rest;
      RunAppend(n, first, m, rest);
    }
  }

  lemma PushedIsMergeable(q: seq<Order>, o: Order, cart: string)
    requires OfOneCart(q, cart) && Mergeable(o, cart)
    ensures OfOneCart(q + [Pushed(o)], cart)
  {
  }

  lemma NoSteps(n: Net)
    requires Shape(n)
    ensures Run(n, []) == Some(n)
  {
  }

  /** The overloaded store is nudged: its orders become one. */
  lemma CrowdIsMerged(n: Net, i: nat, cart: string, dist: Distance) returns (actions: seq<Action>, n': Net)
    requires Waits(n, i) && n.engine.mode == FullOrchestration && cart != ""
    requires OfOneCart(n.world.stores[i].queue, cart) && |n.world.stores[i].queue| >= 2
    requires !n.world.stores[i].CurrentLoad().AtMost(TRIGGER_PCT)
    ensures Run(n, actions) == Some(n') && Shape(n') && SameCrews(n, n') && i < |n'.crews|
    ensures |n'.world.stores[i].queue| == 1
    ensures n'.world.stores[i].queue[0].consolidated && n'.world.stores[i].queue[0].count >= 2
  {
    var q := n.world.stores[i].queue;
    OneOrderIsLeft(q, cart);
    NudgeMerges(n.engine, n.world, dist, cart, i, 1);
    hide Run, Evaluate;
    actions, n' := EvaluationIsARun(n, dist, Some(cart), i, 1);
  }

  lemma NudgeMerges(e: Engine, w: World, dist: Distance, cart: string, src: nat, t: int)
    requires src < |w.stores| && e.mode == FullOrchestration && MergeCount(w.stores[src].queue, cart) > 1
    requires !w.stores[src].CurrentLoad().AtMost(TRIGGER_PCT)
    ensures var v := Evaluate(e, w, dist, Some(cart), src, t);
            |v.world.stores| == |w.stores|
            && v.world.stores[src].queue == Consolidated(w.stores[src].queue, cart)
  {
    hide Searched;
  }

  /** A waiting picker serves the order at the head of the line. */
  lemma HeadIsServed(n: Net, i: nat) returns (actions: seq<Action>, n': Net)
    requires Shape(n) && i < |n.crews| && |n.crews[i].workers| > 0 && n.crews[i].workers[0] == AtTop
    requires !n.crews[i].cancelled && n.world.stores[i].queue != []
    ensures Run(n, actions) == Some(n') && i < |n'.crews|
    ensures n'.crews[i].done == n.crews[i].done + [n.world.stores[i].queue[0].(status := Completed)]
  {
    hide Run;
    var m1 := PopInSteps(n, i, 0);
    var m2 := MarkInSteps(m1, i, 0);
    n' := CompleteInSteps(m2, i, 0);
    var pop, mark, complete := [Work(i, 0)] + [Work(i, 0)], [Work(i, 0)], [Work(i, 0)] + [Work(i, 0)];
    RunAppend(m1, mark, m2, complete);
    RunAppend(n, pop, m1, mark + complete);
    actions := pop + (mark + complete);
  }

  /** What is completed stays completed. */
  lemma DoneGrowsInAStep(n: Net, a: Action, n': Net, i: nat)
    requires Shape(n) && Step(n, a) == Some(n') && i < |n.crews|
    ensures i < |n'.crews| && n.crews[i].done <= n'.crews[i].done
  {
    hide ThinkStep;
    match a
    case Think(c) => ThinkKeepsCrews(n, c, n');
    case _ =>
  }

  lemma {:induction false} DoneGrows(n: Net, actions: seq<Action>, n': Net, i: nat)
    requires Shape(n) && Run(n, actions) == Some(n') && i < |n.crews|
    ensures i < |n'.crews| && n.crews[i].done <= n'.crews[i].done
    decreases |actions|
  {
    hide Step;
    if actions != [] {
      var m := Step(n, actions[0]).value;
      DoneGrowsInAStep(n, actions[0], m, i);
      DoneGrows(m, actions[1..], n', i);
    }
  }

  /** A run in which the crowd arrives, is merged by the engine's own decision, and is completed as one. */
  lemma MergedOrderIsCompleted(n: Net, i: nat, k: nat, cart: string, dist: Distance)
    returns (actions: seq<Action>, n': Net)
    requires Crowd(n, i, k, cart)
    ensures Run(n, actions) == Some(n') && i < |n'.crews|
    ensures exists o :: o in n'.crews[i].done && o.consolidated
  {
    CrowdIsReady(n, i, k, cart);
    hide Run, Crowd, Initial, Shape;
    var arrive, m1 := CrowdArrives(n, i, k, cart);
    var merge, m2 := CrowdIsMerged(m1, i, cart, dist);
    var serve;
    serve, n' := HeadIsServed(m2, i);
    RunAppend(m1, merge, m2, serve);
    RunAppend(n, arrive, m1, merge + serve);
    actions := arrive + (merge + serve);
    assert n'.crews[i].done[|m2.crews[i].done|] in n'.crews[i].done;
  }

  lemma CrowdIsReady(n: Net, i: nat, k: nat, cart: string)
    requires Crowd(n, i, k, cart)
    ensures Waits(n, i) && k <= |n.crews[i].plan| && n.world.stores[i].queue == []
    ensures forall o | o in n.crews[i].plan[..k] :: Mergeable(o, cart)
    ensures n.engine.mode == FullOrchestration && cart != "" && k >= 2
    ensures !Load(k, n.world.stores[i].capacity).AtMost(TRIGGER_PCT)
  {
    assert FreshStore(n.world.stores[i]) && FreshCrew(n.crews[i], n.world.stores[i].pickers);
    assert forall o | o in n.crews[i].plan[..k] :: o in n.crews[i].plan;
  }

  /**
   * From every such start, and with every behaviour of what is outside afterwards, some run
   * reaches a report that balances by the counters and does not balance by the scan.
   */
  lemma FallbackCanFail(n: Net, i: nat, k: nat, cart: string, dist: Distance, outside: nat -> Outside)
    returns (actions: seq<Action>, n': Net)
    requires Crowd(n, i, k, cart)
    ensures Run(n, actions) == Some(n') && n'.control == Reported
    ensures Audit(n'.world.stores, n'.created, [n'.engine.summary.merged, n'.engine.summary.nudges]).Ok?
    ensures !Audit(n'.world.stores, n'.created, []).Ok?
  {
    hide Run, Audit;
    var before, m := MergedOrderIsCompleted(n, i, k, cart, dist);
    var more;
    more, n' := EveryRunCanFinishOnItsOwn(n, before, m, outside);
    DoneGrows(m, more, n', i);
    actions := before + more;
    RunAppend(n, before, m, more);
    FinalCheckPasses(n, actions, n');
    ScanPassesUnlessMergesCompleted(n, actions, n');
  }
}
