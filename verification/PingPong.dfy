/**
 * Why re-routing settles. Every network in which at most one store has a capacity from
 * one to three has a potential that every executed re-route lowers by at least 1/28 (1/14
 * if there is no such store), and that only arrivals and marks of popped orders raise.
 * With two such stores re-routing can go on forever.
 */
module PingPong {
  import opened Options
  import opened Orders
  import opened CostModel
  import opened Reservation
  import opened Stores
  import opened Policy
  import opened Runs

  const SAFE_CAPACITY := 4

  /** A capacity so small that one order lifts a store from the recovery load over the trigger. */
  predicate Small(capacity: int) {
    1 <= capacity < SAFE_CAPACITY
  }

  /**
   * Items squared over capacity. In a small store an item counts 43/28, which lies between
   * what it adds to a target and what it takes from a source elsewhere.
   */
  function Energy(items: int, capacity: int): real {
    if capacity >= SAFE_CAPACITY then (items * items) as real / capacity as real
    else if capacity > 0 then 43.0 / 28.0 * items as real
    else if capacity == 0 then 2.0 * items as real
    else 0.0
  }

  ghost predicate NoneSmall(stores: seq<StoreState>) {
    forall i | 0 <= i < |stores| :: !Small(stores[i].capacity)
  }

  ghost predicate Sound(stores: seq<StoreState>) {
    && (forall i | 0 <= i < |stores| :: stores[i].picking >= 0)
    && (forall i, j | 0 <= i < j < |stores| :: !(Small(stores[i].capacity) && Small(stores[j].capacity)))
  }

  /** By how much an executed re-route lowers the potential at least. */
  ghost function Fall(stores: seq<StoreState>): real {
    if NoneSmall(stores) then 1.0 / 14.0 else 1.0 / 28.0
  }

  ghost function Potential(stores: seq<StoreState>): real {
    if stores == [] then 0.0
    else
      var n := |stores| - 1;
      Potential(stores[..n]) + Energy(stores[n].Items(), stores[n].capacity)
  }

  // ---------- one store ----------

  lemma DivisionMonotone(a: real, b: real, c: real)
    requires c > 0.0 && a <= b
    ensures a / c <= b / c
  {
  }

  /** Adding one item to `items` of a store that is not small. */
  lemma EnergyStep(items: int, capacity: int)
    requires capacity >= SAFE_CAPACITY
    ensures Energy(items + 1, capacity) - Energy(items, capacity) == (2 * items + 1) as real / capacity as real
  {
    var c := capacity as real;
    assert (items + 1) * (items + 1) == items * items + (2 * items + 1);
    assert ((items + 1) * (items + 1)) as real == (items * items) as real + (2 * items + 1) as real;
  }

  /** In whole items, the trigger leaves a safe store this much above its capacity. */
  lemma OverTheTrigger(items: int, capacity: int)
    requires capacity >= SAFE_CAPACITY && 100 * items > TRIGGER_PCT * capacity
    ensures 7 * (2 * items - 1) >= 11 * capacity
  {
    if capacity < 8 {
      assert capacity == 4 || capacity == 5 || capacity == 6 || capacity == 7;
    }
  }

  lemma SafeSourceDrop(items: int, capacity: int)
    requires capacity >= SAFE_CAPACITY && 100 * items > TRIGGER_PCT * capacity
    ensures Energy(items - 1, capacity) <= Energy(items, capacity) - 11.0 / 7.0
  {
    hide Energy;
    OverTheTrigger(items, capacity);
    EnergyStep(items - 1, capacity);
    QuotientAtLeast(2 * items - 1, capacity);
  }

  lemma QuotientAtLeast(n: int, capacity: int)
    requires capacity > 0 && 7 * n >= 11 * capacity
    ensures n as real / capacity as real >= 11.0 / 7.0
  {
    var c := capacity as real;
    DivisionMonotone(11.0 / 7.0 * c, n as real, c);
  }

  lemma SafeTargetRise(items: int, capacity: int)
    requires capacity >= SAFE_CAPACITY && 100 * items < RECOVERY_PCT * capacity
    ensures Energy(items + 1, capacity) <= Energy(items, capacity) + 1.5
  {
    EnergyStep(items, capacity);
    hide Energy;
    assert 2 * (2 * items + 1) <= 3 * capacity;
    var c := capacity as real;
    DivisionMonotone((2 * items + 1) as real, 1.5 * c, c);
  }

  /** What an overloaded store loses with the item it gives away. */
  lemma SourceDrop(items: int, capacity: int)
    requires items > 0 && !Load(items, capacity).AtMost(TRIGGER_PCT)
    ensures Energy(items - 1, capacity)
            <= Energy(items, capacity) - if Small(capacity) then 43.0 / 28.0 else 11.0 / 7.0
  {
    if capacity >= SAFE_CAPACITY {
      SafeSourceDrop(items, capacity);
    }
  }

  /** What a store below the recovery load gains with the item it receives. */
  lemma TargetRise(items: int, capacity: int)
    requires items >= 0 && Load(items, capacity).Below(RECOVERY_PCT)
    ensures Energy(items + 1, capacity) <= Energy(items, capacity) + if Small(capacity) then 43.0 / 28.0 else 1.5
  {
    if capacity >= SAFE_CAPACITY {
      SafeTargetRise(items, capacity);
    }
  }

  /**
   * A store that qualifies as a target is never lifted over the trigger by the order
   * it receives exactly when its capacity is at least four; then it stays strictly below.
   */
  lemma TargetStaysBelowTrigger(capacity: int)
    requires capacity > 0
    ensures (forall items: int | items >= 0 && Load(items, capacity).Below(RECOVERY_PCT) ::
               Load(items + 1, capacity).AtMost(TRIGGER_PCT)) <==> capacity >= SAFE_CAPACITY
    ensures capacity >= SAFE_CAPACITY ==>
              forall items: int | items >= 0 && Load(items, capacity).Below(RECOVERY_PCT) ::
                Load(items + 1, capacity).Below(TRIGGER_PCT)
  {
    if capacity < SAFE_CAPACITY {
      var items := capacity - 1;
      assert Load(items, capacity).Below(RECOVERY_PCT) && !Load(items + 1, capacity).AtMost(TRIGGER_PCT);
    }
  }

  lemma SquareMonotone(a: int, b: int)
    requires 0 <= a <= b
    ensures 0 <= a * a <= b * b
  {
  }

  /** Fewer items mean no more energy. */
  lemma EnergyGrows(items: int, items': int, capacity: int)
    requires 0 <= items' <= items
    ensures 0.0 <= Energy(items', capacity) <= Energy(items, capacity)
  {
    if capacity >= SAFE_CAPACITY {
      SquareMonotone(items', items);
      DivisionMonotone(0.0, (items' * items') as real, capacity as real);
      DivisionMonotone((items' * items') as real, (items * items) as real, capacity as real);
    }
  }

  lemma DivisionShrinks(a: real, c: real)
    requires a >= 0.0 && c >= 1.0
    ensures a / c <= a
  {
    assert a <= a * c;
    DivisionMonotone(a, a * c, c);
    assert a * c / c == a;
  }

  /** One item more adds at most two and twice the items. */
  lemma EnergyRises(items: int, capacity: int)
    requires 0 <= items
    ensures Energy(items + 1, capacity) <= Energy(items, capacity) + (2 * items + 2) as real
  {
    if capacity >= SAFE_CAPACITY {
      EnergyStep(items, capacity);
      DivisionShrinks((2 * items + 1) as real, capacity as real);
    }
  }

  // ---------- the network ----------

  lemma {:induction false} PotentialUpdate(stores: seq<StoreState>, i: nat, s: StoreState)
    requires i < |stores|
    ensures Potential(stores[i := s])
            == Potential(stores) - Energy(stores[i].Items(), stores[i].capacity) + Energy(s.Items(), s.capacity)
  {
    var n := |stores| - 1;
    if i < n {
      assert stores[i := s][..n] == stores[..n][i := s];
      PotentialUpdate(stores[..n], i, s);
    } else {
      assert stores[i := s][..n] == stores[..n];
    }
  }

  lemma {:induction false} PotentialNonNegative(stores: seq<StoreState>)
    requires forall i | 0 <= i < |stores| :: stores[i].picking >= 0
    ensures Potential(stores) >= 0.0
  {
    if stores != [] {
      var n := |stores| - 1;
      PotentialNonNegative(stores[..n]);
      EnergyGrows(stores[n].Items(), 0, stores[n].capacity);
      EnergyGrows(stores[n].Items(), stores[n].Items(), stores[n].capacity);
    }
  }

  /** An outcome other than no action implies an overloaded source. */
  lemma ActionMeansOverload(e: Engine, w: World, dist: Distance, cart: Option<string>, src: nat, t: int)
    requires src < |w.stores|
    requires Evaluate(e, w, dist, cart, src, t).event.outcome != NoAction
    ensures !w.stores[src].CurrentLoad().AtMost(TRIGGER_PCT)
  {
    hide ReRouteCost, BreachPenalty, GateOpen, Nearest;
  }

  /** An evaluation that moves no order between stores leaves the source with no more items. */
  lemma OtherOutcomesAddNothing(e: Engine, w: World, dist: Distance, cart: Option<string>, src: nat, t: int)
    requires src < |w.stores|
    requires Evaluate(e, w, dist, cart, src, t).event.outcome != Executed
    ensures var v, s := Evaluate(e, w, dist, cart, src, t), w.stores[src];
            && |v.world.stores| == |w.stores|
            && v.world.stores == w.stores[src := v.world.stores[src]]
            && v.world.stores[src].capacity == s.capacity && v.world.stores[src].picking == s.picking
            && v.world.stores[src].Items() <= s.Items()
  {
    hide ReRouteCost, BreachPenalty, PredictedDelayMin, GateOpen, Nearest;
    hide Consolidated, MergeCount, Absorbed, Extract, NonPerishables, Perishables, Count, Excess;
    var s := w.stores[src];
    NearestIsBest(w.stores, dist, src, |w.stores|);
    if cart.Some? {
      ConsolidationLedger(s.queue, cart.value, "");
    }
    ExtractPartitions(s.queue, 1, "");
  }

  /** The same stores, with the same capacities and the same orders being picked. */
  ghost predicate SameStores(stores: seq<StoreState>, stores': seq<StoreState>) {
    && |stores'| == |stores|
    && forall i | 0 <= i < |stores| ::
         stores'[i].capacity == stores[i].capacity && stores'[i].picking == stores[i].picking
  }

  lemma SameStoresSameBounds(stores: seq<StoreState>, stores': seq<StoreState>)
    requires SameStores(stores, stores')
    ensures Sound(stores') <==> Sound(stores)
    ensures Fall(stores') == Fall(stores)
  {
    assert NoneSmall(stores') <==> NoneSmall(stores);
  }

  lemma EvaluationKeepsStores(e: Engine, w: World, dist: Distance, cart: Option<string>, src: nat, t: int)
    requires src < |w.stores|
    ensures SameStores(w.stores, Evaluate(e, w, dist, cart, src, t).world.stores)
  {
    hide Evaluate;
    if Evaluate(e, w, dist, cart, src, t).event.outcome == Executed {
      var k, pre, o, post := ExecutedMovesOneOrder(e, w, dist, cart, src, t);
    } else {
      OtherOutcomesAddNothing(e, w, dist, cart, src, t);
    }
  }

  /**
   * One evaluation never raises the potential; an executed re-route lowers it by its fall
   * and leaves its target below the trigger, unless the target is small.
   */
  lemma EvaluationSettles(e: Engine, w: World, dist: Distance, cart: Option<string>, src: nat, t: int)
    requires src < |w.stores| && Sound(w.stores)
    ensures var v := Evaluate(e, w, dist, cart, src, t);
            && Sound(v.world.stores) && Fall(v.world.stores) == Fall(w.stores)
            && Potential(v.world.stores) <= Potential(w.stores)
            && (v.event.outcome == Executed ==>
                  && Potential(v.world.stores) <= Potential(w.stores) - Fall(w.stores)
                  && Target(w, dist, src).Some?
                  && (w.stores[Target(w, dist, src).value].capacity >= SAFE_CAPACITY ==>
                        v.world.stores[Target(w, dist, src).value].CurrentLoad().Below(TRIGGER_PCT)))
  {
    hide Evaluate, Target, Fall, Energy;
    var v := Evaluate(e, w, dist, cart, src, t);
    var s := w.stores[src];
    EvaluationKeepsStores(e, w, dist, cart, src, t);
    SameStoresSameBounds(w.stores, v.world.stores);
    if v.event.outcome == Executed {
      var k, pre, o, post := ExecutedMovesOneOrder(e, w, dist, cart, src, t);
      ActionMeansOverload(e, w, dist, cart, src, t);
      TargetWasBelowRecovery(w, dist, src);
      MoveSettles(w.stores, src, k, v.world.stores);
      FallIsPositive(w.stores);
    } else {
      OtherOutcomesAddNothing(e, w, dist, cart, src, t);
      PotentialUpdate(w.stores, src, v.world.stores[src]);
      EnergyGrows(s.Items(), v.world.stores[src].Items(), s.capacity);
    }
  }

  lemma FallIsPositive(stores: seq<StoreState>)
    ensures Fall(stores) > 0.0
  {
  }

  lemma TargetWasBelowRecovery(w: World, dist: Distance, src: nat)
    requires src < |w.stores| && Target(w, dist, src).Some?
    ensures w.stores[Target(w, dist, src).value].CurrentLoad().Below(RECOVERY_PCT)
  {
    NearestIsBest(w.stores, dist, src, |w.stores|);
  }

  lemma TwoStoresUpdate(stores: seq<StoreState>, src: nat, k: nat, after: seq<StoreState>)
    requires src < |stores| == |after| && k < |stores| && src != k
    requires forall i | 0 <= i < |stores| && i != src && i != k :: after[i] == stores[i]
    ensures Potential(after)
            == Potential(stores)
               - Energy(stores[src].Items(), stores[src].capacity) + Energy(after[src].Items(), after[src].capacity)
               - Energy(stores[k].Items(), stores[k].capacity) + Energy(after[k].Items(), after[k].capacity)
  {
    hide Potential, Energy;
    var half := stores[src := after[src]];
    assert after == half[k := after[k]];
    PotentialUpdate(stores, src, after[src]);
    PotentialUpdate(half, k, after[k]);
  }

  lemma MoveSettles(stores: seq<StoreState>, src: nat, k: nat, after: seq<StoreState>)
    requires src < |stores| == |after| && k < |stores| && src != k && Sound(stores)
    requires !stores[src].CurrentLoad().AtMost(TRIGGER_PCT) && stores[k].CurrentLoad().Below(RECOVERY_PCT)
    requires forall i | 0 <= i < |stores| && i != src && i != k :: after[i] == stores[i]
    requires after[src].capacity == stores[src].capacity && after[k].capacity == stores[k].capacity
    requires after[src].Items() == stores[src].Items() - 1 && after[k].Items() == stores[k].Items() + 1
    requires stores[src].Items() > 0
    ensures Potential(after) <= Potential(stores) - Fall(stores)
    ensures stores[k].capacity >= SAFE_CAPACITY ==> after[k].CurrentLoad().Below(TRIGGER_PCT)
  {
    hide Potential, Energy, Fall, Sound, Small;
    FallBetween(stores, src, k);
    TargetStaysSafe(stores[k].Items(), stores[k].capacity);
    PairSettles(stores[src].Items(), stores[src].capacity, stores[k].Items(), stores[k].capacity, Fall(stores));
    TwoStoresUpdate(stores, src, k, after);
  }

  /** Whatever the two capacities, short of both being small, the source loses more than the target gains. */
  lemma PairSettles(items: int, capacity: int, items': int, capacity': int, fall: real)
    requires items > 0 && !Load(items, capacity).AtMost(TRIGGER_PCT)
    requires items' >= 0 && Load(items', capacity').Below(RECOVERY_PCT)
    requires !(Small(capacity) && Small(capacity')) && fall <= 1.0 / 14.0
    requires Small(capacity) || Small(capacity') ==> fall == 1.0 / 28.0
    ensures Energy(items - 1, capacity) + Energy(items' + 1, capacity')
            <= Energy(items, capacity) + Energy(items', capacity') - fall
  {
    hide Energy;
    SourceDrop(items, capacity);
    TargetRise(items', capacity');
  }

  lemma TargetStaysSafe(items: int, capacity: int)
    requires items >= 0 && Load(items, capacity).Below(RECOVERY_PCT)
    ensures capacity >= SAFE_CAPACITY ==> Load(items + 1, capacity).Below(TRIGGER_PCT)
  {
    if capacity > 0 {
      TargetStaysBelowTrigger(capacity);
    }
  }

  /** What is known of the fall from the two stores of a move. */
  lemma FallBetween(stores: seq<StoreState>, src: nat, k: nat)
    requires src < |stores| && k < |stores| && src != k && Sound(stores)
    ensures !(Small(stores[src].capacity) && Small(stores[k].capacity)) && stores[k].Items() >= 0
    ensures Fall(stores) <= 1.0 / 14.0
    ensures Small(stores[src].capacity) || Small(stores[k].capacity) ==> Fall(stores) == 1.0 / 28.0
  {
  }

  // ---------- what dispatchers and pickers do to the potential ----------

  /** What an act of a dispatcher or a picker adds to the potential, or takes from it. */
  function Drift(site: Site, a: Act): real
    requires Enabled(site, a) && !a.Assess?
  {
    var s := site.world.stores[a.store];
    Energy(ActedOn(s, a).Items(), s.capacity) - Energy(s.Items(), s.capacity)
  }

  /** What those acts add up to over a run. */
  function Drifts(e: Engine, site: Site, dist: Distance, acts: seq<Act>): real
    decreases |acts|
  {
    if acts == [] || !Enabled(site, acts[0]) then 0.0
    else if acts[0].Assess? then
      var v := Evaluate(e, site.world, dist, acts[0].activeCart, acts[0].store, acts[0].t);
      Drifts(v.agent, site.(world := v.world), dist, acts[1..])
    else Drift(site, acts[0]) + Drifts(e, Moves(site, acts[0]), dist, acts[1..])
  }

  lemma MoveDrifts(site: Site, a: Act)
    requires Enabled(site, a) && !a.Assess? && Sound(site.world.stores)
    ensures var stores, stores' := site.world.stores, Moves(site, a).world.stores;
            && Sound(stores') && Fall(stores') == Fall(stores)
            && Potential(stores') == Potential(stores) + Drift(site, a)
  {
    hide Energy;
    var stores, stores' := site.world.stores, Moves(site, a).world.stores;
    assert forall i | 0 <= i < |stores| :: stores'[i].capacity == stores[i].capacity;
    assert NoneSmall(stores') <==> NoneSmall(stores);
    PotentialUpdate(stores, a.store, stores'[a.store]);
  }

  /** Pops and completions only take from the potential, and a mark adds at most two and twice the store's items. */
  lemma PickersDrift(site: Site, a: Act)
    requires Enabled(site, a) && !a.Assess? && !a.Arrive? && Sound(site.world.stores)
    ensures Drift(site, a) <= if a.Mark? then (2 * site.world.stores[a.store].Items() + 2) as real else 0.0
  {
    hide Energy;
    var s := site.world.stores[a.store];
    if a.Mark? {
      EnergyRises(s.Items(), s.capacity);
    } else {
      EnergyGrows(s.Items(), ActedOn(s, a).Items(), s.capacity);
    }
  }

  function CountExecuted(events: seq<Event>): nat {
    if events == [] then 0 else (if events[0].outcome == Executed then 1 else 0) + CountExecuted(events[1..])
  }

  /**
   * No endless ping-pong, over every run: the potential at the start and what dispatchers
   * and pickers added to it, less what is left of it, pay for all executed re-routes.
   */
  lemma {:induction false} ReRoutesArePaidFor(e: Engine, site: Site, dist: Distance, acts: seq<Act>)
    requires Sound(site.world.stores) && EngineRun(e, site, dist, acts).Trace?
    ensures var run, stores := EngineRun(e, site, dist, acts), site.world.stores;
            && Sound(run.site.world.stores)
            && CountExecuted(run.events) as real * Fall(stores)
               <= Potential(stores) + Drifts(e, site, dist, acts) - Potential(run.site.world.stores)
    decreases |acts|
  {
    hide Evaluate, Moves, Drift, Fall, Sound, Potential;
    var run := EngineRun(e, site, dist, acts);
    if acts != [] {
      var a := acts[0];
      if a.Assess? {
        EvaluationSettles(e, site.world, dist, a.activeCart, a.store, a.t);
        var v := Evaluate(e, site.world, dist, a.activeCart, a.store, a.t);
        ReRoutesArePaidFor(v.agent, site.(world := v.world), dist, acts[1..]);
        assert run.events[1..] == EngineRun(v.agent, site.(world := v.world), dist, acts[1..]).events;
        OneMore(CountExecuted(run.events[1..]), Fall(site.world.stores));
      } else {
        MoveDrifts(site, a);
        ReRoutesArePaidFor(e, Moves(site, a), dist, acts[1..]);
      }
    }
  }

  lemma OneMore(n: nat, x: real)
    ensures (n + 1) as real * x == n as real * x + x
  {
  }

  // ---------- between two arrivals ----------

  function InLine(stores: seq<StoreState>): nat {
    if stores == [] then 0 else InLine(stores[..|stores| - 1]) + |stores[|stores| - 1].queue|
  }

  function BeingPicked(stores: seq<StoreState>): int {
    if stores == [] then 0 else BeingPicked(stores[..|stores| - 1]) + stores[|stores| - 1].picking
  }

  function InHand(held: seq<nat>): nat {
    if held == [] then 0 else InHand(held[..|held| - 1]) + held[|held| - 1]
  }

  /** Orders no picker has marked yet. */
  function Unmarked(site: Site): nat {
    InLine(site.world.stores) + InHand(site.held)
  }

  /** All orders that are not completed. */
  function Open(site: Site): int {
    Unmarked(site) + BeingPicked(site.world.stores)
  }

  lemma {:induction false} StoreCounts(stores: seq<StoreState>, i: nat, s: StoreState)
    requires i < |stores|
    ensures InLine(stores[i := s]) == InLine(stores) - |stores[i].queue| + |s.queue|
    ensures BeingPicked(stores[i := s]) == BeingPicked(stores) - stores[i].picking + s.picking
  {
    var n := |stores| - 1;
    if i < n {
      assert stores[i := s][..n] == stores[..n][i := s];
      StoreCounts(stores[..n], i, s);
    } else {
      assert stores[i := s][..n] == stores[..n];
    }
  }

  lemma {:induction false} HeldCounts(held: seq<nat>, i: nat, h: nat)
    requires i < |held|
    ensures InHand(held[i := h]) == InHand(held) - held[i] + h
  {
    var n := |held| - 1;
    if i < n {
      assert held[i := h][..n] == held[..n][i := h];
      HeldCounts(held[..n], i, h);
    } else {
      assert held[i := h][..n] == held[..n];
    }
  }

  lemma {:induction false} ItemsAreOpen(stores: seq<StoreState>, i: nat)
    requires i < |stores| && forall j | 0 <= j < |stores| :: stores[j].picking >= 0
    ensures 0 <= BeingPicked(stores) && stores[i].Items() <= InLine(stores) + BeingPicked(stores)
  {
    var n := |stores| - 1;
    if n > 0 {
      ItemsAreOpen(stores[..n], if i < n then i else 0);
    }
  }

  /** An evaluation adds no orders. */
  lemma EvaluationKeepsOrders(e: Engine, w: World, dist: Distance, cart: Option<string>, src: nat, t: int)
    requires src < |w.stores|
    ensures var stores := Evaluate(e, w, dist, cart, src, t).world.stores;
            InLine(stores) <= InLine(w.stores) && BeingPicked(stores) == BeingPicked(w.stores)
  {
    hide Evaluate, InLine, BeingPicked;
    var stores := Evaluate(e, w, dist, cart, src, t).world.stores;
    if Evaluate(e, w, dist, cart, src, t).event.outcome == Executed {
      var k, pre, o, post := ExecutedMovesOneOrder(e, w, dist, cart, src, t);
      assert stores == w.stores[src := stores[src]][k := stores[k]];
      StoreCounts(w.stores, src, stores[src]);
      StoreCounts(w.stores[src := stores[src]], k, stores[k]);
    } else {
      OtherOutcomesAddNothing(e, w, dist, cart, src, t);
      StoreCounts(w.stores, src, stores[src]);
    }
  }

  lemma PickersKeepOrders(site: Site, a: Act)
    requires Enabled(site, a) && !a.Assess? && !a.Arrive?
    ensures var site' := Moves(site, a);
            && Open(site') <= Open(site)
            && Unmarked(site') == Unmarked(site) - if a.Mark? then 1 else 0
  {
    hide InLine, BeingPicked, InHand;
    var site', i := Moves(site, a), a.store;
    StoreCounts(site.world.stores, i, site'.world.stores[i]);
    if a.Pop? || a.Mark? {
      HeldCounts(site.held, i, site'.held[i]);
    }
  }

  function CountMarks(acts: seq<Act>): nat {
    if acts == [] then 0 else (if acts[0].Mark? then 1 else 0) + CountMarks(acts[1..])
  }

  /** Without arrivals there are at most as many marks as unmarked orders, and each adds at most so much. */
  lemma {:induction false} MarksAreFew(e: Engine, site: Site, dist: Distance, acts: seq<Act>, bound: nat)
    requires Sound(site.world.stores) && EngineRun(e, site, dist, acts).Trace?
    requires Open(site) <= bound && forall a | a in acts :: !a.Arrive?
    ensures CountMarks(acts) <= Unmarked(site)
    ensures Drifts(e, site, dist, acts) <= (CountMarks(acts) * (2 * bound + 2)) as real
    decreases |acts|
  {
    hide Evaluate, Moves, Drift, Sound, Open, Unmarked;
    if acts != [] {
      var a := acts[0];
      assert a in acts;
      if a.Assess? {
        EvaluationSettles(e, site.world, dist, a.activeCart, a.store, a.t);
        var v := Evaluate(e, site.world, dist, a.activeCart, a.store, a.t);
        FewerOpen(e, site, dist, a);
        MarksAreFew(v.agent, site.(world := v.world), dist, acts[1..], bound);
      } else {
        MoveDrifts(site, a);
        PickersDrift(site, a);
        PickersKeepOrders(site, a);
        ItemsAtMostOpen(site, a.store);
        MarksAreFew(e, Moves(site, a), dist, acts[1..], bound);
        var marks := CountMarks(acts[1..]);
        assert (marks + 1) * (2 * bound + 2) == marks * (2 * bound + 2) + (2 * bound + 2);
      }
    }
  }

  lemma ItemsAtMostOpen(site: Site, i: nat)
    requires i < |site.world.stores| && Sound(site.world.stores)
    ensures site.world.stores[i].Items() <= Open(site)
  {
    ItemsAreOpen(site.world.stores, i);
  }

  lemma FewerOpen(e: Engine, site: Site, dist: Distance, a: Act)
    requires a.Assess? && Enabled(site, a)
    ensures var v := Evaluate(e, site.world, dist, a.activeCart, a.store, a.t);
            && Open(site.(world := v.world)) <= Open(site)
            && Unmarked(site.(world := v.world)) <= Unmarked(site)
  {
    hide Evaluate;
    EvaluationKeepsOrders(e, site.world, dist, a.activeCart, a.store, a.t);
  }

  /** How many re-routes there can be before the next arrival. */
  ghost function Limit(site: Site): real
    requires Sound(site.world.stores)
  {
    (Potential(site.world.stores) + (Unmarked(site) * (2 * Open(site) + 2)) as real) / Fall(site.world.stores)
  }

  /**
   * Between two arrivals the number of executed re-routes is bounded, however evaluations,
   * pops, marks and completions are mixed, and with evaluations between a pop and its mark:
   * 14 times (28 times with a small store) the potential at the start, and what marking the
   * orders that wait or are held at the start can add.
   */
  lemma ReRoutesAreBounded(e: Engine, site: Site, dist: Distance, acts: seq<Act>)
    requires Sound(site.world.stores) && forall a | a in acts :: !a.Arrive?
    requires EngineRun(e, site, dist, acts).Trace?
    ensures CountExecuted(EngineRun(e, site, dist, acts).events) as real <= Limit(site)
  {
    hide Potential, EngineRun, CountExecuted, Drifts, Unmarked, CountMarks;
    OpenIsNatural(site);
    var run := EngineRun(e, site, dist, acts);
    ReRoutesArePaidFor(e, site, dist, acts);
    MarksAreFew(e, site, dist, acts, Open(site));
    PotentialNonNegative(run.site.world.stores);
    var marks, each := CountMarks(acts), 2 * Open(site) + 2;
    assert marks * each <= Unmarked(site) * each;
    AtMost(CountExecuted(run.events) as real, Fall(site.world.stores),
           Potential(site.world.stores) + (Unmarked(site) * each) as real);
  }

  lemma OpenIsNatural(site: Site)
    requires Sound(site.world.stores)
    ensures Open(site) >= 0
  {
    if site.world.stores != [] {
      ItemsAreOpen(site.world.stores, 0);
    }
  }

  lemma AtMost(x: real, y: real, z: real)
    requires y > 0.0 && x * y <= z
    ensures x <= z / y
  {
    DivisionMonotone(x * y, z, y);
    assert x * y / y == x;
  }

  /** Every pop is followed at once by its mark. */
  predicate PicksInOneStep(acts: seq<Act>)
    decreases |acts|
  {
    acts == []
    || (if acts[0].Pop? then |acts| >= 2 && acts[1] == Mark(acts[0].store) && PicksInOneStep(acts[2..])
        else !acts[0].Mark? && !acts[0].Arrive? && PicksInOneStep(acts[1..]))
  }

  lemma PopAndMark(e: Engine, site: Site, dist: Distance, acts: seq<Act>)
    requires |acts| >= 2 && acts[0].Pop? && acts[1] == Mark(acts[0].store)
    requires EngineRun(e, site, dist, acts).Trace?
    ensures Enabled(site, acts[0]) && Enabled(Moves(site, acts[0]), acts[1])
    ensures var site' := Moves(Moves(site, acts[0]), acts[1]);
            && EngineRun(e, site', dist, acts[2..]).Trace?
            && Drifts(e, site, dist, acts) == Drifts(e, site', dist, acts[2..])
  {
    hide Evaluate, Energy;
    assert acts[1..][1..] == acts[2..] && acts[1..][0] == acts[1];
  }

  /** With picks in one step nothing is added: the potential at the start alone pays for all executed re-routes. */
  lemma {:induction false} OneStepPicksAddNothing(e: Engine, site: Site, dist: Distance, acts: seq<Act>)
    requires Sound(site.world.stores) && PicksInOneStep(acts) && EngineRun(e, site, dist, acts).Trace?
    ensures Drifts(e, site, dist, acts) <= 0.0
    ensures var run, stores := EngineRun(e, site, dist, acts), site.world.stores;
            CountExecuted(run.events) as real * Fall(stores) <= Potential(stores) - Potential(run.site.world.stores)
    decreases |acts|
  {
    hide Evaluate, Moves, Drift, Sound, Potential, Fall, CountExecuted;
    ReRoutesArePaidFor(e, site, dist, acts);
    if acts != [] {
      var a := acts[0];
      if a.Pop? {
        PopAndMark(e, site, dist, acts);
        MoveDrifts(site, a);
        MoveDrifts(Moves(site, a), acts[1]);
        OneStepPicksAddNothing(e, Moves(Moves(site, a), acts[1]), dist, acts[2..]);
      } else if a.Assess? {
        EvaluationSettles(e, site.world, dist, a.activeCart, a.store, a.t);
        var v := Evaluate(e, site.world, dist, a.activeCart, a.store, a.t);
        OneStepPicksAddNothing(v.agent, site.(world := v.world), dist, acts[1..]);
      } else {
        MoveDrifts(site, a);
        PickersDrift(site, a);
        OneStepPicksAddNothing(e, Moves(site, a), dist, acts[1..]);
      }
    }
  }

  // ---------- two small stores ----------

  predicate Movable(q: seq<Order>) {
    forall o | o in q :: !o.perishable
  }

  /** Stores in the same place are next to each other, all others out of range. */
  function Rooms(): Distance {
    (x, y) => if x == y then 0.0 else 2.0
  }

  /** Two small stores in one place, which they share with nobody; nothing is being picked and all may move. */
  ghost predicate Court(w: World, i: nat, j: nat) {
    && i < |w.stores| && j < |w.stores| && i != j
    && w.book == Unconfigured && DistinctIds(w.stores)
    && Small(w.stores[i].capacity) && Small(w.stores[j].capacity)
    && w.stores[i].picking == w.stores[j].picking == 0
    && Movable(w.stores[i].queue) && Movable(w.stores[j].queue)
    && w.stores[i].location == w.stores[j].location
    && forall k | 0 <= k < |w.stores| && k != i && k != j :: w.stores[k].location != w.stores[i].location
  }

  /** The first of the two stores is full and the second one order short of it. */
  ghost predicate Volley(e: Engine, w: World, i: nat, j: nat, t: int) {
    && Court(w, i, j) && e.mode == Naive
    && |w.stores[i].queue| == w.stores[i].capacity && |w.stores[j].queue| == w.stores[j].capacity - 1
    && !InWindow(Last(e.lastReRoute, w.stores[i].id), t) && !InWindow(Last(e.lastReRoute, w.stores[j].id), t)
  }

  lemma TheOtherIsTheTarget(w: World, i: nat, j: nat)
    requires Court(w, i, j) && |w.stores[j].queue| == w.stores[j].capacity - 1
    ensures Target(w, Rooms(), i) == Some(j)
  {
    NearestIsBest(w.stores, Rooms(), i, |w.stores|);
    assert w.stores[j].id != w.stores[i].id;
    assert Eligible(w.stores, Rooms(), i, j);
  }

  lemma TakeFromMovable(q: seq<Order>)
    requires q != [] && Movable(q)
    ensures Extract(q, 1) == ([q[0]], q[1..])
  {
    assert q[0] in q;
    ExtractNone(q[1..]);
    assert [q[0]] + [] == [q[0]];
  }

  /** A full small store gives an order to one that is one order short: the two change places. */
  lemma Serve(e: Engine, w: World, i: nat, j: nat, t: int) returns (v: Verdict<Engine>)
    requires Court(w, i, j) && e.mode == Naive && !InWindow(Last(e.lastReRoute, w.stores[i].id), t)
    requires |w.stores[i].queue| == w.stores[i].capacity && |w.stores[j].queue| == w.stores[j].capacity - 1
    ensures v == Evaluate(e, w, Rooms(), None, i, t) && v.event.outcome == Executed
    ensures v.event.source == w.stores[i].id && v.agent.mode == Naive
    ensures v.agent.lastReRoute == e.lastReRoute[w.stores[i].id := t]
    ensures |v.world.stores| == |w.stores| && Court(v.world, j, i)
    ensures v.world.stores[i].id == w.stores[i].id && v.world.stores[j].id == w.stores[j].id
    ensures v.world.stores[j].capacity == |v.world.stores[j].queue|
    ensures v.world.stores[i].capacity - 1 == |v.world.stores[i].queue|
  {
    hide GateOpen, QuoteFor, PredictedDelayMin, Nearest;
    v := Evaluate(e, w, Rooms(), None, i, t);
    TheOtherIsTheTarget(w, i, j);
    TakeFromMovable(w.stores[i].queue);
    assert v.world.stores == w.stores[i := v.world.stores[i]][j := v.world.stores[j]];
  }

  /** One exchange: an order goes over and one comes back, and a window later it can start again. */
  lemma Exchange(e: Engine, w: World, i: nat, j: nat, t: int)
    requires Volley(e, w, i, j, t) && t > 0
    ensures var there := Evaluate(e, w, Rooms(), None, i, t);
            && j < |there.world.stores| == |w.stores|
            && var back := Evaluate(there.agent, there.world, Rooms(), None, j, t);
            && there.event.outcome == Executed && back.event.outcome == Executed
            && |back.world.stores| == |w.stores| && Volley(back.agent, back.world, i, j, t + WINDOW_NS)
  {
    hide Evaluate, Movable;
    assert w.stores[i].id != w.stores[j].id;
    var there := Serve(e, w, i, j, t);
    var back := Serve(there.agent, there.world, j, i, t);
  }

  function Exchanges(i: nat, j: nat, n: nat, t: int): (acts: seq<Act>)
    ensures forall a | a in acts :: a.Assess?
  {
    if n == 0 then []
    else [Assess(i, None, t), Assess(j, None, t)] + Exchanges(i, j, n - 1, t + WINDOW_NS)
  }

  /** A run that starts with an evaluation counts that evaluation and then the rest. */
  lemma AssessFirst(e: Engine, site: Site, dist: Distance, a: Act, rest: seq<Act>)
    requires Enabled(site, a) && a.Assess?
    ensures var v := Evaluate(e, site.world, dist, a.activeCart, a.store, a.t);
            var tail := EngineRun(v.agent, site.(world := v.world), dist, rest);
            var whole := EngineRun(e, site, dist, [a] + rest);
            && (whole.Stuck? <==> tail.Stuck?)
            && (tail.Trace? ==> CountExecuted(whole.events)
                                == CountExecuted(tail.events) + if v.event.outcome == Executed then 1 else 0)
  {
    hide Evaluate;
    assert ([a] + rest)[1..] == rest;
    var v := Evaluate(e, site.world, dist, a.activeCart, a.store, a.t);
    match EngineRun(v.agent, site.(world := v.world), dist, rest)
    case Stuck =>
    case Trace(_, _, events) => assert ([v.event] + events)[1..] == events;
  }

  lemma EmptyRun(e: Engine, site: Site, dist: Distance)
    ensures EngineRun(e, site, dist, []) == Trace(e, site, [])
    ensures CountExecuted([]) == 0
  {
  }

  /** A run that starts with an exchange counts two re-routes and then the rest. */
  lemma ExchangeFirst(e: Engine, site: Site, i: nat, j: nat, t: int, rest: seq<Act>) returns (e': Engine, w': World)
    requires Volley(e, site.world, i, j, t) && t > 0 && |site.held| == |site.world.stores|
    ensures Volley(e', w', i, j, t + WINDOW_NS) && |w'.stores| == |site.world.stores|
    ensures var tail := EngineRun(e', site.(world := w'), Rooms(), rest);
            var whole := EngineRun(e, site, Rooms(), [Assess(i, None, t), Assess(j, None, t)] + rest);
            && (whole.Stuck? <==> tail.Stuck?)
            && (tail.Trace? ==> CountExecuted(whole.events) == CountExecuted(tail.events) + 2)
  {
    OnTheCourt(e, site.world, i, j, t);
    hide Evaluate, EngineRun, CountExecuted, Volley;
    Exchange(e, site.world, i, j, t);
    var there := Evaluate(e, site.world, Rooms(), None, i, t);
    var back := Evaluate(there.agent, there.world, Rooms(), None, j, t);
    e', w' := back.agent, back.world;
    var first, second := Assess(i, None, t), Assess(j, None, t);
    AssessFirst(there.agent, site.(world := there.world), Rooms(), second, rest);
    AssessFirst(e, site, Rooms(), first, [second] + rest);
    assert [first, second] + rest == [first] + ([second] + rest);
  }

  lemma OnTheCourt(e: Engine, w: World, i: nat, j: nat, t: int)
    requires Volley(e, w, i, j, t)
    ensures i < |w.stores| && j < |w.stores|
  {
  }

  /** With two small stores there are arrival-free runs with any number of executed re-routes. */
  lemma {:induction false} SmallStoresPlayForever(e: Engine, site: Site, i: nat, j: nat, n: nat, t: int)
    requires Volley(e, site.world, i, j, t) && t > 0 && |site.held| == |site.world.stores|
    ensures EngineRun(e, site, Rooms(), Exchanges(i, j, n, t)).Trace?
    ensures CountExecuted(EngineRun(e, site, Rooms(), Exchanges(i, j, n, t)).events) == 2 * n
    decreases n
  {
    EmptyRun(e, site, Rooms());
    hide EngineRun, CountExecuted, Volley;
    if n > 0 {
      var rest := Exchanges(i, j, n - 1, t + WINDOW_NS);
      var e', w' := ExchangeFirst(e, site, i, j, t, rest);
      SmallStoresPlayForever(e', site.(world := w'), i, j, n - 1, t + WINDOW_NS);
    }
  }

  // ---------- the exact condition ----------

  /** No arrival-free run from here executes more than `bound` re-routes. */
  ghost predicate ReRoutesAtMost(e: Engine, site: Site, dist: Distance, bound: nat) {
    forall acts: seq<Act> | (forall a | a in acts :: !a.Arrive?) && EngineRun(e, site, dist, acts).Trace? ::
      CountExecuted(EngineRun(e, site, dist, acts).events) <= bound
  }

  ghost predicate Bounded(e: Engine, site: Site, dist: Distance) {
    exists bound :: ReRoutesAtMost(e, site, dist, bound)
  }

  ghost predicate OfCapacities(site: Site, capacities: seq<int>) {
    && |site.world.stores| == |site.held| == |capacities|
    && forall i | 0 <= i < |capacities| ::
         site.world.stores[i].capacity == capacities[i] && site.world.stores[i].picking >= 0
  }

  /** Wherever the stores have these capacities, some number bounds the re-routes until the next arrival. */
  ghost predicate FreeOfEndlessPlay(capacities: seq<int>) {
    forall e, site, dist | OfCapacities(site, capacities) :: Bounded(e, site, dist)
  }

  predicate AtMostOneSmall(capacities: seq<int>) {
    forall i, j | 0 <= i < j < |capacities| :: !(Small(capacities[i]) && Small(capacities[j]))
  }

  lemma SoundIsBounded(e: Engine, site: Site, dist: Distance)
    requires Sound(site.world.stores)
    ensures Bounded(e, site, dist)
  {
    EmptyRun(e, site, dist);
    hide EngineRun, CountExecuted, Limit;
    ReRoutesAreBounded(e, site, dist, []);
    var bound: nat := Limit(site).Floor;
    forall acts: seq<Act> | (forall a | a in acts :: !a.Arrive?) && EngineRun(e, site, dist, acts).Trace?
      ensures CountExecuted(EngineRun(e, site, dist, acts).events) <= bound
    {
      ReRoutesAreBounded(e, site, dist, acts);
    }
    assert ReRoutesAtMost(e, site, dist, bound);
  }

  function MovableOrders(n: nat): (q: seq<Order>)
    ensures |q| == n && Movable(q)
  {
    if n == 0 then [] else MovableOrders(n - 1) + [Order("o", "", false, false, 0, Queued)]
  }

  /** A store id for every number. */
  function Name(k: nat): (name: string)
    ensures |name| == k
  {
    seq(k, _ => 'x')
  }

  /** Two small stores in the middle, the first full and the second one order short; everybody else is elsewhere. */
  function Opening(capacities: seq<int>, i: nat, j: nat): World {
    World(seq(|capacities|, k requires 0 <= k < |capacities| => OpeningStore(capacities[k], k, i, j)), Unconfigured)
  }

  function OpeningStore(capacity: int, k: nat, i: nat, j: nat): StoreState {
    var orders := if k == i then capacity else if k == j then capacity - 1 else 0;
    StoreState(Name(k), Location(if k == i || k == j then 0.0 else 1.0, 0.0), capacity, 0,
               MovableOrders(if orders > 0 then orders else 0), 0, 0, 0, 0, 0, 0)
  }

  lemma OpeningIsAVolley(capacities: seq<int>, i: nat, j: nat, e: Engine)
    requires i < |capacities| && j < |capacities| && i != j && Small(capacities[i]) && Small(capacities[j])
    requires e.mode == Naive && e.lastReRoute == map[]
    ensures Volley(e, Opening(capacities, i, j), i, j, 1)
  {
    var w := Opening(capacities, i, j);
    forall a, b | 0 <= a < b < |w.stores| ensures w.stores[a].id != w.stores[b].id {
      assert |Name(a)| != |Name(b)|;
    }
  }

  /**
   * Stores of these capacities, whatever else they are, are free of endless play exactly
   * when at most one of them has a capacity from one to three.
   */
  lemma EndlessPlayIff(capacities: seq<int>)
    ensures FreeOfEndlessPlay(capacities) <==> AtMostOneSmall(capacities)
  {
    if AtMostOneSmall(capacities) {
      forall e, site, dist | OfCapacities(site, capacities) ensures Bounded(e, site, dist) {
        SoundIsBounded(e, site, dist);
      }
    } else {
      var i: nat, j: nat :| i < j < |capacities| && Small(capacities[i]) && Small(capacities[j]);
      TwoSmallAreUnbounded(capacities, i, j);
    }
  }

  lemma TwoSmallAreUnbounded(capacities: seq<int>, i: nat, j: nat)
    requires i < j < |capacities| && Small(capacities[i]) && Small(capacities[j])
    ensures !FreeOfEndlessPlay(capacities)
  {
    var e := Engine(Naive, DEFAULT_CONFIG, map[], map[], NO_DECISIONS);
    var site := Site(Opening(capacities, i, j), seq(|capacities|, _ => 0));
    OpeningIsAVolley(capacities, i, j, e);
    assert OfCapacities(site, capacities);
    hide EngineRun, CountExecuted, Volley;
    forall bound: nat ensures !ReRoutesAtMost(e, site, Rooms(), bound) {
      SmallStoresPlayForever(e, site, i, j, bound + 1, 1);
      assert CountExecuted(EngineRun(e, site, Rooms(), Exchanges(i, j, bound + 1, 1)).events) > bound;
    }
    assert !Bounded(e, site, Rooms());
  }
}
