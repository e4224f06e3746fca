/**
 * The runs of Runs.dfy, whose acts are whole evaluations and single pops, marks,
 * completions and arrivals, are schedules of the step-by-step network of Protocol.dfy.
 */
module Schedules {
  import opened Options
  import opened Orders
  import opened Stores
  import opened Policy
  import opened Runs
  import opened Protocol
  import opened Ledger
  import opened Granularity

  // ---------- runs of steps ----------

  lemma {:induction false} RunAppend(n: Net, a: seq<Action>, m: Net, b: seq<Action>)
    requires Shape(n) && Run(n, a) == Some(m)
    ensures Run(n, a + b) == Run(m, b)
    decreases |a|
  {
    hide Step;
    if a == [] {
      assert a + b == b;
    } else {
      RunAppend(Step(n, a[0]).value, a[1..], m, b);
      assert (a + b)[1..] == a[1..] + b;
    }
  }

  lemma RunOne(n: Net, a: Action, m: Net)
    requires Shape(n) && Step(n, a) == Some(m)
    ensures Run(n, [a]) == Some(m)
  {
    assert Run(m, []) == Some(m);
    hide Step;
    assert [a][1..] == [];
  }

  lemma RunTwo(n: Net, a: Action, m: Net, b: Action, k: Net)
    requires Shape(n) && Step(n, a) == Some(m) && Step(m, b) == Some(k)
    ensures Run(n, [a] + [b]) == Some(k)
  {
    hide Step, Run;
    RunOne(n, a, m);
    RunOne(m, b, k);
    RunAppend(n, [a], m, [b]);
  }

  // ---------- the network between two acts ----------

  /** How many pickers hold an order they have not marked yet. */
  function Holdings(ws: seq<Worker>): nat {
    if ws == [] then 0 else Holdings(ws[..|ws| - 1]) + if ws[|ws| - 1].Holding? then 1 else 0
  }

  function HeldIn(crews: seq<Crew>): seq<nat> {
    seq(|crews|, i requires 0 <= i < |crews| => Holdings(crews[i].workers))
  }

  function SiteOf(n: Net): Site {
    Site(n.world, HeldIn(n.crews))
  }

  function PlansOf(n: Net): seq<seq<Order>> {
    seq(|n.crews|, i requires 0 <= i < |n.crews| => n.crews[i].plan)
  }

  predicate BetweenActs(w: Worker) {
    w.AtTop? || w.Holding? || w.Serving?
  }

  ghost predicate CalmCrew(s: StoreState, c: Crew) {
    && c.dispatcher == Between && !c.cancelled && |c.workers| == s.pickers && s.picking == Busy(c.workers)
    && forall j | 0 <= j < |c.workers| :: BetweenActs(c.workers[j])
  }

  /** Nobody is in the middle of an act, and nobody has been told to stop. */
  ghost predicate Calm(n: Net) {
    && Shape(n) && n.pc == Resting
    && forall i | 0 <= i < |n.crews| :: CalmCrew(n.world.stores[i], n.crews[i])
  }

  /** Store `i` and its crew have changed, and nothing else. */
  ghost predicate OnlyAt(n: Net, n': Net, i: nat, s: StoreState, c: Crew) {
    && i < |n.crews| == |n.world.stores|
    && n'.world == n.world.(stores := n.world.stores[i := s]) && n'.crews == n.crews[i := c]
    && n'.engine == n.engine && n'.pc == n.pc && n'.control == n.control && n'.clock == n.clock
    && n'.log == n.log && n'.monitorCancelled == n.monitorCancelled
  }

  lemma OneCrew(n: Net, n': Net, i: nat, s: StoreState, c: Crew)
    requires Calm(n) && Shape(n') && OnlyAt(n, n', i, s, c) && CalmCrew(s, c)
    ensures Calm(n')
    ensures SiteOf(n') == Site(n.world.(stores := n.world.stores[i := s]), HeldIn(n.crews)[i := Holdings(c.workers)])
    ensures PlansOf(n') == PlansOf(n)[i := c.plan]
  {
    hide CalmCrew;
    assert HeldIn(n'.crews) == HeldIn(n.crews)[i := Holdings(c.workers)];
    assert PlansOf(n') == PlansOf(n)[i := c.plan];
  }

  lemma {:induction false} PickerCounts(ws: seq<Worker>, j: nat, w: Worker)
    requires j < |ws|
    ensures Holdings(ws[j := w]) == Holdings(ws) - (if ws[j].Holding? then 1 else 0) + if w.Holding? then 1 else 0
    ensures Busy(ws[j := w]) == Busy(ws) - (if ws[j].Serving? then 1 else 0) + if w.Serving? then 1 else 0
  {
    var k := |ws| - 1;
    if j < k {
      assert ws[j := w][..k] == ws[..k][j := w];
      PickerCounts(ws[..k], j, w);
    } else {
      assert ws[j := w][..k] == ws[..k];
    }
  }

  /** A picker that waits, one that holds and one that serves an order, where the counts say there is one. */
  lemma {:induction false} FindPicker(ws: seq<Worker>) returns (idle: nat, holding: nat, serving: nat)
    requires forall j | 0 <= j < |ws| :: BetweenActs(ws[j])
    ensures Holdings(ws) + Busy(ws) < |ws| ==> idle < |ws| && ws[idle] == AtTop
    ensures Holdings(ws) > 0 ==> holding < |ws| && ws[holding].Holding?
    ensures Busy(ws) > 0 ==> serving < |ws| && ws[serving].Serving?
  {
    idle, holding, serving := 0, 0, 0;
    if ws != [] {
      var k := |ws| - 1;
      idle, holding, serving := FindPicker(ws[..k]);
      if ws[k] == AtTop {
        idle := k;
      } else if ws[k].Holding? {
        holding := k;
      } else {
        serving := k;
      }
    }
  }

  // ---------- the acts ----------

  /** A dispatcher's turn: push, count for the store, count for the network. */
  lemma ArriveInSteps(n: Net, i: nat) returns (n': Net)
    requires Shape(n) && i < |n.crews| && n.crews[i].dispatcher == Between && n.crews[i].plan != []
    ensures Run(n, [Dispatch(i)] + ([Dispatch(i)] + [Dispatch(i)])) == Some(n')
    ensures var s, c, o := n.world.stores[i], n.crews[i], n.crews[i].plan[0];
            && OnlyAt(n, n', i, s.Enqueued(o).(received := s.received + 1),
                      c.(plan := c.plan[1..], arrived := c.arrived + [o]))
            && n'.created == n.created + 1
  {
    var m1 := DispatchStep(n, i).value;
    var m2 := DispatchStep(m1, i).value;
    n' := DispatchStep(m2, i).value;
    hide Run, DispatchStep;
    RunOne(n, Dispatch(i), m1);
    RunTwo(m1, Dispatch(i), m2, Dispatch(i), n');
    RunAppend(n, [Dispatch(i)], m1, [Dispatch(i)] + [Dispatch(i)]);
  }

  /** A waiting picker takes the first order in line. */
  lemma PopInSteps(n: Net, i: nat, j: nat) returns (n': Net)
    requires Shape(n) && i < |n.crews| && j < |n.crews[i].workers| && n.crews[i].workers[j] == AtTop
    requires !n.crews[i].cancelled && n.world.stores[i].queue != []
    ensures Run(n, [Work(i, j)] + [Work(i, j)]) == Some(n')
    ensures var s, c := n.world.stores[i], n.crews[i];
            && OnlyAt(n, n', i, s.(queue := s.queue[1..]), c.(workers := c.workers[j := Holding(s.queue[0])]))
            && n'.created == n.created
  {
    var m := WorkStep(n, i, j).value;
    n' := WorkStep(m, i, j).value;
    assert n'.crews[i].workers == n.crews[i].workers[j := Holding(n.world.stores[i].queue[0])];
    assert n'.crews == n.crews[i := n'.crews[i]] && n'.world.stores == n.world.stores[i := n'.world.stores[i]];
    hide Run, WorkStep;
    RunTwo(n, Work(i, j), m, Work(i, j), n');
  }

  lemma MarkInSteps(n: Net, i: nat, j: nat) returns (n': Net)
    requires Shape(n) && i < |n.crews| && j < |n.crews[i].workers| && n.crews[i].workers[j].Holding?
    ensures Run(n, [Work(i, j)]) == Some(n')
    ensures var s, c := n.world.stores[i], n.crews[i];
            && OnlyAt(n, n', i, s.(picking := s.picking + 1),
                      c.(workers := c.workers[j := Serving(c.workers[j].order.(status := Picking))]))
            && n'.created == n.created
  {
    n' := WorkStep(n, i, j).value;
    hide Run, WorkStep;
    RunOne(n, Work(i, j), n');
  }

  lemma CompleteInSteps(n: Net, i: nat, j: nat) returns (n': Net)
    requires Shape(n) && i < |n.crews| && j < |n.crews[i].workers| && n.crews[i].workers[j].Serving?
    ensures Run(n, [Work(i, j)] + [Work(i, j)]) == Some(n')
    ensures var s, c := n.world.stores[i], n.crews[i];
            && OnlyAt(n, n', i, s.(picking := s.picking - 1, completed := s.completed + 1),
                      c.(workers := c.workers[j := AtTop],
                         done := c.done + [c.workers[j].order.(status := Completed)]))
            && n'.created == n.created
  {
    var m := WorkStep(n, i, j).value;
    n' := WorkStep(m, i, j).value;
    assert n'.crews[i].workers == n.crews[i].workers[j := AtTop];
    assert n'.crews == n.crews[i := n'.crews[i]] && n'.world.stores == n.world.stores[i := n'.world.stores[i]];
    hide Run, WorkStep;
    RunTwo(n, Work(i, j), m, Work(i, j), n');
  }

  lemma EvaluationKeepsPickers(e: Engine, w: World, dist: Distance, cart: Option<string>, src: nat, t: int)
    requires src < |w.stores|
    ensures var stores := Evaluate(e, w, dist, cart, src, t).world.stores;
            && |stores| == |w.stores|
            && forall i | 0 <= i < |stores| ::
                 stores[i].pickers == w.stores[i].pickers && stores[i].picking == w.stores[i].picking
  {
    hide QuoteFor, Nearest, Extract, Consolidated, MergeCount;
  }

  // ---------- one act ----------

  /** What the schedule, the pickers and the clock allow as the next act. */
  ghost predicate Possible(site: Site, plans: seq<seq<Order>>, clock: int, a: Act) {
    && Enabled(site, a) && a.store < |plans|
    && match a
       case Arrive(i, o) => plans[i] != [] && plans[i][0] == o
       case Pop(i) => site.held[i] + site.world.stores[i].picking < site.world.stores[i].pickers
       case Mark(_) => true
       case Complete(_) => true
       case Assess(_, _, t) => 0 < t && clock <= t
  }

  function PlansAfter(plans: seq<seq<Order>>, a: Act): seq<seq<Order>> {
    if a.Arrive? && a.store < |plans| && plans[a.store] != [] then plans[a.store := plans[a.store][1..]] else plans
  }

  lemma ArriveIsARun(n: Net, i: nat) returns (actions: seq<Action>, n': Net)
    requires Calm(n) && i < |n.crews| && n.crews[i].plan != []
    ensures Run(n, actions) == Some(n') && Calm(n') && n'.engine == n.engine && n'.clock == n.clock
    ensures var a := Arrive(i, n.crews[i].plan[0]);
            && Enabled(SiteOf(n), a) && SiteOf(n') == Moves(SiteOf(n), a) && PlansOf(n') == PlansAfter(PlansOf(n), a)
  {
    hide Run;
    assert CalmCrew(n.world.stores[i], n.crews[i]);
    n' := ArriveInSteps(n, i);
    actions := [Dispatch(i)] + ([Dispatch(i)] + [Dispatch(i)]);
    OneCrew(n, n', i, n'.world.stores[i], n'.crews[i]);
    assert HeldIn(n.crews)[i := Holdings(n.crews[i].workers)] == HeldIn(n.crews);
  }

  /** A picker's act, by one of the pickers who can. */
  lemma PickerActIsARun(n: Net, a: Act) returns (actions: seq<Action>, n': Net)
    requires Calm(n) && (a.Pop? || a.Mark? || a.Complete?) && Possible(SiteOf(n), PlansOf(n), n.clock, a)
    ensures Run(n, actions) == Some(n') && Calm(n') && n'.engine == n.engine && n'.clock == n.clock
    ensures SiteOf(n') == Moves(SiteOf(n), a) && PlansOf(n') == PlansAfter(PlansOf(n), a)
  {
    hide Run, Busy, Holdings;
    var i := a.store;
    assert CalmCrew(n.world.stores[i], n.crews[i]);
    var idle, holding, serving := FindPicker(n.crews[i].workers);
    var j;
    match a {
      case Pop(_) =>
        j := idle;
        n' := PopInSteps(n, i, j);
        actions := [Work(i, j)] + [Work(i, j)];
      case Mark(_) =>
        j := holding;
        n' := MarkInSteps(n, i, j);
        actions := [Work(i, j)];
      case Complete(_) =>
        j := serving;
        n' := CompleteInSteps(n, i, j);
        actions := [Work(i, j)] + [Work(i, j)];
    }
    PickerCounts(n.crews[i].workers, j, n'.crews[i].workers[j]);
    OneCrew(n, n', i, n'.world.stores[i], n'.crews[i]);
    assert PlansOf(n)[i := n.crews[i].plan] == PlansOf(n);
  }

  lemma AssessIsARun(n: Net, dist: Distance, a: Act) returns (actions: seq<Action>, n': Net)
    requires Calm(n) && a.Assess? && Possible(SiteOf(n), PlansOf(n), n.clock, a)
    ensures Run(n, actions) == Some(n') && Calm(n') && n'.clock == a.t
    ensures var v := Evaluate(n.engine, n.world, dist, a.activeCart, a.store, a.t);
            && n'.engine == v.agent && SiteOf(n') == SiteOf(n).(world := v.world) && PlansOf(n') == PlansOf(n)
  {
    hide Run, Evaluate;
    actions, n' := EvaluationIsARun(n, dist, a.activeCart, a.store, a.t);
    EvaluationKeepsPickers(n.engine, n.world, dist, a.activeCart, a.store, a.t);
    forall i | 0 <= i < |n.crews| ensures CalmCrew(n'.world.stores[i], n'.crews[i]) {
      assert CalmCrew(n.world.stores[i], n.crews[i]);
    }
    assert HeldIn(n'.crews) == HeldIn(n.crews) && PlansOf(n') == PlansOf(n);
  }

  // ---------- whole runs ----------

  /** Every act of the run is possible when its turn comes. */
  ghost predicate Playable(
      e: Engine, site: Site, plans: seq<seq<Order>>, clock: int, dist: Distance, acts: seq<Act>)
    decreases |acts|
  {
    acts == []
    || (var a, rest := acts[0], acts[1..];
        && Possible(site, plans, clock, a)
        && if a.Assess? then
             var v := Evaluate(e, site.world, dist, a.activeCart, a.store, a.t);
             Playable(v.agent, site.(world := v.world), plans, a.t, dist, rest)
           else Playable(e, Moves(site, a), PlansAfter(plans, a), clock, dist, rest))
  }

  /**
   * Every run of whole evaluations, arrivals, pops, marks and completions that the
   * schedules, the pickers and the clock allow is a schedule of the step-by-step network,
   * with the same engine and stores at its end.
   */
  lemma {:induction false} EngineRunIsARun(n: Net, dist: Distance, acts: seq<Act>)
    returns (actions: seq<Action>, n': Net)
    requires Calm(n) && Playable(n.engine, SiteOf(n), PlansOf(n), n.clock, dist, acts)
    ensures EngineRun(n.engine, SiteOf(n), dist, acts).Trace?
    ensures Run(n, actions) == Some(n') && Calm(n')
    ensures var run := EngineRun(n.engine, SiteOf(n), dist, acts);
            n'.engine == run.agent && SiteOf(n') == run.site
    decreases |acts|
  {
    NothingRuns(n);
    assert Shape(n);
    hide Run, Evaluate, Moves, Calm, SiteOf, PlansOf;
    if acts == [] {
      actions, n' := [], n;
    } else {
      var a := acts[0];
      var first, m;
      if a.Arrive? {
        PlanIsThere(n, a);
        first, m := ArriveIsARun(n, a.store);
      } else if a.Assess? {
        first, m := AssessIsARun(n, dist, a);
      } else {
        first, m := PickerActIsARun(n, a);
      }
      var rest;
      rest, n' := EngineRunIsARun(m, dist, acts[1..]);
      actions := first + rest;
      RunAppend(n, first, m, rest);
    }
  }

  lemma NothingRuns(n: Net)
    requires Calm(n)
    ensures Run(n, []) == Some(n)
  {
  }

  lemma PlanIsThere(n: Net, a: Act)
    requires a.Arrive? && Possible(SiteOf(n), PlansOf(n), n.clock, a)
    ensures a.store < |n.crews| && n.crews[a.store].plan != [] && a == Arrive(a.store, n.crews[a.store].plan[0])
  {
  }

  /** A network that is about to start is calm. */
  lemma StartIsCalm(n: Net)
    requires Initial(n)
    ensures Calm(n)
  {
    forall i | 0 <= i < |n.crews| ensures CalmCrew(n.world.stores[i], n.crews[i]) {
      assert FreshStore(n.world.stores[i]) && FreshCrew(n.crews[i], n.world.stores[i].pickers);
      NobodyBusy(n.crews[i].workers);
    }
  }
}
