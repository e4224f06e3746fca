/**
 * Runs in which every evaluation is one step, mixed in any order with arrivals, with
 * pickers popping orders and marking them as picking, and with completions.
 */
module Runs {
  import opened Options
  import opened Orders
  import opened CostModel
  import opened Reservation
  import opened Stores
  import opened Policy

  /** The network, and how many orders of each store a picker has popped and not yet marked as picking. */
  datatype Site = Site(world: World, held: seq<nat>)

  datatype Act =
    | Arrive(store: nat, order: Order)
    | Pop(store: nat)
    | Mark(store: nat)
    | Complete(store: nat)
    | Assess(store: nat, activeCart: Option<string>, t: int)

  predicate Enabled(site: Site, a: Act) {
    && a.store < |site.world.stores| && a.store < |site.held|
    && (a.Pop? ==> site.world.stores[a.store].queue != [])
    && (a.Mark? ==> site.held[a.store] > 0)
    && (a.Complete? ==> site.world.stores[a.store].picking > 0)
  }

  /** The store an act is about, after the act of a dispatcher or a picker. */
  function ActedOn(s: StoreState, a: Act): StoreState
    requires !a.Assess? && (a.Pop? ==> s.queue != [])
  {
    match a
    case Arrive(_, o) => s.Enqueued(o).(received := s.received + 1)
    case Pop(_) => s.(queue := s.queue[1..])
    case Mark(_) => s.(picking := s.picking + 1)
    case Complete(_) => s.(picking := s.picking - 1, completed := s.completed + 1)
  }

  /** What the dispatcher and the pickers do to the network. */
  function Moves(site: Site, a: Act): Site
    requires Enabled(site, a) && !a.Assess?
  {
    var i := a.store;
    Site(site.world.(stores := site.world.stores[i := ActedOn(site.world.stores[i], a)]),
         if a.Pop? then site.held[i := site.held[i] + 1]
         else if a.Mark? then site.held[i := site.held[i] - 1]
         else site.held)
  }

  datatype Trace<E> = Stuck | Trace(agent: E, site: Site, events: seq<Event>)

  /** The unified engine driven by a list of acts; `Stuck` if some act is not enabled. */
  function EngineRun(e: Engine, site: Site, dist: Distance, acts: seq<Act>): Trace<Engine>
    decreases |acts|
  {
    if acts == [] then Trace(e, site, [])
    else if !Enabled(site, acts[0]) then Stuck
    else if acts[0].Assess? then
      var v := Evaluate(e, site.world, dist, acts[0].activeCart, acts[0].store, acts[0].t);
      match EngineRun(v.agent, site.(world := v.world), dist, acts[1..])
      case Stuck => Stuck
      case Trace(e', site', events) => Trace(e', site', [v.event] + events)
    else
      EngineRun(e, Moves(site, acts[0]), dist, acts[1..])
  }

  /** The stand-alone re-router driven by the same acts. */
  function ReRouterRun(r: ReRouter, site: Site, dist: Distance, acts: seq<Act>): Trace<ReRouter>
    decreases |acts|
  {
    if acts == [] then Trace(r, site, [])
    else if !Enabled(site, acts[0]) then Stuck
    else if acts[0].Assess? then
      var v := EvaluateAndReRoute(r, site.world, dist, acts[0].store, acts[0].t);
      match ReRouterRun(v.agent, site.(world := v.world), dist, acts[1..])
      case Stuck => Stuck
      case Trace(r', site', events) => Trace(r', site', [v.event] + events)
    else
      ReRouterRun(r, Moves(site, acts[0]), dist, acts[1..])
  }

  // ---------- the two implementations agree ----------

  ghost predicate DistinctIds(stores: seq<StoreState>) {
    forall i, j :: 0 <= i < j < |stores| ==> stores[i].id != stores[j].id
  }

  /**
   * The two decision makers are in matching states: same rates, gate switch and
   * counts, and the engine's time per store id is the time kept in the store.
   */
  ghost predicate Matched(e: Engine, r: ReRouter, w: World) {
    && SameSettings(e, r)
    && forall i | 0 <= i < |w.stores| :: Last(e.lastReRoute, w.stores[i].id) == w.stores[i].lastReRouteNs
  }

  predicate SameSettings(e: Engine, r: ReRouter) {
    && r.cost == e.cost && r.summary == e.summary && r.gated == (e.mode != Naive)
    && (e.mode == FullOrchestration ==> e.lastNudge == map[])
  }

  /** One evaluation, seen from outside: same event, same network, same counts. */
  lemma EvaluationsLookAlike(e: Engine, r: ReRouter, w: World, dist: Distance, cart: Option<string>, src: nat, t: int)
    requires src < |w.stores| && SameSettings(e, r)
    requires Last(e.lastReRoute, w.stores[src].id) == w.stores[src].lastReRouteNs
    requires e.mode == FullOrchestration ==> cart == None
    ensures var v, u := Evaluate(e, w, dist, cart, src, t), EvaluateAndReRoute(r, w, dist, src, t);
            && v.event == u.event && v.world == u.world && u.agent.summary == v.agent.summary
  {
    hide QuoteFor, PredictedDelayMin, GateOpen, Nearest, Transferred, After, Consolidated, MergeCount;
  }

  /** After an evaluation the engine's times are still those in the stores. */
  lemma TimesStayMatched(e: Engine, w: World, dist: Distance, cart: Option<string>, src: nat, t: int)
    requires src < |w.stores| && DistinctIds(w.stores)
    requires forall i | 0 <= i < |w.stores| :: Last(e.lastReRoute, w.stores[i].id) == w.stores[i].lastReRouteNs
    requires e.mode == FullOrchestration ==> cart == None
    ensures var v := Evaluate(e, w, dist, cart, src, t);
            && |v.world.stores| == |w.stores|
            && v.agent.mode == e.mode && v.agent.cost == e.cost && v.agent.lastNudge == e.lastNudge
            && forall i | 0 <= i < |w.stores| ::
                 Last(v.agent.lastReRoute, v.world.stores[i].id) == v.world.stores[i].lastReRouteNs
  {
    hide ReRouteCost, BreachPenalty, PredictedDelayMin, GateOpen, Nearest, Reserve, Extract, Consolidated, MergeCount;
    var v := Evaluate(e, w, dist, cart, src, t);
    NearestIsBest(w.stores, dist, src, |w.stores|);
    forall i | 0 <= i < |w.stores|
      ensures Last(v.agent.lastReRoute, v.world.stores[i].id) == v.world.stores[i].lastReRouteNs
    {
      assert Last(e.lastReRoute, w.stores[i].id) == w.stores[i].lastReRouteNs;
    }
  }

  lemma ReRouterKeepsRates(r: ReRouter, w: World, dist: Distance, src: nat, t: int)
    requires src < |w.stores|
    ensures EvaluateAndReRoute(r, w, dist, src, t).agent.cost == r.cost
    ensures EvaluateAndReRoute(r, w, dist, src, t).agent.gated == r.gated
  {
    hide QuoteFor, PredictedDelayMin, GateOpen, Nearest, Transferred, After;
  }

  /** One evaluation: same event, same network, and still matched. */
  lemma EvaluationsAgree(e: Engine, r: ReRouter, w: World, dist: Distance, cart: Option<string>, src: nat, t: int)
    requires src < |w.stores| && DistinctIds(w.stores) && Matched(e, r, w)
    requires e.mode == FullOrchestration ==> cart == None
    ensures var v, u := Evaluate(e, w, dist, cart, src, t), EvaluateAndReRoute(r, w, dist, src, t);
            && v.event == u.event && v.world == u.world
            && DistinctIds(v.world.stores) && Matched(v.agent, u.agent, v.world)
  {
    assert Last(e.lastReRoute, w.stores[src].id) == w.stores[src].lastReRouteNs;
    hide Evaluate, EvaluateAndReRoute;
    EvaluationsLookAlike(e, r, w, dist, cart, src, t);
    TimesStayMatched(e, w, dist, cart, src, t);
    ReRouterKeepsRates(r, w, dist, src, t);
    EvaluationKeepsIds(e, w, dist, cart, src, t);
  }

  lemma EvaluationKeepsIds(e: Engine, w: World, dist: Distance, cart: Option<string>, src: nat, t: int)
    requires src < |w.stores|
    ensures |Evaluate(e, w, dist, cart, src, t).world.stores| == |w.stores|
    ensures forall i | 0 <= i < |w.stores| :: Evaluate(e, w, dist, cart, src, t).world.stores[i].id == w.stores[i].id
  {
  }

  /**
   * Over every run the stand-alone re-router and the unified engine produce the same
   * events, network and counts: naive against gate off, cost-gated against gate on,
   * and full orchestration too as long as no active cart is ever seen.
   */
  lemma {:induction false} Bisimulation(e: Engine, r: ReRouter, site: Site, dist: Distance, acts: seq<Act>)
    requires DistinctIds(site.world.stores) && Matched(e, r, site.world)
    requires e.mode == FullOrchestration ==> forall a | a in acts && a.Assess? :: a.activeCart == None
    ensures EngineRun(e, site, dist, acts).Stuck? <==> ReRouterRun(r, site, dist, acts).Stuck?
    ensures EngineRun(e, site, dist, acts).Trace? ==>
              var x, y := EngineRun(e, site, dist, acts), ReRouterRun(r, site, dist, acts);
              && x.events == y.events && x.site == y.site && x.agent.summary == y.agent.summary
              && Matched(x.agent, y.agent, x.site.world)
    decreases |acts|
  {
    hide Evaluate, EvaluateAndReRoute;
    if acts != [] && Enabled(site, acts[0]) {
      var a := acts[0];
      if a.Assess? {
        EvaluationsAgree(e, r, site.world, dist, a.activeCart, a.store, a.t);
        var v := Evaluate(e, site.world, dist, a.activeCart, a.store, a.t);
        var u := EvaluateAndReRoute(r, site.world, dist, a.store, a.t);
        ModeIsKept(e, site.world, dist, a.activeCart, a.store, a.t);
        Bisimulation(v.agent, u.agent, site.(world := v.world), dist, acts[1..]);
      } else {
        Bisimulation(e, r, Moves(site, a), dist, acts[1..]);
      }
    }
  }

  lemma ModeIsKept(e: Engine, w: World, dist: Distance, cart: Option<string>, src: nat, t: int)
    requires src < |w.stores|
    ensures Evaluate(e, w, dist, cart, src, t).agent.mode == e.mode
  {
    hide GateOpen, QuoteFor, Nearest, Transferred, After, Consolidated, MergeCount;
  }
}
