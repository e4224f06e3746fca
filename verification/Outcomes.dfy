/**
 * What an evaluation decides and reports, said in numbers: every outcome with its exact
 * condition, and every field of the event, without the functions the policies are made of.
 */
module Outcomes {
  import opened Options
  import opened Orders
  import opened CostModel
  import opened Reservation
  import opened Stores
  import opened Policy
  import opened Runs

  // ---------- the conditions ----------

  /** Beyond 85 percent of its capacity, or without a capacity to be within. */
  predicate Overfull(s: StoreState) {
    var items := (|s.queue| + s.picking) as real;
    if s.capacity != 0 then items / s.capacity as real > 0.85 else items >= 0.0
  }

  /** Below 70 percent of its capacity. */
  predicate Roomy(s: StoreState) {
    var items := (|s.queue| + s.picking) as real;
    if s.capacity != 0 then items / s.capacity as real < 0.70 else items < 0.0
  }

  /** Two orders of the active cart wait and have not been merged. */
  predicate CartWaits(e: Engine, s: StoreState, cart: Option<string>) {
    && e.mode == FullOrchestration && cart.Some? && cart.value != ""
    && exists i, j :: 0 <= i < j < |s.queue|
                      && s.queue[i].cartId == cart.value && !s.queue[i].consolidated
                      && s.queue[j].cartId == cart.value && !s.queue[j].consolidated
  }

  predicate Within30s(times: map<string, int>, id: string, t: int) {
    id in times && times[id] > 0 && t - times[id] < 30_000_000_000
  }

  /** In the grace window of a nudge, where there is one, or in the cooldown of a re-route. */
  predicate Rests(e: Engine, id: string, t: int) {
    (e.mode == FullOrchestration && Within30s(e.lastNudge, id, t)) || Within30s(e.lastReRoute, id, t)
  }

  predicate Reachable(w: World, dist: Distance, src: nat, k: nat)
    requires src < |w.stores| && k < |w.stores|
  {
    && w.stores[k].id != w.stores[src].id && Roomy(w.stores[k])
    && dist(w.stores[src].location, w.stores[k].location) <= 1.5
  }

  /** A nearest store in reach, and the first of these in the list. */
  ghost predicate IsTarget(w: World, dist: Distance, src: nat, k: nat)
    requires src < |w.stores|
  {
    && k < |w.stores| && Reachable(w, dist, src, k)
    && forall i: nat | i < |w.stores| && Reachable(w, dist, src, i) ::
         var here := w.stores[src].location;
         && dist(here, w.stores[k].location) <= dist(here, w.stores[i].location)
         && (i < k ==> dist(here, w.stores[k].location) < dist(here, w.stores[i].location))
  }

  /** The rounded base fee and rate times distance. */
  predicate IsCost(cfg: CostConfig, km: real, cost: int) {
    IsNearestSum(cfg.baseFeePaise as real, cfg.perKmRatePaise as real, if km < 0.0 then 0.0 else km, cost)
  }

  /** The rounded rate on the minutes by which the orders waiting are expected to exceed the acceptable delay. */
  predicate IsPenalty(cfg: CostConfig, waiting: nat, penalty: int) {
    var minutes := waiting as real * 1.336 / 60.0;
    if minutes <= cfg.acceptableDelayMin then penalty == 0
    else IsNearestProduct(minutes - cfg.acceptableDelayMin, cfg.penaltyPerMinPaise as real, penalty)
  }

  /** The move costs less than leaving the orders where they are. */
  ghost predicate Pays(cfg: CostConfig, km: real, waiting: nat) {
    exists cost, penalty :: IsCost(cfg, km, cost) && IsPenalty(cfg, waiting, penalty) && cost < penalty
  }

  predicate IsFirstMovable(q: seq<Order>, i: nat) {
    i < |q| && !q[i].perishable && forall j | 0 <= j < i :: q[j].perishable
  }

  predicate CanMove(q: seq<Order>) {
    exists i :: 0 <= i < |q| && !q[i].perishable
  }

  predicate HasStock(book: StockBook, id: string) {
    book.Unconfigured? || ((id, "SKU-GENERIC") in book.units && book.units[(id, "SKU-GENERIC")] >= 1)
  }

  // ---------- they are what the policy computes ----------

  lemma LoadsCompare(s: StoreState)
    ensures Overfull(s) <==> !s.CurrentLoad().AtMost(TRIGGER_PCT)
    ensures Roomy(s) <==> s.CurrentLoad().Below(RECOVERY_PCT)
  {
    LoadIsQuotient(s.CurrentLoad(), TRIGGER_PCT);
    LoadIsQuotient(s.CurrentLoad(), RECOVERY_PCT);
  }

  lemma CartsCompare(e: Engine, s: StoreState, cart: Option<string>)
    ensures CartWaits(e, s, cart)
            <==> e.mode == FullOrchestration && cart.Some? && MergeCount(s.queue, cart.value) > 1
  {
    if cart.Some? {
      var first, others := ConsolidatedByPlace(s.queue, cart.value);
      TwoAreLeft(s.queue, cart.value, others);
    }
  }

  /** At least two places are missing from a list of places exactly if some two are. */
  lemma TwoAreLeft(q: seq<Order>, cart: string, others: seq<nat>)
    requires forall j, k | 0 <= j < k < |others| :: others[j] < others[k]
    requires forall i: nat :: i in others <==> i < |q| && !(q[i].cartId == cart && !q[i].consolidated)
    ensures |q| - |others| >= 2
            <==> exists i, j :: 0 <= i < j < |q| && q[i].cartId == cart && !q[i].consolidated
                                && q[j].cartId == cart && !q[j].consolidated
  {
    var gone := Unmerged(q, cart);
    UnmergedCount(q, cart, others);
    if |gone| >= 2 {
      var a, b := TwoOf(gone);
    }
    if i, j :| 0 <= i < j < |q| && q[i].cartId == cart && !q[i].consolidated
               && q[j].cartId == cart && !q[j].consolidated {
      SubsetIsSmaller({i, j}, gone);
    }
  }

  lemma TwoOf(s: set<nat>) returns (a: nat, b: nat)
    requires |s| >= 2
    ensures a in s && b in s && a < b
  {
    a :| a in s;
    var rest := s - {a};
    assert |rest| >= 1;
    b :| b in rest;
    if b < a {
      a, b := b, a;
    }
  }

  function UpTo(n: nat): (r: set<nat>)
    ensures forall i: nat :: i in r <==> i < n
    ensures |r| == n
  {
    if n == 0 then {} else UpTo(n - 1) + {n - 1}
  }

  /** The places of the orders of a cart that have not been merged. */
  function Unmerged(q: seq<Order>, cart: string): set<nat> {
    set i: nat | i < |q| && q[i].cartId == cart && !q[i].consolidated
  }

  /** A list of all the other places leaves out as many as there are. */
  lemma UnmergedCount(q: seq<Order>, cart: string, others: seq<nat>)
    requires forall j, k | 0 <= j < k < |others| :: others[j] < others[k]
    requires forall i: nat :: i in others <==> i < |q| && !(q[i].cartId == cart && !q[i].consolidated)
    ensures |Unmerged(q, cart)| == |q| - |others|
  {
    var kept := UpTo(|q|) - Unmerged(q, cart);
    DistinctPlaces(others, kept);
    assert Unmerged(q, cart) + kept == UpTo(|q|);
  }

  lemma {:induction false} DistinctPlaces(places: seq<nat>, all: set<nat>)
    requires forall j, k | 0 <= j < k < |places| :: places[j] < places[k]
    requires forall i :: i in all <==> i in places
    ensures |all| == |places|
  {
    if places == [] {
      assert all == {};
    } else {
      var last := places[|places| - 1];
      DistinctPlaces(places[..|places| - 1], all - {last});
    }
  }

  lemma {:induction false} SubsetIsSmaller(a: set<nat>, b: set<nat>)
    requires a <= b
    ensures |a| <= |b|
  {
    if a != {} {
      var x :| x in a;
      SubsetIsSmaller(a - {x}, b - {x});
    }
  }

  lemma RestsCompare(e: Engine, id: string, t: int)
    ensures Within30s(e.lastNudge, id, t) <==> InWindow(Last(e.lastNudge, id), t)
    ensures Within30s(e.lastReRoute, id, t) <==> InWindow(Last(e.lastReRoute, id), t)
  {
  }

  lemma TargetsCompare(w: World, dist: Distance, src: nat)
    requires src < |w.stores|
    ensures Target(w, dist, src).Some? ==> IsTarget(w, dist, src, Target(w, dist, src).value)
    ensures Target(w, dist, src).None? ==> forall k: nat :: !IsTarget(w, dist, src, k)
    ensures forall k: nat | IsTarget(w, dist, src, k) :: Target(w, dist, src) == Some(k)
  {
    NearestIsBest(w.stores, dist, src, |w.stores|);
    forall k: nat | k < |w.stores| ensures Reachable(w, dist, src, k) <==> Eligible(w.stores, dist, src, k) {
      LoadsCompare(w.stores[k]);
    }
  }

  lemma AmountsCompare(cfg: CostConfig, km: real, waiting: nat)
    ensures forall cost :: IsCost(cfg, km, cost) <==> cost == ReRouteCost(cfg, km)
    ensures forall penalty ::
              IsPenalty(cfg, waiting, penalty) <==> penalty == BreachPenalty(cfg, PredictedDelayMin(waiting))
    ensures Pays(cfg, km, waiting) <==> GateOpen(cfg, km, PredictedDelayMin(waiting))
  {
    hide IsCost, IsPenalty, ReRouteCost, BreachPenalty;
    forall cost ensures IsCost(cfg, km, cost) <==> cost == ReRouteCost(cfg, km) {
      CostCompares(cfg, km, cost);
    }
    forall penalty
      ensures IsPenalty(cfg, waiting, penalty) <==> penalty == BreachPenalty(cfg, PredictedDelayMin(waiting))
    {
      PenaltyCompares(cfg, waiting, penalty);
    }
    assert IsCost(cfg, km, ReRouteCost(cfg, km));
    assert IsPenalty(cfg, waiting, BreachPenalty(cfg, PredictedDelayMin(waiting)));
  }

  lemma CostCompares(cfg: CostConfig, km: real, cost: int)
    ensures IsCost(cfg, km, cost) <==> cost == ReRouteCost(cfg, km)
  {
    DistanceCostIsNearest(
      cfg.baseFeePaise as real, cfg.perKmRatePaise as real, if km < 0.0 then 0.0 else km, cost);
    hide IsNearestSum, DistanceCost;
  }

  lemma PenaltyCompares(cfg: CostConfig, waiting: nat, penalty: int)
    ensures IsPenalty(cfg, waiting, penalty) <==> penalty == BreachPenalty(cfg, PredictedDelayMin(waiting))
  {
    var minutes := PredictedDelayMin(waiting);
    ExcessPenaltyIsNearest(minutes - cfg.acceptableDelayMin, cfg.penaltyPerMinPaise as real, penalty);
    hide IsNearestProduct, ExcessPenalty;
  }

  lemma MovablesCompare(q: seq<Order>) returns (i: nat)
    ensures CanMove(q) <==> Extract(q, 1).0 != []
    ensures CanMove(q) ==> IsFirstMovable(q, i) && Extract(q, 1).0[0] == q[i]
                           && Extract(q, 1).1 == q[..i] + q[i + 1..]
  {
    var pre, post := ExtractOne(q);
    i := |pre|;
    if Extract(q, 1).0 == [] {
      NoneMovable(q);
    } else {
      var o := Extract(q, 1).0[0];
      assert Extract(q, 1).0 == [o];
      assert q[i] == o && q[..i] == pre && q[i + 1..] == post;
    }
  }

  lemma {:induction false} NoneMovable(q: seq<Order>)
    requires NonPerishables(q) == []
    ensures forall i | 0 <= i < |q| :: q[i].perishable
  {
    if q != [] {
      NoneMovable(q[1..]);
      assert q == [q[0]] + q[1..];
    }
  }

  lemma StocksCompare(book: StockBook, id: string)
    ensures HasStock(book, id) <==> Reserve(book, id, GENERIC_SKU, 1).0
  {
  }

  // ---------- the outcome ----------

  /** Overloaded, with nothing to merge and no window open: a target is looked for. */
  predicate Searches(e: Engine, w: World, cart: Option<string>, src: nat, t: int)
    requires src < |w.stores|
  {
    Overfull(w.stores[src]) && !CartWaits(e, w.stores[src], cart) && !Rests(e, w.stores[src].id, t)
  }

  /** With `k` for a target the gate lets the move pass. */
  ghost predicate Passes(e: Engine, w: World, dist: Distance, src: nat, k: nat)
    requires src < |w.stores| && k < |w.stores|
  {
    e.mode == Naive || Pays(e.cost, dist(w.stores[src].location, w.stores[k].location), |w.stores[src].queue|)
  }

  lemma GuardsDecide(e: Engine, w: World, cart: Option<string>, src: nat, t: int)
    requires src < |w.stores|
    ensures var v := Screened(e, w, cart, src, t);
            && (v.None? <==> Searches(e, w, cart, src, t))
            && (v.Some? && v.value.event.outcome == NudgeIssued
                <==> Overfull(w.stores[src]) && CartWaits(e, w.stores[src], cart))
            && (v.Some? ==> v.value.event.outcome == NoAction || v.value.event.outcome == NudgeIssued)
  {
    LoadsCompare(w.stores[src]);
    CartsCompare(e, w.stores[src], cart);
    RestsCompare(e, w.stores[src].id, t);
    hide Overfull, CartWaits, Within30s, MergeCount, Consolidated, InWindow, Last;
  }

  lemma TargetDecides(e: Engine, w: World, dist: Distance, src: nat, k: nat, t: int)
    requires src < |w.stores| && IsTarget(w, dist, src, k)
    ensures var o := Searched(e, w, dist, src, t).event.outcome;
            && (o == RejectedOnCost <==> !Passes(e, w, dist, src, k))
            && (o == FailedNoStock <==> Passes(e, w, dist, src, k) && CanMove(w.stores[src].queue)
                                        && !HasStock(w.book, w.stores[k].id))
            && (o == Executed <==> Passes(e, w, dist, src, k) && CanMove(w.stores[src].queue)
                                   && HasStock(w.book, w.stores[k].id))
            && o != NudgeIssued
  {
    TargetsCompare(w, dist, src);
    AmountsCompare(e.cost, DistTo(w.stores, dist, src, k), |w.stores[src].queue|);
    var i := MovablesCompare(w.stores[src].queue);
    StocksCompare(w.book, w.stores[k].id);
    hide IsTarget, Pays, CanMove, HasStock, GateOpen, PredictedDelayMin, Nearest, Extract, Reserve, IsFirstMovable;
  }

  lemma NoTargetNoAction(e: Engine, w: World, dist: Distance, src: nat, t: int)
    requires src < |w.stores| && forall k: nat :: !IsTarget(w, dist, src, k)
    ensures Searched(e, w, dist, src, t).event.outcome == NoAction
  {
    TargetsCompare(w, dist, src);
    hide IsTarget, Nearest;
  }

  /** The counter an evaluation raises first decides nothing. */
  lemma CountingDecidesNothing(e: Engine, w: World, dist: Distance, cart: Option<string>, src: nat, t: int)
    requires src < |w.stores|
    ensures var e' := e.(summary := e.summary.(evaluations := e.summary.evaluations + 1));
            && (Searches(e', w, cart, src, t) <==> Searches(e, w, cart, src, t))
            && (CartWaits(e', w.stores[src], cart) <==> CartWaits(e, w.stores[src], cart))
            && (forall k: nat | k < |w.stores| :: Passes(e', w, dist, src, k) <==> Passes(e, w, dist, src, k))
  {
    hide Overfull, Pays, Within30s;
  }

  /**
   * Every outcome has its exact condition. A nudge: the store is overfull and two unmerged
   * orders of the active cart wait. Otherwise, outside both windows and with a store in
   * reach, for the nearest one: a rejection where the move does not pay, and where it does
   * and an order may move, an execution if the target has stock and a failure if not.
   * Nothing in all other cases.
   */
  lemma OutcomeIff(e: Engine, w: World, dist: Distance, cart: Option<string>, src: nat, t: int)
    requires src < |w.stores|
    ensures var o := Evaluate(e, w, dist, cart, src, t).event.outcome;
            && (o == NudgeIssued <==> Overfull(w.stores[src]) && CartWaits(e, w.stores[src], cart))
            && (o == RejectedOnCost <==>
                  Searches(e, w, cart, src, t)
                  && exists k: nat :: IsTarget(w, dist, src, k) && !Passes(e, w, dist, src, k))
            && (o == FailedNoStock <==>
                  Searches(e, w, cart, src, t) && CanMove(w.stores[src].queue)
                  && exists k: nat :: IsTarget(w, dist, src, k) && Passes(e, w, dist, src, k)
                                      && !HasStock(w.book, w.stores[k].id))
            && (o == Executed <==>
                  Searches(e, w, cart, src, t) && CanMove(w.stores[src].queue)
                  && exists k: nat :: IsTarget(w, dist, src, k) && Passes(e, w, dist, src, k)
                                      && HasStock(w.book, w.stores[k].id))
  {
    var e' := e.(summary := e.summary.(evaluations := e.summary.evaluations + 1));
    GuardsDecide(e', w, cart, src, t);
    CountingDecidesNothing(e, w, dist, cart, src, t);
    TargetsCompare(w, dist, src);
    if k: nat :| IsTarget(w, dist, src, k) {
      TargetDecides(e', w, dist, src, k, t);
      hide IsTarget, Passes, Searches, Overfull, CartWaits, CanMove, HasStock, Screened, Searched, Nearest;
    } else {
      NoTargetNoAction(e', w, dist, src, t);
      hide IsTarget, Passes, Searches, Overfull, CartWaits, CanMove, HasStock, Screened, Searched, Nearest;
    }
  }

  // ---------- the event ----------

  /** The amounts of a quote for a move over `km` while so many orders wait. */
  predicate IsQuote(quote: Quote, cfg: CostConfig, km: real, waiting: nat) {
    && quote.distKm == km && quote.delayMin == waiting as real * 1.336 / 60.0
    && IsCost(cfg, km, quote.costPaise) && IsPenalty(cfg, waiting, quote.penaltyPaise)
  }

  lemma QuotesAreRight(cfg: CostConfig, km: real, waiting: nat)
    ensures IsQuote(QuoteFor(cfg, km, waiting), cfg, km, waiting)
    ensures GateOpen(cfg, km, PredictedDelayMin(waiting))
            <==> QuoteFor(cfg, km, waiting).costPaise < QuoteFor(cfg, km, waiting).penaltyPaise
  {
    AmountsCompare(cfg, km, waiting);
  }

  /** What the event of a search reports. */
  ghost predicate Reports(e: Engine, w: World, dist: Distance, src: nat, k: nat, ev: Event)
    requires src < |w.stores| && k < |w.stores|
  {
    var s := w.stores[src];
    && ev.target == Some(w.stores[k].id) && ev.nudge == None
    && ev.quote.Some? && IsQuote(ev.quote.value, e.cost, dist(s.location, w.stores[k].location), |s.queue|)
    && (ev.outcome == RejectedOnCost ==>
          ev.order == None && ev.quote.value.costPaise >= ev.quote.value.penaltyPaise)
    && (ev.outcome == Executed || ev.outcome == FailedNoStock ==>
          && (e.mode != Naive ==> ev.quote.value.costPaise < ev.quote.value.penaltyPaise)
          && exists i: nat :: IsFirstMovable(s.queue, i) && ev.order == Some(s.queue[i].id))
  }

  lemma SearchReports(e: Engine, w: World, dist: Distance, src: nat, k: nat, t: int)
    requires src < |w.stores| && IsTarget(w, dist, src, k)
    ensures var ev := Searched(e, w, dist, src, t).event;
            && ev.source == w.stores[src].id && ev.simTimeNs == t
            && (ev.outcome != NoAction ==> Reports(e, w, dist, src, k, ev))
            && (ev.outcome == NoAction ==> ev == Quiet(w.stores[src].id, t))
  {
    TargetsCompare(w, dist, src);
    QuotesAreRight(e.cost, DistTo(w.stores, dist, src, k), |w.stores[src].queue|);
    var i := MovablesCompare(w.stores[src].queue);
    hide IsTarget, IsQuote, QuoteFor, CanMove, GateOpen, PredictedDelayMin, Nearest, Extract, Reserve, IsFirstMovable;
  }

  /**
   * What an event says: the source and the time always; of a nudge the cart and the number
   * of its unmerged orders; of a search that found a target the target, the distance to it,
   * the cost of the move, the penalty and the delay for the orders waiting, and of an order
   * taken up the first that may move. Outside naive mode an order is taken up only where
   * the cost is below the penalty, and a rejection only where it is not.
   */
  lemma EventSays(e: Engine, w: World, dist: Distance, cart: Option<string>, src: nat, t: int)
    requires src < |w.stores|
    ensures var ev := Evaluate(e, w, dist, cart, src, t).event;
            && ev.source == w.stores[src].id && ev.simTimeNs == t
            && (ev.outcome == NoAction ==>
                  ev.target == None && ev.order == None && ev.quote == None && ev.nudge == None)
            && (ev.outcome == NudgeIssued ==>
                  && ev.target == None && ev.order == None && ev.quote == None
                  && cart.Some? && ev.nudge == Some((cart.value, |Unmerged(w.stores[src].queue, cart.value)|)))
            && (ev.outcome != NoAction && ev.outcome != NudgeIssued ==>
                  exists k: nat :: IsTarget(w, dist, src, k) && Reports(e, w, dist, src, k, ev))
  {
    hide IsTarget, Reports, Screened, Searched, Unmerged;
    var e' := e.(summary := e.summary.(evaluations := e.summary.evaluations + 1));
    NudgesSay(e', w, cart, src, t);
    SearchSays(e', w, dist, src, t);
    CountingReportsNothing(e, w, dist, src, Searched(e', w, dist, src, t).event);
  }

  lemma SearchSays(e: Engine, w: World, dist: Distance, src: nat, t: int)
    requires src < |w.stores|
    ensures var ev := Searched(e, w, dist, src, t).event;
            && ev.source == w.stores[src].id && ev.simTimeNs == t && ev.outcome != NudgeIssued
            && (ev.outcome == NoAction ==> ev == Quiet(w.stores[src].id, t))
            && (ev.outcome != NoAction ==>
                  exists k: nat :: k < |w.stores| && IsTarget(w, dist, src, k) && Reports(e, w, dist, src, k, ev))
  {
    TargetsCompare(w, dist, src);
    hide IsTarget, Reports, Searched;
    if k: nat :| IsTarget(w, dist, src, k) {
      SearchReports(e, w, dist, src, k, t);
      TargetDecides(e, w, dist, src, k, t);
    } else {
      NoTargetNoEvent(e, w, dist, src, t);
    }
  }

  lemma CountingReportsNothing(e: Engine, w: World, dist: Distance, src: nat, ev: Event)
    requires src < |w.stores|
    ensures var e' := e.(summary := e.summary.(evaluations := e.summary.evaluations + 1));
            forall k: nat | k < |w.stores| :: Reports(e', w, dist, src, k, ev) ==> Reports(e, w, dist, src, k, ev)
  {
    hide IsQuote, IsFirstMovable;
  }

  lemma NoTargetNoEvent(e: Engine, w: World, dist: Distance, src: nat, t: int)
    requires src < |w.stores| && forall k: nat :: !IsTarget(w, dist, src, k)
    ensures Searched(e, w, dist, src, t).event == Quiet(w.stores[src].id, t)
  {
    TargetsCompare(w, dist, src);
    hide IsTarget, Nearest;
  }

  lemma NudgesSay(e: Engine, w: World, cart: Option<string>, src: nat, t: int)
    requires src < |w.stores|
    ensures Screened(e, w, cart, src, t).Some? ==>
            var ev := Screened(e, w, cart, src, t).value.event;
            && ev.source == w.stores[src].id && ev.simTimeNs == t
            && ev.target == None && ev.order == None && ev.quote == None
            && (ev.outcome != NudgeIssued ==> ev.nudge == None && ev.outcome == NoAction)
            && (ev.outcome == NudgeIssued ==>
                  cart.Some? && ev.nudge == Some((cart.value, |Unmerged(w.stores[src].queue, cart.value)|)))
  {
    if cart.Some? {
      var first, others := ConsolidatedByPlace(w.stores[src].queue, cart.value);
      UnmergedCount(w.stores[src].queue, cart.value, others);
    }
    hide Consolidated, MergeCount, Unmerged, InWindow, Last;
  }

  // ---------- what is remembered ----------

  /**
   * What an evaluation leaves behind in the engine: the time of a nudge, with the merged
   * orders counted; the time of an executed re-route; and nothing of any other outcome.
   */
  lemma EngineRemembers(e: Engine, w: World, dist: Distance, cart: Option<string>, src: nat, t: int)
    requires src < |w.stores|
    ensures var v, id := Evaluate(e, w, dist, cart, src, t), w.stores[src].id;
            && v.agent.mode == e.mode && v.agent.cost == e.cost
            && v.agent.lastNudge == (if v.event.outcome == NudgeIssued then e.lastNudge[id := t] else e.lastNudge)
            && v.agent.lastReRoute == (if v.event.outcome == Executed then e.lastReRoute[id := t] else e.lastReRoute)
            && v.agent.summary.merged
               == e.summary.merged + if v.event.outcome == NudgeIssued && cart.Some?
                                     then |Unmerged(w.stores[src].queue, cart.value)| else 0
  {
    hide Screened, Searched, Unmerged;
    var e' := e.(summary := e.summary.(evaluations := e.summary.evaluations + 1));
    ScreenRemembers(e', w, cart, src, t);
    SearchRemembers(e', w, dist, src, t);
  }

  lemma ScreenRemembers(e: Engine, w: World, cart: Option<string>, src: nat, t: int)
    requires src < |w.stores|
    ensures Screened(e, w, cart, src, t).Some? ==>
              var v, id := Screened(e, w, cart, src, t).value, w.stores[src].id;
              && v.agent.mode == e.mode && v.agent.cost == e.cost
              && v.agent.lastNudge == (if v.event.outcome == NudgeIssued then e.lastNudge[id := t] else e.lastNudge)
              && v.agent.lastReRoute == e.lastReRoute && v.event.outcome != Executed
              && v.agent.summary.merged
                 == e.summary.merged + if v.event.outcome == NudgeIssued && cart.Some?
                                       then |Unmerged(w.stores[src].queue, cart.value)| else 0
  {
    if cart.Some? {
      var first, others := ConsolidatedByPlace(w.stores[src].queue, cart.value);
      UnmergedCount(w.stores[src].queue, cart.value, others);
    }
    hide Consolidated, MergeCount, Unmerged, InWindow, Last;
  }

  lemma SearchRemembers(e: Engine, w: World, dist: Distance, src: nat, t: int)
    requires src < |w.stores|
    ensures var v, id := Searched(e, w, dist, src, t), w.stores[src].id;
            && v.agent.mode == e.mode && v.agent.cost == e.cost
            && v.agent.lastNudge == e.lastNudge && v.event.outcome != NudgeIssued
            && v.agent.lastReRoute == (if v.event.outcome == Executed then e.lastReRoute[id := t] else e.lastReRoute)
            && v.agent.summary.merged == e.summary.merged
  {
    hide GateOpen, QuoteFor, PredictedDelayMin, Nearest, Transferred, After;
  }

  /**
   * And in the network: nothing of a quiet evaluation or a rejection; of an executed
   * re-route, one unit less at the target, where a stock table is kept; no stock otherwise.
   */
  lemma StockRemembers(e: Engine, w: World, dist: Distance, cart: Option<string>, src: nat, t: int)
    requires src < |w.stores|
    ensures var v := Evaluate(e, w, dist, cart, src, t);
            && (v.event.outcome == NoAction || v.event.outcome == RejectedOnCost ==> v.world == w)
            && (v.event.outcome != Executed ==> v.world.book == w.book)
            && (v.event.outcome == Executed ==>
                  exists k: nat :: IsTarget(w, dist, src, k) && HasStock(w.book, w.stores[k].id)
                                   && v.world.book == OneLess(w.book, w.stores[k].id))
  {
    TargetsCompare(w, dist, src);
    hide Consolidated, MergeCount, IsTarget, InWindow, Last, GateOpen, QuoteFor, PredictedDelayMin, Nearest, Extract;
    var v := Evaluate(e, w, dist, cart, src, t);
    if v.event.outcome == NoAction {
      SameAgain(w, src);
    }
    if v.event.outcome == Executed {
      var k := Target(w, dist, src).value;
      assert IsTarget(w, dist, src, k) && v.world.book == OneLess(w.book, w.stores[k].id);
    }
  }

  /** A nudge merges the orders of the cart in the source's line and changes nothing else of the network. */
  lemma NudgesMergeOneLine(e: Engine, w: World, dist: Distance, cart: Option<string>, src: nat, t: int)
    requires src < |w.stores| && Evaluate(e, w, dist, cart, src, t).event.outcome == NudgeIssued
    ensures cart.Some?
    ensures var s := w.stores[src];
            Evaluate(e, w, dist, cart, src, t).world
            == w.(stores := w.stores[src := s.(queue := Consolidated(s.queue, cart.value))])
  {
    hide Consolidated, MergeCount, InWindow, Last, GateOpen, QuoteFor, PredictedDelayMin, Nearest, Transferred, After;
  }

  function OneLess(book: StockBook, id: string): StockBook
    requires HasStock(book, id)
  {
    if book.Unconfigured? then book
    else Units(book.units[(id, "SKU-GENERIC") := book.units[(id, "SKU-GENERIC")] - 1])
  }

  lemma SameAgain(w: World, src: nat)
    requires src < |w.stores|
    ensures forall k: nat | k < |w.stores| :: w.stores[src := w.stores[src]][k := w.stores[k]] == w.stores
  {
  }

  // ---------- the stand-alone re-router ----------

  /**
   * The stand-alone re-router decides and reports what an engine with its rates, its gate
   * and the store's own re-route time does: all of the above holds of it.
   */
  lemma ReRouterDecidesAlike(r: ReRouter, w: World, dist: Distance, src: nat, t: int) returns (e: Engine)
    requires src < |w.stores|
    ensures e.mode == (if r.gated then CostGated else Naive) && e.cost == r.cost && e.summary == r.summary
    ensures e.lastReRoute == map[w.stores[src].id := w.stores[src].lastReRouteNs]
    ensures var u, v := EvaluateAndReRoute(r, w, dist, src, t), Evaluate(e, w, dist, None, src, t);
            u.event == v.event && u.world == v.world && u.agent.summary == v.agent.summary
  {
    hide Evaluate, EvaluateAndReRoute;
    e := Engine(if r.gated then CostGated else Naive, r.cost, map[],
                map[w.stores[src].id := w.stores[src].lastReRouteNs], r.summary);
    EvaluationsLookAlike(e, r, w, dist, None, src, t);
  }
}
