/**
 * The two re-route policies as functions from a network value to a network value.
 * The classes in Engines.dfy are proved to compute them; the theorems about single
 * evaluations and about runs of evaluations are stated over them.
 */
module Policy {
  import opened Options
  import opened Orders
  import opened CostModel
  import opened Reservation
  import opened Stores

  const WINDOW_NS := 30_000_000_000
  const MAX_DIST_KM := 1.5
  const TRIGGER_PCT := 85
  const RECOVERY_PCT := 70

  datatype Mode = Naive | CostGated | FullOrchestration

  datatype Outcome = NoAction | NudgeIssued | RejectedOnCost | Executed | FailedNoStock

  datatype Quote = Quote(distKm: real, costPaise: int, penaltyPaise: int, delayMin: real)

  datatype Event = Event(
    outcome: Outcome,
    source: string,
    target: Option<string>,
    order: Option<string>,
    quote: Option<Quote>,
    nudge: Option<(string, nat)>,
    simTimeNs: int)

  /** The network the policies act on: the monitored stores and the stock table. */
  datatype World = World(stores: seq<StoreState>, book: StockBook)

  datatype Summary = Summary(
    evaluations: int, noAction: int, nudges: int, rejected: int, executed: int, failed: int, merged: int)

  const NO_DECISIONS := Summary(0, 0, 0, 0, 0, 0, 0)

  datatype Engine = Engine(
    mode: Mode,
    cost: CostConfig,
    lastNudge: map<string, int>,
    lastReRoute: map<string, int>,
    summary: Summary)

  datatype ReRouter = ReRouter(gated: bool, cost: CostConfig, summary: Summary)

  /** A map entry that was never written reads as zero. */
  function Last(times: map<string, int>, id: string): int {
    if id in times then times[id] else 0
  }

  /** Still inside the window that opened at `last`; zero and below mean it never opened. */
  predicate InWindow(last: int, now: int) {
    last > 0 && now - last < WINDOW_NS
  }

  // ---------- target choice ----------

  function DistTo(stores: seq<StoreState>, dist: Distance, src: nat, i: nat): real
    requires src < |stores| && i < |stores|
  {
    dist(stores[src].location, stores[i].location)
  }

  /** A store that may receive an order: another id, below the recovery load, in range. */
  predicate Eligible(stores: seq<StoreState>, dist: Distance, src: nat, i: nat)
    requires src < |stores| && i < |stores|
  {
    stores[i].id != stores[src].id && stores[i].CurrentLoad().Below(RECOVERY_PCT)
    && DistTo(stores, dist, src, i) <= MAX_DIST_KM
  }

  /** The choice among the first `n` stores: a later store must be strictly nearer. */
  function Nearest(stores: seq<StoreState>, dist: Distance, src: nat, n: nat): (choice: Option<nat>)
    requires src < |stores| && n <= |stores|
    ensures choice.Some? ==> choice.value < n
  {
    if n == 0 then None
    else
      var best := Nearest(stores, dist, src, n - 1);
      if Eligible(stores, dist, src, n - 1)
         && (best.None? || DistTo(stores, dist, src, n - 1) < DistTo(stores, dist, src, best.value))
      then Some(n - 1) else best
  }

  function Target(w: World, dist: Distance, src: nat): (choice: Option<nat>)
    requires src < |w.stores|
    ensures choice.Some? ==> choice.value < |w.stores|
  {
    Nearest(w.stores, dist, src, |w.stores|)
  }

  /** The target is an eligible store no eligible store is nearer than, the first such in the list. */
  lemma {:induction false} NearestIsBest(stores: seq<StoreState>, dist: Distance, src: nat, n: nat)
    requires src < |stores| && n <= |stores|
    ensures var best := Nearest(stores, dist, src, n);
            && (best.None? <==> forall i: nat | i < n :: !Eligible(stores, dist, src, i))
            && (best.Some? ==>
                  && best.value < n
                  && best.value != src
                  && Eligible(stores, dist, src, best.value)
                  && (forall i: nat | i < n && Eligible(stores, dist, src, i) ::
                        DistTo(stores, dist, src, best.value) <= DistTo(stores, dist, src, i))
                  && (forall i: nat | i < best.value && Eligible(stores, dist, src, i) ::
                        DistTo(stores, dist, src, best.value) < DistTo(stores, dist, src, i)))
  {
    if n > 0 {
      NearestIsBest(stores, dist, src, n - 1);
    }
  }

  // ---------- one evaluation of the unified engine ----------

  datatype Verdict<E> = Verdict(agent: E, world: World, event: Event)

  function Quiet(id: string, t: int): Event {
    Event(NoAction, id, None, None, None, None, t)
  }

  function QuoteFor(cost: CostConfig, distKm: real, waiting: int): Quote {
    var delay := PredictedDelayMin(waiting);
    Quote(distKm, ReRouteCost(cost, distKm), BreachPenalty(cost, delay), delay)
  }

  datatype Handoff = NothingToMove | Refused(order: Order) | Delivered(order: Order)

  datatype Transfer = Transfer(result: Handoff, source: StoreState, target: StoreState, book: StockBook)

  /**
   * The tail of both policies: take the first non-perishable order of `s`, reserve
   * stock at `k`, then move the order or put it back.
   */
  function Transferred(s: StoreState, k: StoreState, book: StockBook, t: int): Transfer {
    var taken, left := Extract(s.queue, 1).0, Extract(s.queue, 1).1;
    var reservation := Reserve(book, k.id, GENERIC_SKU, 1);
    if taken == [] then Transfer(NothingToMove, s, k, book)
    else if !reservation.0 then
      Transfer(Refused(taken[0]), s.(queue := left + [Pushed(taken[0])]), k, book)
    else
      Transfer(Delivered(taken[0]),
               s.(queue := left, reRoutedOut := s.reRoutedOut + 1, lastReRouteNs := t),
               k.(reRoutedIn := k.reRoutedIn + 1).Enqueued(taken[0]),
               reservation.2)
  }

  function After(w: World, src: nat, k: nat, tr: Transfer): World
    requires src < |w.stores| && k < |w.stores|
  {
    World(w.stores[src := tr.source][k := tr.target], tr.book)
  }

  /** Merges the queued orders of a cart and opens the store's grace window. */
  function Nudged(e: Engine, w: World, src: nat, cart: string, t: int): Verdict<Engine>
    requires src < |w.stores|
  {
    var s, sum, m := w.stores[src], e.summary, MergeCount(w.stores[src].queue, cart);
    Verdict(
      e.(lastNudge := e.lastNudge[s.id := t],
         summary := sum.(nudges := sum.nudges + 1, merged := sum.merged + m)),
      w.(stores := w.stores[src := s.(queue := Consolidated(s.queue, cart))]),
      Event(NudgeIssued, s.id, None, None, None, Some((cart, m)), t))
  }

  /** From the cost gate to the outcome, for a target that has been chosen and priced. */
  function Settle(e: Engine, w: World, src: nat, k: nat, quote: Quote, open: bool, t: int): Verdict<Engine>
    requires src < |w.stores| && k < |w.stores|
  {
    var s, tgt, sum := w.stores[src], w.stores[k], e.summary;
    if e.mode != Naive && !open then
      Verdict(e.(summary := sum.(rejected := sum.rejected + 1)), w,
              Event(RejectedOnCost, s.id, Some(tgt.id), None, Some(quote), None, t))
    else
      var tr := Transferred(s, tgt, w.book, t);
      match tr.result
      case NothingToMove =>
        Verdict(e.(summary := sum.(noAction := sum.noAction + 1)), After(w, src, k, tr), Quiet(s.id, t))
      case Refused(o) =>
        Verdict(e.(summary := sum.(failed := sum.failed + 1)), After(w, src, k, tr),
                Event(FailedNoStock, s.id, Some(tgt.id), Some(o.id), Some(quote), None, t))
      case Delivered(o) =>
        Verdict(
          e.(lastReRoute := e.lastReRoute[s.id := t], summary := sum.(executed := sum.executed + 1)),
          After(w, src, k, tr),
          Event(Executed, s.id, Some(tgt.id), Some(o.id), Some(quote), None, t))
  }

  function Declined(e: Engine, w: World, src: nat, t: int): Verdict<Engine>
    requires src < |w.stores|
  {
    Verdict(e.(summary := e.summary.(noAction := e.summary.noAction + 1)), w, Quiet(w.stores[src].id, t))
  }

  /** What ends an evaluation before a target is looked for: no overload, a nudge, an open window. */
  function Screened(e: Engine, w: World, activeCart: Option<string>, src: nat, t: int): Option<Verdict<Engine>>
    requires src < |w.stores|
  {
    var s := w.stores[src];
    if s.CurrentLoad().AtMost(TRIGGER_PCT) then Some(Declined(e, w, src, t))
    else if e.mode == FullOrchestration && activeCart.Some? && MergeCount(s.queue, activeCart.value) > 1 then
      Some(Nudged(e, w, src, activeCart.value, t))
    else if e.mode == FullOrchestration && InWindow(Last(e.lastNudge, s.id), t) then Some(Declined(e, w, src, t))
    else if InWindow(Last(e.lastReRoute, s.id), t) then Some(Declined(e, w, src, t))
    else None
  }

  /** The search for a target and what follows from it. */
  function Searched(e: Engine, w: World, dist: Distance, src: nat, t: int): Verdict<Engine>
    requires src < |w.stores|
  {
    match Target(w, dist, src)
    case None => Declined(e, w, src, t)
    case Some(k) =>
      var quote := QuoteFor(e.cost, DistTo(w.stores, dist, src, k), |w.stores[src].queue|);
      Settle(e, w, src, k, quote, GateOpen(e.cost, quote.distKm, quote.delayMin), t)
  }

  /**
   * One call of EvaluateBreach. `activeCart` is the active cart of the source's
   * geofence, if there is one.
   */
  function Evaluate(e: Engine, w: World, dist: Distance, activeCart: Option<string>, src: nat, t: int)
    : Verdict<Engine>
    requires src < |w.stores|
  {
    var counted := e.(summary := e.summary.(evaluations := e.summary.evaluations + 1));
    match Screened(counted, w, activeCart, src, t)
    case Some(verdict) => verdict
    case None => Searched(counted, w, dist, src, t)
  }

  // ---------- one evaluation of the stand-alone re-router ----------

  /** From its own gate switch to the outcome. */
  function Conclude(r: ReRouter, w: World, src: nat, k: nat, quote: Quote, open: bool, t: int): Verdict<ReRouter>
    requires src < |w.stores| && k < |w.stores|
  {
    var s, name, sum := w.stores[src], w.stores[k].id, r.summary;
    if r.gated && !open then
      Verdict(r.(summary := sum.(rejected := sum.rejected + 1)), w,
              Event(RejectedOnCost, s.id, Some(name), None, Some(quote), None, t))
    else
      var tr := Transferred(s, w.stores[k], w.book, t);
      var sum' := match tr.result
                  case NothingToMove => sum.(noAction := sum.noAction + 1)
                  case Refused(_) => sum.(failed := sum.failed + 1)
                  case Delivered(_) => sum.(executed := sum.executed + 1);
      var event := match tr.result
                   case NothingToMove => Quiet(s.id, t)
                   case Refused(o) => Event(FailedNoStock, s.id, Some(name), Some(o.id), Some(quote), None, t)
                   case Delivered(o) => Event(Executed, s.id, Some(name), Some(o.id), Some(quote), None, t);
      Verdict(r.(summary := sum'), After(w, src, k, tr), event)
  }

  /** One call of EvaluateAndReRoute; the cooldown is read from the store itself. */
  function EvaluateAndReRoute(r: ReRouter, w: World, dist: Distance, src: nat, t: int): Verdict<ReRouter>
    requires src < |w.stores|
  {
    var s := w.stores[src];
    var sum := r.summary.(evaluations := r.summary.evaluations + 1);
    var noAction := Verdict(r.(summary := sum.(noAction := sum.noAction + 1)), w, Quiet(s.id, t));
    if s.CurrentLoad().AtMost(TRIGGER_PCT) || InWindow(s.lastReRouteNs, t) then noAction
    else
      match Target(w, dist, src)
      case None => noAction
      case Some(k) =>
        var quote := QuoteFor(r.cost, DistTo(w.stores, dist, src, k), |s.queue|);
        Conclude(r.(summary := sum), w, src, k, quote, GateOpen(r.cost, quote.distKm, quote.delayMin), t)
  }

  // ---------- what one evaluation promises ----------

  function Tally(s: Summary, o: Outcome): int {
    match o
    case NoAction => s.noAction
    case NudgeIssued => s.nudges
    case RejectedOnCost => s.rejected
    case Executed => s.executed
    case FailedNoStock => s.failed
  }

  function Outcomes(s: Summary): int {
    s.noAction + s.nudges + s.rejected + s.executed + s.failed
  }

  /** Exactly the counter of the reported outcome goes up, so counted outcomes keep up with evaluations. */
  lemma OneOutcomePerEvaluation(e: Engine, w: World, dist: Distance, cart: Option<string>, src: nat, t: int)
    requires src < |w.stores|
    ensures var v := Evaluate(e, w, dist, cart, src, t);
            && v.agent.summary.evaluations == e.summary.evaluations + 1
            && Outcomes(v.agent.summary) == Outcomes(e.summary) + 1
            && forall o: Outcome ::
                 Tally(v.agent.summary, o) == Tally(e.summary, o) + if o == v.event.outcome then 1 else 0
  {
  }

  /**
   * Batching comes first: while two unmerged orders of the active cart wait in an
   * overloaded store, full orchestration merges them and never re-routes, and the
   * next evaluation of the store cannot merge that cart again.
   */
  lemma BatchingFirst(e: Engine, w: World, dist: Distance, cart: string, src: nat, t: int)
    requires src < |w.stores|
    requires e.mode == FullOrchestration
    requires !w.stores[src].CurrentLoad().AtMost(TRIGGER_PCT)
    requires MergeCount(w.stores[src].queue, cart) > 0
    ensures var v := Evaluate(e, w, dist, Some(cart), src, t);
            && v.event.outcome == NudgeIssued
            && Last(v.agent.lastNudge, w.stores[src].id) == t
            && MergeCount(v.world.stores[src].queue, cart) == 0
            && v.world.stores[src].Items() == w.stores[src].Items() - (MergeCount(w.stores[src].queue, cart) - 1)
  {
    ConsolidationSettles(w.stores[src].queue, cart);
    ConsolidationLedger(w.stores[src].queue, cart, "");
  }

  /** A refused reservation only sends the first non-perishable order to the back of the line. */
  lemma FailedReservationRequeues(e: Engine, w: World, dist: Distance, cart: Option<string>, src: nat, t: int)
    returns (pre: seq<Order>, o: Order, post: seq<Order>)
    requires src < |w.stores|
    requires Evaluate(e, w, dist, cart, src, t).event.outcome == FailedNoStock
    ensures w.stores[src].queue == pre + [o] + post
    ensures !o.perishable && forall p | p in pre :: p.perishable
    ensures Evaluate(e, w, dist, cart, src, t).world
            == w.(stores := w.stores[src := w.stores[src].(queue := pre + post + [Pushed(o)])])
  {
    NearestIsBest(w.stores, dist, src, |w.stores|);
    pre, post := ExtractOne(w.stores[src].queue);
    o := Extract(w.stores[src].queue, 1).0[0];
    var k := Target(w, dist, src).value;
    var s' := w.stores[src].(queue := pre + post + [Pushed(o)]);
    assert w.stores[src := s'][k := w.stores[k]] == w.stores[src := s'];
  }

  /** What an executed re-route changes, and that it changes nothing else. */
  lemma ExecutedMovesOneOrder(e: Engine, w: World, dist: Distance, cart: Option<string>, src: nat, t: int)
    returns (k: nat, pre: seq<Order>, o: Order, post: seq<Order>)
    requires src < |w.stores|
    requires Evaluate(e, w, dist, cart, src, t).event.outcome == Executed
    ensures k < |w.stores| && k != src && Target(w, dist, src) == Some(k)
    ensures w.stores[src].queue == pre + [o] + post
    ensures !o.perishable && forall p | p in pre :: p.perishable
    ensures var v := Evaluate(e, w, dist, cart, src, t);
            && |v.world.stores| == |w.stores|
            && v.world.stores[src] == w.stores[src].(
                 queue := pre + post, reRoutedOut := w.stores[src].reRoutedOut + 1, lastReRouteNs := t)
            && v.world.stores[k] == w.stores[k].(
                 queue := w.stores[k].queue + [Pushed(o)], reRoutedIn := w.stores[k].reRoutedIn + 1)
            && (forall i | 0 <= i < |w.stores| && i != src && i != k :: v.world.stores[i] == w.stores[i])
  {
    NearestIsBest(w.stores, dist, src, |w.stores|);
    k := Target(w, dist, src).value;
    pre, post := ExtractOne(w.stores[src].queue);
    o := Extract(w.stores[src].queue, 1).0[0];
  }
}
