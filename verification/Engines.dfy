/** The two decision makers as objects, proved to compute the policies of Policy.dfy. */
module Engines {
  import opened Options
  import opened Orders
  import opened CostModel
  import opened Reservation
  import opened Stores
  import opened Policy

  ghost function Net(stores: seq<Store>, reservations: StockReservationStore?): World
    reads Footprint(stores), reservations
  {
    World(States(stores), Book(reservations))
  }

  /** If only two stores changed, so did only two entries of the abstract network. */
  lemma OnlyChanged(stores: seq<Store>, before: seq<StoreState>, i: nat, k: nat)
    requires i < |stores| == |before| && k < |stores|
    requires forall j | 0 <= j < |stores| && j != i && j != k :: stores[j].State() == before[j]
    ensures States(stores) == before[i := stores[i].State()][k := stores[k].State()]
    ensures stores[k].State() == before[k] ==> States(stores) == before[i := stores[i].State()]
    ensures stores[i].State() == before[i] && stores[k].State() == before[k] ==> States(stores) == before
  {
  }

  // ---------- the stores an evaluation is about ----------

  /** The stores of a list, each at its first place. */
  ghost function Once(stores: seq<Store>): (r: seq<Store>)
    ensures (forall s | s in r :: s in stores) && (forall s | s in stores :: s in r)
    ensures forall i, j :: 0 <= i < j < |r| ==> r[i] != r[j]
  {
    if stores == [] then []
    else
      var last := stores[|stores| - 1];
      var r := Once(stores[..|stores| - 1]);
      assert forall s | s in stores :: s in stores[..|stores| - 1] || s == last;
      if last in r then r else r + [last]
  }

  /** The stores of the list, and the source where it is not among them. */
  ghost function Known(stores: seq<Store>, source: Store): (r: seq<Store>)
    ensures source in r
  {
    Once(stores + [source])
  }

  ghost function PlaceOf(stores: seq<Store>, s: Store): (i: nat)
    requires s in stores
    ensures i < |stores| && stores[i] == s
  {
    if stores[0] == s then 0 else 1 + PlaceOf(stores[1..], s)
  }

  /** Two store objects never share a queue object. */
  ghost predicate OwnQueues(stores: seq<Store>) {
    forall s, t | s in stores && t in stores && s != t :: s.currentQueue != t.currentQueue
  }

  lemma {:induction false} OncePrefix(stores: seq<Store>, i: nat)
    requires i <= |stores|
    ensures Once(stores[..i]) <= Once(stores)
  {
    if i < |stores| {
      var init := stores[..|stores| - 1];
      OncePrefix(init, i);
      assert init[..i] == stores[..i];
    } else {
      assert stores[..i] == stores;
    }
  }

  lemma NothingSeen()
    ensures Once([]) == []
  {
  }

  /** One more store of the list: it is new, and next among the known ones, or it is known already. */
  lemma OnceNext(stores: seq<Store>, source: Store, i: nat)
    requires i < |stores|
    ensures var seen, net := Once(stores[..i]), Known(stores, source);
            && seen <= net && Once(stores[..i + 1]) <= net
            && Once(stores[..i + 1]) == if stores[i] in seen then seen else seen + [stores[i]]
  {
    assert stores[..i + 1][..i] == stores[..i];
    assert (stores + [source])[..i] == stores[..i] && (stores + [source])[..i + 1] == stores[..i + 1];
    OncePrefix(stores + [source], i);
    OncePrefix(stores + [source], i + 1);
  }

  lemma KnownAtTheEnd(stores: seq<Store>, source: Store)
    ensures var seen, net := Once(stores), Known(stores, source);
            net == if source in seen then seen else seen + [source]
  {
    assert (stores + [source])[..|stores|] == stores;
  }

  lemma KnownAreSeparate(stores: seq<Store>, source: Store)
    requires OwnQueues(stores + [source])
    ensures Separate(Known(stores, source))
  {
    var net := Known(stores, source);
    forall i, j | 0 <= i < j < |net| ensures net[i] != net[j] && net[i].currentQueue != net[j].currentQueue {
      assert net[i] in stores + [source] && net[j] in stores + [source];
    }
  }

  /** A list of separate stores that holds the source is what is known. */
  lemma {:induction false} SeparateAreOnce(stores: seq<Store>)
    requires forall i, j :: 0 <= i < j < |stores| ==> stores[i] != stores[j]
    ensures Once(stores) == stores
  {
    if stores != [] {
      SeparateAreOnce(stores[..|stores| - 1]);
    }
  }

  lemma {:induction false} PlaceIsUnique(stores: seq<Store>, i: nat)
    requires i < |stores| && forall j, k :: 0 <= j < k < |stores| ==> stores[j] != stores[k]
    ensures PlaceOf(stores, stores[i]) == i
  {
  }

  lemma SeparateAreKnown(stores: seq<Store>, i: nat)
    requires Separate(stores) && i < |stores|
    ensures OwnQueues(stores + [stores[i]])
    ensures Known(stores, stores[i]) == stores && PlaceOf(stores, stores[i]) == i
  {
    SeparateAreOnce(stores);
    KnownAtTheEnd(stores, stores[i]);
    PlaceIsUnique(stores, i);
    forall s, t | s in stores + [stores[i]] && t in stores + [stores[i]] && s != t
      ensures s.currentQueue != t.currentQueue
    {
      var a :| 0 <= a < |stores| && stores[a] == s;
      var b :| 0 <= b < |stores| && stores[b] == t;
    }
  }

  // ---------- the search ----------

  /** A store that was looked at before, or the source itself, does not change the choice. */
  lemma SeenAgain(states: seq<StoreState>, dist: Distance, src: nat, n: nat, j: nat)
    requires src < |states| && n <= |states| && j < n
    ensures var best := Nearest(states, dist, src, n);
            Eligible(states, dist, src, j) ==>
              best.Some? && DistTo(states, dist, src, best.value) <= DistTo(states, dist, src, j)
  {
    NearestIsBest(states, dist, src, n);
  }

  /** One store more to choose from; nothing to choose from at first. */
  lemma NearestNext(states: seq<StoreState>, dist: Distance, src: nat, n: nat)
    requires src < |states| && n <= |states|
    ensures Nearest(states, dist, src, 0) == None
    ensures n < |states| ==>
              Nearest(states, dist, src, n + 1)
              == var best := Nearest(states, dist, src, n);
                 if Eligible(states, dist, src, n)
                    && (best.None? || DistTo(states, dist, src, n) < DistTo(states, dist, src, best.value))
                 then Some(n) else best
  {
  }

  /** The tests of the search loop on one store. */
  method IsNearer(source: Store, s: Store, dist: Distance, bestDist: real) returns (nearer: bool, d: real)
    ensures d == dist(source.location, s.location)
    ensures nearer <==> s.id != source.id && s.State().CurrentLoad().Below(RECOVERY_PCT)
                        && d <= MAX_DIST_KM && d < bestDist
  {
    nearer, d := false, dist(source.location, s.location);
    if s.id != source.id {
      var load := s.ComputeLoad();
      if load.Below(RECOVERY_PCT) {
        nearer := d <= MAX_DIST_KM && d < bestDist;
      }
    }
  }

  /**
   * The search loop both decision makers run over the store list, which may hold a store
   * twice and need not hold the source: the nearest store below the recovery load and in
   * range, the first one on a tie.
   */
  method FindTarget(source: Store, stores: seq<Store>, dist: Distance, ghost net: seq<Store>, ghost src: nat)
    returns (best: Option<Store>, bestDist: real, ghost choice: Option<nat>)
    requires net == Known(stores, source) && src < |net| && net[src] == source
    ensures choice == Nearest(old(States(net)), dist, src, |net|)
    ensures best.Some? <==> choice.Some?
    ensures choice.Some? ==> best.value == net[choice.value]
                             && bestDist == DistTo(old(States(net)), dist, src, choice.value)
  {
    hide Once, Known, States, Footprint, Nearest;
    ghost var states := States(net);
    ghost var seen: seq<Store> := [];
    assert stores[..0] == [];
    NothingSeen();
    best, bestDist, choice := None, MAX_DIST_KM + 1.0, None;
    NearestNext(states, dist, src, 0);
    var i := 0;
    while i < |stores|
      invariant i <= |stores|
      invariant seen == Once(stores[..i]) && seen <= net
      invariant choice == Nearest(states, dist, src, |seen|)
      invariant best.Some? <==> choice.Some?
      invariant choice.Some? ==> best.value == net[choice.value]
                                 && bestDist == DistTo(states, dist, src, choice.value) <= MAX_DIST_KM
      invariant choice.None? ==> bestDist == MAX_DIST_KM + 1.0
    {
      var s := stores[i];
      OnceNext(stores, source, i);
      ghost var j := if s in seen then PlaceOf(seen, s) else |seen|;
      assert net[j] == s && states[j] == s.State() && states[src] == source.State();
      NearestNext(states, dist, src, |seen|);
      if s in seen {
        SeenAgain(states, dist, src, |seen|, j);
      }
      seen := Once(stores[..i + 1]);
      var nearer, d := IsNearer(source, s, dist, bestDist);
      assert d == DistTo(states, dist, src, j);
      if nearer {
        best, bestDist, choice := Some(s), d, Some(j);
      }
      i := i + 1;
    }
    assert stores[..i] == stores;
    KnownAtTheEnd(stores, source);
    NearestNext(states, dist, src, |seen|);
  }

  ghost function Book(reservations: StockReservationStore?): StockBook
    reads reservations
  {
    if reservations == null then Unconfigured else reservations.book
  }

  method ReserveUnit(reservations: StockReservationStore?, storeId: string) returns (ok: bool)
    modifies reservations
    ensures ok == Reserve(old(Book(reservations)), storeId, GENERIC_SKU, 1).0
    ensures Book(reservations) == Reserve(old(Book(reservations)), storeId, GENERIC_SKU, 1).2
  {
    ok := true;
    if reservations != null {
      var remaining;
      ok, remaining := reservations.ReserveStockAtomic(storeId, GENERIC_SKU, 1);
    }
  }

  /**
   * The tail both decision makers share: extract one order, reserve stock at the
   * target, then move the order or put it back.
   */
  method HandOver(source: Store, target: Store, reservations: StockReservationStore?, simTimeNs: int)
    returns (result: Handoff)
    requires source != target && source.currentQueue != target.currentQueue
    modifies source, source.currentQueue, target, target.currentQueue, reservations
    ensures Transfer(result, source.State(), target.State(), Book(reservations))
            == old(Transferred(source.State(), target.State(), Book(reservations), simTimeNs))
  {
    ghost var pre, post := ExtractOne(source.State().queue);
    var extracted := source.currentQueue.ExtractNonPerishables(1);
    if |extracted| == 0 {
      return NothingToMove;
    }
    var ord := extracted[0];
    var reserved := ReserveUnit(reservations, target.id);
    if !reserved {
      source.currentQueue.Push(ord);
      return Refused(ord);
    }
    source.SetLastReRouteSimTimeNs(simTimeNs);
    source.IncrReRoutedOut();
    target.IncrReRoutedIn();
    target.EnqueueOrder(ord);
    return Delivered(ord);
  }

  /** The same tail, seen on the whole network. */
  method HandOverIn(source: Store, target: Store, reservations: StockReservationStore?, simTimeNs: int,
                    ghost stores: seq<Store>, ghost src: nat, ghost k: nat)
    returns (result: Handoff)
    requires src < |stores| && stores[src] == source && k < |stores| && stores[k] == target && src != k
    requires Separate(stores)
    modifies source, source.currentQueue, target, target.currentQueue, reservations
    ensures var tr := Transferred(old(States(stores))[src], old(States(stores))[k], old(Book(reservations)), simTimeNs);
            && result == tr.result
            && Net(stores, reservations)
               == After(old(Net(stores, reservations)), src, k, tr)
  {
    ghost var before := States(stores);
    result := HandOver(source, target, reservations, simTimeNs);
    OnlyChanged(stores, before, src, k);
  }

  class DecisionEngine {
    const mode: Mode
    const costConfig: CostConfig
    const reservationStore: StockReservationStore?
    var lastNudgeSimTime: map<string, int>
    var lastReRouteSimTime: map<string, int>
    var summary: Summary

    ghost function State(): Engine
      reads this
    {
      Engine(mode, costConfig, lastNudgeSimTime, lastReRouteSimTime, summary)
    }

    constructor (mode: Mode, costConfig: CostConfig, reservationStore: StockReservationStore?)
      ensures State() == Engine(mode, costConfig, map[], map[], NO_DECISIONS)
      ensures this.reservationStore == reservationStore
    {
      this.mode, this.costConfig, this.reservationStore := mode, costConfig, reservationStore;
      lastNudgeSimTime, lastReRouteSimTime, summary := map[], map[], NO_DECISIONS;
    }

    method CountNoAction(id: string, simTimeNs: int) returns (event: Option<Event>)
      modifies this`summary
      ensures summary == old(summary).(noAction := old(summary).noAction + 1)
      ensures event == Some(Quiet(id, simTimeNs))
    {
      summary := summary.(noAction := summary.noAction + 1);
      event := Some(Quiet(id, simTimeNs));
    }

    /** Consolidates the active cart's orders; counts and reports a nudge if any were merged. */
    method Nudge(source: Store, cart: string, simTimeNs: int) returns (event: Option<Event>)
      modifies this`summary, this`lastNudgeSimTime, source.currentQueue
      ensures var m := MergeCount(old(source.State()).queue, cart);
              if m > 1 then
                && event == Some(Event(NudgeIssued, source.id, None, None, None, Some((cart, m)), simTimeNs))
                && summary == old(summary).(nudges := old(summary).nudges + 1, merged := old(summary).merged + m)
                && lastNudgeSimTime == old(lastNudgeSimTime)[source.id := simTimeNs]
                && source.State() == old(source.State()).(queue := Consolidated(old(source.State()).queue, cart))
              else
                && event == None && summary == old(summary) && lastNudgeSimTime == old(lastNudgeSimTime)
                && source.State() == old(source.State())
    {
      var passes, merged := source.currentQueue.ConsolidateOrdersByCart(cart);
      if merged <= 1 {
        return None;
      }
      lastNudgeSimTime := lastNudgeSimTime[source.id := simTimeNs];
      summary := summary.(nudges := summary.nudges + 1, merged := summary.merged + merged);
      event := Some(Event(NudgeIssued, source.id, None, None, None, Some((cart, merged)), simTimeNs));
    }

    /** Gate, extraction, reservation and move towards a chosen target. */
    method ReRoute(source: Store, target: Store, quote: Quote, open: bool, simTimeNs: int,
                   ghost stores: seq<Store>, ghost src: nat, ghost k: nat) returns (event: Event)
      requires src < |stores| && stores[src] == source && k < |stores| && stores[k] == target && src != k
      requires Separate(stores)
      modifies this`summary, this`lastReRouteSimTime, source, source.currentQueue,
               target, target.currentQueue, reservationStore
      ensures Verdict(State(), Net(stores, reservationStore), event)
              == old(Settle(State(), Net(stores, reservationStore), src, k, quote, open, simTimeNs))
    {
      hide Transferred, After, States;
      ghost var before := States(stores);
      assert before[src].id == source.id && before[k].id == target.id;
      if mode != Naive && !open {
        OnlyChanged(stores, before, src, k);
        summary := summary.(rejected := summary.rejected + 1);
        event := Event(RejectedOnCost, source.id, Some(target.id), None, Some(quote), None, simTimeNs);
      } else {
        var result := HandOverIn(source, target, reservationStore, simTimeNs, stores, src, k);
        match result
        case NothingToMove =>
          summary := summary.(noAction := summary.noAction + 1);
          event := Quiet(source.id, simTimeNs);
        case Refused(ord) =>
          summary := summary.(failed := summary.failed + 1);
          event := Event(FailedNoStock, source.id, Some(target.id), Some(ord.id), Some(quote), None, simTimeNs);
        case Delivered(ord) =>
          lastReRouteSimTime := lastReRouteSimTime[source.id := simTimeNs];
          summary := summary.(executed := summary.executed + 1);
          event := Event(Executed, source.id, Some(target.id), Some(ord.id), Some(quote), None, simTimeNs);
      }
    }

    /** The guards before the search; an event means the evaluation is over. */
    method Screen(source: Store, activeCart: Option<string>, simTimeNs: int, ghost stores: seq<Store>, ghost src: nat)
      returns (event: Option<Event>)
      requires src < |stores| && stores[src] == source && Separate(stores)
      modifies this`summary, this`lastNudgeSimTime, source.currentQueue
      ensures var before := old(Net(stores, reservationStore));
              match old(Screened(State(), before, activeCart, src, simTimeNs))
              case Some(v) => event == Some(v.event) && State() == v.agent && States(stores) == v.world.stores
                              && v.world.book == before.book
              case None => event.None? && State() == old(State()) && States(stores) == before.stores
    {
      hide MergeCount, Consolidated, States;
      ghost var before := States(stores);
      assert before[src] == source.State();
      var load := source.ComputeLoad();
      event := None;
      if load.AtMost(TRIGGER_PCT) {
        event := CountNoAction(source.id, simTimeNs);
      } else {
        if mode == FullOrchestration && activeCart.Some? {
          event := Nudge(source, activeCart.value, simTimeNs);
        }
        if event.None? {
          if mode == FullOrchestration && InWindow(Last(lastNudgeSimTime, source.id), simTimeNs) {
            event := CountNoAction(source.id, simTimeNs);
          } else if InWindow(Last(lastReRouteSimTime, source.id), simTimeNs) {
            event := CountNoAction(source.id, simTimeNs);
          }
        }
      }
      OnlyChanged(stores, before, src, src);
    }

    method Search(source: Store, stores: seq<Store>, dist: Distance, simTimeNs: int,
                  ghost net: seq<Store>, ghost src: nat)
      returns (event: Event)
      requires net == Known(stores, source) && src < |net| && net[src] == source && Separate(net)
      modifies this`summary, this`lastReRouteSimTime, Footprint(net), reservationStore
      ensures Verdict(State(), Net(net, reservationStore), event)
              == old(Searched(State(), Net(net, reservationStore), dist, src, simTimeNs))
    {
      hide Once, Settle, Nearest, ReRouteCost, BreachPenalty, PredictedDelayMin, GateOpen, States, Footprint;
      ghost var before := States(net);
      assert before[src] == source.State();
      var best, bestDist, choice := FindTarget(source, stores, dist, net, src);
      OnlyChanged(net, before, src, src);
      if best.None? {
        summary := summary.(noAction := summary.noAction + 1);
        event := Quiet(source.id, simTimeNs);
        OnlyChanged(net, before, src, src);
      } else {
        NearestIsBest(before, dist, src, |net|);
        InFootprint(net, src);
        InFootprint(net, choice.value);
        var waiting := source.currentQueue.Len();
        OnlyChanged(net, before, src, src);
        var quote := QuoteFor(costConfig, bestDist, waiting);
        var open := GateOpen(costConfig, bestDist, quote.delayMin);
        event := ReRoute(source, best.value, quote, open, simTimeNs, net, src, choice.value);
      }
    }

    /** The list may hold a store twice and need not hold the source. */
    method EvaluateBreach(source: Store, stores: seq<Store>, dist: Distance, activeCart: Option<string>, simTimeNs: int)
      returns (event: Event)
      requires OwnQueues(stores + [source])
      modifies this, Footprint(Known(stores, source)), reservationStore
      ensures var net := Known(stores, source);
              Verdict(State(), Net(net, reservationStore), event)
              == old(Evaluate(State(), Net(net, reservationStore), dist, activeCart, PlaceOf(net, source), simTimeNs))
    {
      hide Evaluate, States, Footprint, Once, Known;
      KnownAreSeparate(stores, source);
      ghost var net := Known(stores, source);
      event := EvaluateAt(source, stores, dist, activeCart, simTimeNs, net, PlaceOf(net, source));
    }

    /** The evaluation, with the stores it is about and the source's place among them. */
    method EvaluateAt(source: Store, stores: seq<Store>, dist: Distance, activeCart: Option<string>, simTimeNs: int,
                      ghost net: seq<Store>, ghost src: nat)
      returns (event: Event)
      requires net == Known(stores, source) && src < |net| && net[src] == source && Separate(net)
      modifies this, Footprint(net), reservationStore
      ensures Verdict(State(), Net(net, reservationStore), event)
              == old(Evaluate(State(), Net(net, reservationStore), dist, activeCart, src, simTimeNs))
    {
      hide Screened, Searched, States, Footprint, Once, Known;
      ghost var before := States(net);
      InFootprint(net, src);
      summary := summary.(evaluations := summary.evaluations + 1);
      OnlyChanged(net, before, src, src);
      var early := Screen(source, activeCart, simTimeNs, net, src);
      if early.Some? {
        event := early.value;
      } else {
        event := Search(source, stores, dist, simTimeNs, net, src);
      }
    }
  }

  class CostGatedReRouter {
    const costConfig: CostConfig
    const reservationStore: StockReservationStore?
    const costGatedEnabled: bool
    var summary: Summary

    ghost function State(): ReRouter
      reads this
    {
      ReRouter(costGatedEnabled, costConfig, summary)
    }

    constructor (costConfig: CostConfig, reservationStore: StockReservationStore?, costGatedEnabled: bool)
      ensures State() == ReRouter(costGatedEnabled, costConfig, NO_DECISIONS)
      ensures this.reservationStore == reservationStore
    {
      this.costConfig, this.reservationStore := costConfig, reservationStore;
      this.costGatedEnabled, summary := costGatedEnabled, NO_DECISIONS;
    }

    method ReRoute(source: Store, target: Store, quote: Quote, open: bool, simTimeNs: int,
                   ghost stores: seq<Store>, ghost src: nat, ghost k: nat) returns (event: Event)
      requires src < |stores| && stores[src] == source && k < |stores| && stores[k] == target && src != k
      requires Separate(stores)
      modifies this`summary, source, source.currentQueue, target, target.currentQueue, reservationStore
      ensures Verdict(State(), Net(stores, reservationStore), event)
              == old(Conclude(State(), Net(stores, reservationStore), src, k, quote, open, simTimeNs))
    {
      hide Transferred, After, States;
      ghost var before := States(stores);
      assert before[src].id == source.id && before[k].id == target.id;
      if costGatedEnabled && !open {
        OnlyChanged(stores, before, src, k);
        summary := summary.(rejected := summary.rejected + 1);
        event := Event(RejectedOnCost, source.id, Some(target.id), None, Some(quote), None, simTimeNs);
      } else {
        var result := HandOverIn(source, target, reservationStore, simTimeNs, stores, src, k);
        match result
        case NothingToMove =>
          summary := summary.(noAction := summary.noAction + 1);
          event := Quiet(source.id, simTimeNs);
        case Refused(ord) =>
          summary := summary.(failed := summary.failed + 1);
          event := Event(FailedNoStock, source.id, Some(target.id), Some(ord.id), Some(quote), None, simTimeNs);
        case Delivered(ord) =>
          summary := summary.(executed := summary.executed + 1);
          event := Event(Executed, source.id, Some(target.id), Some(ord.id), Some(quote), None, simTimeNs);
      }
    }

    method EvaluateAndReRoute(source: Store, stores: seq<Store>, dist: Distance, simTimeNs: int)
      returns (event: Event)
      requires OwnQueues(stores + [source])
      modifies this, Footprint(Known(stores, source)), reservationStore
      ensures var net := Known(stores, source);
              Verdict(State(), Net(net, reservationStore), event)
              == old(Policy.EvaluateAndReRoute(
                       State(), Net(net, reservationStore), dist, PlaceOf(net, source), simTimeNs))
    {
      hide Policy.EvaluateAndReRoute, States, Footprint, Once, Known;
      KnownAreSeparate(stores, source);
      ghost var net := Known(stores, source);
      event := EvaluateAt(source, stores, dist, simTimeNs, net, PlaceOf(net, source));
    }

    /** The evaluation, with the stores it is about and the source's place among them. */
    method EvaluateAt(source: Store, stores: seq<Store>, dist: Distance, simTimeNs: int,
                      ghost net: seq<Store>, ghost src: nat)
      returns (event: Event)
      requires net == Known(stores, source) && src < |net| && net[src] == source && Separate(net)
      modifies this, Footprint(net), reservationStore
      ensures Verdict(State(), Net(net, reservationStore), event)
              == old(Policy.EvaluateAndReRoute(State(), Net(net, reservationStore), dist, src, simTimeNs))
    {
      hide Once, Known, Conclude, Nearest, ReRouteCost, BreachPenalty, PredictedDelayMin, GateOpen, States, Footprint;
      ghost var before := States(net);
      assert before[src] == source.State();
      InFootprint(net, src);
      summary := summary.(evaluations := summary.evaluations + 1);
      var load := source.ComputeLoad();
      if load.AtMost(TRIGGER_PCT) || InWindow(source.lastReRouteSimTimeNs, simTimeNs) {
        summary := summary.(noAction := summary.noAction + 1);
        OnlyChanged(net, before, src, src);
        return Quiet(source.id, simTimeNs);
      }
      OnlyChanged(net, before, src, src);
      var best, bestDist, choice := FindTarget(source, stores, dist, net, src);
      OnlyChanged(net, before, src, src);
      if best.None? {
        summary := summary.(noAction := summary.noAction + 1);
        OnlyChanged(net, before, src, src);
        return Quiet(source.id, simTimeNs);
      }
      NearestIsBest(before, dist, src, |net|);
      InFootprint(net, choice.value);
      var waiting := source.currentQueue.Len();
      OnlyChanged(net, before, src, src);
      var quote := QuoteFor(costConfig, bestDist, waiting);
      var open := GateOpen(costConfig, bestDist, quote.delayMin);
      event := ReRoute(source, best.value, quote, open, simTimeNs, net, src, choice.value);
    }
  }
}
