/**
 * The policy of Policy.dfy, which evaluates in one go, is one of the schedules of the
 * step-by-step engine of Protocol.dfy: what holds in every interleaving holds of it.
 */
module Granularity {
  import opened Options
  import opened Orders
  import opened CostModel
  import opened Reservation
  import opened Stores
  import opened Policy
  import opened Protocol
  import opened Shutdown

  /** The engine makes these choices, one step after the other, and nobody else moves. */
  ghost function Thoughts(n: Net, choices: seq<Choice>): (r: Option<Net>)
    requires Shape(n)
    ensures r.Some? ==> Shape(r.value)
    decreases |choices|
  {
    if choices == [] then Some(n)
    else
      match ThinkStep(n, choices[0])
      case None => None
      case Some(n') => Thoughts(n', choices[1..])
  }

  lemma {:induction false} ThoughtsAreRuns(n: Net, choices: seq<Choice>) returns (actions: seq<Action>)
    requires Shape(n)
    ensures Run(n, actions) == Thoughts(n, choices)
    decreases |choices|
  {
    hide ThinkStep;
    actions := [];
    if choices != [] {
      actions := [Think(choices[0])];
      match ThinkStep(n, choices[0])
      case None =>
      case Some(m) =>
        var rest := ThoughtsAreRuns(m, choices[1..]);
        actions := [Think(choices[0])] + rest;
        assert actions[1..] == rest;
    }
  }

  lemma OneThought(n: Net, c: Choice, m: Net, rest: seq<Choice>)
    requires Shape(n) && ThinkStep(n, c) == Some(m)
    ensures Thoughts(n, [c] + rest) == Thoughts(m, rest)
  {
    hide ThinkStep;
    assert ([c] + rest)[1..] == rest;
  }

  lemma NoThought(n: Net)
    requires Shape(n)
    ensures Thoughts(n, []) == Some(n)
  {
  }

  /** The engine rests after this verdict on store `src` at `t`, and nobody else has moved. */
  ghost predicate Delivers(n: Net, n': Net, v: Verdict<Engine>, src: nat, t: int) {
    && n'.engine == v.agent && n'.world == v.world && n'.pc == Resting
    && n'.log == n.log + [Entry(v.event.outcome, src, t)]
    && n'.clock == n.clock && n'.created == n.created && SameCrews(n, n')
  }

  lemma LastStep(n: Net, c: Choice, n': Net)
    requires Shape(n) && ThinkStep(n, c) == Some(n')
    ensures Thoughts(n, [c]) == Some(n')
  {
    OneThought(n, c, n', []);
    NoThought(n');
    assert [c] + [] == [c];
  }

  lemma Declining(n: Net, src: nat, t: int) returns (n': Net)
    requires Shape(n) && n.pc in {Judging(src, t), Cleared(src, t), Searching(src, t)} && src < |n.crews|
    ensures Thoughts(n, [Decline]) == Some(n') && Delivers(n, n', Declined(n.engine, n.world, src, t), src, t)
  {
    n' := Report(n, NoAction);
    LastStep(n, Decline, n');
  }

  lemma Nudging(n: Net, cart: string, src: nat, t: int) returns (choices: seq<Choice>, n': Net)
    requires Shape(n) && n.pc == Judging(src, t) && src < |n.crews| && n.engine.mode == FullOrchestration
    requires MergeCount(n.world.stores[src].queue, cart) > 1
    ensures Thoughts(n, choices) == Some(n')
    ensures Delivers(n, n', Nudged(n.engine, n.world, src, cart, t), src, t)
  {
    hide MergeCount, Consolidated, Absorbed;
    var m1 := JudgeStep(n, Merge(cart)).value;
    var m2 := JudgeStep(m1, Go).value;
    var m3 := JudgeStep(m2, Go).value;
    n' := JudgeStep(m3, Go).value;
    LastStep(m3, Go, n');
    OneThought(m2, Go, m3, [Go]);
    OneThought(m1, Go, m2, [Go] + [Go]);
    OneThought(n, Merge(cart), m1, [Go] + ([Go] + [Go]));
    choices := [Merge(cart)] + ([Go] + ([Go] + [Go]));
  }

  // ---------- the transfer, backwards from its report ----------

  /** The engine rests after reporting a transfer that left these stores. */
  ghost predicate Moved(n: Net, n': Net, stores: seq<StoreState>, e: Engine, src: nat, t: int) {
    Delivers(n, n', Verdict(e.(summary := Count1(e.summary, Executed)), World(stores, n.world.book),
                            Event(Executed, "", None, None, None, None, t)), src, t)
  }

  lemma FromJoinCounted(n: Net, src: nat, t: int, k: nat, o: Order) returns (n': Net)
    requires Shape(n) && n.pc == JoinCounted(src, t, k, o)
    ensures Thoughts(n, [Go] + [Go]) == Some(n')
    ensures Moved(n, n', n.world.stores[k := n.world.stores[k].Enqueued(o)], n.engine, src, t)
  {
    var m := TransferStep(n, Go).value;
    n' := TransferStep(m, Go).value;
    LastStep(m, Go, n');
    OneThought(n, Go, m, [Go]);
  }

  /** Two transfer steps in a row that change stores only. */
  lemma CountingTheMove(n: Net, src: nat, t: int, k: nat, o: Order) returns (m: Net, m': Net)
    requires Shape(n) && n.pc == Stamped(src, t, k, o)
    ensures ThinkStep(n, Go) == Some(m) && ThinkStep(m, Go) == Some(m')
    ensures m'.pc == JoinCounted(src, t, k, o) && m'.engine == n.engine && m'.log == n.log
    ensures m'.clock == n.clock && m'.created == n.created && SameCrews(n, m') && m'.world.book == n.world.book
    ensures var s, tgt := n.world.stores[src], n.world.stores[k];
            m'.world.stores == n.world.stores[src := s.(reRoutedOut := s.reRoutedOut + 1)]
                                             [k := tgt.(reRoutedIn := tgt.reRoutedIn + 1)]
  {
    m := TransferStep(n, Go).value;
    m' := TransferStep(m, Go).value;
  }

  /** Two transfer steps in a row that note the time of the move. */
  lemma StampingTheMove(n: Net, src: nat, t: int, k: nat, o: Order) returns (m: Net, m': Net)
    requires Shape(n) && n.pc == Reserved(src, t, k, o)
    ensures ThinkStep(n, Go) == Some(m) && ThinkStep(m, Go) == Some(m')
    ensures m'.pc == Stamped(src, t, k, o) && m'.log == n.log
    ensures m'.engine == n.engine.(lastReRoute := n.engine.lastReRoute[n.world.stores[src].id := t])
    ensures m'.clock == n.clock && m'.created == n.created && SameCrews(n, m') && m'.world.book == n.world.book
    ensures m'.world.stores == n.world.stores[src := n.world.stores[src].(lastReRouteNs := t)]
  {
    m := TransferStep(n, Go).value;
    m' := TransferStep(m, Go).value;
  }

  lemma FromStamped(n: Net, src: nat, t: int, k: nat, o: Order) returns (n': Net)
    requires Shape(n) && n.pc == Stamped(src, t, k, o)
    ensures Thoughts(n, [Go] + ([Go] + ([Go] + [Go]))) == Some(n')
    ensures var s, tgt := n.world.stores[src], n.world.stores[k];
            Moved(n, n', n.world.stores[src := s.(reRoutedOut := s.reRoutedOut + 1)]
                                       [k := tgt.(reRoutedIn := tgt.reRoutedIn + 1).Enqueued(o)], n.engine, src, t)
  {
    hide ThinkStep, Thoughts;
    var m, m' := CountingTheMove(n, src, t, k, o);
    n' := FromJoinCounted(m', src, t, k, o);
    OneThought(m, Go, m', [Go] + [Go]);
    OneThought(n, Go, m, [Go] + ([Go] + [Go]));
  }

  /** From the reservation to the report of an executed re-route. */
  lemma Transferring(n: Net, src: nat, t: int, k: nat, o: Order) returns (choices: seq<Choice>, n': Net)
    requires Shape(n) && n.pc == Reserved(src, t, k, o)
    ensures Thoughts(n, choices) == Some(n')
    ensures var s, tgt := n.world.stores[src], n.world.stores[k];
            Moved(n, n', n.world.stores[src := s.(reRoutedOut := s.reRoutedOut + 1, lastReRouteNs := t)]
                                       [k := tgt.(reRoutedIn := tgt.reRoutedIn + 1).Enqueued(o)],
                  n.engine.(lastReRoute := n.engine.lastReRoute[n.world.stores[src].id := t]), src, t)
  {
    hide ThinkStep, Thoughts;
    var m, m' := StampingTheMove(n, src, t, k, o);
    n' := FromStamped(m', src, t, k, o);
    var rest := [Go] + ([Go] + ([Go] + [Go]));
    OneThought(m, Go, m', rest);
    OneThought(n, Go, m, [Go] + rest);
    choices := [Go] + ([Go] + rest);
  }

  // ---------- from the extraction on ----------

  /** The engine holds the first non-perishable order of the source. */
  lemma Extracting(n: Net, src: nat, t: int, k: nat) returns (m: Net)
    requires Shape(n) && n.pc == Aimed(src, t, k) && Extract(n.world.stores[src].queue, 1).0 != []
    ensures ThinkStep(n, Go) == Some(m)
    ensures var taken, left := Extract(n.world.stores[src].queue, 1).0, Extract(n.world.stores[src].queue, 1).1;
            && m.pc == Extracted(src, t, k, taken[0]) && m.engine == n.engine && m.log == n.log
            && m.clock == n.clock && m.created == n.created && SameCrews(n, m)
            && m.world == n.world.(stores := n.world.stores[src := n.world.stores[src].(queue := left)])
  {
    hide Extract;
    m := SelectStep(n, Go).value;
  }

  lemma RefusingAnOrder(n: Net, src: nat, t: int, k: nat, o: Order) returns (n': Net)
    requires Shape(n) && n.pc == Extracted(src, t, k, o)
    requires !Reserve(n.world.book, n.world.stores[k].id, GENERIC_SKU, 1).0
    ensures Thoughts(n, [Go] + ([Go] + [Go])) == Some(n')
    ensures Delivers(n, n', Verdict(n.engine.(summary := Count1(n.engine.summary, FailedNoStock)),
                                    n.world.(stores := n.world.stores[src := n.world.stores[src].Enqueued(o)]),
                                    Event(FailedNoStock, "", None, None, None, None, t)), src, t)
  {
    hide Reserve;
    var m := SelectStep(n, Go).value;
    var m' := SelectStep(m, Go).value;
    n' := SelectStep(m', Go).value;
    LastStep(m', Go, n');
    OneThought(m, Go, m', [Go]);
    OneThought(n, Go, m, [Go] + [Go]);
  }

  /** From the gate on, the schedule reports what `Settle` says. */
  lemma Settling(n: Net, src: nat, t: int, k: nat, quote: Quote, open: bool) returns (choices: seq<Choice>, n': Net)
    requires Shape(n) && n.pc == Aimed(src, t, k)
    ensures Thoughts(n, choices) == Some(n')
    ensures Delivers(n, n', Settle(n.engine, n.world, src, k, quote, open, t), src, t)
  {
    hide Extract, Reserve, ThinkStep, SelectStep, TransferStep, Thoughts;
    if n.engine.mode != Naive && !open {
      n' := Rejecting(n, src, t, k);
      choices := [Reject];
    } else if Extract(n.world.stores[src].queue, 1).0 == [] {
      n' := FindingNothing(n, src, t, k);
      choices := [Go];
      assert n.world.stores == n.world.stores[src := n.world.stores[src]][k := n.world.stores[k]];
    } else {
      choices, n' := SettlingAnOrder(n, src, t, k, quote, open);
    }
  }

  lemma Rejecting(n: Net, src: nat, t: int, k: nat) returns (n': Net)
    requires Shape(n) && n.pc == Aimed(src, t, k) && n.engine.mode != Naive
    ensures Thoughts(n, [Reject]) == Some(n') && n' == Report(n, RejectedOnCost)
  {
    n' := Report(n, RejectedOnCost);
    LastStep(n, Reject, n');
  }

  lemma FindingNothing(n: Net, src: nat, t: int, k: nat) returns (n': Net)
    requires Shape(n) && n.pc == Aimed(src, t, k) && Extract(n.world.stores[src].queue, 1).0 == []
    ensures Thoughts(n, [Go]) == Some(n') && n' == Report(n, NoAction)
  {
    hide Extract;
    n' := Report(n, NoAction);
    LastStep(n, Go, n');
  }

  lemma Reserving(n: Net, src: nat, t: int, k: nat, o: Order) returns (m: Net)
    requires Shape(n) && n.pc == Extracted(src, t, k, o)
    requires Reserve(n.world.book, n.world.stores[k].id, GENERIC_SKU, 1).0
    ensures ThinkStep(n, Go) == Some(m)
    ensures m == n.(world := n.world.(book := Reserve(n.world.book, n.world.stores[k].id, GENERIC_SKU, 1).2),
                    pc := Reserved(src, t, k, o))
  {
    hide Reserve;
    m := SelectStep(n, Go).value;
  }

  lemma SettlingAnOrder(n: Net, src: nat, t: int, k: nat, quote: Quote, open: bool)
    returns (choices: seq<Choice>, n': Net)
    requires Shape(n) && n.pc == Aimed(src, t, k) && Extract(n.world.stores[src].queue, 1).0 != []
    requires n.engine.mode == Naive || open
    ensures Thoughts(n, choices) == Some(n')
    ensures Delivers(n, n', Settle(n.engine, n.world, src, k, quote, open, t), src, t)
  {
    hide Extract, Reserve, ThinkStep, SelectStep, TransferStep, Thoughts, Delivers, Settle;
    var o := Extract(n.world.stores[src].queue, 1).0[0];
    var m := Extracting(n, src, t, k);
    var rest;
    if Reserve(n.world.book, n.world.stores[k].id, GENERIC_SKU, 1).0 {
      var m' := Reserving(m, src, t, k, o);
      var more;
      more, n' := Transferring(m', src, t, k, o);
      rest := [Go] + more;
      OneThought(m, Go, m', more);
      ExecutedAsSettled(n, m, m', n', src, t, k, o, quote, open);
    } else {
      rest := [Go] + ([Go] + [Go]);
      n' := RefusingAnOrder(m, src, t, k, o);
      RefusedAsSettled(n, m, n', src, t, k, o, quote, open);
    }
    choices := [Go] + rest;
    OneThought(n, Go, m, rest);
  }

  /** The network after an extraction, with nothing else moved. */
  ghost predicate Held(n: Net, m: Net, src: nat) {
    && |n.crews| == |n.world.stores| && src < |n.crews|
    && m.engine == n.engine && m.log == n.log && m.clock == n.clock && m.created == n.created && SameCrews(n, m)
    && m.world == n.world.(stores := n.world.stores[src :=
                             n.world.stores[src].(queue := Extract(n.world.stores[src].queue, 1).1)])
  }

  lemma ExecutedAsSettled(
      n: Net, m: Net, m': Net, n': Net, src: nat, t: int, k: nat, o: Order, quote: Quote, open: bool)
    requires Held(n, m, src) && k < |n.crews| && k != src
    requires Extract(n.world.stores[src].queue, 1).0 != [] && o == Extract(n.world.stores[src].queue, 1).0[0]
    requires n.engine.mode == Naive || open
    requires Reserve(n.world.book, n.world.stores[k].id, GENERIC_SKU, 1).0
    requires m' == m.(world := m.world.(book := Reserve(m.world.book, m.world.stores[k].id, GENERIC_SKU, 1).2),
                      pc := Reserved(src, t, k, o))
    requires var s, tgt := m'.world.stores[src], m'.world.stores[k];
             Moved(m', n', m'.world.stores[src := s.(reRoutedOut := s.reRoutedOut + 1, lastReRouteNs := t)]
                                          [k := tgt.(reRoutedIn := tgt.reRoutedIn + 1).Enqueued(o)],
                   m'.engine.(lastReRoute := m'.engine.lastReRoute[m'.world.stores[src].id := t]), src, t)
    ensures Delivers(n, n', Settle(n.engine, n.world, src, k, quote, open, t), src, t)
  {
    hide Extract, Reserve;
    var v := Settle(n.engine, n.world, src, k, quote, open, t);
    assert n'.world.stores == v.world.stores;
  }

  lemma RefusedAsSettled(n: Net, m: Net, n': Net, src: nat, t: int, k: nat, o: Order, quote: Quote, open: bool)
    requires Held(n, m, src) && k < |n.crews| && k != src
    requires Extract(n.world.stores[src].queue, 1).0 != [] && o == Extract(n.world.stores[src].queue, 1).0[0]
    requires n.engine.mode == Naive || open
    requires !Reserve(n.world.book, n.world.stores[k].id, GENERIC_SKU, 1).0
    requires Delivers(m, n', Verdict(m.engine.(summary := Count1(m.engine.summary, FailedNoStock)),
                                     m.world.(stores := m.world.stores[src := m.world.stores[src].Enqueued(o)]),
                                     Event(FailedNoStock, "", None, None, None, None, t)), src, t)
    ensures Delivers(n, n', Settle(n.engine, n.world, src, k, quote, open, t), src, t)
  {
    hide Extract, Reserve;
    var v := Settle(n.engine, n.world, src, k, quote, open, t);
    assert n'.world.stores == v.world.stores;
  }

  // ---------- a whole evaluation ----------

  lemma Aiming(n: Net, src: nat, t: int, k: nat) returns (m: Net)
    requires Shape(n) && n.pc == Searching(src, t) && k < |n.crews| && k != src
    ensures ThinkStep(n, Aim(k)) == Some(m) && m == n.(pc := Aimed(src, t, k))
  {
    m := SelectStep(n, Aim(k)).value;
  }

  lemma SearchingOn(n: Net, dist: Distance, src: nat, t: int) returns (choices: seq<Choice>, n': Net)
    requires Shape(n) && n.pc == Searching(src, t)
    ensures Thoughts(n, choices) == Some(n')
    ensures Delivers(n, n', Searched(n.engine, n.world, dist, src, t), src, t)
  {
    hide ThinkStep, Thoughts, Nearest, Settle, GateOpen, QuoteFor, PredictedDelayMin;
    match Target(n.world, dist, src)
    case None =>
      n' := Declining(n, src, t);
      choices := [Decline];
    case Some(k) =>
      NearestIsBest(n.world.stores, dist, src, |n.world.stores|);
      var m := Aiming(n, src, t, k);
      var quote := QuoteFor(n.engine.cost, DistTo(n.world.stores, dist, src, k), |n.world.stores[src].queue|);
      var rest;
      rest, n' := Settling(m, src, t, k, quote, GateOpen(n.engine.cost, quote.distKm, quote.delayMin));
      choices := [Aim(k)] + rest;
      OneThought(n, Aim(k), m, rest);
  }

  lemma Clearing(n: Net, src: nat, t: int) returns (m: Net)
    requires Shape(n) && n.pc == Judging(src, t)
    requires n.engine.mode != FullOrchestration || !InWindow(Last(n.engine.lastNudge, n.world.stores[src].id), t)
    requires !InWindow(Last(n.engine.lastReRoute, n.world.stores[src].id), t)
    ensures m == n.(pc := Searching(src, t))
    ensures forall rest :: Thoughts(n, [Go] + ([Go] + rest)) == Thoughts(m, rest)
  {
    var m' := n.(pc := Cleared(src, t));
    m := n.(pc := Searching(src, t));
    assert ThinkStep(n, Go) == Some(m') && ThinkStep(m', Go) == Some(m);
    hide ThinkStep, Thoughts;
    forall rest ensures Thoughts(n, [Go] + ([Go] + rest)) == Thoughts(m, rest) {
      OneThought(n, Go, m', [Go] + rest);
      OneThought(m', Go, m, rest);
    }
  }

  lemma JudgingOn(n: Net, dist: Distance, cart: Option<string>, src: nat, t: int)
    returns (choices: seq<Choice>, n': Net)
    requires Shape(n) && n.pc == Judging(src, t)
    ensures Thoughts(n, choices) == Some(n')
    ensures var v := match Screened(n.engine, n.world, cart, src, t)
                     case Some(verdict) => verdict
                     case None => Searched(n.engine, n.world, dist, src, t);
            Delivers(n, n', v, src, t)
  {
    hide ThinkStep, Thoughts, Searched, Nudged, MergeCount, InWindow, Last;
    var s := n.world.stores[src];
    match Screened(n.engine, n.world, cart, src, t)
    case None =>
      var m := Clearing(n, src, t);
      var rest;
      rest, n' := SearchingOn(m, dist, src, t);
      choices := [Go] + ([Go] + rest);
    case Some(v) =>
      if !s.CurrentLoad().AtMost(TRIGGER_PCT) && n.engine.mode == FullOrchestration && cart.Some?
         && MergeCount(s.queue, cart.value) > 1 {
        choices, n' := Nudging(n, cart.value, src, t);
      } else {
        n' := Declining(n, src, t);
        choices := [Decline];
      }
  }

  lemma Starting(n: Net, src: nat, t: int) returns (m: Net)
    requires Shape(n) && n.pc == Resting && src < |n.crews| && 0 < t && n.clock <= t
    ensures ThinkStep(n, Start(src, t)) == Some(m)
    ensures m == n.(pc := Judging(src, t), clock := t,
                    engine := n.engine.(summary := n.engine.summary.(evaluations := n.engine.summary.evaluations + 1)))
  {
    m := JudgeStep(n, Start(src, t)).value;
  }

  /**
   * Every evaluation of the policy at a time that has come is a schedule of the
   * step-by-step engine, with the same network, engine and reported outcome at its end.
   */
  lemma EvaluationIsARun(n: Net, dist: Distance, cart: Option<string>, src: nat, t: int)
    returns (actions: seq<Action>, n': Net)
    requires Shape(n) && n.pc == Resting && src < |n.crews| && 0 < t && n.clock <= t
    ensures Run(n, actions) == Some(n')
    ensures var v := Evaluate(n.engine, n.world, dist, cart, src, t);
            && n'.world == v.world && n'.engine == v.agent && n'.pc == Resting
            && n'.log == n.log + [Entry(v.event.outcome, src, t)]
            && n'.clock == t && n'.created == n.created && SameCrews(n, n')
  {
    hide ThinkStep, Thoughts, Screened, Searched;
    var m := Starting(n, src, t);
    var rest;
    rest, n' := JudgingOn(m, dist, cart, src, t);
    OneThought(n, Start(src, t), m, rest);
    actions := ThoughtsAreRuns(n, [Start(src, t)] + rest);
  }
}
