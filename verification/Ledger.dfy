/**
 * What every interleaving keeps: each order is in exactly one place, every counter
 * stands for what it claims to count, and the terms still in flight are known exactly.
 */
module Ledger {
  import opened Options
  import opened Orders
  import opened Reservation
  import opened Stores
  import opened Policy
  import opened Protocol

  // ---------- orders in hands ----------

  /** The order a picker has taken and not yet completed. */
  function Hand(w: Worker): seq<Order> {
    if w.Holding? || w.Serving? || w.Finishing? then [w.order] else []
  }

  function Hands(ws: seq<Worker>): seq<Order> {
    if ws == [] then [] else Hands(ws[..|ws| - 1]) + Hand(ws[|ws| - 1])
  }

  function Busy(ws: seq<Worker>): nat {
    if ws == [] then 0 else Busy(ws[..|ws| - 1]) + if ws[|ws| - 1].Serving? then 1 else 0
  }

  /** The order the engine has extracted and not yet pushed anywhere. */
  function EngineHand(pc: Pc): seq<Order> {
    if pc.Extracted? || pc.Refusing? || pc.Reserved? || pc.Noted? || pc.Stamped? || pc.LeftCounted? || pc.JoinCounted?
    then [pc.o] else []
  }

  lemma {:induction false} WorkerChanges(ws: seq<Worker>, j: nat, w: Worker, id: string)
    requires j < |ws|
    ensures var ws' := ws[j := w];
            && Busy(ws') == Busy(ws) - (if ws[j].Serving? then 1 else 0) + (if w.Serving? then 1 else 0)
            && |Hands(ws')| == |Hands(ws)| - |Hand(ws[j])| + |Hand(w)|
            && Count(Hands(ws'), id) == Count(Hands(ws), id) - Count(Hand(ws[j]), id) + Count(Hand(w), id)
            && Excess(Hands(ws')) == Excess(Hands(ws)) - Excess(Hand(ws[j])) + Excess(Hand(w))
  {
    hide Count, Excess, Hand;
    var n := |ws| - 1;
    var ws' := ws[j := w];
    CountConcat(Hands(ws[..n]), Hand(ws[n]), id);
    ExcessConcat(Hands(ws[..n]), Hand(ws[n]));
    CountConcat(Hands(ws'[..n]), Hand(ws'[n]), id);
    ExcessConcat(Hands(ws'[..n]), Hand(ws'[n]));
    if j < n {
      assert ws'[..n] == ws[..n][j := w];
      WorkerChanges(ws[..n], j, w, id);
    } else {
      assert ws'[..n] == ws[..n];
    }
  }

  lemma {:induction false} BusyAtMostAll(ws: seq<Worker>)
    ensures Busy(ws) <= |ws|
  {
    if ws != [] {
      BusyAtMostAll(ws[..|ws| - 1]);
    }
  }

  lemma {:induction false} NobodyBusy(ws: seq<Worker>)
    requires forall j | 0 <= j < |ws| :: ws[j] == AtTop || ws[j] == Gone
    ensures Hands(ws) == [] && Busy(ws) == 0
  {
    if ws != [] {
      NobodyBusy(ws[..|ws| - 1]);
    }
  }

  // ---------- sums over the network ----------

  /** The sum of `f` over all stores and their crews. */
  function Sum(f: (StoreState, Crew) -> int, ss: seq<StoreState>, cs: seq<Crew>): int
    requires |ss| == |cs|
  {
    if ss == [] then 0
    else Sum(f, ss[..|ss| - 1], cs[..|cs| - 1]) + f(ss[|ss| - 1], cs[|cs| - 1])
  }

  lemma {:induction false} SumUpdate(
      f: (StoreState, Crew) -> int, ss: seq<StoreState>, cs: seq<Crew>, i: nat, s: StoreState, c: Crew)
    requires i < |ss| == |cs|
    ensures Sum(f, ss[i := s], cs[i := c]) == Sum(f, ss, cs) - f(ss[i], cs[i]) + f(s, c)
  {
    var n := |ss| - 1;
    var ss', cs' := ss[i := s], cs[i := c];
    if i < n {
      assert ss'[..n] == ss[..n][i := s] && cs'[..n] == cs[..n][i := c];
      SumUpdate(f, ss[..n], cs[..n], i, s, c);
    } else {
      assert ss'[..n] == ss[..n] && cs'[..n] == cs[..n];
    }
  }

  // ---------- what is summed ----------

  function CreatedOf(s: StoreState, c: Crew): int {
    |c.arrived| - if c.dispatcher == Between then 0 else 1
  }

  function InOf(s: StoreState, c: Crew): int { s.reRoutedIn }

  function OutOf(s: StoreState, c: Crew): int { s.reRoutedOut }

  function AbsorbedOf(s: StoreState, c: Crew): int { |c.absorbed| }

  /** Orders that consolidated orders at this store stand for, wherever those are: queued, in hand or done. */
  function ExcessOfStore(s: StoreState, c: Crew): int {
    Excess(s.queue) + Excess(Hands(c.workers)) + Excess(c.done)
  }

  /** How often an id is held at a store: queued, in a hand, completed or absorbed. */
  function HeldAt(s: StoreState, c: Crew, id: string): int {
    Count(s.queue, id) + Count(Hands(c.workers), id) + Count(c.done, id) + Count(c.absorbed, id)
  }

  function HeldOf(id: string): (StoreState, Crew) -> int {
    (s: StoreState, c: Crew) => HeldAt(s, c, id)
  }

  function ArrivedOf(id: string): (StoreState, Crew) -> int {
    (s: StoreState, c: Crew) => Count(c.arrived, id)
  }

  function Across(f: (StoreState, Crew) -> int, n: Net): int
    requires |n.crews| == |n.world.stores|
  {
    Sum(f, n.world.stores, n.crews)
  }

  // ---------- terms in flight ----------

  /** The engine holds an order of store `i` whose leaving is not yet counted. */
  function OutPending(pc: Pc, i: nat): int {
    if (pc.Extracted? || pc.Refusing? || pc.Reserved? || pc.Noted? || pc.Stamped?) && pc.src == i then 1 else 0
  }

  /** The order's joining store `i` is counted, but it is not in the queue yet. */
  function InPending(pc: Pc, i: nat): int {
    if pc.JoinCounted? && pc.k == i then 1 else 0
  }

  /** A unit of store `i` is reserved for an order not yet counted as joining. */
  function UnitPending(pc: Pc, i: nat): int {
    if (pc.Reserved? || pc.Noted? || pc.Stamped? || pc.LeftCounted?) && pc.k == i then 1 else 0
  }

  /** Merged orders the two counters do not show yet. */
  function MergePending(pc: Pc): int {
    if pc.Merged? || pc.NudgeNoted? then pc.m - 1 else if pc.NudgeCounted? then pc.m else 0
  }

  /** An evaluation that is counted and whose outcome is not. */
  function OutcomePending(pc: Pc): int {
    if pc.Resting? || pc.Stopped? || pc.NudgeCounted? then 0 else 1
  }

  // ---------- the invariant ----------

  /** What holds of one store, its crew and the engine's position. */
  ghost predicate StoreBooks(s: StoreState, c: Crew, pc: Pc, i: nat) {
    && s.picking == Busy(c.workers) && |c.workers| == s.pickers
    && s.completed == |c.done|
    && s.received == |c.arrived| - (if c.dispatcher == Enqueued then 1 else 0)
    && |c.arrived| + s.reRoutedIn
       == |s.queue| + |Hands(c.workers)| + |c.done| + |c.absorbed| + s.reRoutedOut
          + OutPending(pc, i) + InPending(pc, i)
    && forall o | o in c.plan :: !o.consolidated
  }

  ghost predicate Books(n: Net)
    requires Shape(n)
  {
    forall i | 0 <= i < |n.crews| :: StoreBooks(n.world.stores[i], n.crews[i], n.pc, i)
  }

  /** What holds of the network's counters. */
  ghost predicate Totals(n: Net)
    requires Shape(n)
  {
    var sum := n.engine.summary;
    && Across(CreatedOf, n) == n.created
    && Across(OutOf, n) == Across(InOf, n) + (if n.pc.LeftCounted? then 1 else 0)
    && Across(InOf, n) == sum.executed + (if n.pc.JoinCounted? || n.pc.HandedOver? then 1 else 0)
    && Across(AbsorbedOf, n) == sum.merged - sum.nudges + MergePending(n.pc)
    && Across(ExcessOfStore, n) + Excess(EngineHand(n.pc)) == Across(AbsorbedOf, n)
    && sum.merged + (if n.pc.NudgeCounted? then n.pc.m else 0) >= 2 * sum.nudges
    && sum.evaluations == Outcomes(sum) + OutcomePending(n.pc)
    && (n.pc.Merged? || n.pc.NudgeNoted? || n.pc.NudgeCounted? ==> n.pc.m >= 2)
  }

  /** The order with this id is held as often as it arrived, the engine's hand included. */
  ghost predicate Placed(n: Net, id: string)
    requires Shape(n)
  {
    Across(HeldOf(id), n) + Count(EngineHand(n.pc), id) == Across(ArrivedOf(id), n)
  }

  // ---------- local changes ----------

  /** How the sums of a network change when one store and its crew do. */
  ghost predicate Shifted(n: Net, n': Net, i: nat, s: StoreState, c: Crew) {
    && i < |n.crews| == |n.world.stores|
    && n'.world.stores == n.world.stores[i := s] && n'.crews == n.crews[i := c]
  }

  lemma SumsShift(n: Net, n': Net, i: nat, s: StoreState, c: Crew)
    requires Shifted(n, n', i, s, c)
    ensures Across(CreatedOf, n') == Across(CreatedOf, n) - CreatedOf(n.world.stores[i], n.crews[i]) + CreatedOf(s, c)
    ensures Across(OutOf, n') == Across(OutOf, n) - OutOf(n.world.stores[i], n.crews[i]) + OutOf(s, c)
    ensures Across(InOf, n') == Across(InOf, n) - InOf(n.world.stores[i], n.crews[i]) + InOf(s, c)
    ensures Across(AbsorbedOf, n')
            == Across(AbsorbedOf, n) - AbsorbedOf(n.world.stores[i], n.crews[i]) + AbsorbedOf(s, c)
    ensures Across(ExcessOfStore, n')
            == Across(ExcessOfStore, n) - ExcessOfStore(n.world.stores[i], n.crews[i]) + ExcessOfStore(s, c)
  {
    SumUpdate(CreatedOf, n.world.stores, n.crews, i, s, c);
    SumUpdate(OutOf, n.world.stores, n.crews, i, s, c);
    SumUpdate(InOf, n.world.stores, n.crews, i, s, c);
    SumUpdate(AbsorbedOf, n.world.stores, n.crews, i, s, c);
    SumUpdate(ExcessOfStore, n.world.stores, n.crews, i, s, c);
  }

  lemma IdsShift(n: Net, n': Net, i: nat, s: StoreState, c: Crew, id: string)
    requires Shifted(n, n', i, s, c)
    ensures Across(HeldOf(id), n')
            == Across(HeldOf(id), n) - HeldAt(n.world.stores[i], n.crews[i], id) + HeldAt(s, c, id)
    ensures Across(ArrivedOf(id), n')
            == Across(ArrivedOf(id), n) - Count(n.crews[i].arrived, id) + Count(c.arrived, id)
  {
    SumUpdate(HeldOf(id), n.world.stores, n.crews, i, s, c);
    SumUpdate(ArrivedOf(id), n.world.stores, n.crews, i, s, c);
  }

  // ---------- every step keeps the ledger ----------

  ghost predicate Ledgers(n: Net, id: string) {
    Shape(n) && Books(n) && Totals(n) && Placed(n, id)
  }

  /** The dispatcher's local effect. */
  lemma DispatchLocally(n: Net, i: nat, n': Net, id: string)
    requires Shape(n) && Books(n) && DispatchStep(n, i) == Some(n')
    ensures var s, c, s', c' := n.world.stores[i], n.crews[i], n'.world.stores[i], n'.crews[i];
            && Shifted(n, n', i, s', c') && StoreBooks(s', c', n.pc, i)
            && n'.pc == n.pc && n'.engine == n.engine && Shape(n')
            && n'.created == n.created + CreatedOf(s', c') - CreatedOf(s, c)
            && s'.reRoutedIn == s.reRoutedIn && s'.reRoutedOut == s.reRoutedOut && c'.absorbed == c.absorbed
            && ExcessOfStore(s', c') == ExcessOfStore(s, c)
            && HeldAt(s', c', id) - HeldAt(s, c, id) == Count(c'.arrived, id) - Count(c.arrived, id)
  {
    var s, c := n.world.stores[i], n.crews[i];
    assert StoreBooks(s, c, n.pc, i);
    if c.dispatcher == Between {
      var o := c.plan[0];
      assert o in c.plan;
      CountConcat(s.queue, [Pushed(o)], id);
      ExcessConcat(s.queue, [Pushed(o)]);
      CountConcat(c.arrived, [o], id);
    }
  }

  lemma OneOrder(o: Order, id: string)
    ensures Count([o], id) == (if o.id == id then 1 else 0) && Excess([o]) == ExcessOf(o)
    ensures Count([], id) == 0 && Excess([]) == 0
  {
  }

  lemma HeadOfQueue(q: seq<Order>, id: string)
    requires q != []
    ensures Count(q, id) == Count(q[1..], id) + (if q[0].id == id then 1 else 0)
    ensures Excess(q) == Excess(q[1..]) + ExcessOf(q[0])
  {
  }

  /** A picker's step keeps the books of its store. */
  lemma WorkKeepsBooks(n: Net, i: nat, j: nat, n': Net)
    requires Shape(n) && Books(n) && WorkStep(n, i, j) == Some(n')
    ensures Shifted(n, n', i, n'.world.stores[i], n'.crews[i])
    ensures StoreBooks(n'.world.stores[i], n'.crews[i], n.pc, i)
    ensures n'.pc == n.pc && n'.engine == n.engine && n'.created == n.created && Shape(n')
  {
    hide Count, Excess, Hands, Busy;
    assert StoreBooks(n.world.stores[i], n.crews[i], n.pc, i);
    WorkerChanges(n.crews[i].workers, j, n'.crews[i].workers[j], "");
  }

  /** A picker's step takes the head of the queue, keeps its order, or lays it down as done. */
  ghost predicate Passes(s: StoreState, s': StoreState, c: Crew, c': Crew, j: nat) {
    && j < |c.workers| && |c'.workers| == |c.workers| && c'.workers == c.workers[j := c'.workers[j]]
    && c'.absorbed == c.absorbed && c'.arrived == c.arrived && c'.dispatcher == c.dispatcher
    && s'.reRoutedIn == s.reRoutedIn && s'.reRoutedOut == s.reRoutedOut
    && var w, w' := Hand(c.workers[j]), Hand(c'.workers[j]);
       || (s'.queue == s.queue && c'.done == c.done + w && w' == [])
       || (s'.queue == s.queue && c'.done == c.done && |w| == |w'| == 1
           && w'[0].id == w[0].id && ExcessOf(w'[0]) == ExcessOf(w[0]))
       || (s.queue != [] && s'.queue == s.queue[1..] && c'.done == c.done && w == [] && w' == [s.queue[0]])
  }

  lemma WorkPasses(s: StoreState, c: Crew, j: nat, s': StoreState, c': Crew)
    requires j < |c.workers| && PickerTurn(s, c, j) == Some((s', c'))
    ensures Passes(s, s', c, c', j)
  {
    assert Hand(c.workers[j]) == [] ==> c.done + Hand(c.workers[j]) == c.done;
  }

  lemma PassingKeepsHeld(s: StoreState, s': StoreState, c: Crew, c': Crew, j: nat, id: string)
    requires Passes(s, s', c, c', j)
    ensures ExcessOfStore(s', c') == ExcessOfStore(s, c)
    ensures HeldAt(s', c', id) == HeldAt(s, c, id)
  {
    hide Count, Excess, Hands, Busy, Hand, ExcessOf;
    var w, w' := Hand(c.workers[j]), Hand(c'.workers[j]);
    WorkerChanges(c.workers, j, c'.workers[j], id);
    CountConcat(c.done, w, id);
    ExcessConcat(c.done, w);
    if |w| == 1 {
      assert w == [w[0]];
      OneOrder(w[0], id);
    }
    if |w'| == 1 {
      assert w' == [w'[0]];
      OneOrder(w'[0], id);
    }
    if s.queue != [] {
      OneOrder(s.queue[0], id);
      HeadOfQueue(s.queue, id);
    }
    NoOrder(id);
  }

  lemma NoOrder(id: string)
    ensures Count([], id) == 0 && Excess([]) == 0
  {
  }

  /** A picker's step moves an order along without losing or doubling it. */
  lemma WorkMovesOrders(n: Net, i: nat, j: nat, n': Net, id: string)
    requires Shape(n) && WorkStep(n, i, j) == Some(n')
    ensures var s, c, s', c' := n.world.stores[i], n.crews[i], n'.world.stores[i], n'.crews[i];
            && CreatedOf(s', c') == CreatedOf(s, c) && c'.absorbed == c.absorbed && c'.arrived == c.arrived
            && s'.reRoutedIn == s.reRoutedIn && s'.reRoutedOut == s.reRoutedOut
            && ExcessOfStore(s', c') == ExcessOfStore(s, c)
            && HeldAt(s', c', id) == HeldAt(s, c, id)
  {
    hide PickerTurn, ExcessOfStore, HeldAt, Hand;
    var s, c, s', c' := n.world.stores[i], n.crews[i], n'.world.stores[i], n'.crews[i];
    WorkPasses(s, c, j, s', c');
    PassingKeepsHeld(s, s', c, c', j, id);
  }

  /** A change of one store and its crew that keeps that store's books keeps the ledger. */
  lemma LocalChange(n: Net, n': Net, i: nat, id: string)
    requires Ledgers(n, id) && Shape(n') && n'.pc == n.pc && n'.engine == n.engine
    requires i < |n.crews| && |n'.crews| == |n.crews|
    requires Shifted(n, n', i, n'.world.stores[i], n'.crews[i])
    requires StoreBooks(n'.world.stores[i], n'.crews[i], n.pc, i)
    requires var s, c, s', c' := n.world.stores[i], n.crews[i], n'.world.stores[i], n'.crews[i];
             && n'.created == n.created + CreatedOf(s', c') - CreatedOf(s, c)
             && s'.reRoutedIn == s.reRoutedIn && s'.reRoutedOut == s.reRoutedOut && c'.absorbed == c.absorbed
             && ExcessOfStore(s', c') == ExcessOfStore(s, c)
             && HeldAt(s', c', id) - HeldAt(s, c, id) == Count(c'.arrived, id) - Count(c.arrived, id)
    ensures Ledgers(n', id)
  {
    hide ExcessOfStore, HeldAt, CreatedOf, Count, Excess, Sum;
    SumsShift(n, n', i, n'.world.stores[i], n'.crews[i]);
    IdsShift(n, n', i, n'.world.stores[i], n'.crews[i], id);
    forall j | 0 <= j < |n'.crews| ensures StoreBooks(n'.world.stores[j], n'.crews[j], n'.pc, j) {
      assert StoreBooks(n.world.stores[j], n.crews[j], n.pc, j);
    }
  }

  lemma DispatchKeepsLedgers(n: Net, i: nat, n': Net, id: string)
    requires Ledgers(n, id) && DispatchStep(n, i) == Some(n')
    ensures Ledgers(n', id)
  {
    hide DispatchStep, Totals, Placed, StoreBooks, ExcessOfStore, HeldAt, CreatedOf;
    DispatchLocally(n, i, n', id);
    LocalChange(n, n', i, id);
  }

  lemma WorkKeepsLedgers(n: Net, i: nat, j: nat, n': Net, id: string)
    requires Ledgers(n, id) && WorkStep(n, i, j) == Some(n')
    ensures Ledgers(n', id)
  {
    hide WorkStep, Totals, Placed, StoreBooks, ExcessOfStore, HeldAt, CreatedOf;
    WorkKeepsBooks(n, i, j, n');
    WorkMovesOrders(n, i, j, n', id);
    LocalChange(n, n', i, id);
  }

  lemma SteerKeepsLedgers(n: Net, n': Net, id: string)
    requires Ledgers(n, id) && SteerStep(n) == Some(n')
    ensures Ledgers(n', id)
  {
    hide Totals, Placed, StoreBooks, ExcessOfStore, HeldAt, CreatedOf;
    if n.control.Draining? && n.control.next < |n.crews| {
      var i := n.control.next;
      CancellingChangesNothing(n.world.stores[i], n.crews[i], n.pc, i, id);
      LocalChange(n, n', i, id);
    } else {
      TotalsFramed(n, n', id);
    }
  }

  lemma CancellingChangesNothing(s: StoreState, c: Crew, pc: Pc, i: nat, id: string)
    ensures var c' := c.(cancelled := true);
            && (StoreBooks(s, c, pc, i) ==> StoreBooks(s, c', pc, i))
            && CreatedOf(s, c') == CreatedOf(s, c) && ExcessOfStore(s, c') == ExcessOfStore(s, c)
            && HeldAt(s, c', id) == HeldAt(s, c, id)
  {
  }

  lemma TotalsFramed(n: Net, n': Net, id: string)
    requires Shape(n) && Shape(n') && n'.world == n.world && n'.crews == n.crews && n'.pc == n.pc
    requires n'.engine == n.engine && n'.created == n.created
    ensures Totals(n) ==> Totals(n')
    ensures Placed(n, id) ==> Placed(n', id)
  {
  }

  // ---------- the engine's steps ----------

  function Flag(b: bool): int { if b then 1 else 0 }

  /** An engine step that changes one store, its crew and the engine's position. */
  lemma EngineChange(n: Net, n': Net, i: nat, id: string)
    requires Ledgers(n, id) && Shape(n') && n'.engine == n.engine && n'.created == n.created
    requires i < |n.crews| && |n'.crews| == |n.crews|
    requires Shifted(n, n', i, n'.world.stores[i], n'.crews[i])
    requires StoreBooks(n'.world.stores[i], n'.crews[i], n'.pc, i)
    requires forall j: nat | j != i ::
               OutPending(n'.pc, j) + InPending(n'.pc, j) == OutPending(n.pc, j) + InPending(n.pc, j)
    requires OutcomePending(n'.pc) == OutcomePending(n.pc) && !n.pc.NudgeCounted? && !n'.pc.NudgeCounted?
    requires n'.pc.Merged? || n'.pc.NudgeNoted? ==> n'.pc.m >= 2
    requires var s, c, s', c' := n.world.stores[i], n.crews[i], n'.world.stores[i], n'.crews[i];
             && CreatedOf(s', c') == CreatedOf(s, c) && c'.arrived == c.arrived
             && s'.reRoutedOut - s.reRoutedOut - Flag(n'.pc.LeftCounted?)
                == s'.reRoutedIn - s.reRoutedIn - Flag(n.pc.LeftCounted?)
             && s'.reRoutedIn - s.reRoutedIn
                == Flag(n'.pc.JoinCounted? || n'.pc.HandedOver?) - Flag(n.pc.JoinCounted? || n.pc.HandedOver?)
             && |c'.absorbed| - |c.absorbed| == MergePending(n'.pc) - MergePending(n.pc)
             && ExcessOfStore(s', c') + Excess(EngineHand(n'.pc)) - |c'.absorbed|
                == ExcessOfStore(s, c) + Excess(EngineHand(n.pc)) - |c.absorbed|
             && HeldAt(s', c', id) + Count(EngineHand(n'.pc), id) == HeldAt(s, c, id) + Count(EngineHand(n.pc), id)
    ensures Ledgers(n', id)
  {
    hide ExcessOfStore, HeldAt, CreatedOf, Count, Excess, Sum, EngineHand;
    SumsShift(n, n', i, n'.world.stores[i], n'.crews[i]);
    IdsShift(n, n', i, n'.world.stores[i], n'.crews[i], id);
    forall j | 0 <= j < |n'.crews| ensures StoreBooks(n'.world.stores[j], n'.crews[j], n'.pc, j) {
      assert StoreBooks(n.world.stores[j], n.crews[j], n.pc, j);
    }
  }

  /** The counters, corrected by the terms in flight, balance as before. */
  ghost predicate CountsBalance(n: Net, n': Net) {
    var sum, sum' := n.engine.summary, n'.engine.summary;
    && sum'.executed + Flag(n'.pc.HandedOver?) == sum.executed + Flag(n.pc.HandedOver?)
    && sum'.merged - sum'.nudges + MergePending(n'.pc) == sum.merged - sum.nudges + MergePending(n.pc)
    && sum'.evaluations - Outcomes(sum') - OutcomePending(n'.pc)
       == sum.evaluations - Outcomes(sum) - OutcomePending(n.pc)
    && (sum.merged + (if n.pc.NudgeCounted? then n.pc.m else 0) >= 2 * sum.nudges ==>
          sum'.merged + (if n'.pc.NudgeCounted? then n'.pc.m else 0) >= 2 * sum'.nudges)
    && (n'.pc.Merged? || n'.pc.NudgeNoted? || n'.pc.NudgeCounted? ==> n'.pc.m >= 2)
  }

  /** Nothing but the position, the engine's own state and the stock table changes, and the counters balance. */
  ghost predicate QuietChange(n: Net, n': Net) {
    && n'.world.stores == n.world.stores && n'.crews == n.crews && n'.created == n.created
    && EngineHand(n'.pc) == EngineHand(n.pc)
    && (forall i: nat ::
          OutPending(n'.pc, i) == OutPending(n.pc, i) && InPending(n'.pc, i) == InPending(n.pc, i))
    && !n.pc.LeftCounted? && !n'.pc.LeftCounted? && !n.pc.JoinCounted? && !n'.pc.JoinCounted?
    && CountsBalance(n, n')
  }

  lemma JudgingIsQuiet(n: Net, c: Choice, n': Net)
    requires Shape(n) && Judges(n.pc) && JudgeStep(n, c) == Some(n') && (n.pc.Judging? ==> !n'.pc.Merged?)
    requires n.pc.Merged? || n.pc.NudgeNoted? || n.pc.NudgeCounted? ==> n.pc.m >= 2
    ensures QuietChange(n, n')
  {
    hide Consolidated, MergeCount, Absorbed, InWindow, Last;
  }

  lemma FindingNothingIsQuiet(n: Net)
    requires Shape(n) && n.pc.Aimed? && !ExtractionStep(n).pc.Extracted?
    ensures QuietChange(n, ExtractionStep(n))
  {
    hide Extract;
  }

  lemma ReservingIsQuiet(n: Net, c: Choice)
    requires Shape(n) && n.pc.Extracted?
    ensures QuietChange(n, ReservationStep(n, c))
  {
    hide Reserve;
  }

  lemma SelectingIsQuiet(n: Net, c: Choice, n': Net)
    requires Shape(n) && Selects(n.pc) && SelectStep(n, c) == Some(n') && !n.pc.Refusing? && !n'.pc.Extracted?
    ensures QuietChange(n, n')
  {
    hide ExtractionStep, ReservationStep, InWindow, Last;
    if n.pc.Aimed? && c == Go {
      FindingNothingIsQuiet(n);
    } else if n.pc.Extracted? {
      ReservingIsQuiet(n, c);
    }
  }

  lemma TransferringIsQuiet(n: Net, c: Choice, n': Net)
    requires Shape(n) && !Judges(n.pc) && !Selects(n.pc) && TransferStep(n, c) == Some(n')
    requires n.pc.Reserved? || n.pc.HandedOver?
    ensures QuietChange(n, n')
  {
  }

  lemma QuietThoughts(n: Net, n': Net, id: string)
    requires Ledgers(n, id) && Shape(n') && QuietChange(n, n')
    ensures Ledgers(n', id)
  {
    hide Sum, Count, Excess, StoreBooks, Outcomes, MergePending, OutcomePending, EngineHand;
    forall j | 0 <= j < |n'.crews| ensures StoreBooks(n'.world.stores[j], n'.crews[j], n'.pc, j) {
      assert StoreBooks(n.world.stores[j], n.crews[j], n.pc, j);
      SamePending(n.world.stores[j], n.crews[j], n.pc, n'.pc, j);
    }
  }

  lemma SamePending(s: StoreState, c: Crew, pc: Pc, pc': Pc, i: nat)
    requires OutPending(pc', i) == OutPending(pc, i) && InPending(pc', i) == InPending(pc, i)
    ensures StoreBooks(s, c, pc, i) ==> StoreBooks(s, c, pc', i)
  {
  }

  /** Merging takes orders out of the line and into the absorbed. */
  lemma MergingKeepsLedgers(n: Net, c: Choice, n': Net, id: string)
    requires Ledgers(n, id) && n.pc.Judging? && JudgeStep(n, c) == Some(n') && n'.pc.Merged?
    ensures Ledgers(n', id)
  {
    hide Count, Excess, Consolidated, Absorbed, Hands, Busy, Totals, Placed, Sum, InWindow, Last;
    var i := n.pc.src;
    var s, crew := n.world.stores[i], n.crews[i];
    assert StoreBooks(s, crew, n.pc, i);
    ConsolidationLedger(s.queue, c.cart, id);
    CountConcat(crew.absorbed, Absorbed(s.queue, c.cart), id);
    EngineChange(n, n', i, id);
  }

  /** Extracting takes one order out of the line and into the engine's hand. */
  lemma ExtractingKeepsLedgers(n: Net, c: Choice, n': Net, id: string)
    requires Ledgers(n, id) && n.pc.Aimed? && SelectStep(n, c) == Some(n') && n'.pc.Extracted?
    ensures Ledgers(n', id)
  {
    hide Extract, Hands, Busy, Totals, Placed, Sum;
    var i := n.pc.src;
    var s := n.world.stores[i];
    assert StoreBooks(s, n.crews[i], n.pc, i);
    ExtractPartitions(s.queue, 1, id);
    var pre, post := ExtractOne(s.queue);
    assert Extract(s.queue, 1).0 == [n'.pc.o];
    EngineChange(n, n', i, id);
  }

  /** A refused order goes from the engine's hand back into the line. */
  lemma PuttingBackKeepsLedgers(n: Net, c: Choice, n': Net, id: string)
    requires Ledgers(n, id) && n.pc.Refusing? && SelectStep(n, c) == Some(n')
    ensures Ledgers(n', id)
  {
    hide Count, Excess, Hands, Busy, Totals, Placed, Sum;
    var i := n.pc.src;
    var s := n.world.stores[i];
    assert StoreBooks(s, n.crews[i], n.pc, i);
    OneOrder(n.pc.o, id);
    OneOrder(Pushed(n.pc.o), id);
    CountConcat(s.queue, [Pushed(n.pc.o)], id);
    ExcessConcat(s.queue, [Pushed(n.pc.o)]);
    EngineChange(n, n', i, id);
  }

  /** Stamping and counting the move, first as a departure and then as an arrival. */
  lemma CountingKeepsLedgers(n: Net, c: Choice, n': Net, id: string)
    requires Ledgers(n, id) && (n.pc.Noted? || n.pc.Stamped? || n.pc.LeftCounted?) && TransferStep(n, c) == Some(n')
    ensures Ledgers(n', id)
  {
    hide Count, Excess, Hands, Busy, Totals, Placed, Sum;
    var i := if n.pc.LeftCounted? then n.pc.k else n.pc.src;
    assert StoreBooks(n.world.stores[i], n.crews[i], n.pc, i);
    EngineChange(n, n', i, id);
  }

  /** The order goes from the engine's hand into the target's line. */
  lemma DeliveringKeepsLedgers(n: Net, c: Choice, n': Net, id: string)
    requires Ledgers(n, id) && n.pc.JoinCounted? && TransferStep(n, c) == Some(n')
    ensures Ledgers(n', id)
  {
    hide Count, Excess, Hands, Busy, Totals, Placed, Sum;
    var i := n.pc.k;
    var s := n.world.stores[i];
    assert StoreBooks(s, n.crews[i], n.pc, i);
    OneOrder(n.pc.o, id);
    OneOrder(Pushed(n.pc.o), id);
    CountConcat(s.queue, [Pushed(n.pc.o)], id);
    ExcessConcat(s.queue, [Pushed(n.pc.o)]);
    EngineChange(n, n', i, id);
  }

  lemma ThinkKeepsLedgers(n: Net, c: Choice, n': Net, id: string)
    requires Ledgers(n, id) && ThinkStep(n, c) == Some(n')
    ensures Ledgers(n', id)
  {
    assert Shape(n) && Totals(n);
    hide Ledgers, Totals, JudgeStep, SelectStep, TransferStep, QuietChange;
    if Judges(n.pc) {
      if n.pc.Judging? && n'.pc.Merged? {
        MergingKeepsLedgers(n, c, n', id);
      } else {
        MergesAreReal(n);
        JudgingIsQuiet(n, c, n');
        QuietThoughts(n, n', id);
      }
    } else if Selects(n.pc) {
      if n.pc.Refusing? {
        PuttingBackKeepsLedgers(n, c, n', id);
      } else if n'.pc.Extracted? {
        ExtractedFromAimed(n, c, n');
        ExtractingKeepsLedgers(n, c, n', id);
      } else {
        SelectingIsQuiet(n, c, n');
        QuietThoughts(n, n', id);
      }
    } else if n.pc.Reserved? || n.pc.HandedOver? {
      TransferringIsQuiet(n, c, n');
      QuietThoughts(n, n', id);
    } else if n.pc.JoinCounted? {
      DeliveringKeepsLedgers(n, c, n', id);
    } else {
      CountingKeepsLedgers(n, c, n', id);
    }
  }

  lemma MergesAreReal(n: Net)
    requires Shape(n) && Totals(n)
    ensures n.pc.Merged? || n.pc.NudgeNoted? || n.pc.NudgeCounted? ==> n.pc.m >= 2
  {
  }

  lemma ExtractedFromAimed(n: Net, c: Choice, n': Net)
    requires Shape(n) && Selects(n.pc) && SelectStep(n, c) == Some(n') && n'.pc.Extracted?
    ensures n.pc.Aimed?
  {
  }

  // ---------- every run keeps the ledger ----------

  lemma StepKeepsLedgers(n: Net, a: Action, n': Net, id: string)
    requires Ledgers(n, id) && Step(n, a) == Some(n')
    ensures Ledgers(n', id)
  {
    hide Ledgers, DispatchStep, WorkStep, ThinkStep, SteerStep;
    match a
    case Dispatch(i) => DispatchKeepsLedgers(n, i, n', id);
    case Work(i, j) => WorkKeepsLedgers(n, i, j, n', id);
    case Think(c) => ThinkKeepsLedgers(n, c, n', id);
    case Steer => SteerKeepsLedgers(n, n', id);
  }

  lemma {:induction false} SumIsZero(f: (StoreState, Crew) -> int, ss: seq<StoreState>, cs: seq<Crew>)
    requires |ss| == |cs| && forall i | 0 <= i < |ss| :: f(ss[i], cs[i]) == 0
    ensures Sum(f, ss, cs) == 0
  {
    if ss != [] {
      var k := |ss| - 1;
      forall i | 0 <= i < k ensures f(ss[..k][i], cs[..k][i]) == 0 {
        assert f(ss[i], cs[i]) == 0;
      }
      SumIsZero(f, ss[..k], cs[..k]);
    }
  }

  lemma FreshIsEmpty(s: StoreState, c: Crew, i: nat, id: string)
    requires FreshStore(s) && FreshCrew(c, s.pickers)
    ensures StoreBooks(s, c, Resting, i)
    ensures CreatedOf(s, c) == InOf(s, c) == OutOf(s, c) == AbsorbedOf(s, c) == ExcessOfStore(s, c) == 0
    ensures HeldOf(id)(s, c) == ArrivedOf(id)(s, c) == 0
  {
    NobodyBusy(c.workers);
  }

  /** A balance that is zero at every fresh store adds up to zero. */
  lemma FreshSum(f: (StoreState, Crew) -> int, n: Net)
    requires Initial(n)
    requires forall s, c | FreshStore(s) && FreshCrew(c, s.pickers) :: f(s, c) == 0
    ensures Across(f, n) == 0
  {
    forall i | 0 <= i < |n.crews| ensures f(n.world.stores[i], n.crews[i]) == 0 {
      assert FreshStore(n.world.stores[i]) && FreshCrew(n.crews[i], n.world.stores[i].pickers);
    }
    SumIsZero(f, n.world.stores, n.crews);
  }

  lemma InitialSums(n: Net, id: string)
    requires Initial(n)
    ensures Across(CreatedOf, n) == Across(InOf, n) == Across(OutOf, n) == Across(AbsorbedOf, n)
            == Across(ExcessOfStore, n) == 0
    ensures Across(HeldOf(id), n) == Across(ArrivedOf(id), n) == 0
  {
    hide Sum, Across;
    forall s, c | FreshStore(s) && FreshCrew(c, s.pickers)
      ensures CreatedOf(s, c) == InOf(s, c) == OutOf(s, c) == AbsorbedOf(s, c) == ExcessOfStore(s, c) == 0
      ensures HeldOf(id)(s, c) == ArrivedOf(id)(s, c) == 0
    {
      FreshIsEmpty(s, c, 0, id);
    }
    FreshSum(CreatedOf, n);
    FreshSum(InOf, n);
    FreshSum(OutOf, n);
    FreshSum(AbsorbedOf, n);
    FreshSum(ExcessOfStore, n);
    FreshSum(HeldOf(id), n);
    FreshSum(ArrivedOf(id), n);
  }

  lemma InitialLedgers(n: Net, id: string)
    requires Initial(n)
    ensures Ledgers(n, id)
  {
    hide Sum, Across, FreshCrew, FreshStore, StoreBooks, Totals, Placed;
    InitialSums(n, id);
    forall i | 0 <= i < |n.crews| ensures StoreBooks(n.world.stores[i], n.crews[i], n.pc, i) {
      FreshIsEmpty(n.world.stores[i], n.crews[i], i, id);
    }
    NothingCounted(n);
    NothingHeld(n, id);
  }

  lemma NothingCounted(n: Net)
    requires Shape(n) && n.pc == Resting && n.created == 0 && n.engine.summary == NO_DECISIONS
    requires Across(CreatedOf, n) == Across(InOf, n) == Across(OutOf, n) == Across(AbsorbedOf, n)
             == Across(ExcessOfStore, n) == 0
    ensures Totals(n)
  {
    hide Across;
  }

  lemma NothingHeld(n: Net, id: string)
    requires Shape(n) && n.pc == Resting && Across(HeldOf(id), n) == Across(ArrivedOf(id), n) == 0
    ensures Placed(n, id)
  {
    hide Across;
  }

  lemma {:induction false} RunKeepsLedgers(n: Net, actions: seq<Action>, n': Net, id: string)
    requires Ledgers(n, id) && Run(n, actions) == Some(n')
    ensures Ledgers(n', id)
    decreases |actions|
  {
    assert Shape(n);
    hide Ledgers, Step, Shape;
    if actions != [] {
      var m := Step(n, actions[0]).value;
      StepKeepsLedgers(n, actions[0], m, id);
      RunKeepsLedgers(m, actions[1..], n', id);
    }
  }

  // ---------- main results ----------

  /**
   * In every interleaving the ledger holds; each store's activePicking counts the
   * pickers that are serving, so it stays between zero and the number of pickers;
   * merges are at least twice the nudges; and at most one evaluation lacks its outcome.
   */
  lemma LedgerAtEveryStep(n: Net, actions: seq<Action>, n': Net, id: string)
    requires Initial(n) && Run(n, actions) == Some(n')
    ensures Ledgers(n', id)
    ensures forall i | 0 <= i < |n'.crews| ::
              0 <= n'.world.stores[i].picking == Busy(n'.crews[i].workers) <= n'.world.stores[i].pickers
    ensures n'.engine.summary.merged >= 2 * n'.engine.summary.nudges - (if n'.pc.NudgeCounted? then n'.pc.m else 0)
    ensures 0 <= n'.engine.summary.evaluations - Outcomes(n'.engine.summary) <= 1
  {
    hide Initial, Run, Sum, Across, Count, Excess, Placed;
    InitialLedgers(n, id);
    RunKeepsLedgers(n, actions, n', id);
    forall i | 0 <= i < |n'.crews|
      ensures 0 <= n'.world.stores[i].picking == Busy(n'.crews[i].workers) <= n'.world.stores[i].pickers
    {
      assert StoreBooks(n'.world.stores[i], n'.crews[i], n'.pc, i);
      BusyAtMostAll(n'.crews[i].workers);
    }
  }

  // ---------- the network's equation ----------

  /** Orders that have arrived and are not yet in the network's count. */
  function UncountedOf(s: StoreState, c: Crew): int {
    if c.dispatcher == Between then 0 else 1
  }

  /** Orders at a store: completed, queued, in a picker's hand, absorbed. */
  function PresentOf(s: StoreState, c: Crew): int {
    s.completed + |s.queue| + |Hands(c.workers)| + |c.absorbed|
  }

  /** The engine's pending terms of the first `m` stores. */
  function PendingBelow(pc: Pc, m: nat): int {
    if m == 0 then 0 else PendingBelow(pc, m - 1) + OutPending(pc, m - 1) + InPending(pc, m - 1)
  }

  lemma {:induction false} PendingIsTheHand(pc: Pc, m: nat)
    ensures (HasSource(pc) ==> pc.src < m) && (HasTarget(pc) ==> pc.k < m) ==>
              PendingBelow(pc, m) + (if pc.LeftCounted? then 1 else 0) == |EngineHand(pc)|
    ensures PendingBelow(pc, m) == (if HasSource(pc) && pc.src < m then OutPending(pc, pc.src) else 0)
                                   + if pc.JoinCounted? && pc.k < m then 1 else 0
  {
    if m > 0 {
      PendingIsTheHand(pc, m - 1);
    }
  }

  /** The stores' balances, added up. */
  lemma {:induction false} StoresBalance(ss: seq<StoreState>, cs: seq<Crew>, pc: Pc)
    requires |ss| == |cs| && forall i | 0 <= i < |ss| :: StoreBooks(ss[i], cs[i], pc, i)
    ensures Sum(CreatedOf, ss, cs) + Sum(UncountedOf, ss, cs) + Sum(InOf, ss, cs)
            == Sum(PresentOf, ss, cs) + Sum(OutOf, ss, cs) + PendingBelow(pc, |ss|)
  {
    hide StoreBooks, CreatedOf, UncountedOf, InOf, PresentOf, OutOf, OutPending, InPending;
    if ss != [] {
      var k := |ss| - 1;
      assert forall i | 0 <= i < k :: ss[..k][i] == ss[i] && cs[..k][i] == cs[i];
      StoresBalance(ss[..k], cs[..k], pc);
      StoreBalance(ss[k], cs[k], pc, k);
    }
  }

  lemma StoreBalance(s: StoreState, c: Crew, pc: Pc, i: nat)
    requires StoreBooks(s, c, pc, i)
    ensures CreatedOf(s, c) + UncountedOf(s, c) + InOf(s, c)
            == PresentOf(s, c) + OutOf(s, c) + OutPending(pc, i) + InPending(pc, i)
  {
  }

  /**
   * In every interleaving: the orders counted as created and those just pushed are the
   * orders completed, queued, in pickers' hands, absorbed, or in the engine's hand.
   */
  lemma NetworkEquation(n: Net, actions: seq<Action>, n': Net)
    requires Initial(n) && Run(n, actions) == Some(n')
    ensures n'.created + Across(UncountedOf, n') == Across(PresentOf, n') + |EngineHand(n'.pc)|
  {
    hide Initial, Run, Sum;
    LedgerAtEveryStep(n, actions, n', "");
    hide Placed;
    StoresBalance(n'.world.stores, n'.crews, n'.pc);
    PendingIsTheHand(n'.pc, |n'.crews|);
  }

  lemma {:induction false} SumOfOne(f: (StoreState, Crew) -> int, ss: seq<StoreState>, cs: seq<Crew>) returns (i: nat)
    requires |ss| == |cs| && Sum(f, ss, cs) <= 1
    requires forall k | 0 <= k < |ss| :: f(ss[k], cs[k]) >= 0
    ensures Sum(f, ss, cs) >= 0
    ensures Sum(f, ss, cs) == 1 ==> i < |ss| && f(ss[i], cs[i]) == 1
    ensures forall k | 0 <= k < |ss| && k != i :: f(ss[k], cs[k]) == 0
    ensures Sum(f, ss, cs) == 0 ==> i == |ss|
  {
    i := |ss|;
    if ss != [] {
      var last := |ss| - 1;
      var ss', cs' := ss[..last], cs[..last];
      forall k | 0 <= k < last ensures f(ss'[k], cs'[k]) >= 0 {
        assert f(ss[k], cs[k]) >= 0;
      }
      SumNonNegative(f, ss', cs');
      var h := SumOfOne(f, ss', cs');
      forall k | 0 <= k < last && k != h ensures f(ss[k], cs[k]) == 0 {
        assert f(ss'[k], cs'[k]) == 0;
      }
      if Sum(f, ss', cs') == 1 {
        i := h;
      } else if f(ss[last], cs[last]) == 1 {
        i := last;
      }
    }
  }

  lemma {:induction false} SumNonNegative(f: (StoreState, Crew) -> int, ss: seq<StoreState>, cs: seq<Crew>)
    requires |ss| == |cs| && forall k | 0 <= k < |ss| :: f(ss[k], cs[k]) >= 0
    ensures Sum(f, ss, cs) >= 0
  {
    if ss != [] {
      var last := |ss| - 1;
      forall k | 0 <= k < last ensures f(ss[..last][k], cs[..last][k]) >= 0 {
        assert f(ss[k], cs[k]) >= 0;
      }
      SumNonNegative(f, ss[..last], cs[..last]);
    }
  }

  /**
   * An order that arrived once is in exactly one place: in the engine's hand and at no
   * store, or held exactly once at exactly one store (queued, in one picker's hand,
   * completed, or absorbed) and not by the engine.
   */
  lemma ExactlyOnePlace(n: Net, actions: seq<Action>, n': Net, id: string) returns (i: nat)
    requires Initial(n) && Run(n, actions) == Some(n')
    requires Across(ArrivedOf(id), n') == 1
    ensures i <= |n'.crews|
    ensures i == |n'.crews| ==> Count(EngineHand(n'.pc), id) == 1
    ensures i < |n'.crews| ==> Count(EngineHand(n'.pc), id) == 0 && HeldAt(n'.world.stores[i], n'.crews[i], id) == 1
    ensures forall k | 0 <= k < |n'.crews| && k != i :: HeldAt(n'.world.stores[k], n'.crews[k], id) == 0
  {
    hide Initial, Run, Sum, Count, Books, Totals;
    LedgerAtEveryStep(n, actions, n', id);
    forall k | 0 <= k < |n'.crews| ensures HeldOf(id)(n'.world.stores[k], n'.crews[k]) >= 0 {
    }
    assert Across(HeldOf(id), n') <= 1;
    i := SumOfOne(HeldOf(id), n'.world.stores, n'.crews);
    forall k | 0 <= k < |n'.crews| && k != i ensures HeldAt(n'.world.stores[k], n'.crews[k], id) == 0 {
      assert HeldOf(id)(n'.world.stores[k], n'.crews[k]) == 0;
    }
  }
}
