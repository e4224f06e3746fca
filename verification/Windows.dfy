/**
 * The two time windows over every interleaving: how far apart the events the engine
 * reports must be, while pickers and dispatchers run between any two of its steps.
 */
module Windows {
  import opened Options
  import opened Orders
  import opened CostModel
  import opened Reservation
  import opened Stores
  import opened Policy
  import opened PingPong
  import opened Protocol

  /** No event `b` of a store comes within a window after an event `a` of it. */
  ghost predicate Apart(log: seq<Entry>, a: Outcome, b: Outcome) {
    forall i, j | 0 <= i < j < |log| && log[i].outcome == a && log[j].outcome == b && log[i].src == log[j].src ::
      log[j].t - log[i].t >= WINDOW_NS
  }

  /** At `t` every event `a` of the store is at least a window ago. */
  ghost predicate ClearOf(log: seq<Entry>, a: Outcome, src: nat, t: int) {
    forall e | e in log && e.outcome == a && e.src == src :: t - e.t >= WINDOW_NS
  }

  /** The engine's map knows of every event `a`: it holds the time of that event or a later one. */
  ghost predicate Remembered(log: seq<Entry>, a: Outcome, times: map<string, int>, stores: seq<StoreState>) {
    forall e | e in log && e.outcome == a ::
      e.src < |stores| && stores[e.src].id in times && 0 < e.t <= times[stores[e.src].id]
  }

  ghost predicate NotLater(times: map<string, int>, clock: int) {
    forall id | id in times :: times[id] <= clock
  }

  /** Reports that follow an open look at the windows. */
  predicate AfterWindows(o: Outcome) {
    o == Executed || o == RejectedOnCost || o == FailedNoStock
  }

  predicate PastNudgeGuard(pc: Pc) {
    !Judges(pc)
  }

  predicate PastCooldown(pc: Pc) {
    !Judges(pc) && !pc.Cleared?
  }

  predicate CooldownNoted(pc: Pc) {
    pc.Noted? || pc.Stamped? || pc.LeftCounted? || pc.JoinCounted? || pc.HandedOver?
  }

  /** What the engine's clock, maps and position say about the log. */
  ghost predicate Remembers(n: Net) {
    && (HasSource(n.pc) ==> n.pc.src < |n.world.stores| && 0 < n.pc.t == n.clock)
    && NotLater(n.engine.lastReRoute, n.clock) && NotLater(n.engine.lastNudge, n.clock)
    && Remembered(n.log, Executed, n.engine.lastReRoute, n.world.stores)
    && Remembered(n.log, NudgeIssued, n.engine.lastNudge, n.world.stores)
    && (PastCooldown(n.pc) ==> ClearOf(n.log, Executed, n.pc.src, n.pc.t))
    && (PastNudgeGuard(n.pc) && n.engine.mode == FullOrchestration ==> ClearOf(n.log, NudgeIssued, n.pc.src, n.pc.t))
    && (CooldownNoted(n.pc) ==> (n.world.stores[n.pc.src].id, n.pc.t) in n.engine.lastReRoute.Items)
    && (n.pc.NudgeNoted? || n.pc.NudgeCounted? ==> (n.world.stores[n.pc.src].id, n.pc.t) in n.engine.lastNudge.Items)
  }

  ghost predicate Spacing(log: seq<Entry>, mode: Mode) {
    && Apart(log, Executed, Executed)
    && (mode == FullOrchestration ==> forall o | AfterWindows(o) :: Apart(log, NudgeIssued, o))
  }

  ghost predicate Timed(n: Net) {
    Shape(n) && Remembers(n) && Spacing(n.log, n.engine.mode)
  }

  // ---------- steps that touch neither the log nor the engine ----------

  ghost predicate SameIds(n: Net, n': Net) {
    && |n'.world.stores| == |n.world.stores|
    && forall i | 0 <= i < |n.world.stores| :: n'.world.stores[i].id == n.world.stores[i].id
  }

  lemma CrewsKeepTime(n: Net, a: Action, n': Net)
    requires Shape(n) && Step(n, a) == Some(n') && !a.Think?
    ensures SameIds(n, n') && n'.pc == n.pc && n'.engine == n.engine && n'.log == n.log && n'.clock == n.clock
  {
    match a
    case Dispatch(i) =>
    case Work(i, j) =>
    case Steer =>
  }

  lemma IdsCarryOver(n: Net, n': Net)
    requires Timed(n) && Shape(n') && SameIds(n, n')
    requires n'.pc == n.pc && n'.engine == n.engine && n'.log == n.log && n'.clock == n.clock
    ensures Timed(n')
  {
    hide Apart, ClearOf, Shape;
  }

  // ---------- reports ----------

  /** A report of an event is spaced when the position it is made from is clear. */
  lemma Appended(log: seq<Entry>, e: Entry, mode: Mode)
    requires Spacing(log, mode)
    requires e.outcome == Executed ==> ClearOf(log, Executed, e.src, e.t)
    requires AfterWindows(e.outcome) && mode == FullOrchestration ==> ClearOf(log, NudgeIssued, e.src, e.t)
    ensures Spacing(log + [e], mode)
  {
    var log' := log + [e];
    forall a, b | Apart(log, a, b) && (e.outcome == b ==> ClearOf(log, a, e.src, e.t)) ensures Apart(log', a, b) {
      forall i, j | 0 <= i < j < |log'| && log'[i].outcome == a && log'[j].outcome == b && log'[i].src == log'[j].src
        ensures log'[j].t - log'[i].t >= WINDOW_NS
      {
        assert log'[i] in log;
      }
    }
  }

  /** The engine rests after a report; its maps know of the event if they have to. */
  lemma ReportIsTimed(n: Net, o: Outcome, n': Net)
    requires Timed(n) && HasSource(n.pc) && Shape(n') && Reports(n, n', o) && n'.engine.mode == n.engine.mode
    ensures Timed(n')
  {
    hide Apart;
    assert Shape(n');
    hide Shape;
    Appended(n.log, Entry(o, n.pc.src, n.pc.t), n.engine.mode);
  }

  // ---------- the engine's steps ----------

  lemma StartingIsTimed(n: Net, c: Choice, n': Net)
    requires Timed(n) && (n.pc.Resting? || n.pc.Stopped?) && JudgeStep(n, c) == Some(n')
    ensures Timed(n')
  {
    hide Apart, ClearOf;
  }

  lemma JudgingIsTimed(n: Net, c: Choice, n': Net)
    requires Timed(n) && (n.pc.Judging? || n.pc.Merged? || n.pc.NudgeNoted?)
    requires JudgeStep(n, c) == Some(n') && HasSource(n'.pc)
    ensures Timed(n')
  {
    hide Apart, Consolidated, MergeCount, Absorbed, Spacing;
  }

  lemma ClearingIsTimed(n: Net, c: Choice, n': Net)
    requires Timed(n) && n.pc.Cleared? && SelectStep(n, c) == Some(n') && HasSource(n'.pc)
    ensures Timed(n')
  {
    hide Apart, Spacing;
  }

  lemma ExtractingIsTimed(n: Net)
    requires Timed(n) && n.pc.Aimed? && HasSource(ExtractionStep(n).pc)
    ensures Timed(ExtractionStep(n))
  {
    hide Apart, Extract, Spacing, ClearOf;
  }

  lemma ReservingIsTimed(n: Net, c: Choice)
    requires Timed(n) && n.pc.Extracted?
    ensures Timed(ReservationStep(n, c))
  {
    hide Apart, Spacing, Reserve, ClearOf;
  }

  lemma SelectingIsTimed(n: Net, c: Choice, n': Net)
    requires Timed(n) && Selects(n.pc) && !n.pc.Cleared? && SelectStep(n, c) == Some(n') && HasSource(n'.pc)
    ensures Timed(n')
  {
    hide Apart, ExtractionStep, ReservationStep, Spacing, ClearOf, InWindow, Last;
    if n.pc.Aimed? && c == Go {
      ExtractingIsTimed(n);
    } else if n.pc.Extracted? {
      ReservingIsTimed(n, c);
    }
  }

  lemma TransferringIsTimed(n: Net, c: Choice, n': Net)
    requires Timed(n) && !Judges(n.pc) && !Selects(n.pc) && !n.pc.HandedOver? && TransferStep(n, c) == Some(n')
    ensures Timed(n')
  {
    hide Apart, Spacing;
  }

  /** The engine ends an evaluation by reporting `o`, and may do so from where it is. */
  ghost predicate Reports(n: Net, n': Net, o: Outcome)
    requires HasSource(n.pc)
  {
    && n'.world.stores == n.world.stores && n'.pc == Resting && n'.log == n.log + [Entry(o, n.pc.src, n.pc.t)]
    && n'.engine.lastNudge == n.engine.lastNudge && n'.engine.lastReRoute == n.engine.lastReRoute
    && n'.clock == n.clock
    && (o == Executed ==> n.pc.HandedOver?)
    && (o == NudgeIssued ==> n.pc.NudgeCounted?)
    && (AfterWindows(o) ==> PastCooldown(n.pc))
  }

  /** Every engine step keeps the mode, and one that ends an evaluation is a report. */
  ghost predicate Speaks(n: Net, n': Net) {
    && n'.engine.mode == n.engine.mode
    && (HasSource(n.pc) && !HasSource(n'.pc) ==> exists o :: Reports(n, n', o))
  }

  lemma JudgingSpeaks(n: Net, c: Choice, n': Net)
    requires Shape(n) && Judges(n.pc) && JudgeStep(n, c) == Some(n')
    ensures Speaks(n, n')
  {
    hide Consolidated, MergeCount, Absorbed, InWindow, Last, Shape;
    if HasSource(n.pc) && !HasSource(n'.pc) {
      assert Reports(n, n', n'.log[|n.log|].outcome);
    }
  }

  lemma SelectingSpeaks(n: Net, c: Choice, n': Net)
    requires Shape(n) && Selects(n.pc) && SelectStep(n, c) == Some(n')
    ensures Speaks(n, n')
  {
    hide Extract, InWindow, Last, Shape;
    if HasSource(n.pc) && !HasSource(n'.pc) {
      assert Reports(n, n', n'.log[|n.log|].outcome);
    }
  }

  lemma TransferringSpeaks(n: Net, c: Choice, n': Net)
    requires Shape(n) && !Judges(n.pc) && !Selects(n.pc) && TransferStep(n, c) == Some(n')
    ensures Speaks(n, n')
  {
    hide Shape;
    if HasSource(n.pc) && !HasSource(n'.pc) {
      assert Reports(n, n', n'.log[|n.log|].outcome);
    }
  }

  lemma ThinkingSpeaks(n: Net, c: Choice, n': Net)
    requires Shape(n) && ThinkStep(n, c) == Some(n')
    ensures Speaks(n, n')
  {
    hide Shape, JudgeStep, SelectStep, TransferStep, Speaks;
    if Judges(n.pc) {
      JudgingSpeaks(n, c, n');
    } else if Selects(n.pc) {
      SelectingSpeaks(n, c, n');
    } else {
      TransferringSpeaks(n, c, n');
    }
  }

  lemma ThinkKeepsTime(n: Net, c: Choice, n': Net)
    requires Timed(n) && ThinkStep(n, c) == Some(n')
    ensures Timed(n')
  {
    assert Shape(n);
    hide Timed, JudgeStep, SelectStep, TransferStep;
    if n.pc.Resting? || n.pc.Stopped? {
      StartingIsTimed(n, c, n');
    } else if !HasSource(n'.pc) {
      ThinkingSpeaks(n, c, n');
      var o :| Reports(n, n', o);
      ReportIsTimed(n, o, n');
    } else if Judges(n.pc) {
      JudgingIsTimed(n, c, n');
    } else if n.pc.Cleared? {
      ClearingIsTimed(n, c, n');
    } else if Selects(n.pc) {
      SelectingIsTimed(n, c, n');
    } else {
      TransferringIsTimed(n, c, n');
    }
  }

  lemma {:induction false} RunKeepsTime(n: Net, actions: seq<Action>, n': Net)
    requires Timed(n) && Run(n, actions) == Some(n')
    ensures Timed(n')
    ensures n'.engine.mode == n.engine.mode
    decreases |actions|
  {
    assert Shape(n);
    hide Timed, DispatchStep, WorkStep, ThinkStep, SteerStep;
    if actions != [] {
      var m := Step(n, actions[0]).value;
      if actions[0].Think? {
        ThinkKeepsTime(n, actions[0].choice, m);
        ThinkingSpeaks(n, actions[0].choice, m);
      } else {
        CrewsKeepTime(n, actions[0], m);
        IdsCarryOver(n, m);
      }
      RunKeepsTime(m, actions[1..], n');
    }
  }

  // ---------- main results ----------

  /**
   * For increasing positive times and one evaluator: two executed re-routes from one
   * store are at least a window apart, and in full orchestration no re-route of a store
   * is executed, rejected or failed within a window after a nudge of it.
   */
  lemma WindowsHold(n: Net, actions: seq<Action>, n': Net)
    requires Initial(n) && Run(n, actions) == Some(n')
    ensures Apart(n'.log, Executed, Executed)
    ensures n.engine.mode == FullOrchestration ==>
              && Apart(n'.log, NudgeIssued, Executed)
              && Apart(n'.log, NudgeIssued, RejectedOnCost)
              && Apart(n'.log, NudgeIssued, FailedNoStock)
  {
    hide Run;
    RunKeepsTime(n, actions, n');
  }

  function ExecutedFrom(log: seq<Entry>, src: nat): nat {
    if log == [] then 0
    else ExecutedFrom(log[..|log| - 1], src)
         + if log[|log| - 1].outcome == Executed && log[|log| - 1].src == src then 1 else 0
  }

  /** If executed re-routes keep their distance, k of them span k - 1 windows. */
  lemma {:induction false} SpanGrows(log: seq<Entry>, src: nat) returns (first: nat, last: nat)
    requires Apart(log, Executed, Executed) && ExecutedFrom(log, src) > 0
    ensures first <= last < |log|
    ensures log[first].outcome == log[last].outcome == Executed && log[first].src == log[last].src == src
    ensures forall i | last < i < |log| :: !(log[i].outcome == Executed && log[i].src == src)
    ensures log[last].t - log[first].t >= (ExecutedFrom(log, src) - 1) * WINDOW_NS
  {
    var k := |log| - 1;
    var shorter := log[..k];
    assert forall i | 0 <= i < k :: shorter[i] == log[i];
    if ExecutedFrom(shorter, src) > 0 {
      first, last := SpanGrows(shorter, src);
      if log[k].outcome == Executed && log[k].src == src {
        assert log[k].t - log[last].t >= WINDOW_NS;
        last := k;
      }
    } else {
      first, last := k, k;
    }
  }

  /** k executed re-routes from one store take at least (k - 1) windows, in every interleaving. */
  lemma ExecutedSpan(n: Net, actions: seq<Action>, n': Net, src: nat) returns (first: nat, last: nat)
    requires Initial(n) && Run(n, actions) == Some(n') && ExecutedFrom(n'.log, src) > 0
    ensures first <= last < |n'.log|
    ensures n'.log[first].outcome == n'.log[last].outcome == Executed
    ensures n'.log[first].src == n'.log[last].src == src
    ensures n'.log[last].t - n'.log[first].t >= (ExecutedFrom(n'.log, src) - 1) * WINDOW_NS
  {
    hide Run;
    WindowsHold(n, actions, n');
    first, last := SpanGrows(n'.log, src);
  }

  // ---------- times that are not positive ----------

  /**
   * A time that is not positive is no time: a re-route executed at simulated time zero or
   * below starts no cooldown, and the order can come back and go again at the same instant.
   */
  lemma ZeroTimeStartsNoCooldown(e: Engine, w: World, i: nat, j: nat, t: int)
    requires Volley(e, w, i, j, t) && t <= 0
    ensures var there := Evaluate(e, w, Rooms(), None, i, t);
            && j < |there.world.stores| == |w.stores|
            && var back := Evaluate(there.agent, there.world, Rooms(), None, j, t);
            && |back.world.stores| == |w.stores|
            && var again := Evaluate(back.agent, back.world, Rooms(), None, i, t);
            && there.event.outcome == back.event.outcome == again.event.outcome == Executed
            && there.event.source == again.event.source == w.stores[i].id
  {
    hide Evaluate, Movable;
    assert w.stores[i].id != w.stores[j].id;
    var there := Serve(e, w, i, j, t);
    var back := Serve(there.agent, there.world, j, i, t);
    var again := Serve(back.agent, back.world, i, j, t);
  }

  /** An outcome that moves nothing away from the store. */
  predicate Stays(o: Outcome) {
    o == NoAction || o == NudgeIssued
  }

  /** Whatever the network, the distances and the carts are by then, this store is not re-routed from at `t`. */
  ghost predicate Quieted(e: Engine, src: nat, id: string, t: int) {
    forall w: World, dist, cart | src < |w.stores| && w.stores[src].id == id ::
      Stays(Evaluate(e, w, dist, cart, src, t).event.outcome)
  }

  /** Not re-routed from for a whole window from `t` on. */
  ghost predicate QuietedFrom(e: Engine, src: nat, id: string, t: int) {
    forall t' | t <= t' < t + WINDOW_NS :: Quieted(e, src, id, t')
  }

  /**
   * The cooldown after an executed re-route, exactly. The store is quiet for a window
   * whatever happens if and only if the time was positive; and if it was not, the very same
   * network lets it execute again at the very same instant.
   */
  lemma CooldownNeedsAPositiveTime(e: Engine, w: World, dist: Distance, cart: Option<string>, src: nat, t: int)
    requires src < |w.stores| && Evaluate(e, w, dist, cart, src, t).event.outcome == Executed
    ensures var e' := Evaluate(e, w, dist, cart, src, t).agent;
            && (t > 0 <==> QuietedFrom(e', src, w.stores[src].id, t))
            && (t <= 0 <==> Evaluate(e', w, dist, cart, src, t).event.outcome == Executed)
  {
    var e', id := Evaluate(e, w, dist, cart, src, t).agent, w.stores[src].id;
    assert Last(e'.lastReRoute, id) == t;
    SecondAttempt(e, w, dist, cart, src, t);
    hide Evaluate;
    if t > 0 {
      forall t' | t <= t' < t + WINDOW_NS ensures Quieted(e', src, id, t') {
        CoolingIsQuiet(e', src, id, t');
      }
    } else {
      assert !Quieted(e', src, id, t);
    }
  }

  lemma SecondAttempt(e: Engine, w: World, dist: Distance, cart: Option<string>, src: nat, t: int)
    requires src < |w.stores| && Evaluate(e, w, dist, cart, src, t).event.outcome == Executed
    ensures var e' := Evaluate(e, w, dist, cart, src, t).agent;
            t <= 0 <==> Evaluate(e', w, dist, cart, src, t).event.outcome == Executed
  {
    hide GateOpen, QuoteFor, PredictedDelayMin, Nearest, Extract, Reserve, MergeCount, Consolidated;
  }

  lemma CoolingIsQuiet(e: Engine, src: nat, id: string, t: int)
    requires InWindow(Last(e.lastReRoute, id), t)
    ensures Quieted(e, src, id, t)
  {
    hide Searched, MergeCount, Consolidated;
  }

  lemma GraceIsQuiet(e: Engine, src: nat, id: string, t: int)
    requires e.mode == FullOrchestration && InWindow(Last(e.lastNudge, id), t)
    ensures Quieted(e, src, id, t)
  {
    hide Searched, MergeCount, Consolidated;
  }

  /**
   * The grace window after a nudge, exactly. The store is quiet for a window whatever
   * happens if and only if the time of the nudge was positive, or a re-route of the store
   * was executed at a positive time before: then its cooldown lies ahead of the nudge.
   */
  lemma GraceNeedsAPositiveTime(e: Engine, w: World, dist: Distance, cart: Option<string>, src: nat, t: int)
    requires src < |w.stores| && Evaluate(e, w, dist, cart, src, t).event.outcome == NudgeIssued
    ensures var e' := Evaluate(e, w, dist, cart, src, t).agent;
            QuietedFrom(e', src, w.stores[src].id, t) <==> t > 0 || Last(e.lastReRoute, w.stores[src].id) > 0
  {
    var e', id := Evaluate(e, w, dist, cart, src, t).agent, w.stores[src].id;
    NudgesAreNoted(e, w, dist, cart, src, t);
    hide Evaluate;
    if t > 0 {
      forall t' | t <= t' < t + WINDOW_NS ensures Quieted(e', src, id, t') {
        GraceIsQuiet(e', src, id, t');
      }
    } else if Last(e.lastReRoute, id) > 0 {
      forall t' | t <= t' < t + WINDOW_NS ensures Quieted(e', src, id, t') {
        CoolingIsQuiet(e', src, id, t');
      }
    } else {
      OpenWindowsLetGo(e', src, id, t);
      assert Neighbours(src, id).stores[src] == FullStore(id);
      assert !Quieted(e', src, id, t);
    }
  }

  lemma NudgesAreNoted(e: Engine, w: World, dist: Distance, cart: Option<string>, src: nat, t: int)
    requires src < |w.stores| && Evaluate(e, w, dist, cart, src, t).event.outcome == NudgeIssued
    ensures var e', id := Evaluate(e, w, dist, cart, src, t).agent, w.stores[src].id;
            && e'.mode == e.mode == FullOrchestration && e'.lastReRoute == e.lastReRoute
            && Last(e'.lastNudge, id) == t
  {
    hide GateOpen, QuoteFor, PredictedDelayMin, Nearest, Extract, Reserve, MergeCount, Consolidated;
  }

  /** A full store next to an empty one with another id, and more stores like the empty one before it. */
  function Neighbours(src: nat, id: string): World {
    World(seq(src + 2, k => if k == src then FullStore(id) else EmptyStore(id + "x")), Unconfigured)
  }

  function FullStore(id: string): StoreState {
    EmptyStore(id).(queue := [Order("o", "", false, false, 0, Queued)])
  }

  function EmptyStore(id: string): StoreState {
    StoreState(id, Location(0.0, 0.0), 1, 0, [], 0, 0, 0, 0, 0, 0)
  }

  /** Outside both windows there is a network in which the store is re-routed from, or the gate refuses it. */
  lemma OpenWindowsLetGo(e: Engine, src: nat, id: string, t: int)
    requires !InWindow(Last(e.lastReRoute, id), t) && !InWindow(Last(e.lastNudge, id), t)
    ensures !Stays(Evaluate(e, Neighbours(src, id), Rooms(), None, src, t).event.outcome)
  {
    hide GateOpen, QuoteFor, PredictedDelayMin, Nearest;
    var w := Neighbours(src, id);
    assert w.stores[src] == FullStore(id) && w.stores[src + 1] == EmptyStore(id + "x");
    NearestIsBest(w.stores, Rooms(), src, |w.stores|);
    assert |id + "x"| != |id|;
    assert Eligible(w.stores, Rooms(), src, src + 1);
    TakeFromMovable(w.stores[src].queue);
  }
}
