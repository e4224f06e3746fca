/**
 * The stop sequence and the final accounting check: when the report is reached nothing
 * is in flight any more, and the check balances.
 */
module Shutdown {
  import opened Options
  import opened Orders
  import opened Stores
  import opened Policy
  import opened Protocol
  import opened Ledger
  import opened Marks
  import opened Accounting

  /** How many stores, from the first on, the main program has finished stopping. */
  function StoppedStores(n: Net): nat {
    match n.control
    case Dispatching => 0
    case Draining(i) => i
    case Joining(i) => i
    case StoppingMonitor => |n.crews|
    case Reported => |n.crews|
  }

  /** How far the stop sequence has come, and what that rules out. */
  ghost predicate Phases(n: Net) {
    && Shape(n)
    && (n.control != Dispatching ==> forall i | 0 <= i < |n.crews| :: Dispatched(n.crews[i]))
    && (forall i | 0 <= i < StoppedStores(n) && i < |n.crews| :: AllGone(n.crews[i].workers))
    && (n.monitorCancelled ==> n.control == StoppingMonitor || n.control == Reported)
    && (n.control == StoppingMonitor ==> n.monitorCancelled)
    && (n.control.Joining? ==> n.crews[n.control.next].cancelled)
    && (n.control == Reported ==> n.pc == Stopped)
  }

  lemma DispatchKeepsPhases(n: Net, i: nat, n': Net)
    requires Phases(n) && DispatchStep(n, i) == Some(n')
    ensures Phases(n')
  {
  }

  lemma WorkKeepsPhases(n: Net, i: nat, j: nat, n': Net)
    requires Phases(n) && WorkStep(n, i, j) == Some(n')
    ensures Phases(n')
  {
  }

  /** The engine touches neither schedules, dispatchers, pickers nor the stop sequence, and rests once stopped. */
  lemma ThinkKeepsCrews(n: Net, c: Choice, n': Net)
    requires Shape(n) && ThinkStep(n, c) == Some(n')
    ensures |n'.crews| == |n.crews| && n'.control == n.control && n'.monitorCancelled == n.monitorCancelled
    ensures n.pc != Stopped
    ensures forall i | 0 <= i < |n.crews| :: SameButAbsorbed(n.crews[i], n'.crews[i])
  {
    hide Consolidated, MergeCount, Absorbed, Extract, InWindow, Last;
    if Judges(n.pc) {
      JudgeKeepsCrews(n, c, n');
    } else if Selects(n.pc) {
      SelectKeepsCrews(n, c, n');
    } else {
      TransferKeepsCrews(n, c, n');
    }
  }

  predicate SameButAbsorbed(c: Crew, c': Crew) {
    c' == c.(absorbed := c'.absorbed, primaries := c'.primaries)
  }

  ghost predicate SameCrews(n: Net, n': Net) {
    && |n'.crews| == |n.crews| && n'.control == n.control && n'.monitorCancelled == n.monitorCancelled
    && forall i | 0 <= i < |n.crews| :: SameButAbsorbed(n.crews[i], n'.crews[i])
  }

  lemma JudgeKeepsCrews(n: Net, c: Choice, n': Net)
    requires Shape(n) && Judges(n.pc) && JudgeStep(n, c) == Some(n')
    ensures SameCrews(n, n') && n.pc != Stopped
  {
    hide Consolidated, MergeCount, Absorbed, InWindow, Last;
  }

  lemma SelectKeepsCrews(n: Net, c: Choice, n': Net)
    requires Shape(n) && Selects(n.pc) && SelectStep(n, c) == Some(n')
    ensures SameCrews(n, n')
  {
    hide Extract, InWindow, Last;
  }

  lemma TransferKeepsCrews(n: Net, c: Choice, n': Net)
    requires Shape(n) && !Judges(n.pc) && !Selects(n.pc) && TransferStep(n, c) == Some(n')
    ensures SameCrews(n, n')
  {
  }

  lemma SteerKeepsPhases(n: Net, n': Net)
    requires Phases(n) && SteerStep(n) == Some(n')
    ensures Phases(n')
  {
  }

  lemma StepKeepsPhases(n: Net, a: Action, n': Net)
    requires Phases(n) && Step(n, a) == Some(n')
    ensures Phases(n')
  {
    hide DispatchStep, WorkStep, ThinkStep, SteerStep;
    match a
    case Dispatch(i) => DispatchKeepsPhases(n, i, n');
    case Work(i, j) => WorkKeepsPhases(n, i, j, n');
    case Think(c) => ThinkKeepsCrews(n, c, n');
    case Steer => SteerKeepsPhases(n, n');
  }

  lemma {:induction false} RunKeepsPhases(n: Net, actions: seq<Action>, n': Net)
    requires Phases(n) && Run(n, actions) == Some(n')
    ensures Phases(n')
    decreases |actions|
  {
    hide Step;
    if actions != [] {
      var m := Step(n, actions[0]).value;
      StepKeepsPhases(n, actions[0], m);
      RunKeepsPhases(m, actions[1..], n');
    }
  }

  /** At the report a store's arrivals and transfers in are its completed, queued, absorbed and transfers out. */
  lemma StoreAtRest(n: Net, i: nat)
    requires Phases(n) && n.control == Reported && i < |n.crews| && Books(n)
    ensures var s, c := n.world.stores[i], n.crews[i];
            && Hands(c.workers) == [] && s.picking == 0
            && s.received == |c.arrived| == CreatedOf(s, c)
            && s.received + s.reRoutedIn - s.reRoutedOut == s.completed + |s.queue| + s.picking + |c.absorbed|
  {
    NobodyBusy(n.crews[i].workers);
    assert StoreBooks(n.world.stores[i], n.crews[i], n.pc, i);
    assert Dispatched(n.crews[i]);
  }

  /** Per-store balances add up to the network's. */
  lemma {:induction false} BalancesAddUp(ss: seq<StoreState>, cs: seq<Crew>)
    requires |ss| == |cs|
    requires forall i | 0 <= i < |ss| ::
               CreatedOf(ss[i], cs[i]) + ss[i].reRoutedIn - ss[i].reRoutedOut
               == ss[i].completed + |ss[i].queue| + ss[i].picking + |cs[i].absorbed|
    requires forall i | 0 <= i < |ss| :: ss[i].picking == 0
    ensures Sum(CreatedOf, ss, cs) + Sum(InOf, ss, cs) - Sum(OutOf, ss, cs)
            == Total(CompletedIn, ss) + Total(QueuedIn, ss) + Total(PickingIn, ss) + Sum(AbsorbedOf, ss, cs)
    ensures Total(PickingIn, ss) == 0
    ensures Sum(AbsorbedOf, ss, cs) >= 0
  {
    if ss != [] {
      var k := |ss| - 1;
      assert forall i | 0 <= i < k :: ss[..k][i] == ss[i] && cs[..k][i] == cs[i];
      BalancesAddUp(ss[..k], cs[..k]);
    }
  }

  /**
   * Every run that reaches the final report passes the check the report makes, with
   * nobody picking, every evaluation counted under its outcome and every move counted
   * at both ends.
   */
  lemma FinalCheckPasses(n: Net, actions: seq<Action>, n': Net)
    requires Initial(n) && Run(n, actions) == Some(n') && n'.control == Reported
    ensures var sum := n'.engine.summary;
            var audit := Audit(n'.world.stores, n'.created, [sum.merged, sum.nudges]);
            audit.Ok? && audit.value.totalInPicking == 0 && audit.value.totalMerged == sum.merged - sum.nudges
    ensures forall i | 0 <= i < |n'.crews| ::
              var s := n'.world.stores[i];
              s.received + s.reRoutedIn - s.reRoutedOut
              == s.completed + |s.queue| + s.picking + |n'.crews[i].absorbed|
    ensures Across(InOf, n') == Across(OutOf, n') == n'.engine.summary.executed
    ensures n'.engine.summary.evaluations == Outcomes(n'.engine.summary)
  {
    hide Run, Sum, Total;
    LedgerAtEveryStep(n, actions, n', "");
    assert Phases(n);
    RunKeepsPhases(n, actions, n');
    forall i | 0 <= i < |n'.crews|
      ensures n'.world.stores[i].picking == 0
      ensures var s, c := n'.world.stores[i], n'.crews[i];
              CreatedOf(s, c) + s.reRoutedIn - s.reRoutedOut == s.completed + |s.queue| + s.picking + |c.absorbed|
      ensures n'.world.stores[i].received == CreatedOf(n'.world.stores[i], n'.crews[i])
    {
      StoreAtRest(n', i);
    }
    BalancesAddUp(n'.world.stores, n'.crews);
  }

  // ---------- the schedule ----------

  /** Orders leave the schedule only by arriving, in order. */
  ghost predicate SameSchedule(n: Net, n': Net) {
    && |n'.crews| == |n.crews|
    && forall i | 0 <= i < |n.crews| :: n'.crews[i].arrived + n'.crews[i].plan == n.crews[i].arrived + n.crews[i].plan
  }

  lemma DispatchKeepsSchedule(n: Net, i: nat, n': Net)
    requires Shape(n) && DispatchStep(n, i) == Some(n')
    ensures SameSchedule(n, n')
  {
    var c, c' := n.crews[i], n'.crews[i];
    if c.dispatcher == Between {
      assert c.plan == [c.plan[0]] + c.plan[1..];
      assert c'.arrived + c'.plan == c.arrived + ([c.plan[0]] + c.plan[1..]);
    }
  }

  lemma StepKeepsSchedule(n: Net, a: Action, n': Net)
    requires Shape(n) && Step(n, a) == Some(n')
    ensures SameSchedule(n, n')
  {
    hide DispatchStep, ThinkStep;
    match a
    case Dispatch(i) => DispatchKeepsSchedule(n, i, n');
    case Work(i, j) =>
    case Think(c) => ThinkKeepsCrews(n, c, n');
    case Steer =>
  }

  lemma {:induction false} RunKeepsSchedule(n: Net, actions: seq<Action>, n': Net)
    requires Shape(n) && Run(n, actions) == Some(n')
    ensures SameSchedule(n, n')
    decreases |actions|
  {
    hide Step;
    if actions != [] {
      var m := Step(n, actions[0]).value;
      StepKeepsSchedule(n, actions[0], m);
      RunKeepsSchedule(m, actions[1..], n');
    }
  }

  /** At the report every scheduled order has arrived, so all of them are counted as created. */
  lemma EverythingArrives(n: Net, actions: seq<Action>, n': Net, id: string)
    requires Initial(n) && Run(n, actions) == Some(n') && n'.control == Reported
    ensures |n'.crews| == |n.crews|
    ensures forall i | 0 <= i < |n.crews| :: n'.crews[i].arrived == n.crews[i].plan
    ensures forall i | 0 <= i < |n.crews| :: n'.world.stores[i].received == |n.crews[i].plan|
    ensures n'.created == Across(PlannedOf, n)
    ensures Across(ArrivedOf(id), n') == Across(ScheduledOf(id), n)
  {
    hide Run, Sum;
    RunKeepsSchedule(n, actions, n');
    assert Phases(n);
    RunKeepsPhases(n, actions, n');
    LedgerAtEveryStep(n, actions, n', "");
    forall i | 0 <= i < |n.crews|
      ensures n'.crews[i].arrived == n.crews[i].plan && n'.crews[i].dispatcher == Between
      ensures n'.world.stores[i].received == |n.crews[i].plan|
    {
      assert Dispatched(n'.crews[i]) && FreshCrew(n.crews[i], n.world.stores[i].pickers);
      assert n'.crews[i].arrived == n'.crews[i].arrived + n'.crews[i].plan;
      assert n.crews[i].plan == n.crews[i].arrived + n.crews[i].plan;
      StoreAtRest(n', i);
    }
    ArrivalsAreThePlan(n.world.stores, n.crews, n'.world.stores, n'.crews, id);
  }

  function PlannedOf(s: StoreState, c: Crew): int { |c.plan| }

  function ScheduledOf(id: string): (StoreState, Crew) -> int {
    (s: StoreState, c: Crew) => Count(c.plan, id)
  }

  lemma {:induction false} ArrivalsAreThePlan(
      ss: seq<StoreState>, cs: seq<Crew>, ss': seq<StoreState>, cs': seq<Crew>, id: string)
    requires |ss| == |cs| == |ss'| == |cs'|
    requires forall i | 0 <= i < |cs| :: cs'[i].arrived == cs[i].plan && cs'[i].dispatcher == Between
    ensures Sum(CreatedOf, ss', cs') == Sum(PlannedOf, ss, cs)
    ensures Sum(ArrivedOf(id), ss', cs') == Sum(ScheduledOf(id), ss, cs)
  {
    if ss != [] {
      var k := |ss| - 1;
      ArrivalsAreThePlan(ss[..k], cs[..k], ss'[..k], cs'[..k], id);
    }
  }

  // ---------- the check without the counters ----------

  function ExcessDone(s: StoreState, c: Crew): int {
    Excess(c.done)
  }

  lemma {:induction false} ScanSplits(ss: seq<StoreState>, cs: seq<Crew>)
    requires |ss| == |cs| && forall i | 0 <= i < |ss| :: Hands(cs[i].workers) == []
    ensures Sum(ExcessOfStore, ss, cs) == Total(ExcessIn, ss) + Sum(ExcessDone, ss, cs)
  {
    if ss != [] {
      var k := |ss| - 1;
      assert forall i | 0 <= i < k :: cs[..k][i] == cs[i];
      ScanSplits(ss[..k], cs[..k]);
    }
  }

  lemma {:induction false} NoExcess(q: seq<Order>)
    ensures Excess(q) >= 0
    ensures Excess(q) == 0 <==> forall o | o in q :: ExcessOf(o) == 0
  {
    if q != [] {
      NoExcess(q[1..]);
      assert q == [q[0]] + q[1..];
    }
  }

  lemma {:induction false} NoExcessDone(ss: seq<StoreState>, cs: seq<Crew>)
    requires |ss| == |cs|
    ensures Sum(ExcessDone, ss, cs) >= 0
    ensures Sum(ExcessDone, ss, cs) == 0 <==> forall i, o | 0 <= i < |cs| && o in cs[i].done :: ExcessOf(o) == 0
  {
    if ss != [] {
      var k := |ss| - 1;
      NoExcess(cs[k].done);
      NoExcessDone(ss[..k], cs[..k]);
      assert forall i | 0 <= i < k :: cs[..k][i] == cs[i];
    }
  }

  /**
   * The fallback that scans the queues instead of reading the two counters balances
   * exactly when no consolidated order has been completed.
   */
  lemma ScanPassesUnlessMergesCompleted(n: Net, actions: seq<Action>, n': Net)
    requires Initial(n) && Run(n, actions) == Some(n') && n'.control == Reported
    ensures Audit(n'.world.stores, n'.created, []).Ok?
            <==> forall i, o | 0 <= i < |n'.crews| && o in n'.crews[i].done :: !o.consolidated
    ensures Audit(n'.world.stores, n'.created, []).Ok?
            <==> NetMerged(n'.world.stores, [])
                 == NetMerged(n'.world.stores, [n'.engine.summary.merged, n'.engine.summary.nudges])
  {
    hide Run, Sum, Total, Excess;
    FinalCheckPasses(n, actions, n');
    LedgerAtEveryStep(n, actions, n', "");
    assert Phases(n);
    RunKeepsPhases(n, actions, n');
    forall i | 0 <= i < |n'.crews| ensures Hands(n'.crews[i].workers) == [] {
      StoreAtRest(n', i);
    }
    ScanSplits(n'.world.stores, n'.crews);
    NoExcessDone(n'.world.stores, n'.crews);
    MarksTellTheTruth(n, actions, n');
    forall i, o | 0 <= i < |n'.crews| && o in n'.crews[i].done ensures ExcessOf(o) == 0 <==> !o.consolidated {
      assert CrewMarked(n'.crews[i]);
    }
    assert Excess(EngineHand(n'.pc)) == 0 by { NoExcess([]); }
    assert Totals(n');
  }

  /**
   * At the report an order that was scheduled once is settled at exactly one store, in
   * exactly one way: still queued, completed, or absorbed.
   */
  lemma EveryOrderSettles(n: Net, actions: seq<Action>, n': Net, id: string) returns (i: nat)
    requires Initial(n) && Run(n, actions) == Some(n') && n'.control == Reported
    requires Across(ScheduledOf(id), n) == 1
    ensures i < |n'.crews|
    ensures Count(n'.world.stores[i].queue, id) + Count(n'.crews[i].done, id) + Count(n'.crews[i].absorbed, id) == 1
    ensures forall k | 0 <= k < |n'.crews| && k != i ::
              Count(n'.world.stores[k].queue, id) == Count(n'.crews[k].done, id) == Count(n'.crews[k].absorbed, id) == 0
  {
    hide Run, Sum;
    EverythingArrives(n, actions, n', id);
    i := ExactlyOnePlace(n, actions, n', id);
    LedgerAtEveryStep(n, actions, n', id);
    assert Phases(n);
    RunKeepsPhases(n, actions, n');
    forall k | 0 <= k < |n'.crews| ensures Hands(n'.crews[k].workers) == [] {
      StoreAtRest(n', k);
    }
  }
}
