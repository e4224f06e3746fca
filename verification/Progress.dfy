/**
 * Stopping comes to an end, whatever the engine decides on the way: how many steps each
 * thread can still take once it is told to stop, and that no run is ever stuck.
 */
module Progress {
  import opened Options
  import opened Orders
  import opened CostModel
  import opened Stores
  import opened Policy
  import opened Protocol
  import opened Ledger
  import opened Shutdown

  // ---------- how much is left ----------

  /** Steps a dispatcher still has to take. */
  function DispatchSteps(s: StoreState, c: Crew): int {
    3 * |c.plan| + match c.dispatcher case Between => 0 case Enqueued => 2 case Received => 1
  }

  /** An upper bound on the steps a picker takes once it is told to stop. */
  function StepsToGo(w: Worker): nat {
    match w
    case Gone => 0
    case AtTop => 1
    case Finishing(_) => 2
    case Serving(_) => 3
    case Holding(_) => 4
    case Polling => 5
  }

  function CrewSteps(ws: seq<Worker>): nat {
    if ws == [] then 0 else CrewSteps(ws[..|ws| - 1]) + StepsToGo(ws[|ws| - 1])
  }

  function PickerSteps(s: StoreState, c: Crew): int {
    CrewSteps(c.workers)
  }

  const EVALUATION_STEPS := 13

  /** An upper bound on the steps the engine takes, whatever it decides, until it has stopped. */
  function EngineSteps(pc: Pc): nat {
    match pc
    case Stopped => 0
    case Resting => 1
    case Judging(_, _) => EVALUATION_STEPS
    case Merged(_, _, _) => 4
    case NudgeNoted(_, _, _) => 3
    case NudgeCounted(_, _, _) => 2
    case Cleared(_, _) => 12
    case Searching(_, _) => 11
    case Aimed(_, _, _) => 10
    case Extracted(_, _, _, _) => 9
    case Refusing(_, _, _) => 3
    case PutBack(_, _) => 2
    case Reserved(_, _, _, _) => 8
    case Noted(_, _, _, _) => 6
    case Stamped(_, _, _, _) => 5
    case LeftCounted(_, _, _, _) => 4
    case JoinCounted(_, _, _, _) => 3
    case HandedOver(_, _, _) => 2
  }

  /** How many moves of the main program are left. */
  function PhasesLeft(n: Net): nat
    requires Shape(n)
  {
    match n.control
    case Dispatching => 2 * |n.crews| + 3
    case Draining(i) => 2 * (|n.crews| - i) + 2
    case Joining(i) => 2 * (|n.crews| - i) + 1
    case StoppingMonitor => 1
    case Reported => 0
  }

  function StepsLeft(n: Net): int
    requires Shape(n)
  {
    PhasesLeft(n) + Across(DispatchSteps, n) + Across(PickerSteps, n) + EngineSteps(n.pc)
  }

  lemma {:induction false} FewerCrewSteps(ws: seq<Worker>, j: nat, w: Worker)
    requires j < |ws|
    ensures CrewSteps(ws[j := w]) == CrewSteps(ws) - StepsToGo(ws[j]) + StepsToGo(w)
  {
    var k := |ws| - 1;
    if j < k {
      assert ws[j := w][..k] == ws[..k][j := w];
      FewerCrewSteps(ws[..k], j, w);
    } else {
      assert ws[j := w][..k] == ws[..k];
    }
  }

  lemma {:induction false} CrewStepsBound(ws: seq<Worker>)
    ensures CrewSteps(ws) <= 5 * |ws|
  {
    if ws != [] {
      CrewStepsBound(ws[..|ws| - 1]);
    }
  }

  lemma StepsLeftNotNegative(n: Net)
    requires Shape(n)
    ensures StepsLeft(n) >= 0
  {
    SumNonNegative(DispatchSteps, n.world.stores, n.crews);
    SumNonNegative(PickerSteps, n.world.stores, n.crews);
  }

  // ---------- every step counts ----------

  /** Whatever the engine decides, a step inside an evaluation, or to its stop, brings it closer to its end. */
  lemma ThinkingDescends(n: Net, c: Choice, n': Net)
    requires Shape(n) && ThinkStep(n, c) == Some(n')
    ensures !(n.pc.Resting? && c.Start?) ==> EngineSteps(n'.pc) < EngineSteps(n.pc)
    ensures n.pc.Resting? && c.Start? ==> EngineSteps(n'.pc) == EVALUATION_STEPS
  {
    hide JudgeStep, SelectStep, TransferStep, EngineSteps;
    if Judges(n.pc) {
      JudgingDescends(n, c, n');
    } else if Selects(n.pc) {
      SelectingDescends(n, c, n');
    } else {
      TransferringDescends(n, c, n');
    }
  }

  lemma JudgingDescends(n: Net, c: Choice, n': Net)
    requires Shape(n) && Judges(n.pc) && JudgeStep(n, c) == Some(n')
    ensures !(n.pc.Resting? && c.Start?) ==> EngineSteps(n'.pc) < EngineSteps(n.pc)
    ensures n.pc.Resting? && c.Start? ==> EngineSteps(n'.pc) == EVALUATION_STEPS
  {
    hide Consolidated, MergeCount, Absorbed, InWindow, Last, Shape;
  }

  lemma SelectingDescends(n: Net, c: Choice, n': Net)
    requires Shape(n) && Selects(n.pc) && SelectStep(n, c) == Some(n')
    ensures EngineSteps(n'.pc) < EngineSteps(n.pc)
  {
    hide Extract, InWindow, Last, Shape;
  }

  lemma TransferringDescends(n: Net, c: Choice, n': Net)
    requires Shape(n) && !Judges(n.pc) && !Selects(n.pc) && TransferStep(n, c) == Some(n')
    ensures EngineSteps(n'.pc) < EngineSteps(n.pc)
  {
    hide Shape;
  }

  /** Every step of a picker that is told to stop brings it closer to its end. */
  lemma WorkingDescends(s: StoreState, c: Crew, j: nat)
    requires j < |c.workers| && PickerTurn(s, c, j).Some?
    ensures var c' := PickerTurn(s, c, j).value.1;
            && DispatchSteps(s, c') == DispatchSteps(s, c)
            && c'.cancelled == c.cancelled
            && CrewSteps(c'.workers) <= CrewSteps(c.workers) + 4
            && (c.cancelled ==> CrewSteps(c'.workers) < CrewSteps(c.workers))
  {
    var c' := PickerTurn(s, c, j).value.1;
    FewerCrewSteps(c.workers, j, c'.workers[j]);
  }

  /**
   * What an action may add to the steps that are left, itself included: an evaluation
   * that is started, and a turn of a picker nobody has told to stop. All others add nothing.
   */
  function Fuel(n: Net, a: Action): nat {
    match a
    case Think(c) => if n.pc.Resting? && c.Start? then EVALUATION_STEPS else 0
    case Work(i, _) => if i < |n.crews| && !n.crews[i].cancelled then 5 else 0
    case _ => 0
  }

  lemma {:induction false} SameSum(
      f: (StoreState, Crew) -> int, ss: seq<StoreState>, cs: seq<Crew>, ss': seq<StoreState>, cs': seq<Crew>)
    requires |ss| == |cs| == |ss'| == |cs'|
    requires forall i | 0 <= i < |ss| :: f(ss[i], cs[i]) == f(ss'[i], cs'[i])
    ensures Sum(f, ss, cs) == Sum(f, ss', cs')
  {
    if ss != [] {
      var k := |ss| - 1;
      forall i | 0 <= i < k ensures f(ss[..k][i], cs[..k][i]) == f(ss'[..k][i], cs'[..k][i]) {
        assert f(ss[i], cs[i]) == f(ss'[i], cs'[i]);
      }
      SameSum(f, ss[..k], cs[..k], ss'[..k], cs'[..k]);
    }
  }

  lemma ThinkUsesAStep(n: Net, c: Choice, n': Net)
    requires Shape(n) && ThinkStep(n, c) == Some(n')
    ensures StepsLeft(n') + 1 <= StepsLeft(n) + Fuel(n, Think(c))
  {
    hide ThinkStep, EngineSteps, Across;
    ThinkingDescends(n, c, n');
    ThinkKeepsCrews(n, c, n');
    SameCrewsSameSteps(n, n');
    RestingIsOneStep();
  }

  lemma SameCrewsSameSteps(n: Net, n': Net)
    requires Shape(n) && Shape(n') && SameCrews(n, n')
    ensures Across(DispatchSteps, n') == Across(DispatchSteps, n)
    ensures Across(PickerSteps, n') == Across(PickerSteps, n)
  {
    hide CrewSteps;
    SameSum(DispatchSteps, n.world.stores, n.crews, n'.world.stores, n'.crews);
    SameSum(PickerSteps, n.world.stores, n.crews, n'.world.stores, n'.crews);
  }

  lemma WorkUsesAStep(n: Net, i: nat, j: nat, n': Net)
    requires Shape(n) && WorkStep(n, i, j) == Some(n')
    ensures StepsLeft(n') + 1 <= StepsLeft(n) + Fuel(n, Work(i, j))
  {
    hide PickerTurn, EngineSteps, CrewSteps;
    var s, c, s', c' := n.world.stores[i], n.crews[i], n'.world.stores[i], n'.crews[i];
    WorkingDescends(s, c, j);
    SumUpdate(DispatchSteps, n.world.stores, n.crews, i, s', c');
    SumUpdate(PickerSteps, n.world.stores, n.crews, i, s', c');
  }

  lemma DispatchUsesAStep(n: Net, i: nat, n': Net)
    requires Shape(n) && DispatchStep(n, i) == Some(n')
    ensures StepsLeft(n') + 1 <= StepsLeft(n)
  {
    hide EngineSteps, CrewSteps;
    SumUpdate(DispatchSteps, n.world.stores, n.crews, i, n'.world.stores[i], n'.crews[i]);
    SumUpdate(PickerSteps, n.world.stores, n.crews, i, n'.world.stores[i], n'.crews[i]);
  }

  lemma SteerUsesAStep(n: Net, n': Net)
    requires Shape(n) && SteerStep(n) == Some(n')
    ensures StepsLeft(n') + 1 <= StepsLeft(n)
  {
    hide CrewSteps, EngineSteps, Sum;
    if n.control.Draining? && n.control.next < |n.crews| {
      var i := n.control.next;
      SumUpdate(DispatchSteps, n.world.stores, n.crews, i, n'.world.stores[i], n'.crews[i]);
      SumUpdate(PickerSteps, n.world.stores, n.crews, i, n'.world.stores[i], n'.crews[i]);
    }
  }

  lemma StepUsesAStep(n: Net, a: Action, n': Net)
    requires Shape(n) && Step(n, a) == Some(n')
    ensures StepsLeft(n') + 1 <= StepsLeft(n) + Fuel(n, a)
  {
    hide StepsLeft, DispatchStep, WorkStep, ThinkStep, SteerStep;
    match a
    case Dispatch(i) => DispatchUsesAStep(n, i, n');
    case Work(i, j) => WorkUsesAStep(n, i, j, n');
    case Think(c) => ThinkUsesAStep(n, c, n');
    case Steer => SteerUsesAStep(n, n');
  }

  ghost function FuelUsed(n: Net, actions: seq<Action>): nat
    requires Shape(n)
    decreases |actions|
  {
    if actions == [] then 0
    else
      Fuel(n, actions[0])
      + match Step(n, actions[0])
        case None => 0
        case Some(n') => FuelUsed(n', actions[1..])
  }

  /**
   * Every run, whatever the engine decides in it, is at most as long as what was left
   * at its start plus what was added on the way, by evaluations that were started and by
   * turns of pickers not told to stop. Where neither happens, everything comes to an end.
   */
  lemma {:induction false} RunsAreBounded(n: Net, actions: seq<Action>, n': Net)
    requires Shape(n) && Run(n, actions) == Some(n')
    ensures |actions| <= StepsLeft(n) - StepsLeft(n') + FuelUsed(n, actions)
    ensures |actions| <= StepsLeft(n) + FuelUsed(n, actions)
    decreases |actions|
  {
    StepsLeftNotNegative(n');
    hide Step, StepsLeft, Fuel;
    if actions != [] {
      var m := Step(n, actions[0]).value;
      StepUsesAStep(n, actions[0], m);
      RunsAreBounded(m, actions[1..], n');
    }
  }

  // ---------- each thread by itself ----------

  function TurnsOf(actions: seq<Action>, i: nat): nat {
    if actions == [] then 0 else (if actions[0].Work? && actions[0].i == i then 1 else 0) + TurnsOf(actions[1..], i)
  }

  function TurnsOfOne(actions: seq<Action>, i: nat, j: nat): nat {
    if actions == [] then 0 else (if actions[0] == Work(i, j) then 1 else 0) + TurnsOfOne(actions[1..], i, j)
  }

  function Thinks(actions: seq<Action>): nat {
    if actions == [] then 0 else (if actions[0].Think? then 1 else 0) + Thinks(actions[1..])
  }

  function Starts(actions: seq<Action>): nat {
    if actions == [] then 0
    else (if actions[0].Think? && actions[0].choice.Start? then 1 else 0) + Starts(actions[1..])
  }

  /** A step of another thread leaves a store's pickers alone. */
  lemma OthersLeavePickers(n: Net, a: Action, n': Net, i: nat)
    requires Shape(n) && Step(n, a) == Some(n') && i < |n.crews| && !(a.Work? && a.i == i)
    ensures |n'.crews| == |n.crews| && n'.crews[i].workers == n.crews[i].workers
    ensures n.crews[i].cancelled ==> n'.crews[i].cancelled
  {
    hide ThinkStep, PickerTurn;
    match a
    case Think(c) => ThinkKeepsCrews(n, c, n');
    case _ =>
  }

  /**
   * Once a store's pickers are told to stop, they take at most five more steps each in
   * every run, however long it is and whatever the other threads do in it.
   */
  lemma {:induction false} PickersStopSoon(n: Net, actions: seq<Action>, n': Net, i: nat)
    requires Shape(n) && Run(n, actions) == Some(n') && i < |n.crews| && n.crews[i].cancelled
    ensures i < |n'.crews|
    ensures TurnsOf(actions, i) <= CrewSteps(n.crews[i].workers) - CrewSteps(n'.crews[i].workers)
    ensures TurnsOf(actions, i) <= 5 * |n.crews[i].workers|
    decreases |actions|
  {
    CrewStepsBound(n.crews[i].workers);
    hide CrewSteps, DispatchStep, ThinkStep, SteerStep, PickerTurn;
    if actions != [] {
      var a := actions[0];
      var m := Step(n, a).value;
      if a.Work? && a.i == i {
        WorkingDescends(n.world.stores[i], n.crews[i], a.j);
      } else {
        OthersLeavePickers(n, a, m, i);
      }
      PickersStopSoon(m, actions[1..], n', i);
    }
  }

  /** A step of this picker brings it closer to its end, a step of anybody else leaves it where it is. */
  lemma OnePickerMoves(n: Net, a: Action, n': Net, i: nat, j: nat)
    requires Shape(n) && Step(n, a) == Some(n')
    requires i < |n.crews| && n.crews[i].cancelled && j < |n.crews[i].workers|
    ensures |n'.crews| == |n.crews| && n'.crews[i].cancelled && |n'.crews[i].workers| == |n.crews[i].workers|
    ensures StepsToGo(n'.crews[i].workers[j]) + (if a == Work(i, j) then 1 else 0) <= StepsToGo(n.crews[i].workers[j])
  {
    hide ThinkStep;
    match a
    case Think(c) => ThinkKeepsCrews(n, c, n');
    case _ =>
  }

  /**
   * Each picker by itself takes at most five more steps, in every run, once its store is
   * told to stop: as many as are left of the turn it is in.
   */
  lemma {:induction false} PickerStopsSoon(n: Net, actions: seq<Action>, n': Net, i: nat, j: nat)
    requires Shape(n) && Run(n, actions) == Some(n')
    requires i < |n.crews| && n.crews[i].cancelled && j < |n.crews[i].workers|
    ensures i < |n'.crews| && j < |n'.crews[i].workers|
    ensures TurnsOfOne(actions, i, j) <= StepsToGo(n.crews[i].workers[j]) - StepsToGo(n'.crews[i].workers[j])
    ensures TurnsOfOne(actions, i, j) <= 5
    decreases |actions|
  {
    hide Step;
    if actions != [] {
      var m := Step(n, actions[0]).value;
      OnePickerMoves(n, actions[0], m, i, j);
      PickerStopsSoon(m, actions[1..], n', i, j);
    }
  }

  lemma OthersLeaveTheEngine(n: Net, a: Action, n': Net)
    requires Shape(n) && Step(n, a) == Some(n') && !a.Think?
    ensures n'.pc == n.pc
  {
    match a
    case Dispatch(i) =>
    case Work(i, j) =>
    case Steer =>
  }

  /**
   * In every run and for all its decisions the engine takes at most thirteen steps for
   * each evaluation it starts, and as many as are left of the one it is in.
   */
  lemma {:induction false} EvaluationsEnd(n: Net, actions: seq<Action>, n': Net)
    requires Shape(n) && Run(n, actions) == Some(n')
    ensures Thinks(actions) <= EngineSteps(n.pc) - EngineSteps(n'.pc) + EVALUATION_STEPS * Starts(actions)
    decreases |actions|
  {
    hide EngineSteps, Step;
    if actions != [] {
      var a := actions[0];
      var m := Step(n, a).value;
      if a.Think? {
        StepIsThink(n, a.choice);
        ThinkingDescends(n, a.choice, m);
        RestingIsOneStep();
      } else {
        OthersLeaveTheEngine(n, a, m);
      }
      EvaluationsEnd(m, actions[1..], n');
    }
  }

  lemma StepIsThink(n: Net, c: Choice)
    requires Shape(n)
    ensures Step(n, Think(c)) == ThinkStep(n, c)
  {
  }

  lemma RestingIsOneStep()
    ensures EngineSteps(Resting) == 1
  {
  }

  // ---------- no run is stuck ----------

  /** Decides for the engine, from the number of steps so far and the network. */
  type Resolver = (nat, Net) -> Choice

  /** In an evaluation it always gives an answer the engine can act on. */
  ghost predicate Resolves(resolver: Resolver) {
    forall k: nat, n: Net | Shape(n) && HasSource(n.pc) :: ThinkStep(n, resolver(k, n)).Some?
  }

  /** The decisions of this run, from step `k` on, are those of the resolver; between evaluations it stops. */
  ghost predicate Obeys(n: Net, actions: seq<Action>, resolver: Resolver, k: nat)
    requires Shape(n)
    decreases |actions|
  {
    actions == []
    || (var a := actions[0];
        && (a.Think? ==> a.choice == if HasSource(n.pc) then resolver(k, n) else Stop)
        && match Step(n, a)
           case None => false
           case Some(n') => Obeys(n', actions[1..], resolver, k + 1))
  }

  lemma EngineMoves(n: Net, resolver: Resolver, k: nat) returns (c: Choice)
    requires Phases(n) && n.control == StoppingMonitor && n.pc != Stopped && Resolves(resolver)
    ensures ThinkStep(n, c).Some? && c == if HasSource(n.pc) then resolver(k, n) else Stop
    ensures Fuel(n, Think(c)) == 0
  {
    c := if HasSource(n.pc) then resolver(k, n) else Stop;
  }

  /** Short of the report some step is enabled that uses up a step, with the engine's decisions made elsewhere. */
  lemma Onwards(n: Net, resolver: Resolver, k: nat) returns (a: Action, n': Net)
    requires Phases(n) && n.control != Reported && Resolves(resolver)
    ensures Step(n, a) == Some(n') && Phases(n') && Fuel(n, a) == 0
    ensures a.Think? ==> a.choice == if HasSource(n.pc) then resolver(k, n) else Stop
  {
    hide ThinkStep, Resolves;
    if n.control == Dispatching && exists i :: 0 <= i < |n.crews| && !Dispatched(n.crews[i]) {
      var i :| 0 <= i < |n.crews| && !Dispatched(n.crews[i]);
      a := Dispatch(i);
    } else if n.control.Joining? && !AllGone(n.crews[n.control.next].workers) {
      var j :| 0 <= j < |n.crews[n.control.next].workers| && n.crews[n.control.next].workers[j] != Gone;
      a := Work(n.control.next, j);
    } else if n.control == StoppingMonitor && n.pc != Stopped {
      var c := EngineMoves(n, resolver, k);
      a := Think(c);
    } else {
      a := Steer;
    }
    n' := Step(n, a).value;
    StepKeepsPhases(n, a, n');
  }

  /** From every state of the stop sequence, whoever decides for the engine, the report can be reached. */
  lemma {:induction false} CanFinish(n: Net, resolver: Resolver, k: nat) returns (actions: seq<Action>, n': Net)
    requires Phases(n) && Resolves(resolver)
    ensures Run(n, actions) == Some(n') && n'.control == Reported
    ensures Obeys(n, actions, resolver, k) && |actions| <= StepsLeft(n)
    decreases StepsLeft(n)
  {
    StepsLeftNotNegative(n);
    hide Step, StepsLeft, Fuel, Resolves;
    if n.control == Reported {
      actions, n' := [], n;
    } else {
      var a, m := Onwards(n, resolver, k);
      StepUsesAStep(n, a, m);
      StepsLeftNotNegative(m);
      var rest;
      rest, n' := CanFinish(m, resolver, k + 1);
      actions := [a] + rest;
      assert actions[1..] == rest;
    }
  }

  /**
   * No run is ever stuck: whatever has happened so far, and for all decisions the engine
   * may still come to, the run can go on to the report.
   */
  lemma EveryRunCanFinish(n: Net, actions: seq<Action>, n': Net, resolver: Resolver)
    returns (more: seq<Action>, n'': Net)
    requires Initial(n) && Run(n, actions) == Some(n') && Resolves(resolver)
    ensures Run(n', more) == Some(n'') && n''.control == Reported
    ensures Obeys(n', more, resolver, |actions|) && |more| <= StepsLeft(n')
  {
    hide Run, Resolves;
    assert Phases(n);
    RunKeepsPhases(n, actions, n');
    more, n'' := CanFinish(n', resolver, |actions|);
  }

  // ---------- the engine's own answers ----------

  /** How a reservation call ends: with the script's answer, or with an error before or after the script ran. */
  datatype Call = Answers | FailsBefore | FailsAfter

  /** What decides an evaluation besides the network: distances, the active cart, the end of the reservation call. */
  datatype Outside = Outside(dist: Distance, cart: Option<string>, call: Call)

  /** The answer the engine computes from what it reads at this very step. */
  ghost function OwnAnswer(n: Net, out: Outside): Choice
    requires Shape(n) && HasSource(n.pc)
  {
    var e, s := n.engine, n.world.stores[n.pc.src];
    match n.pc
    case Judging(src, t) =>
      if s.CurrentLoad().AtMost(TRIGGER_PCT) then Decline
      else if e.mode == FullOrchestration && out.cart.Some? && MergeCount(s.queue, out.cart.value) > 1 then
        Merge(out.cart.value)
      else if e.mode == FullOrchestration && InWindow(Last(e.lastNudge, s.id), t) then Decline
      else Go
    case Cleared(src, t) => if InWindow(Last(e.lastReRoute, s.id), t) then Decline else Go
    case Searching(src, t) =>
      (match Target(n.world, out.dist, src)
       case None => Decline
       case Some(k) => Aim(k))
    case Aimed(src, t, k) =>
      var quote := QuoteFor(e.cost, DistTo(n.world.stores, out.dist, src, k), |s.queue|);
      if e.mode != Naive && !GateOpen(e.cost, quote.distKm, quote.delayMin) then Reject else Go
    case Extracted(_, _, _, _) =>
      (match out.call case Answers => Go case FailsBefore => Fail case FailsAfter => FailLate)
    case _ => Go
  }

  lemma OwnAnswersWork(n: Net, out: Outside)
    requires Shape(n) && HasSource(n.pc)
    ensures ThinkStep(n, OwnAnswer(n, out)).Some?
  {
    hide Extract, Consolidated, Absorbed, Nearest, GateOpen, QuoteFor;
    if n.pc.Searching? {
      NearestIsBest(n.world.stores, out.dist, n.pc.src, |n.world.stores|);
    }
  }

  /** With its own answers, and for every behaviour of what is outside, the engine never keeps a run from its report. */
  lemma EveryRunCanFinishOnItsOwn(n: Net, actions: seq<Action>, n': Net, outside: nat -> Outside)
    returns (more: seq<Action>, n'': Net)
    requires Initial(n) && Run(n, actions) == Some(n')
    ensures Run(n', more) == Some(n'') && n''.control == Reported
    ensures Obeys(n', more, OwnResolver(outside), |actions|)
  {
    hide Run, OwnAnswer, Obeys, ThinkStep;
    var resolver := OwnResolver(outside);
    forall k: nat, m: Net | Shape(m) && HasSource(m.pc) ensures ThinkStep(m, resolver(k, m)).Some? {
      OwnAnswersWork(m, outside(k));
    }
    more, n'' := EveryRunCanFinish(n, actions, n', resolver);
  }

  ghost function OwnResolver(outside: nat -> Outside): Resolver {
    (k: nat, n: Net) => if Shape(n) && HasSource(n.pc) then OwnAnswer(n, outside(k)) else Stop
  }
}
