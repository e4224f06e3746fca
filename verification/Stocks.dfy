/** Stock over every interleaving: what was reserved is what was moved, and no store is oversold. */
module Stocks {
  import opened Options
  import opened Orders
  import opened Reservation
  import opened Policy
  import opened Runs
  import opened Protocol
  import opened Ledger

  function StockAt(n: Net, i: nat): int
    requires i < |n.world.stores|
  {
    Stock(n.world.book, n.world.stores[i].id, GENERIC_SKU)
  }

  /** How many units of a store were taken by calls that then failed. */
  function LostAt(lost: seq<nat>, i: nat): nat {
    if lost == [] then 0 else LostAt(lost[..|lost| - 1], i) + if lost[|lost| - 1] == i then 1 else 0
  }

  /** The units of `initial` that store `i` has left, has moved orders for, has promised, and has lost. */
  ghost predicate StockBalances(n: Net, initial: seq<int>) {
    && Shape(n) && DistinctIds(n.world.stores) && n.world.book.Units?
    && |initial| == |n.crews|
    && forall i | 0 <= i < |initial| ::
         && StockAt(n, i) + n.world.stores[i].reRoutedIn + UnitPending(n.pc, i) + LostAt(n.lost, i) == initial[i]
         && (StockAt(n, i) >= 0 || StockAt(n, i) == initial[i])
         && n.world.stores[i].reRoutedIn >= 0
  }

  /** A step that leaves stock, arrivals by transfer and promised units alone. */
  ghost predicate StockUntouched(n: Net, n': Net) {
    && n'.world.book == n.world.book && n'.lost == n.lost && |n'.crews| == |n.crews|
    && (forall i: nat :: UnitPending(n'.pc, i) == UnitPending(n.pc, i))
    && |n'.world.stores| == |n.world.stores|
    && forall i | 0 <= i < |n.world.stores| ::
         n'.world.stores[i].id == n.world.stores[i].id
         && n'.world.stores[i].reRoutedIn == n.world.stores[i].reRoutedIn
  }

  lemma CrewsLeaveStock(n: Net, a: Action, n': Net)
    requires Shape(n) && Step(n, a) == Some(n') && !a.Think?
    ensures StockUntouched(n, n')
  {
    match a
    case Dispatch(i) =>
    case Work(i, j) =>
    case Steer =>
  }

  lemma JudgingLeavesStock(n: Net, c: Choice, n': Net)
    requires Shape(n) && Judges(n.pc) && JudgeStep(n, c) == Some(n')
    ensures StockUntouched(n, n')
  {
    hide Consolidated, MergeCount, Absorbed, InWindow, Last;
  }

  lemma SelectingLeavesStock(n: Net, c: Choice, n': Net)
    requires Shape(n) && Selects(n.pc) && SelectStep(n, c) == Some(n') && !n.pc.Extracted?
    ensures StockUntouched(n, n')
  {
    hide Extract, InWindow, Last;
  }

  lemma TransferLeavesStock(n: Net, c: Choice, n': Net)
    requires Shape(n) && !Judges(n.pc) && !Selects(n.pc) && TransferStep(n, c) == Some(n') && !n.pc.LeftCounted?
    ensures StockUntouched(n, n')
  {
  }

  lemma UntouchedKeepsBalances(n: Net, n': Net, initial: seq<int>)
    requires StockBalances(n, initial) && StockUntouched(n, n') && Shape(n')
    ensures StockBalances(n', initial)
  {
    forall i | 0 <= i < |initial|
      ensures StockAt(n', i) == StockAt(n, i) && n'.world.stores[i].reRoutedIn == n.world.stores[i].reRoutedIn
    {
    }
  }

  /** The call turns one unit of stock into one promised or one lost unit, at the target alone, or changes nothing. */
  lemma ReservingKeepsBalances(n: Net, c: Choice, initial: seq<int>)
    requires StockBalances(n, initial) && n.pc.Extracted?
    ensures StockBalances(ReservationStep(n, c), initial)
  {
    var n' := ReservationStep(n, c);
    var k := n.pc.k;
    forall i | 0 <= i < |initial|
      ensures StockAt(n', i) + UnitPending(n'.pc, i) + LostAt(n'.lost, i)
              == StockAt(n, i) + UnitPending(n.pc, i) + LostAt(n.lost, i)
      ensures StockAt(n', i) >= 0 || StockAt(n', i) == initial[i]
    {
      ReserveIsExact(n.world.book, n.world.stores[k].id, GENERIC_SKU, 1, (n.world.stores[i].id, GENERIC_SKU));
      assert i != k ==> n.world.stores[i].id != n.world.stores[k].id;
      assert (n.lost + [k])[..|n.lost|] == n.lost;
    }
  }

  /** Counting the arrival turns the promised unit into a moved order. */
  lemma JoiningKeepsBalances(n: Net, c: Choice, n': Net, initial: seq<int>)
    requires StockBalances(n, initial) && n.pc.LeftCounted? && TransferStep(n, c) == Some(n')
    ensures StockBalances(n', initial)
  {
    forall i | 0 <= i < |initial| ensures StockAt(n', i) == StockAt(n, i) {
    }
  }

  lemma StepKeepsBalances(n: Net, a: Action, n': Net, initial: seq<int>)
    requires StockBalances(n, initial) && Step(n, a) == Some(n')
    ensures StockBalances(n', initial)
  {
    hide StockBalances, StockUntouched, JudgeStep, SelectStep, TransferStep, DispatchStep, WorkStep, SteerStep;
    assert Shape(n) by { BalancesHaveShape(n, initial); }
    if a.Think? && Judges(n.pc) {
      JudgingLeavesStock(n, a.choice, n');
      UntouchedKeepsBalances(n, n', initial);
    } else if a.Think? && n.pc.Extracted? {
      ReservingIsTheStep(n, a.choice);
      ReservingKeepsBalances(n, a.choice, initial);
    } else if a.Think? && Selects(n.pc) {
      SelectingLeavesStock(n, a.choice, n');
      UntouchedKeepsBalances(n, n', initial);
    } else if a.Think? && n.pc.LeftCounted? {
      JoiningKeepsBalances(n, a.choice, n', initial);
    } else if a.Think? {
      TransferLeavesStock(n, a.choice, n');
      UntouchedKeepsBalances(n, n', initial);
    } else {
      CrewsLeaveStock(n, a, n');
      UntouchedKeepsBalances(n, n', initial);
    }
  }

  lemma ReservingIsTheStep(n: Net, c: Choice)
    requires Shape(n) && n.pc.Extracted?
    ensures ThinkStep(n, c) == Some(ReservationStep(n, c))
  {
    hide Reserve;
  }

  lemma BalancesHaveShape(n: Net, initial: seq<int>)
    requires StockBalances(n, initial)
    ensures Shape(n)
  {
  }

  lemma {:induction false} RunKeepsBalances(n: Net, actions: seq<Action>, n': Net, initial: seq<int>)
    requires StockBalances(n, initial) && Run(n, actions) == Some(n')
    ensures StockBalances(n', initial)
    decreases |actions|
  {
    BalancesHaveShape(n, initial);
    hide Step, StockBalances;
    if actions != [] {
      var m := Step(n, actions[0]).value;
      StepKeepsBalances(n, actions[0], m, initial);
      RunKeepsBalances(m, actions[1..], n', initial);
    }
  }

  /**
   * With a stock table and distinct store ids, in every interleaving: the units a store
   * has left, those reserved from it, and those taken by calls that then failed are what it
   * started with; stock never falls below zero; and no more re-routes arrive than there
   * were units.
   */
  lemma StockIsConserved(n: Net, actions: seq<Action>, n': Net, i: nat)
    requires Initial(n) && n.world.book.Units? && DistinctIds(n.world.stores) && Run(n, actions) == Some(n')
    requires i < |n.crews|
    ensures |n'.crews| == |n.crews|
    ensures StockAt(n', i) + n'.world.stores[i].reRoutedIn + UnitPending(n'.pc, i) + LostAt(n'.lost, i) == StockAt(n, i)
    ensures StockAt(n, i) >= 0 ==> StockAt(n', i) >= 0 && n'.world.stores[i].reRoutedIn <= StockAt(n, i)
    ensures StockAt(n, i) <= 0 ==> n'.world.stores[i].reRoutedIn == 0
  {
    hide Run;
    var initial := seq(|n.crews|, j requires 0 <= j < |n.crews| => StockAt(n, j));
    forall j | 0 <= j < |n.crews| ensures n.world.stores[j].reRoutedIn == 0 {
      assert FreshStore(n.world.stores[j]);
    }
    RunKeepsBalances(n, actions, n', initial);
    assert initial[i] == StockAt(n, i);
  }
}
