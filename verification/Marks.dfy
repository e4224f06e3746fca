/**
 * What an order's status says about where it is, and which orders the engine may move,
 * in every interleaving.
 */
module Marks {
  import opened Options
  import opened Orders
  import opened Reservation
  import opened Stores
  import opened Policy
  import opened Protocol
  import opened Ledger

  /** A consolidated order stands for at least two. */
  predicate Counted(o: Order) {
    o.consolidated ==> o.count >= 2
  }

  ghost predicate QueueMarked(q: seq<Order>) {
    forall o | o in q :: o.status != Unset && Counted(o)
  }

  predicate WorkerMarked(w: Worker) {
    match w
    case Holding(o) => o.status != Unset && Counted(o)
    case Serving(o) => o.status == Picking && Counted(o)
    case Finishing(o) => o.status == Completed && Counted(o)
    case _ => true
  }

  ghost predicate CrewMarked(c: Crew) {
    && (forall j | 0 <= j < |c.workers| :: WorkerMarked(c.workers[j]))
    && (forall o | o in c.done :: o.status == Completed && Counted(o))
    && (forall o | o in c.plan :: !o.consolidated)
  }

  /**
   * Queued orders have a status, orders being served are marked as picking, completed
   * ones as completed, the engine holds no perishable order, and a consolidated order,
   * wherever it is, stands for at least two.
   */
  ghost predicate Marked(n: Net) {
    && Shape(n)
    && (forall i | 0 <= i < |n.crews| :: QueueMarked(n.world.stores[i].queue) && CrewMarked(n.crews[i]))
    && (forall o | o in EngineHand(n.pc) :: o.status != Unset && !o.perishable && Counted(o))
  }

  lemma PushKeepsMarks(q: seq<Order>, o: Order)
    requires QueueMarked(q) && Counted(o)
    ensures QueueMarked(q + [Pushed(o)])
  {
  }

  lemma PickerKeepsMarks(s: StoreState, c: Crew, j: nat)
    requires j < |c.workers| && QueueMarked(s.queue) && CrewMarked(c)
    ensures match PickerTurn(s, c, j)
            case None => true
            case Some((s', c')) => QueueMarked(s'.queue) && CrewMarked(c')
  {
    assert WorkerMarked(c.workers[j]);
  }

  lemma CrewsKeepMarks(n: Net, a: Action, n': Net)
    requires Marked(n) && Step(n, a) == Some(n') && !a.Think?
    ensures Marked(n')
  {
    hide PickerTurn, CrewMarked, QueueMarked;
    match a
    case Dispatch(i) =>
      var s, c := n.world.stores[i], n.crews[i];
      if c.plan != [] {
        PlanIsCounted(c);
        PushKeepsMarks(s.queue, c.plan[0]);
      }
      SameHands(c, n'.crews[i]);
    case Work(i, j) =>
      PickerKeepsMarks(n.world.stores[i], n.crews[i], j);
    case Steer =>
      if n.control.Draining? && n.control.next < |n.crews| {
        SameHands(n.crews[n.control.next], n'.crews[n.control.next]);
      }
  }

  lemma PlanIsCounted(c: Crew)
    requires CrewMarked(c) && c.plan != []
    ensures Counted(c.plan[0])
  {
    assert c.plan[0] in c.plan;
  }

  lemma SameHands(c: Crew, c': Crew)
    requires c'.workers == c.workers && c'.done == c.done && forall o | o in c'.plan :: o in c.plan
    ensures CrewMarked(c) ==> CrewMarked(c')
  {
  }

  /** A merge leaves orders that had a status, the primary with its count. */
  lemma MergeKeepsMarks(q: seq<Order>, cart: string)
    requires QueueMarked(q)
    ensures QueueMarked(Consolidated(q, cart))
  {
    SubsetOfQueue(q, cart);
  }

  lemma {:induction false} SubsetOfQueue(q: seq<Order>, cart: string)
    ensures forall o | o in Matching(q, cart) || o in Others(q, cart) :: o in q
  {
    if q != [] {
      SubsetOfQueue(q[1..], cart);
      assert q == [q[0]] + q[1..];
    }
  }

  lemma ExtractionKeepsMarks(q: seq<Order>)
    requires QueueMarked(q)
    ensures QueueMarked(Extract(q, 1).1)
    ensures Extract(q, 1).0 != [] ==>
              var o := Extract(q, 1).0[0];
              o.status != Unset && !o.perishable && Counted(o)
  {
    var pre, post := ExtractOne(q);
    if Extract(q, 1).0 != [] {
      assert Extract(q, 1).0[0] in q;
      assert forall o | o in pre + post :: o in q;
    }
  }

  /** An engine step that changes the queue of at most one store. */
  ghost predicate OneQueue(n: Net, n': Net, i: nat) {
    && |n'.crews| == |n.crews| == |n'.world.stores| == |n.world.stores| && i < |n.crews|
    && (forall j | 0 <= j < |n.crews| ::
          var c, c' := n.crews[j], n'.crews[j];
          c'.workers == c.workers && c'.done == c.done && c'.plan == c.plan)
    && (forall j | 0 <= j < |n.crews| && j != i :: n'.world.stores[j].queue == n.world.stores[j].queue)
  }

  lemma OneQueueKeepsMarks(n: Net, n': Net, i: nat)
    requires Marked(n) && Shape(n') && OneQueue(n, n', i) && QueueMarked(n'.world.stores[i].queue)
    requires forall o | o in EngineHand(n'.pc) :: o.status != Unset && !o.perishable && Counted(o)
    ensures Marked(n')
  {
    hide CrewMarked, QueueMarked;
    forall j | 0 <= j < |n.crews| ensures QueueMarked(n'.world.stores[j].queue) && CrewMarked(n'.crews[j]) {
      SameHands(n.crews[j], n'.crews[j]);
    }
  }

  lemma MergingKeepsMarks(n: Net, cart: string)
    requires Marked(n) && n.pc.Judging?
    ensures Marked(MergeStep(n, cart))
  {
    hide Consolidated, MergeCount, Absorbed, CrewMarked, QueueMarked, Counted;
    MergeKeepsMarks(n.world.stores[n.pc.src].queue, cart);
    OneQueueKeepsMarks(n, MergeStep(n, cart), n.pc.src);
  }

  lemma JudgingKeepsMarks(n: Net, c: Choice, n': Net)
    requires Marked(n) && Judges(n.pc) && JudgeStep(n, c) == Some(n')
    ensures Marked(n')
  {
    hide MergeStep, MergeCount, InWindow, Last, CrewMarked, QueueMarked, Counted;
    if n.pc.Judging? && c.Merge? {
      MergingKeepsMarks(n, c.cart);
    }
  }

  lemma ExtractingKeepsMarks(n: Net)
    requires Marked(n) && n.pc.Aimed?
    ensures Marked(ExtractionStep(n))
  {
    hide Extract, CrewMarked, QueueMarked, Counted;
    ExtractionKeepsMarks(n.world.stores[n.pc.src].queue);
    OneQueueKeepsMarks(n, ExtractionStep(n), n.pc.src);
  }

  lemma ReservingKeepsMarks(n: Net, c: Choice)
    requires Marked(n) && n.pc.Extracted?
    ensures Marked(ReservationStep(n, c))
  {
    hide Reserve, CrewMarked, QueueMarked, Counted;
  }

  lemma SelectingKeepsMarks(n: Net, c: Choice, n': Net)
    requires Marked(n) && Selects(n.pc) && SelectStep(n, c) == Some(n')
    ensures Marked(n')
  {
    hide ExtractionStep, ReservationStep, InWindow, Last, CrewMarked, QueueMarked, Pushed, Counted;
    if n.pc.Aimed? && c == Go {
      ExtractingKeepsMarks(n);
    } else if n.pc.Extracted? {
      ReservingKeepsMarks(n, c);
    } else if n.pc.Refusing? {
      PushKeepsMarks(n.world.stores[n.pc.src].queue, n.pc.o);
      OneQueueKeepsMarks(n, n', n.pc.src);
    }
  }

  lemma TransferKeepsMarks(n: Net, c: Choice, n': Net)
    requires Marked(n) && !Judges(n.pc) && !Selects(n.pc) && TransferStep(n, c) == Some(n')
    ensures Marked(n')
  {
    hide CrewMarked, QueueMarked, Pushed, Counted;
    if n.pc.JoinCounted? {
      PushKeepsMarks(n.world.stores[n.pc.k].queue, n.pc.o);
    }
    OneQueueKeepsMarks(n, n', n.pc.k);
  }

  lemma StepKeepsMarks(n: Net, a: Action, n': Net)
    requires Marked(n) && Step(n, a) == Some(n')
    ensures Marked(n')
  {
    assert Shape(n);
    hide Marked, JudgeStep, SelectStep, TransferStep, DispatchStep, WorkStep, SteerStep;
    if !a.Think? {
      CrewsKeepMarks(n, a, n');
    } else if Judges(n.pc) {
      JudgingKeepsMarks(n, a.choice, n');
    } else if Selects(n.pc) {
      SelectingKeepsMarks(n, a.choice, n');
    } else {
      TransferKeepsMarks(n, a.choice, n');
    }
  }

  lemma {:induction false} RunKeepsMarks(n: Net, actions: seq<Action>, n': Net)
    requires Marked(n) && Run(n, actions) == Some(n')
    ensures Marked(n')
    decreases |actions|
  {
    assert Shape(n);
    hide Marked, Step;
    if actions != [] {
      var m := Step(n, actions[0]).value;
      StepKeepsMarks(n, actions[0], m);
      RunKeepsMarks(m, actions[1..], n');
    }
  }

  /**
   * In every interleaving the marks tell where an order is, and no order that is
   * perishable itself ever leaves its store's line in the engine's hand.
   */
  lemma MarksTellTheTruth(n: Net, actions: seq<Action>, n': Net)
    requires Initial(n) && Run(n, actions) == Some(n')
    ensures Marked(n')
  {
    hide Run;
    forall i | 0 <= i < |n.crews| ensures QueueMarked(n.world.stores[i].queue) && CrewMarked(n.crews[i]) {
      assert FreshStore(n.world.stores[i]) && FreshCrew(n.crews[i], n.world.stores[i].pickers);
    }
    RunKeepsMarks(n, actions, n');
  }
}
