/**
 * Who stands for whom: every consolidated order, wherever it is, counts exactly the
 * orders that were absorbed into it.
 */
module Primaries {
  import opened Options
  import opened Orders
  import opened Stores
  import opened Policy
  import opened Protocol
  import opened Ledger
  import opened Marks

  /** What the orders with this id in `q` stand for beyond themselves. */
  function ExcessFor(q: seq<Order>, id: string): int {
    if q == [] then 0 else (if q[0].id == id then ExcessOf(q[0]) else 0) + ExcessFor(q[1..], id)
  }

  /** How often an id is named. */
  function Named(ids: seq<string>, id: string): nat {
    if ids == [] then 0 else Named(ids[..|ids| - 1], id) + if ids[|ids| - 1] == id then 1 else 0
  }

  /** How many orders of a store were absorbed into the order with this id. */
  function IntoOf(id: string): (StoreState, Crew) -> int {
    (s: StoreState, c: Crew) => Named(c.primaries, id)
  }

  /** What an id stands for at a store beyond what was absorbed into it there. */
  function Gap(s: StoreState, c: Crew, id: string): int {
    ExcessFor(s.queue, id) + ExcessFor(Hands(c.workers), id) + ExcessFor(c.done, id) - Named(c.primaries, id)
  }

  function GapOf(id: string): (StoreState, Crew) -> int {
    (s: StoreState, c: Crew) => Gap(s, c, id)
  }

  /** Over the whole network, the engine's hand included, what an id stands for was absorbed into it. */
  ghost predicate Traced(n: Net, id: string) {
    && Shape(n)
    && Across(GapOf(id), n) + ExcessFor(EngineHand(n.pc), id) == 0
    && forall i | 0 <= i < |n.crews| :: |n.crews[i].primaries| == |n.crews[i].absorbed|
  }

  // ---------- excess by id, along the line ----------

  lemma {:induction false} ExcessForConcat(a: seq<Order>, b: seq<Order>, id: string)
    ensures ExcessFor(a + b, id) == ExcessFor(a, id) + ExcessFor(b, id)
  {
    if a == [] {
      assert a + b == b;
    } else {
      ExcessForConcat(a[1..], b, id);
      assert (a + b)[1..] == a[1..] + b;
    }
  }

  lemma {:induction false} NamedConcat(a: seq<string>, b: seq<string>, id: string)
    ensures Named(a + b, id) == Named(a, id) + Named(b, id)
  {
    if b == [] {
      assert a + b == a;
    } else {
      NamedConcat(a, b[..|b| - 1], id);
      assert (a + b)[..|a + b| - 1] == a + b[..|b| - 1];
    }
  }

  lemma {:induction false} NamedOver(ids: seq<string>, one: string, id: string)
    requires forall i | 0 <= i < |ids| :: ids[i] == one
    ensures Named(ids, id) == if one == id then |ids| else 0
  {
    if ids != [] {
      NamedOver(ids[..|ids| - 1], one, id);
    }
  }

  lemma ExcessForOne(o: Order, id: string)
    ensures ExcessFor([o], id) == if o.id == id then ExcessOf(o) else 0
  {
  }

  lemma ExcessForHead(q: seq<Order>, id: string)
    requires q != []
    ensures ExcessFor(q, id) == ExcessFor([q[0]], id) + ExcessFor(q[1..], id)
  {
  }

  lemma ExcessForNone(id: string)
    ensures ExcessFor([], id) == 0
  {
  }

  lemma {:induction false} HandChanges(ws: seq<Worker>, j: nat, w: Worker, id: string)
    requires j < |ws|
    ensures ExcessFor(Hands(ws[j := w]), id)
            == ExcessFor(Hands(ws), id) - ExcessFor(Hand(ws[j]), id) + ExcessFor(Hand(w), id)
  {
    hide ExcessFor, Hand;
    var n := |ws| - 1;
    var ws' := ws[j := w];
    ExcessForConcat(Hands(ws[..n]), Hand(ws[n]), id);
    ExcessForConcat(Hands(ws'[..n]), Hand(ws'[n]), id);
    if j < n {
      assert ws'[..n] == ws[..n][j := w];
      HandChanges(ws[..n], j, w, id);
    } else {
      assert ws'[..n] == ws[..n];
    }
  }

  lemma {:induction false} ExtractionSplits(q: seq<Order>, k: nat, id: string)
    ensures ExcessFor(q, id) == ExcessFor(Extract(q, k).0, id) + ExcessFor(Extract(q, k).1, id)
  {
    if q != [] {
      var k' := if !q[0].perishable && k > 0 then k - 1 else k;
      var (taken, left) := Extract(q[1..], k');
      ExtractionSplits(q[1..], k', id);
      assert ([q[0]] + taken)[1..] == taken && ([q[0]] + left)[1..] == left;
    }
  }

  lemma {:induction false} MatchesStandForThemselves(q: seq<Order>, cart: string, id: string)
    ensures ExcessFor(Others(q, cart), id) == ExcessFor(q, id)
  {
    if q != [] {
      MatchesStandForThemselves(q[1..], cart, id);
    }
  }

  /** One merge: the primary stands for exactly the orders whose record now names it. */
  lemma MergeIsTraced(q: seq<Order>, cart: string, id: string)
    ensures ExcessFor(Consolidated(q, cart), id) == ExcessFor(q, id) + Named(PrimariesOf(q, cart), id)
  {
    if MergeCount(q, cart) != 0 {
      var m := Matching(q, cart);
      MatchesStandForThemselves(q, cart, id);
      NamedOver(PrimariesOf(q, cart), m[0].id, id);
      assert Consolidated(q, cart)[1..] == Others(q, cart);
    }
  }

  // ---------- one store changes ----------

  /** A change of one store, its crew and the engine's hand that moves what an id stands for along. */
  lemma GapMoves(n: Net, n': Net, i: nat, id: string)
    requires Traced(n, id) && Shape(n') && i < |n.crews| == |n'.crews|
    requires Shifted(n, n', i, n'.world.stores[i], n'.crews[i])
    requires |n'.crews[i].primaries| == |n'.crews[i].absorbed|
    requires Gap(n'.world.stores[i], n'.crews[i], id) + ExcessFor(EngineHand(n'.pc), id)
             == Gap(n.world.stores[i], n.crews[i], id) + ExcessFor(EngineHand(n.pc), id)
    ensures Traced(n', id)
  {
    hide Gap, ExcessFor, Sum, EngineHand;
    SumUpdate(GapOf(id), n.world.stores, n.crews, i, n'.world.stores[i], n'.crews[i]);
  }

  /** A change of neither stores nor crews nor the engine's hand. */
  lemma GapStays(n: Net, n': Net, id: string)
    requires Traced(n, id) && Shape(n') && n'.world.stores == n.world.stores && n'.crews == n.crews
    requires EngineHand(n'.pc) == EngineHand(n.pc)
    ensures Traced(n', id)
  {
    hide ExcessFor, Sum, EngineHand;
  }

  lemma PassingKeepsGap(s: StoreState, s': StoreState, c: Crew, c': Crew, j: nat, id: string)
    requires Passes(s, s', c, c', j) && c'.primaries == c.primaries
    ensures Gap(s', c', id) == Gap(s, c, id)
  {
    hide ExcessFor, Hands, Hand, ExcessOf;
    var w, w' := Hand(c.workers[j]), Hand(c'.workers[j]);
    HandChanges(c.workers, j, c'.workers[j], id);
    ExcessForConcat(c.done, w, id);
    if |w| == 1 {
      assert w == [w[0]];
      ExcessForOne(w[0], id);
    }
    if |w'| == 1 {
      assert w' == [w'[0]];
      ExcessForOne(w'[0], id);
    }
    if s.queue != [] {
      ExcessForHead(s.queue, id);
    }
    ExcessForNone(id);
  }

  lemma PickersKeepPrimaries(s: StoreState, c: Crew, j: nat)
    requires j < |c.workers| && PickerTurn(s, c, j).Some?
    ensures PickerTurn(s, c, j).value.1.primaries == c.primaries
    ensures PickerTurn(s, c, j).value.1.absorbed == c.absorbed
  {
  }

  lemma WorkIsTraced(n: Net, i: nat, j: nat, n': Net, id: string)
    requires Traced(n, id) && WorkStep(n, i, j) == Some(n')
    ensures Traced(n', id)
  {
    hide PickerTurn, Passes, Gap;
    var s, c, s', c' := n.world.stores[i], n.crews[i], n'.world.stores[i], n'.crews[i];
    WorkPasses(s, c, j, s', c');
    PickersKeepPrimaries(s, c, j);
    PassingKeepsGap(s, s', c, c', j, id);
    GapMoves(n, n', i, id);
  }

  lemma DispatchIsTraced(n: Net, i: nat, n': Net, id: string)
    requires Traced(n, id) && Marked(n) && DispatchStep(n, i) == Some(n')
    ensures Traced(n', id)
  {
    hide ExcessFor, Hands;
    var s, c := n.world.stores[i], n.crews[i];
    if c.dispatcher == Between {
      var o := c.plan[0];
      assert CrewMarked(c) && o in c.plan;
      ExcessForConcat(s.queue, [Pushed(o)], id);
      ExcessForOne(Pushed(o), id);
    }
    GapMoves(n, n', i, id);
  }

  lemma SteerIsTraced(n: Net, n': Net, id: string)
    requires Traced(n, id) && SteerStep(n) == Some(n')
    ensures Traced(n', id)
  {
    hide ExcessFor, Hands;
    if n.control.Draining? && n.control.next < |n.crews| {
      GapMoves(n, n', n.control.next, id);
    } else {
      GapStays(n, n', id);
    }
  }

  // ---------- the engine's steps ----------

  lemma JudgingIsTraced(n: Net, c: Choice, n': Net, id: string)
    requires Traced(n, id) && Judges(n.pc) && JudgeStep(n, c) == Some(n')
    ensures Traced(n', id)
  {
    hide Consolidated, MergeCount, Absorbed, PrimariesOf, InWindow, Last, Hands, ExcessFor, Named, Across;
    if n.pc.Judging? && c.Merge? {
      var s := n.world.stores[n.pc.src];
      MergeIsTraced(s.queue, c.cart, id);
      NamedConcat(n.crews[n.pc.src].primaries, PrimariesOf(s.queue, c.cart), id);
      GapMoves(n, n', n.pc.src, id);
    } else {
      GapStays(n, n', id);
    }
  }

  lemma ExtractingIsTraced(n: Net, c: Choice, n': Net, id: string)
    requires Traced(n, id) && n.pc.Aimed? && SelectStep(n, c) == Some(n') && n'.pc.Extracted?
    ensures Traced(n', id)
  {
    hide Extract, Hands, ExcessFor, Named, Across;
    var q := n.world.stores[n.pc.src].queue;
    ExtractionSplits(q, 1, id);
    var pre, post := ExtractOne(q);
    assert Extract(q, 1).0 == [n'.pc.o];
    ExcessForNone(id);
    GapMoves(n, n', n.pc.src, id);
  }

  lemma PuttingBackIsTraced(n: Net, c: Choice, n': Net, id: string)
    requires Traced(n, id) && n.pc.Refusing? && SelectStep(n, c) == Some(n')
    ensures Traced(n', id)
  {
    hide Hands, ExcessFor, Named, Across;
    PushingTraces(n.world.stores[n.pc.src].queue, n.pc.o, id);
    GapMoves(n, n', n.pc.src, id);
  }

  lemma PushingTraces(q: seq<Order>, o: Order, id: string)
    ensures ExcessFor(q + [Pushed(o)], id) == ExcessFor(q, id) + ExcessFor([o], id)
    ensures ExcessFor([], id) == 0
  {
    ExcessForConcat(q, [Pushed(o)], id);
    ExcessForOne(o, id);
    ExcessForOne(Pushed(o), id);
  }

  lemma SelectingIsTraced(n: Net, c: Choice, n': Net, id: string)
    requires Traced(n, id) && Selects(n.pc) && SelectStep(n, c) == Some(n')
    ensures Traced(n', id)
  {
    hide Extract, InWindow, Last, Hands, ExcessFor, Named, Across;
    if n.pc.Refusing? {
      PuttingBackIsTraced(n, c, n', id);
    } else if n'.pc.Extracted? {
      ExtractingIsTraced(n, c, n', id);
    } else {
      GapStays(n, n', id);
    }
  }

  lemma TransferIsTraced(n: Net, c: Choice, n': Net, id: string)
    requires Traced(n, id) && !Judges(n.pc) && !Selects(n.pc) && TransferStep(n, c) == Some(n')
    ensures Traced(n', id)
  {
    hide Hands, ExcessFor, Named, Across;
    if n.pc.JoinCounted? {
      PushingTraces(n.world.stores[n.pc.k].queue, n.pc.o, id);
      GapMoves(n, n', n.pc.k, id);
    } else if n.pc.LeftCounted? {
      GapMoves(n, n', n.pc.k, id);
    } else if n.pc.Noted? || n.pc.Stamped? {
      GapMoves(n, n', n.pc.src, id);
    } else {
      GapStays(n, n', id);
    }
  }

  lemma StepIsTraced(n: Net, a: Action, n': Net, id: string)
    requires Traced(n, id) && Marked(n) && Step(n, a) == Some(n')
    ensures Traced(n', id)
  {
    assert Shape(n);
    hide Traced, Marked, JudgeStep, SelectStep, TransferStep, DispatchStep, WorkStep, SteerStep;
    match a
    case Dispatch(i) => DispatchIsTraced(n, i, n', id);
    case Work(i, j) => WorkIsTraced(n, i, j, n', id);
    case Steer => SteerIsTraced(n, n', id);
    case Think(c) =>
      if Judges(n.pc) {
        JudgingIsTraced(n, c, n', id);
      } else if Selects(n.pc) {
        SelectingIsTraced(n, c, n', id);
      } else {
        TransferIsTraced(n, c, n', id);
      }
  }

  lemma {:induction false} RunIsTraced(n: Net, actions: seq<Action>, n': Net, id: string)
    requires Traced(n, id) && Marked(n) && Run(n, actions) == Some(n')
    ensures Traced(n', id)
    decreases |actions|
  {
    assert Shape(n);
    hide Traced, Marked, Step;
    if actions != [] {
      var m := Step(n, actions[0]).value;
      StepIsTraced(n, actions[0], m, id);
      StepKeepsMarks(n, actions[0], m);
      RunIsTraced(m, actions[1..], n', id);
    }
  }

  // ---------- main results ----------

  lemma FreshIsTraced(n: Net, id: string)
    requires Initial(n)
    ensures Traced(n, id)
  {
    hide Across;
    forall s, c | FreshStore(s) && FreshCrew(c, s.pickers) ensures GapOf(id)(s, c) == 0 {
      NobodyBusy(c.workers);
    }
    FreshSum(GapOf(id), n);
    forall i | 0 <= i < |n.crews| ensures |n.crews[i].primaries| == |n.crews[i].absorbed| {
      assert FreshCrew(n.crews[i], n.world.stores[i].pickers);
    }
  }

  /**
   * In every interleaving every absorbed order has exactly one primary, and for every id
   * the orders with that id, wherever they are, stand for exactly the orders absorbed into them.
   */
  lemma MergesAreTraced(n: Net, actions: seq<Action>, n': Net, id: string)
    requires Initial(n) && Run(n, actions) == Some(n')
    ensures Traced(n', id) && Marked(n')
  {
    hide Initial, Run, Traced, Marked;
    FreshIsTraced(n, id);
    StartIsMarked(n);
    RunIsTraced(n, actions, n', id);
    MarksTellTheTruth(n, actions, n');
  }

  lemma StartIsMarked(n: Net)
    requires Initial(n)
    ensures Marked(n)
  {
    MarksTellTheTruth(n, [], n);
  }

  // ---------- one order ----------

  ghost predicate LocatedAt(s: StoreState, c: Crew, o: Order) {
    o in s.queue || o in Hands(c.workers) || o in c.done
  }

  /** The order is in a line, in a hand or completed. */
  ghost predicate Located(n: Net, o: Order)
    requires Shape(n)
  {
    o in EngineHand(n.pc) || exists i :: 0 <= i < |n.crews| && LocatedAt(n.world.stores[i], n.crews[i], o)
  }

  lemma {:induction false} CountAndExcess(q: seq<Order>, id: string, o: Order)
    ensures o in q && o.id == id ==> Count(q, id) >= 1
    ensures Count(q, id) == 0 ==> ExcessFor(q, id) == 0
    ensures Count(q, id) == 1 && o in q && o.id == id ==> ExcessFor(q, id) == ExcessOf(o)
  {
    if q != [] {
      CountAndExcess(q[1..], id, o);
      assert q == [q[0]] + q[1..];
    }
  }

  /** The excess at a store that holds the id at most once. */
  lemma GapOfOne(s: StoreState, c: Crew, id: string, o: Order)
    requires HeldAt(s, c, id) <= 1 && o.id == id
    ensures HeldAt(s, c, id) == 0 ==> !LocatedAt(s, c, o) && Gap(s, c, id) + Named(c.primaries, id) == 0
    ensures LocatedAt(s, c, o) ==> HeldAt(s, c, id) == 1 && Gap(s, c, id) == ExcessOf(o) - Named(c.primaries, id)
    ensures Count(c.absorbed, id) == 1 ==> Gap(s, c, id) + Named(c.primaries, id) == 0
  {
    hide Count, ExcessFor, Hands, ExcessOf;
    CountAndExcess(s.queue, id, o);
    CountAndExcess(Hands(c.workers), id, o);
    CountAndExcess(c.done, id, o);
  }

  lemma {:induction false} GapsAddUp(id: string, ss: seq<StoreState>, cs: seq<Crew>, i: nat, x: int)
    requires i <= |ss| == |cs|
    requires forall k | 0 <= k < |ss| :: Gap(ss[k], cs[k], id) == (if k == i then x else 0) - Named(cs[k].primaries, id)
    ensures Sum(GapOf(id), ss, cs) == (if i < |ss| then x else 0) - Sum(IntoOf(id), ss, cs)
  {
    hide Gap, Named;
    if ss != [] {
      var last := |ss| - 1;
      var ss', cs' := ss[..last], cs[..last];
      forall k | 0 <= k < last
        ensures Gap(ss'[k], cs'[k], id) == (if k == i then x else 0) - Named(cs'[k].primaries, id)
      {
        assert ss'[k] == ss[k] && cs'[k] == cs[k];
      }
      GapsAddUp(id, ss', cs', if i < last then i else last, x);
    }
  }

  /**
   * In every interleaving: an order that arrived once and is in a line, in a hand or
   * completed stands for exactly the orders that were absorbed into it.
   */
  lemma PrimariesCountTheirOrders(n: Net, actions: seq<Action>, n': Net, o: Order)
    requires Initial(n) && Run(n, actions) == Some(n')
    requires Across(ArrivedOf(o.id), n') == 1 && Located(n', o)
    ensures o.consolidated ==> o.count - 1 == Across(IntoOf(o.id), n') >= 1
    ensures !o.consolidated ==> Across(IntoOf(o.id), n') == 0
  {
    hide Initial, Run, Sum, Gap, HeldAt, Count, ExcessFor, LocatedAt;
    var id := o.id;
    var i := ExactlyOnePlace(n, actions, n', id);
    MergesAreTraced(n, actions, n', id);
    CountAndExcess(EngineHand(n'.pc), id, o);
    forall k | 0 <= k < |n'.crews|
      ensures k != i ==> !LocatedAt(n'.world.stores[k], n'.crews[k], o)
    {
      GapOfOne(n'.world.stores[k], n'.crews[k], id, o);
    }
    assert i < |n'.crews| ==> LocatedAt(n'.world.stores[i], n'.crews[i], o);
    forall k | 0 <= k < |n'.crews|
      ensures Gap(n'.world.stores[k], n'.crews[k], id)
              == (if k == i then ExcessOf(o) else 0) - Named(n'.crews[k].primaries, id)
    {
      GapOfOne(n'.world.stores[k], n'.crews[k], id, o);
    }
    GapsAddUp(id, n'.world.stores, n'.crews, i, ExcessOf(o));
    LocatedIsCounted(n', o);
  }

  lemma LocatedIsCounted(n: Net, o: Order)
    requires Marked(n) && Located(n, o)
    ensures Orders.ExcessOf(o) == (if o.consolidated then o.count - 1 else 0)
    ensures o.consolidated ==> o.count >= 2
  {
    if o !in EngineHand(n.pc) {
      var i :| 0 <= i < |n.crews| && LocatedAt(n.world.stores[i], n.crews[i], o);
      assert CrewMarked(n.crews[i]) && QueueMarked(n.world.stores[i].queue);
      HandsAreCounted(n.crews[i].workers);
    }
  }

  lemma {:induction false} HandsAreCounted(ws: seq<Worker>)
    requires forall j | 0 <= j < |ws| :: WorkerMarked(ws[j])
    ensures forall o | o in Hands(ws) :: Counted(o)
  {
    if ws != [] {
      var last := |ws| - 1;
      HandsAreCounted(ws[..last]);
      assert WorkerMarked(ws[last]);
    }
  }

  /** An order that arrived once and was absorbed stands for nobody: nothing was ever absorbed into it. */
  lemma AbsorbedStandForNobody(n: Net, actions: seq<Action>, n': Net, i: nat, id: string)
    requires Initial(n) && Run(n, actions) == Some(n') && i < |n'.crews|
    requires Across(ArrivedOf(id), n') == 1 && Count(n'.crews[i].absorbed, id) == 1
    ensures Across(IntoOf(id), n') == 0
  {
    hide Initial, Run, Sum, Gap, Count, ExcessFor, LocatedAt, Hands;
    var here := ExactlyOnePlace(n, actions, n', id);
    MergesAreTraced(n, actions, n', id);
    var o := Order(id, "", false, false, 0, Unset);
    CountAndExcess(EngineHand(n'.pc), id, o);
    forall k | 0 <= k < |n'.crews|
      ensures Gap(n'.world.stores[k], n'.crews[k], id)
              == 0 - Named(n'.crews[k].primaries, id)
    {
      GapOfOne(n'.world.stores[k], n'.crews[k], id, o);
    }
    GapsAddUp(id, n'.world.stores, n'.crews, here, 0);
  }
}
