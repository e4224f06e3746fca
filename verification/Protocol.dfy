/**
 * The network as a concurrent program: one dispatcher and several pickers per store,
 * the monitor's decision engine, and the final stop sequence. Every atomic access to
 * shared state is its own step, and the steps interleave freely. The loads, distances
 * and quotes the engine reads are left open, so what is proved holds whatever they say.
 */
module Protocol {
  import opened Options
  import opened Orders
  import opened Reservation
  import opened Stores
  import opened Policy

  // Where a dispatcher is between pushing an order and having counted it.
  datatype Dispatcher = Between | Enqueued | Received

  // Where a picker is in its loop.
  datatype Worker =
    | AtTop
    | Polling
    | Holding(order: Order)
    | Serving(order: Order)
    | Finishing(order: Order)
    | Gone

  /**
   * What belongs to a store beyond its shared state: its order schedule, dispatcher,
   * pickers and their cancel flag; and for the record every order that arrived, was
   * completed, or was absorbed by a consolidation here, and for each absorbed order the
   * id of the one order it went into.
   */
  datatype Crew = Crew(
    plan: seq<Order>,
    dispatcher: Dispatcher,
    workers: seq<Worker>,
    cancelled: bool,
    arrived: seq<Order>,
    done: seq<Order>,
    absorbed: seq<Order>,
    primaries: seq<string>)

  // Where the engine is in an evaluation of store `src` at time `t`.
  datatype Pc =
    | Resting
    | Judging(src: nat, t: int)
    | Merged(src: nat, t: int, m: nat)
    | NudgeNoted(src: nat, t: int, m: nat)
    | NudgeCounted(src: nat, t: int, m: nat)
    | Cleared(src: nat, t: int)
    | Searching(src: nat, t: int)
    | Aimed(src: nat, t: int, k: nat)
    | Extracted(src: nat, t: int, k: nat, o: Order)
    | Refusing(src: nat, t: int, o: Order)
    | PutBack(src: nat, t: int)
    | Reserved(src: nat, t: int, k: nat, o: Order)
    | Noted(src: nat, t: int, k: nat, o: Order)
    | Stamped(src: nat, t: int, k: nat, o: Order)
    | LeftCounted(src: nat, t: int, k: nat, o: Order)
    | JoinCounted(src: nat, t: int, k: nat, o: Order)
    | HandedOver(src: nat, t: int, k: nat)
    | Stopped

  // The main program: dispatch, then stop store after store, then the monitor.
  datatype Control = Dispatching | Draining(next: nat) | Joining(next: nat) | StoppingMonitor | Reported

  datatype Entry = Entry(outcome: Outcome, src: nat, t: int)

  // The whole state; `lost` names a store for each of its units that a failed call took.
  datatype Net = Net(
    world: World,
    crews: seq<Crew>,
    engine: Engine,
    pc: Pc,
    control: Control,
    monitorCancelled: bool,
    created: int,
    clock: int,
    log: seq<Entry>,
    lost: seq<nat>)

  datatype Choice =
    | Start(src: nat, t: int)
    | Stop
    | Decline
    | Merge(cart: string)
    | Go
    | Aim(k: nat)
    | Reject
    | Fail
    | FailLate

  datatype Action = Dispatch(i: nat) | Work(i: nat, j: nat) | Think(choice: Choice) | Steer

  predicate HasSource(pc: Pc) {
    !pc.Resting? && !pc.Stopped?
  }

  predicate HasTarget(pc: Pc) {
    pc.Aimed? || pc.Extracted? || pc.Reserved? || pc.Noted? || pc.Stamped? || pc.LeftCounted? || pc.JoinCounted?
    || pc.HandedOver?
  }

  ghost predicate Shape(n: Net) {
    && |n.crews| == |n.world.stores|
    && (HasSource(n.pc) ==> n.pc.src < |n.crews|)
    && (HasTarget(n.pc) ==> n.pc.k < |n.crews| && n.pc.k != n.pc.src)
    && (n.control.Draining? ==> n.control.next <= |n.crews|)
    && (n.control.Joining? ==> n.control.next < |n.crews|)
  }

  /** The network with store `i` and its crew replaced. */
  function With(n: Net, i: nat, s: StoreState, c: Crew): Net
    requires i < |n.crews| == |n.world.stores|
  {
    n.(world := n.world.(stores := n.world.stores[i := s]), crews := n.crews[i := c])
  }

  // ---------- the steps ----------

  /**
   * The dispatcher pushes an order, counts it for its store, counts it for the network.
   * The number is what it adds to the network's count.
   */
  function DispatcherTurn(s: StoreState, c: Crew): Option<(StoreState, Crew, int)> {
    match c.dispatcher
    case Between =>
      if c.plan == [] then None
      else
        var o := c.plan[0];
        Some((s.Enqueued(o), c.(plan := c.plan[1..], dispatcher := Enqueued, arrived := c.arrived + [o]), 0))
    case Enqueued => Some((s.(received := s.received + 1), c.(dispatcher := Received), 0))
    case Received => Some((s, c.(dispatcher := Between), 1))
  }

  ghost function DispatchStep(n: Net, i: nat): (r: Option<Net>)
    requires Shape(n)
    ensures r.Some? ==> Shape(r.value)
  {
    if i >= |n.crews| then None
    else
      match DispatcherTurn(n.world.stores[i], n.crews[i])
      case None => None
      case Some((s, c, counted)) => Some(With(n, i, s, c).(created := n.created + counted))
  }

  /** A picker looks for cancellation, pops, marks, serves, and completes an order. */
  function PickerTurn(s: StoreState, c: Crew, j: nat): Option<(StoreState, Crew)>
    requires j < |c.workers|
  {
    match c.workers[j]
    case AtTop => Some((s, c.(workers := c.workers[j := if c.cancelled then Gone else Polling])))
    case Polling =>
      if s.queue == [] then Some((s, c.(workers := c.workers[j := AtTop])))
      else Some((s.(queue := s.queue[1..]), c.(workers := c.workers[j := Holding(s.queue[0])])))
    case Holding(o) =>
      Some((s.(picking := s.picking + 1), c.(workers := c.workers[j := Serving(o.(status := Picking))])))
    case Serving(o) =>
      Some((s.(picking := s.picking - 1), c.(workers := c.workers[j := Finishing(o.(status := Completed))])))
    case Finishing(o) =>
      Some((s.(completed := s.completed + 1), c.(workers := c.workers[j := AtTop], done := c.done + [o])))
    case Gone => None
  }

  ghost function WorkStep(n: Net, i: nat, j: nat): (r: Option<Net>)
    requires Shape(n)
    ensures r.Some? ==> Shape(r.value)
  {
    if i >= |n.crews| || j >= |n.crews[i].workers| then None
    else
      match PickerTurn(n.world.stores[i], n.crews[i], j)
      case None => None
      case Some((s, c)) => Some(With(n, i, s, c))
  }

  function Count1(s: Summary, o: Outcome): Summary {
    match o
    case NoAction => s.(noAction := s.noAction + 1)
    case NudgeIssued => s.(nudges := s.nudges + 1)
    case RejectedOnCost => s.(rejected := s.rejected + 1)
    case Executed => s.(executed := s.executed + 1)
    case FailedNoStock => s.(failed := s.failed + 1)
  }

  /** Ends an evaluation: the outcome is counted and the event reported. */
  function Report(n: Net, o: Outcome): Net
    requires HasSource(n.pc)
  {
    n.(engine := n.engine.(summary := Count1(n.engine.summary, o)), pc := Resting,
       log := n.log + [Entry(o, n.pc.src, n.pc.t)])
  }

  /** For each order a merge absorbs, the id of the order that stands for it from then on. */
  function PrimariesOf(q: seq<Order>, cart: string): (ids: seq<string>)
    ensures |ids| == |Absorbed(q, cart)|
  {
    var m := Matching(q, cart);
    if MergeCount(q, cart) == 0 then [] else seq(|m| - 1, i => m[0].id)
  }

  predicate Judges(pc: Pc) {
    pc.Resting? || pc.Judging? || pc.Merged? || pc.NudgeNoted? || pc.NudgeCounted? || pc.Stopped?
  }

  predicate Selects(pc: Pc) {
    pc.Cleared? || pc.Searching? || pc.Aimed? || pc.Extracted? || pc.Refusing? || pc.PutBack?
  }

  /** The engine merges the queued orders of a cart at the source. */
  ghost function MergeStep(n: Net, cart: string): (r: Net)
    requires Shape(n) && n.pc.Judging?
    ensures Shape(r)
  {
    var s, crew := n.world.stores[n.pc.src], n.crews[n.pc.src];
    var crew' := crew.(absorbed := crew.absorbed + Absorbed(s.queue, cart),
                       primaries := crew.primaries + PrimariesOf(s.queue, cart));
    var n' := With(n, n.pc.src, s.(queue := Consolidated(s.queue, cart)), crew');
    n'.(pc := Merged(n.pc.src, n.pc.t, MergeCount(s.queue, cart)))
  }

  /** The engine between evaluations, at the first guards, and in a merge. */
  ghost function JudgeStep(n: Net, c: Choice): (r: Option<Net>)
    requires Shape(n) && Judges(n.pc)
    ensures r.Some? ==> Shape(r.value)
  {
    var e := n.engine;
    match n.pc
    case Resting =>
      if c.Start? && c.src < |n.crews| && 0 < c.t && n.clock <= c.t then
        Some(n.(pc := Judging(c.src, c.t), clock := c.t,
                engine := e.(summary := e.summary.(evaluations := e.summary.evaluations + 1))))
      else if c == Stop && n.monitorCancelled then Some(n.(pc := Stopped))
      else None
    case Judging(src, t) =>
      var s := n.world.stores[src];
      if c == Decline then Some(Report(n, NoAction))
      else if c.Merge? && e.mode == FullOrchestration && MergeCount(s.queue, c.cart) > 1 then
        Some(MergeStep(n, c.cart))
      else if c == Go && (e.mode != FullOrchestration || !InWindow(Last(e.lastNudge, s.id), t)) then
        Some(n.(pc := Cleared(src, t)))
      else None
    case Merged(src, t, m) =>
      Some(n.(pc := NudgeNoted(src, t, m), engine := e.(lastNudge := e.lastNudge[n.world.stores[src].id := t])))
    case NudgeNoted(src, t, m) =>
      Some(n.(pc := NudgeCounted(src, t, m), engine := e.(summary := Count1(e.summary, NudgeIssued))))
    case NudgeCounted(src, t, m) =>
      Some(n.(pc := Resting, engine := e.(summary := e.summary.(merged := e.summary.merged + m)),
              log := n.log + [Entry(NudgeIssued, src, t)]))
    case Stopped => None
  }

  /** The engine takes the first non-perishable order of the source, if there is one. */
  ghost function ExtractionStep(n: Net): (r: Net)
    requires Shape(n) && n.pc.Aimed?
    ensures Shape(r)
  {
    var s := n.world.stores[n.pc.src];
    var taken, left := Extract(s.queue, 1).0, Extract(s.queue, 1).1;
    if taken == [] then Report(n, NoAction)
    else
      With(n, n.pc.src, s.(queue := left), n.crews[n.pc.src]).(pc := Extracted(n.pc.src, n.pc.t, n.pc.k, taken[0]))
  }

  /**
   * The reservation call. It may fail with an error before the script has run, and after:
   * then the unit is taken, and noted as lost at the target.
   */
  ghost function ReservationStep(n: Net, c: Choice): (r: Net)
    requires Shape(n) && n.pc.Extracted?
    ensures Shape(r)
  {
    var reservation := Reserve(n.world.book, n.world.stores[n.pc.k].id, GENERIC_SKU, 1);
    var granted, book := reservation.0, reservation.2;
    var refusing := Refusing(n.pc.src, n.pc.t, n.pc.o);
    if c == Fail || !granted then n.(pc := refusing)
    else if c == FailLate then n.(world := n.world.(book := book), pc := refusing, lost := n.lost + [n.pc.k])
    else n.(world := n.world.(book := book), pc := Reserved(n.pc.src, n.pc.t, n.pc.k, n.pc.o))
  }

  /** The engine at the cooldown guard, the search, the gate, the extraction and the reservation. */
  ghost function SelectStep(n: Net, c: Choice): (r: Option<Net>)
    requires Shape(n) && Selects(n.pc)
    ensures r.Some? ==> Shape(r.value)
  {
    var e := n.engine;
    match n.pc
    case Cleared(src, t) =>
      if c == Decline then Some(Report(n, NoAction))
      else if c == Go && !InWindow(Last(e.lastReRoute, n.world.stores[src].id), t) then
        Some(n.(pc := Searching(src, t)))
      else None
    case Searching(src, t) =>
      if c == Decline then Some(Report(n, NoAction))
      else if c.Aim? && c.k < |n.crews| && c.k != src then Some(n.(pc := Aimed(src, t, c.k)))
      else None
    case Aimed(src, t, k) =>
      if c == Reject && e.mode != Naive then Some(Report(n, RejectedOnCost))
      else if c == Go then Some(ExtractionStep(n))
      else None
    case Extracted(src, t, k, o) => Some(ReservationStep(n, c))
    case Refusing(src, t, o) =>
      Some(With(n, src, n.world.stores[src].Enqueued(o), n.crews[src]).(pc := PutBack(src, t)))
    case PutBack(src, t) => Some(Report(n, FailedNoStock))
  }

  /** The engine while it moves a reserved order to its target. */
  ghost function TransferStep(n: Net, c: Choice): (r: Option<Net>)
    requires Shape(n) && !Judges(n.pc) && !Selects(n.pc)
    ensures r.Some? ==> Shape(r.value)
  {
    var e := n.engine;
    match n.pc
    case Reserved(src, t, k, o) =>
      Some(n.(pc := Noted(src, t, k, o), engine := e.(lastReRoute := e.lastReRoute[n.world.stores[src].id := t])))
    case Noted(src, t, k, o) =>
      var s := n.world.stores[src];
      Some(With(n, src, s.(lastReRouteNs := t), n.crews[src]).(pc := Stamped(src, t, k, o)))
    case Stamped(src, t, k, o) =>
      var s := n.world.stores[src];
      Some(With(n, src, s.(reRoutedOut := s.reRoutedOut + 1), n.crews[src]).(pc := LeftCounted(src, t, k, o)))
    case LeftCounted(src, t, k, o) =>
      var s := n.world.stores[k];
      Some(With(n, k, s.(reRoutedIn := s.reRoutedIn + 1), n.crews[k]).(pc := JoinCounted(src, t, k, o)))
    case JoinCounted(src, t, k, o) =>
      Some(With(n, k, n.world.stores[k].Enqueued(o), n.crews[k]).(pc := HandedOver(src, t, k)))
    case HandedOver(src, t, k) => Some(Report(n, Executed))
  }

  ghost function ThinkStep(n: Net, c: Choice): (r: Option<Net>)
    requires Shape(n)
    ensures r.Some? ==> Shape(r.value)
  {
    if Judges(n.pc) then JudgeStep(n, c)
    else if Selects(n.pc) then SelectStep(n, c)
    else TransferStep(n, c)
  }

  ghost predicate Dispatched(c: Crew) {
    c.plan == [] && c.dispatcher == Between
  }

  ghost predicate AllGone(ws: seq<Worker>) {
    forall j | 0 <= j < |ws| :: ws[j] == Gone
  }

  /** The main program waits for the dispatchers, stops the stores in order, then the monitor. */
  ghost function SteerStep(n: Net): (r: Option<Net>)
    requires Shape(n)
    ensures r.Some? ==> Shape(r.value)
  {
    match n.control
    case Dispatching =>
      if forall i | 0 <= i < |n.crews| :: Dispatched(n.crews[i]) then Some(n.(control := Draining(0))) else None
    case Draining(i) =>
      if i == |n.crews| then Some(n.(control := StoppingMonitor, monitorCancelled := true))
      else Some(With(n, i, n.world.stores[i], n.crews[i].(cancelled := true)).(control := Joining(i)))
    case Joining(i) =>
      if AllGone(n.crews[i].workers) then Some(n.(control := Draining(i + 1))) else None
    case StoppingMonitor =>
      if n.pc == Stopped then Some(n.(control := Reported)) else None
    case Reported => None
  }

  ghost function Step(n: Net, a: Action): (r: Option<Net>)
    requires Shape(n)
    ensures r.Some? ==> Shape(r.value)
  {
    match a
    case Dispatch(i) => DispatchStep(n, i)
    case Work(i, j) => WorkStep(n, i, j)
    case Think(c) => ThinkStep(n, c)
    case Steer => SteerStep(n)
  }

  /** The network after a list of actions, if each was enabled in its turn. */
  ghost function Run(n: Net, actions: seq<Action>): (r: Option<Net>)
    requires Shape(n)
    ensures r.Some? ==> Shape(r.value)
    decreases |actions|
  {
    if actions == [] then Some(n)
    else
      match Step(n, actions[0])
      case None => None
      case Some(n') => Run(n', actions[1..])
  }

  /** A network that is about to start: nothing has moved and nothing is counted. */
  ghost predicate Initial(n: Net) {
    && Shape(n)
    && n.pc == Resting && n.control == Dispatching && !n.monitorCancelled
    && n.created == 0 && n.clock == 0 && n.log == [] && n.lost == []
    && n.engine.lastNudge == map[] && n.engine.lastReRoute == map[] && n.engine.summary == NO_DECISIONS
    && forall i | 0 <= i < |n.crews| ::
         FreshStore(n.world.stores[i]) && FreshCrew(n.crews[i], n.world.stores[i].pickers)
  }

  ghost predicate FreshStore(s: StoreState) {
    && s.queue == [] && s.received == 0 && s.completed == 0 && s.reRoutedIn == 0 && s.reRoutedOut == 0
    && s.picking == 0 && s.lastReRouteNs == 0
  }

  ghost predicate FreshCrew(c: Crew, pickers: nat) {
    && c.dispatcher == Between && !c.cancelled
    && c.arrived == [] && c.done == [] && c.absorbed == [] && c.primaries == []
    && |c.workers| == pickers && (forall j | 0 <= j < |c.workers| :: c.workers[j] == AtTop)
    && (forall o | o in c.plan :: !o.consolidated)
  }
}
