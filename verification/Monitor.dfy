/** The load monitor: overload episodes with hysteresis, and the sweep that drives the engine. */
module Monitor {
  import opened Options
  import opened Stores
  import opened Reservation
  import opened Policy
  import opened Engines
  import opened Runs
  import opened MapSums

  datatype Episodes = Episodes(
    inBreach: bool,
    start: int,
    total: int,
    duration: int,
    longest: int,
    rawTicks: int)

  const UNTROUBLED := Episodes(false, 0, 0, 0, 0, 0)

  datatype BreachSummary = BreachSummary(totalEpisodes: int, avgDurationSec: real, maxDurationSec: real, rawTicks: int)

  /** load > pct / 100; a load without capacity and items is neither above nor below anything. */
  predicate Over(load: Load, pct: int) {
    if load.capacity == 0 then load.items > 0 else !load.AtMost(pct)
  }

  /** A sample of a store's load, compared with the two thresholds. */
  datatype Sample = Sample(over: bool, under: bool, t: int)

  function Sampled(load: Load, threshold: int, recovery: int, t: int): Sample {
    Sample(Over(load, threshold), load.Below(recovery), t)
  }

  /**
   * A sample's flags are the comparisons of the store's items over its capacity with the two
   * thresholds. A store without a capacity is above every threshold once it has items, and
   * below none.
   */
  lemma SampleComparesTheLoad(s: StoreState, threshold: int, recovery: int, t: int)
    ensures var sample, items := Sampled(s.CurrentLoad(), threshold, recovery, t), |s.queue| + s.picking;
            && sample.t == t
            && (s.capacity != 0 ==>
                  && (sample.over <==> items as real / s.capacity as real > threshold as real / 100.0)
                  && (sample.under <==> items as real / s.capacity as real < recovery as real / 100.0))
            && (s.capacity == 0 ==> (sample.over <==> items > 0) && (sample.under <==> items < 0))
  {
    LoadIsQuotient(s.CurrentLoad(), threshold);
    LoadIsQuotient(s.CurrentLoad(), recovery);
  }

  /**
   * With the threshold at 85 the monitor asks the engine about no store that the engine would
   * let pass, and passes over no store that it would act on.
   */
  lemma MonitorAsksWhenItMatters(
      e: Engine, w: World, dist: Distance, cart: Option<string>, src: nat, recovery: int, t: int)
    requires src < |w.stores| && w.stores[src].capacity != 0
    ensures var over := Sampled(w.stores[src].CurrentLoad(), 85, recovery, t).over;
            && (!over ==> Evaluate(e, w, dist, cart, src, t).event.outcome == NoAction
                          && Evaluate(e, w, dist, cart, src, t).world == w)
            && (over <==> !w.stores[src].CurrentLoad().AtMost(TRIGGER_PCT))
  {
    hide Searched, Nudged;
  }

  /** What a sample does to a store's record. */
  function Observed(ep: Episodes, s: Sample): Episodes {
    if s.over then
      var ep' := ep.(rawTicks := ep.rawTicks + 1);
      if ep.inBreach then ep' else ep'.(inBreach := true, start := s.t, total := ep.total + 1)
    else if s.under && ep.inBreach then
      var lasted := s.t - ep.start;
      ep.(inBreach := false, duration := ep.duration + lasted,
          longest := if lasted > ep.longest then lasted else ep.longest)
    else ep
  }

  function Watched(trace: seq<Sample>): Episodes {
    if trace == [] then UNTROUBLED else Observed(Watched(trace[..|trace| - 1]), trace[|trace| - 1])
  }

  // ---------- what an episode is, independently of the record ----------

  /** Overloaded: the last sample that was above the one or below the other threshold was above. */
  predicate Overloaded(trace: seq<Sample>) {
    if trace == [] then false
    else
      var last := trace[|trace| - 1];
      if last.over then true else if last.under then false else Overloaded(trace[..|trace| - 1])
  }

  /** How often the store became overloaded. */
  function Entries(trace: seq<Sample>): nat {
    if trace == [] then 0
    else Entries(trace[..|trace| - 1]) + if Overloaded(trace) && !Overloaded(trace[..|trace| - 1]) then 1 else 0
  }

  /** How long it was overloaded, sample to sample. */
  function TimeOverloaded(trace: seq<Sample>): int {
    if |trace| < 2 then 0
    else
      var before := trace[..|trace| - 1];
      TimeOverloaded(before) + if Overloaded(before) then trace[|trace| - 1].t - trace[|trace| - 2].t else 0
  }

  /** The lengths of the episodes that have ended. */
  function Ended(trace: seq<Sample>): seq<int> {
    if trace == [] then []
    else
      var before := trace[..|trace| - 1];
      Ended(before)
      + if Overloaded(before) && !Overloaded(trace) then [trace[|trace| - 1].t - EnteredAt(before)] else []
  }

  /** When the present episode began. */
  function EnteredAt(trace: seq<Sample>): int {
    if trace == [] then 0
    else if Overloaded(trace[..|trace| - 1]) then EnteredAt(trace[..|trace| - 1])
    else trace[|trace| - 1].t
  }

  function OverTicks(trace: seq<Sample>): nat {
    if trace == [] then 0 else OverTicks(trace[..|trace| - 1]) + if trace[|trace| - 1].over then 1 else 0
  }

  predicate InOrder(trace: seq<Sample>) {
    forall i, j :: 0 <= i < j < |trace| ==> trace[i].t <= trace[j].t
  }

  function SumOf(s: seq<int>): int {
    if s == [] then 0 else SumOf(s[..|s| - 1]) + s[|s| - 1]
  }

  /**
   * The record refines the trace: it is in breach exactly when the store is overloaded,
   * counts the entries and the ticks above the threshold, and its duration and maximum
   * are those of the episodes that have ended.
   */
  lemma {:induction false} RecordRefinesTrace(trace: seq<Sample>)
    requires InOrder(trace)
    ensures var ep := Watched(trace);
            && (ep.inBreach <==> Overloaded(trace))
            && (ep.inBreach ==> ep.start == EnteredAt(trace))
            && ep.total == Entries(trace) && ep.rawTicks == OverTicks(trace)
            && ep.duration == SumOf(Ended(trace))
            && |Ended(trace)| == ep.total - (if ep.inBreach then 1 else 0)
            && (forall d | d in Ended(trace) :: 0 <= d <= ep.longest)
            && (ep.longest == 0 || ep.longest in Ended(trace))
            && ep.total <= ep.rawTicks
            && (Overloaded(trace) ==> EnteredAt(trace) <= trace[|trace| - 1].t)
  {
    if trace != [] {
      var k := |trace| - 1;
      var before := trace[..k];
      RecordRefinesTrace(before);
      if Overloaded(before) {
        assert before[|before| - 1] == trace[k - 1];
      }
      if Overloaded(before) && !Overloaded(trace) {
        var lasted := trace[k].t - EnteredAt(before);
        assert (Ended(before) + [lasted])[..|Ended(before)|] == Ended(before);
      } else {
        assert Ended(trace) == Ended(before);
      }
    }
  }

  /** Ended episodes and the present one make up the time overloaded, which is at most the time watched. */
  lemma {:induction false} DurationsFillTheTime(trace: seq<Sample>)
    requires InOrder(trace) && trace != []
    ensures var ep, now := Watched(trace), trace[|trace| - 1].t;
            && ep.duration + (if ep.inBreach then now - ep.start else 0) == TimeOverloaded(trace)
            && 0 <= ep.duration <= TimeOverloaded(trace) <= now - trace[0].t
            && 0 <= ep.longest <= now - trace[0].t
            && (ep.inBreach ==> trace[0].t <= ep.start <= now)
  {
    var k := |trace| - 1;
    if k > 0 {
      var before := trace[..k];
      DurationsFillTheTime(before);
      RecordRefinesTrace(before);
      assert before[k - 1] == trace[k - 1] && before[0] == trace[0];
    } else {
      assert trace[..k] == [];
    }
  }

  // ---------- the monitor ----------

  /** What the monitor keeps and acts on: the records, the engine if it has one, the network. */
  datatype Scene = Scene(states: map<string, Episodes>, engine: Option<Engine>, world: World)

  /** One store of a pass: its record, and an evaluation if it is overloaded. */
  ghost function Visited(
      sc: Scene, dist: Distance, cart: Option<string>, threshold: int, recovery: int, t: int, i: nat): (r: Scene)
    requires i < |sc.world.stores|
    ensures |r.world.stores| == |sc.world.stores|
  {
    var s := sc.world.stores[i];
    var sample := Sampled(s.CurrentLoad(), threshold, recovery, t);
    var sc' := if s.id in sc.states then sc.(states := sc.states[s.id := Observed(sc.states[s.id], sample)]) else sc;
    if sample.over && sc.engine.Some? then
      SizeKept(sc.engine.value, sc.world, dist, cart, i, t);
      var v := Evaluate(sc.engine.value, sc.world, dist, cart, i, t);
      sc'.(engine := Some(v.agent), world := v.world)
    else sc'
  }

  /** One pass over the stores from `i` on. */
  ghost function Swept(
      sc: Scene, dist: Distance, carts: seq<Option<string>>, threshold: int, recovery: int, t: int, i: nat): Scene
    requires i <= |sc.world.stores| == |carts|
    decreases |sc.world.stores| - i
  {
    if i == |sc.world.stores| then sc
    else Swept(Visited(sc, dist, carts[i], threshold, recovery, t, i), dist, carts, threshold, recovery, t, i + 1)
  }

  lemma NotStores(stores: seq<Store>, m: LoadMonitor, e: DecisionEngine?, r: StockReservationStore?)
    ensures m !in Footprint(stores) && e !in Footprint(stores) && r !in Footprint(stores)
  {
  }

  lemma SizeKept(e: Engine, w: World, dist: Distance, cart: Option<string>, src: nat, t: int)
    requires src < |w.stores|
    ensures |Evaluate(e, w, dist, cart, src, t).world.stores| == |w.stores|
  {
  }

  class LoadMonitor {
    const threshold: int
    const recovery: int
    const engine: DecisionEngine?
    var states: map<string, Episodes>

    constructor (ids: seq<string>, threshold: int, recovery: int, engine: DecisionEngine?)
      ensures this.threshold == (if threshold <= 0 then 85 else threshold)
      ensures this.recovery == (if recovery <= 0 then 70 else recovery)
      ensures this.engine == engine
      ensures states == map id | id in ids :: UNTROUBLED
    {
      this.threshold := if threshold <= 0 then 85 else threshold;
      this.recovery := if recovery <= 0 then 70 else recovery;
      this.engine := engine;
      states := map id | id in ids :: UNTROUBLED;
    }

    /** The record of a sample; the answer says whether the engine is to be asked. */
    method Observe(id: string, load: Load, t: int) returns (breach: bool)
      requires id in states
      modifies this
      ensures states == old(states)[id := Observed(old(states)[id], Sampled(load, threshold, recovery, t))]
      ensures breach == Over(load, threshold)
      ensures load.capacity != 0 ==>
                (breach <==> load.items as real / load.capacity as real > threshold as real / 100.0)
    {
      LoadIsQuotient(load, threshold);
      var state := states[id];
      breach := Over(load, threshold);
      if breach {
        state := state.(rawTicks := state.rawTicks + 1);
        if !state.inBreach {
          state := state.(inBreach := true, start := t);
          state := state.(total := state.total + 1);
        }
      } else if load.Below(recovery) {
        if state.inBreach {
          state := state.(inBreach := false);
          var lasted := t - state.start;
          state := state.(duration := state.duration + lasted);
          if lasted > state.longest {
            state := state.(longest := lasted);
          }
        }
      }
      states := states[id := state];
    }

    ghost function EngineState(): Option<Engine>
      reads engine
    {
      if engine == null then None else Some(engine.State())
    }

    ghost function Now(stores: seq<Store>, reservations: StockReservationStore?): Scene
      reads this, engine, Footprint(stores), reservations
    {
      Scene(states, EngineState(), Net(stores, reservations))
    }

    /** Samples one store and has it evaluated at once if it is overloaded. */
    method Visit(stores: seq<Store>, i: nat, reservations: StockReservationStore?, dist: Distance,
                 cart: Option<string>, t: int)
      requires Separate(stores) && i < |stores| && stores[i].id in states
      requires engine != null ==> engine.reservationStore == reservations
      modifies this, engine, Footprint(stores), reservations
      ensures Now(stores, reservations)
              == old(Visited(Now(stores, reservations), dist, cart, threshold, recovery, t, i))
      ensures states.Keys == old(states).Keys
    {
      NotStores(stores, this, engine, reservations);
      hide Evaluate, States, Footprint, Observed, Over;
      ghost var w := Net(stores, reservations);
      assert w.stores[i] == stores[i].State();
      InFootprint(stores, i);
      var load := stores[i].ComputeLoad();
      var breach := Observe(stores[i].id, load, t);
      OnlyChanged(stores, w.stores, i, i);
      if breach && engine != null {
        SeparateAreKnown(stores, i);
        var event := engine.EvaluateBreach(stores[i], stores, dist, cart, t);
      }
    }

    /** One tick of the loop over all stores. */
    method Sweep(stores: seq<Store>, reservations: StockReservationStore?, dist: Distance,
                 carts: seq<Option<string>>, t: int)
      requires Separate(stores) && |carts| == |stores|
      requires forall i | 0 <= i < |stores| :: stores[i].id in states
      requires engine != null ==> engine.reservationStore == reservations
      modifies this, engine, Footprint(stores), reservations
      ensures Now(stores, reservations) == old(Swept(Now(stores, reservations), dist, carts, threshold, recovery, t, 0))
    {
      hide Visited, States, Footprint;
      ghost var goal := Swept(Now(stores, reservations), dist, carts, threshold, recovery, t, 0);
      var i := 0;
      while i < |stores|
        invariant i <= |stores|
        invariant forall j | 0 <= j < |stores| :: stores[j].id in states
        invariant Swept(Now(stores, reservations), dist, carts, threshold, recovery, t, i) == goal
      {
        Visit(stores, i, reservations, dist, carts[i], t);
        i := i + 1;
      }
    }

    /** The summary as it is reported after `endNs`. */
    method GetBreachSummary(endNs: int) returns (summary: BreachSummary)
      ensures summary.totalEpisodes == SumValues(TotalsOf(states)) + SumValues(OpenOf(states))
      ensures summary.rawTicks == SumValues(RawOf(states))
      ensures summary.avgDurationSec == Average(SumValues(DurationsOf(states, endNs)), summary.totalEpisodes)
      ensures exists maxDur :: LongestAmong(states, map[], endNs, maxDur) && summary.maxDurationSec == Seconds(maxDur)
    {
      hide SumValues, TotalsOf, OpenOf, RawOf, DurationsOf, LongestAmong, Average, Seconds;
      var totalEp, totalDur, maxDur, totalRaw := AddUp(endNs);
      summary := BreachSummary(totalEp, Average(totalDur, totalEp), Seconds(maxDur), totalRaw);
    }

    /** One store's part of the summary: an open episode is counted, and lasts until now. */
    method Account(state: Episodes, endNs: int) returns (epCount: int, dur: int, longest: int)
      ensures epCount == state.total + if state.inBreach then 1 else 0
      ensures dur == state.duration + if state.inBreach then endNs - state.start else 0
      ensures longest == LongestOf(state, endNs)
    {
      epCount, dur, longest := state.total, state.duration, state.longest;
      if state.inBreach {
        epCount := epCount + 1;
        var active := endNs - state.start;
        dur := dur + active;
        if active > longest {
          longest := active;
        }
      }
    }

    /** The loop of the summary, over the records in any order. */
    method AddUp(endNs: int) returns (totalEp: int, totalDur: int, maxDur: int, totalRaw: int)
      ensures totalEp == SumValues(TotalsOf(states)) + SumValues(OpenOf(states))
      ensures totalDur == SumValues(DurationsOf(states, endNs))
      ensures totalRaw == SumValues(RawOf(states))
      ensures LongestAmong(states, map[], endNs, maxDur)
    {
      assert LongestAmong(states, states, endNs, 0);
      hide SumValues, TotalsOf, OpenOf, RawOf, DurationsOf, LongestAmong, LongestOf;
      totalEp, totalDur, maxDur, totalRaw := 0, 0, 0, 0;
      var left := states;
      while left != map[]
        invariant forall id | id in left :: id in states && left[id] == states[id]
        invariant totalEp + SumValues(TotalsOf(left)) + SumValues(OpenOf(left))
                  == SumValues(TotalsOf(states)) + SumValues(OpenOf(states))
        invariant totalDur + SumValues(DurationsOf(left, endNs)) == SumValues(DurationsOf(states, endNs))
        invariant totalRaw + SumValues(RawOf(left)) == SumValues(RawOf(states))
        invariant LongestAmong(states, left, endNs, maxDur)
        decreases |left|
      {
        var id :| id in left;
        var state := left[id];
        TakeOne(left, id, endNs);
        LongestWithOne(states, left, id, endNs, maxDur);
        var epCount, dur, longest := Account(state, endNs);
        totalEp, totalDur := totalEp + epCount, totalDur + dur;
        if longest > maxDur {
          maxDur := longest;
        }
        totalRaw := totalRaw + state.rawTicks;
        left := left - {id};
      }
      NoneLeft(endNs);
    }
  }

  // ---------- many ticks ----------

  /** The samples one pass takes, each at the moment its store is visited. */
  ghost function SamplesFrom(
      sc: Scene, dist: Distance, carts: seq<Option<string>>, threshold: int, recovery: int, t: int, i: nat)
    : (r: seq<Sample>)
    requires i <= |sc.world.stores| == |carts|
    ensures |r| == |sc.world.stores| - i && forall k | 0 <= k < |r| :: r[k].t == t
    decreases |sc.world.stores| - i
  {
    if i == |sc.world.stores| then []
    else
      [Sampled(sc.world.stores[i].CurrentLoad(), threshold, recovery, t)]
      + SamplesFrom(Visited(sc, dist, carts[i], threshold, recovery, t, i), dist, carts, threshold, recovery, t, i + 1)
  }

  ghost predicate Monitored(sc: Scene, ids: seq<string>) {
    && |sc.world.stores| == |ids|
    && (forall i | 0 <= i < |ids| :: sc.world.stores[i].id == ids[i] && ids[i] in sc.states)
    && forall i, j :: 0 <= i < j < |ids| ==> ids[i] != ids[j]
  }

  /** A visit records the sample of its own store and leaves the other records alone. */
  lemma VisitRecords(
      sc: Scene, ids: seq<string>, dist: Distance, cart: Option<string>, threshold: int, recovery: int, t: int, i: nat)
    requires Monitored(sc, ids) && i < |ids|
    ensures var sc' := Visited(sc, dist, cart, threshold, recovery, t, i);
            && Monitored(sc', ids)
            && sc'.states == sc.states[ids[i] := Observed(sc.states[ids[i]],
                               Sampled(sc.world.stores[i].CurrentLoad(), threshold, recovery, t))]
  {
    hide Evaluate, Observed;
    if sc.engine.Some? {
      EvaluationKeepsIds(sc.engine.value, sc.world, dist, cart, i, t);
    }
  }

  /** An overloaded store is evaluated, by itself and at once; otherwise nothing but its record changes. */
  lemma VisitEvaluates(
      sc: Scene, dist: Distance, cart: Option<string>, threshold: int, recovery: int, t: int, i: nat)
    requires i < |sc.world.stores| && sc.engine.Some?
    ensures var sc' := Visited(sc, dist, cart, threshold, recovery, t, i);
            var s, e := sc.world.stores[i], sc.engine.value;
            && sc'.engine.Some?
            && (Sampled(s.CurrentLoad(), threshold, recovery, t).over ==>
                  sc'.engine.value == Evaluate(e, sc.world, dist, cart, i, t).agent
                  && sc'.world == Evaluate(e, sc.world, dist, cart, i, t).world
                  && sc'.engine.value.summary.evaluations == e.summary.evaluations + 1)
            && (!Sampled(s.CurrentLoad(), threshold, recovery, t).over ==>
                  sc'.engine.value == e && sc'.world == sc.world)
  {
    hide Screened, Searched;
    OneOutcomePerEvaluation(sc.engine.value, sc.world, dist, cart, i, t);
  }

  /** A pass has exactly as many stores evaluated as it samples above the threshold. */
  lemma {:induction false} PassEvaluates(
      sc: Scene, dist: Distance, carts: seq<Option<string>>, threshold: int, recovery: int, t: int, i: nat)
    requires i <= |sc.world.stores| == |carts| && sc.engine.Some?
    ensures var sc' := Swept(sc, dist, carts, threshold, recovery, t, i);
            && sc'.engine.Some?
            && sc'.engine.value.summary.evaluations
               == sc.engine.value.summary.evaluations
                  + CountOver(SamplesFrom(sc, dist, carts, threshold, recovery, t, i))
    decreases |sc.world.stores| - i
  {
    hide Visited, Sampled;
    if i < |sc.world.stores| {
      VisitEvaluates(sc, dist, carts[i], threshold, recovery, t, i);
      var sc' := Visited(sc, dist, carts[i], threshold, recovery, t, i);
      PassEvaluates(sc', dist, carts, threshold, recovery, t, i + 1);
      var samples := SamplesFrom(sc, dist, carts, threshold, recovery, t, i);
      assert samples[1..] == SamplesFrom(sc', dist, carts, threshold, recovery, t, i + 1);
    }
  }

  function CountOver(samples: seq<Sample>): nat {
    if samples == [] then 0 else (if samples[0].over then 1 else 0) + CountOver(samples[1..])
  }

  /** A pass records for every store the sample it took of it. */
  lemma {:induction false} PassRecords(
      sc: Scene, ids: seq<string>, dist: Distance, carts: seq<Option<string>>,
      threshold: int, recovery: int, t: int, i: nat)
    requires Monitored(sc, ids) && i <= |ids| == |carts|
    ensures var sc', samples := Swept(sc, dist, carts, threshold, recovery, t, i),
                                SamplesFrom(sc, dist, carts, threshold, recovery, t, i);
            && Monitored(sc', ids) && sc'.states.Keys == sc.states.Keys
            && (forall k | 0 <= k < i :: sc'.states[ids[k]] == sc.states[ids[k]])
            && (forall k | i <= k < |ids| :: sc'.states[ids[k]] == Observed(sc.states[ids[k]], samples[k - i]))
    decreases |ids| - i
  {
    hide Visited, Observed;
    if i < |ids| {
      VisitRecords(sc, ids, dist, carts[i], threshold, recovery, t, i);
      var sc' := Visited(sc, dist, carts[i], threshold, recovery, t, i);
      PassRecords(sc', ids, dist, carts, threshold, recovery, t, i + 1);
    }
  }

  /** A tick: the network as it is found then, the distances and active carts, and the time. */
  datatype Tick = Tick(world: World, dist: Distance, carts: seq<Option<string>>, t: int)

  /** The same stores every time; between two ticks everybody else may have changed anything about them. */
  ghost predicate Ticking(ticks: seq<Tick>, ids: seq<string>) {
    && (forall i, j :: 0 <= i < j < |ids| ==> ids[i] != ids[j])
    && (forall j | 0 <= j < |ticks| :: |ticks[j].world.stores| == |ticks[j].carts| == |ids|)
    && (forall j, i | 0 <= j < |ticks| && 0 <= i < |ids| :: ticks[j].world.stores[i].id == ids[i])
  }

  /** The monitor, watching these stores from the start, when the last of the ticks begins to run. */
  ghost function Watching(ids: seq<string>, e: Option<Engine>, ticks: seq<Tick>, threshold: int, recovery: int)
    : (r: Scene)
    requires Ticking(ticks, ids) && ticks != []
    ensures |r.world.stores| == |ids|
    decreases |ticks|, 0
  {
    var (states, e') := AfterTicks(ids, e, ticks[..|ticks| - 1], threshold, recovery);
    Scene(states, e', ticks[|ticks| - 1].world)
  }

  ghost function AfterTicks(ids: seq<string>, e: Option<Engine>, ticks: seq<Tick>, threshold: int, recovery: int)
    : (map<string, Episodes>, Option<Engine>)
    requires Ticking(ticks, ids)
    decreases |ticks|, 1
  {
    if ticks == [] then (map id | id in ids :: UNTROUBLED, e)
    else
      var tick := ticks[|ticks| - 1];
      var sc := Watching(ids, e, ticks, threshold, recovery);
      var sc' := Swept(sc, tick.dist, tick.carts, threshold, recovery, tick.t, 0);
      (sc'.states, sc'.engine)
  }

  /** The samples of one store over all ticks. */
  ghost function TraceOf(ids: seq<string>, e: Option<Engine>, ticks: seq<Tick>, threshold: int, recovery: int, k: nat)
    : (r: seq<Sample>)
    requires Ticking(ticks, ids) && k < |ids|
    ensures |r| == |ticks| && forall j | 0 <= j < |ticks| :: r[j].t == ticks[j].t
    decreases |ticks|
  {
    if ticks == [] then []
    else
      var before, tick := ticks[..|ticks| - 1], ticks[|ticks| - 1];
      var sc := Watching(ids, e, ticks, threshold, recovery);
      TraceOf(ids, e, before, threshold, recovery, k)
      + [SamplesFrom(sc, tick.dist, tick.carts, threshold, recovery, tick.t, 0)[k]]
  }

  /** After any number of ticks every store's record is that of the samples that were taken of it. */
  lemma {:induction false} RecordsAreWatched(
      ids: seq<string>, e: Option<Engine>, ticks: seq<Tick>, threshold: int, recovery: int)
    requires Ticking(ticks, ids)
    ensures var states := AfterTicks(ids, e, ticks, threshold, recovery).0;
            && (forall id :: id in states <==> id in ids)
            && forall k | 0 <= k < |ids| ::
                 states[ids[k]] == Watched(TraceOf(ids, e, ticks, threshold, recovery, k))
    decreases |ticks|
  {
    hide Swept, SamplesFrom, Observed;
    if ticks != [] {
      var before, tick := ticks[..|ticks| - 1], ticks[|ticks| - 1];
      RecordsAreWatched(ids, e, before, threshold, recovery);
      var sc := Watching(ids, e, ticks, threshold, recovery);
      PassRecords(sc, ids, tick.dist, tick.carts, threshold, recovery, tick.t, 0);
      forall k | 0 <= k < |ids|
        ensures AfterTicks(ids, e, ticks, threshold, recovery).0[ids[k]]
                == Watched(TraceOf(ids, e, ticks, threshold, recovery, k))
      {
        var trace := TraceOf(ids, e, ticks, threshold, recovery, k);
        assert trace[..|trace| - 1] == TraceOf(ids, e, before, threshold, recovery, k);
      }
    }
  }

  /**
   * After any ticks at times that do not go back, whatever happened to the stores in
   * between, every store's record says what its samples say: overloaded or not, since when,
   * how often, for how long, and how many ticks.
   */
  lemma TicksRefineTraces(ids: seq<string>, e: Option<Engine>, ticks: seq<Tick>, threshold: int, recovery: int, k: nat)
    requires Ticking(ticks, ids) && k < |ids|
    requires forall i, j :: 0 <= i < j < |ticks| ==> ticks[i].t <= ticks[j].t
    ensures var trace := TraceOf(ids, e, ticks, threshold, recovery, k);
            var states := AfterTicks(ids, e, ticks, threshold, recovery).0;
            && InOrder(trace) && ids[k] in states
            && var ep := states[ids[k]];
            && (ep.inBreach <==> Overloaded(trace)) && (ep.inBreach ==> ep.start == EnteredAt(trace))
            && ep.total == Entries(trace) && ep.rawTicks == OverTicks(trace) && ep.duration == SumOf(Ended(trace))
  {
    RecordsAreWatched(ids, e, ticks, threshold, recovery);
    RecordRefinesTrace(TraceOf(ids, e, ticks, threshold, recovery, k));
  }

  // ---------- the reported summary ----------

  function Seconds(ns: int): real { ns as real / 1000000000.0 }

  function Average(ns: int, count: int): real {
    if count > 0 then Seconds(ns) / count as real else 0.0
  }

  ghost function TotalsOf(m: map<string, Episodes>): map<string, int> { map id | id in m :: m[id].total }

  ghost function OpenOf(m: map<string, Episodes>): map<string, int> {
    map id | id in m :: if m[id].inBreach then 1 else 0
  }

  ghost function RawOf(m: map<string, Episodes>): map<string, int> { map id | id in m :: m[id].rawTicks }

  /** How long a store's episodes have lasted, one still going on included. */
  ghost function DurationsOf(m: map<string, Episodes>, endNs: int): map<string, int> {
    map id | id in m :: m[id].duration + if m[id].inBreach then endNs - m[id].start else 0
  }

  function LongestOf(ep: Episodes, endNs: int): int {
    if ep.inBreach && endNs - ep.start > ep.longest then endNs - ep.start else ep.longest
  }

  /** The longest episode of the stores not in `left`, or zero. */
  ghost predicate LongestAmong(m: map<string, Episodes>, left: map<string, Episodes>, endNs: int, maxDur: int) {
    && maxDur >= 0
    && (forall id | id in m && id !in left :: LongestOf(m[id], endNs) <= maxDur)
    && (maxDur == 0 || exists id :: id in m && maxDur == LongestOf(m[id], endNs))
  }

  lemma LongestWithOne(m: map<string, Episodes>, left: map<string, Episodes>, id: string, endNs: int, maxDur: int)
    requires id in m && LongestAmong(m, left, endNs, maxDur)
    ensures var longest := LongestOf(m[id], endNs);
            LongestAmong(m, left - {id}, endNs, if longest > maxDur then longest else maxDur)
  {
  }

  lemma NoneLeft(endNs: int)
    ensures SumValues(TotalsOf(map[])) == SumValues(OpenOf(map[])) == SumValues(RawOf(map[])) == 0
    ensures SumValues(DurationsOf(map[], endNs)) == 0
  {
  }

  lemma TakeOne(m: map<string, Episodes>, id: string, endNs: int)
    requires id in m
    ensures SumValues(TotalsOf(m)) == SumValues(TotalsOf(m - {id})) + m[id].total
    ensures SumValues(OpenOf(m)) == SumValues(OpenOf(m - {id})) + if m[id].inBreach then 1 else 0
    ensures SumValues(RawOf(m)) == SumValues(RawOf(m - {id})) + m[id].rawTicks
    ensures SumValues(DurationsOf(m, endNs))
            == SumValues(DurationsOf(m - {id}, endNs)) + m[id].duration
               + if m[id].inBreach then endNs - m[id].start else 0
  {
    SumValuesAt(TotalsOf(m), id);
    SumValuesAt(OpenOf(m), id);
    SumValuesAt(RawOf(m), id);
    SumValuesAt(DurationsOf(m, endNs), id);
    assert TotalsOf(m) - {id} == TotalsOf(m - {id});
    assert OpenOf(m) - {id} == OpenOf(m - {id});
    assert RawOf(m) - {id} == RawOf(m - {id});
    assert DurationsOf(m, endNs) - {id} == DurationsOf(m - {id}, endNs);
  }

  /** Seconds and their average, in nanoseconds again. */
  lemma UnitsAreSeconds(ns: int, count: int)
    ensures Seconds(ns) * 1000000000.0 == ns as real
    ensures count > 0 ==> Average(ns, count) * count as real * 1000000000.0 == ns as real
    ensures count <= 0 ==> Average(ns, count) == 0.0
  {
  }

  /** The longest episode of a store that is reported at the time of its last sample. */
  lemma LongestIsTheLongest(trace: seq<Sample>)
    requires InOrder(trace) && trace != []
    ensures var now := trace[|trace| - 1].t;
            var longest := LongestOf(Watched(trace), now);
            && (forall d | d in Ended(trace) :: d <= longest)
            && (Overloaded(trace) ==> now - EnteredAt(trace) <= longest)
            && (longest == 0 || longest in Ended(trace) || (Overloaded(trace) && longest == now - EnteredAt(trace)))
  {
    RecordRefinesTrace(trace);
  }

  ghost function TimesOf(traces: map<string, seq<Sample>>): map<string, int> {
    map id | id in traces :: TimeOverloaded(traces[id])
  }

  ghost function TicksOf(traces: map<string, seq<Sample>>): map<string, int> {
    map id | id in traces :: OverTicks(traces[id])
  }

  /**
   * Reported at the time of the last samples, the durations add up to the time the stores
   * were overloaded, those still overloaded included, and the raw ticks to their ticks.
   */
  lemma SummaryAddsUpTheTime(traces: map<string, seq<Sample>>, now: int)
    requires forall id | id in traces ::
               InOrder(traces[id]) && traces[id] != [] && traces[id][|traces[id]| - 1].t == now
    ensures SumValues(DurationsOf(RecordsOf(traces), now)) == SumValues(TimesOf(traces))
    ensures SumValues(RawOf(RecordsOf(traces))) == SumValues(TicksOf(traces))
  {
    forall id | id in traces
      ensures DurationsOf(RecordsOf(traces), now)[id] == TimesOf(traces)[id]
      ensures RawOf(RecordsOf(traces))[id] == TicksOf(traces)[id]
    {
      DurationsFillTheTime(traces[id]);
      RecordRefinesTrace(traces[id]);
    }
    assert DurationsOf(RecordsOf(traces), now) == TimesOf(traces);
    assert RawOf(RecordsOf(traces)) == TicksOf(traces);
  }

  ghost function EntriesOf(traces: map<string, seq<Sample>>): map<string, int> {
    map id | id in traces :: Entries(traces[id])
  }

  ghost function RecordsOf(traces: map<string, seq<Sample>>): map<string, Episodes> {
    map id | id in traces :: Watched(traces[id])
  }

  /**
   * An episode that is still going on was counted when it began, and the summary counts
   * it once more: it reports the true number exactly when no store is overloaded.
   */
  lemma OpenEpisodesCountTwice(traces: map<string, seq<Sample>>)
    requires forall id | id in traces :: InOrder(traces[id])
    ensures SumValues(TotalsOf(RecordsOf(traces))) == SumValues(EntriesOf(traces))
    ensures SumValues(OpenOf(RecordsOf(traces))) >= 0
    ensures SumValues(OpenOf(RecordsOf(traces))) == 0 <==> forall id | id in traces :: !Overloaded(traces[id])
  {
    forall id | id in traces
      ensures Watched(traces[id]).total == Entries(traces[id])
      ensures Watched(traces[id]).inBreach <==> Overloaded(traces[id])
    {
      RecordRefinesTrace(traces[id]);
    }
    assert TotalsOf(RecordsOf(traces)) == EntriesOf(traces);
    SumOfFlags(OpenOf(RecordsOf(traces)));
    assert forall id | id in traces :: OpenOf(RecordsOf(traces))[id] == if Overloaded(traces[id]) then 1 else 0;
  }

  lemma {:induction false} SumOfFlags(m: map<string, int>)
    requires forall id | id in m :: m[id] == 0 || m[id] == 1
    ensures SumValues(m) >= 0
    ensures SumValues(m) == 0 <==> forall id | id in m :: m[id] == 0
    decreases |m|
  {
    if m != map[] {
      var k :| k in m;
      SumValuesAt(m, k);
      SumOfFlags(m - {k});
      forall id | id in m ensures SumValues(m) == 0 ==> m[id] == 0 {
        assert id != k ==> id in m - {k} && (m - {k})[id] == m[id];
      }
    }
  }
}
