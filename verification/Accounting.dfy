/** The network accounting check. */
module Accounting {
  import opened Options
  import opened Orders
  import opened Stores

  datatype NetworkSummary = NetworkSummary(
    totalCreated: int,
    totalCompleted: int,
    totalInQueue: int,
    totalInPicking: int,
    totalDropped: int,
    totalMerged: int,
    activeInSystem: int)

  /** What a store contributes to the four sums of the check. */
  function CompletedIn(s: StoreState): int { s.completed }

  function QueuedIn(s: StoreState): int { |s.queue| }

  function PickingIn(s: StoreState): int { s.picking }

  function ExcessIn(s: StoreState): int { Excess(s.queue) }

  function Total(f: StoreState -> int, stores: seq<StoreState>): int {
    if stores == [] then 0 else Total(f, stores[..|stores| - 1]) + f(stores[|stores| - 1])
  }

  /** Merged orders, from the two counters when both are given and from the queues otherwise. */
  function NetMerged(stores: seq<StoreState>, mergedAndNudge: seq<int>): int {
    if |mergedAndNudge| >= 2 then
      if mergedAndNudge[0] > mergedAndNudge[1] then mergedAndNudge[0] - mergedAndNudge[1] else 0
    else Total(ExcessIn, stores)
  }

  function Summarize(stores: seq<StoreState>, created: int, mergedAndNudge: seq<int>): NetworkSummary {
    var completed, queued, picking, merged :=
      Total(CompletedIn, stores), Total(QueuedIn, stores), Total(PickingIn, stores), NetMerged(stores, mergedAndNudge);
    NetworkSummary(created, completed, queued, picking, 0, merged, completed + queued + picking + merged)
  }

  /** The check: the summary, as an error when it does not balance. */
  function Audit(stores: seq<StoreState>, created: int, mergedAndNudge: seq<int>)
    : Result<NetworkSummary, NetworkSummary>
  {
    var summary := Summarize(stores, created, mergedAndNudge);
    if created != summary.activeInSystem then Err(summary) else Ok(summary)
  }

  /**
   * What the check reports: nothing for no stores, each further store's own numbers under
   * their own names, and the merged orders of the counters or of the queues. It errs exactly
   * when the created orders are not the sum of what it reports.
   */
  lemma AuditReports(stores: seq<StoreState>, s: StoreState, created: int, mergedAndNudge: seq<int>)
    ensures var none, before, after := Summarize([], created, mergedAndNudge),
                                       Summarize(stores, created, mergedAndNudge),
                                       Summarize(stores + [s], created, mergedAndNudge);
            && none.totalCompleted == none.totalInQueue == none.totalInPicking == 0
            && after.totalCompleted == before.totalCompleted + s.completed
            && after.totalInQueue == before.totalInQueue + |s.queue|
            && after.totalInPicking == before.totalInPicking + s.picking
            && after.totalCreated == created && after.totalDropped == 0
            && (|mergedAndNudge| >= 2 ==>
                  && after.totalMerged == before.totalMerged == none.totalMerged >= 0
                  && (after.totalMerged > 0 ==> after.totalMerged == mergedAndNudge[0] - mergedAndNudge[1])
                  && (after.totalMerged == 0 <==> mergedAndNudge[0] <= mergedAndNudge[1]))
            && (|mergedAndNudge| < 2 ==>
                  none.totalMerged == 0 && after.totalMerged == before.totalMerged + Excess(s.queue))
            && (Audit(stores + [s], created, mergedAndNudge).Ok?
                <==> created == after.totalCompleted + after.totalInQueue + after.totalInPicking + after.totalMerged)
            && (Audit(stores + [s], created, mergedAndNudge).Ok? ==>
                  Audit(stores + [s], created, mergedAndNudge).value == after)
            && (Audit(stores + [s], created, mergedAndNudge).Err? ==>
                  Audit(stores + [s], created, mergedAndNudge).error == after)
  {
    hide Excess;
    assert (stores + [s])[..|stores|] == stores;
  }

  /** A queue stands for as many merged orders as its consolidated orders' counts exceed one, order by order. */
  lemma ExcessOrderByOrder(q: seq<Order>, o: Order)
    ensures Excess([]) == 0
    ensures Excess(q + [o]) == Excess(q) + if o.consolidated && o.count > 1 then o.count - 1 else 0
  {
    ExcessConcat(q, [o]);
    assert Excess([o]) == ExcessOf(o) + Excess([]);
  }

  method ScanQueue(queue: seq<Order>) returns (netMerged: int)
    ensures netMerged == Excess(queue)
  {
    netMerged := 0;
    var i := 0;
    while i < |queue|
      invariant i <= |queue|
      invariant netMerged + Excess(queue[i..]) == Excess(queue)
    {
      var ord := queue[i];
      assert queue[i..][0] == ord && queue[i..][1..] == queue[i + 1..];
      if ord.consolidated && ord.count > 1 {
        netMerged := netMerged + (ord.count - 1);
      }
      i := i + 1;
    }
  }

  /** The fallback without counters: scans every queue for consolidated orders. */
  method ScanStores(stores: seq<Store>) returns (netMerged: int)
    ensures netMerged == Total(ExcessIn, old(States(stores)))
  {
    ghost var states := States(stores);
    netMerged := 0;
    var i := 0;
    while i < |stores|
      invariant i <= |stores|
      invariant netMerged == Total(ExcessIn, states[..i])
    {
      assert states[..i + 1][..i] == states[..i] && states[i] == stores[i].State();
      var excess := ScanQueue(stores[i].currentQueue.orders);
      netMerged := netMerged + excess;
      i := i + 1;
    }
    assert states[..i] == states;
  }

  lemma NothingCounted()
    ensures Total(CompletedIn, []) == Total(QueuedIn, []) == Total(PickingIn, []) == 0
  {
  }

  lemma OneMoreStore(states: seq<StoreState>, i: nat)
    requires i < |states|
    ensures Total(CompletedIn, states[..i + 1]) == Total(CompletedIn, states[..i]) + states[i].completed
    ensures Total(QueuedIn, states[..i + 1]) == Total(QueuedIn, states[..i]) + |states[i].queue|
    ensures Total(PickingIn, states[..i + 1]) == Total(PickingIn, states[..i]) + states[i].picking
  {
    assert states[..i + 1][..i] == states[..i];
  }

  method VerifyNetworkAccountingInvariant(stores: seq<Store>, totalCreated: int, mergedAndNudge: seq<int>)
    returns (result: Result<NetworkSummary, NetworkSummary>)
    ensures result == Audit(old(States(stores)), totalCreated, mergedAndNudge)
  {
    hide Total, States, Excess;
    ghost var states := States(stores);
    assert states[..0] == [];
    NothingCounted();
    var totCompleted, totInQueue, totInPicking, netMerged := 0, 0, 0, 0;
    if |mergedAndNudge| >= 2 {
      if mergedAndNudge[0] > mergedAndNudge[1] {
        netMerged := mergedAndNudge[0] - mergedAndNudge[1];
      }
    } else {
      netMerged := ScanStores(stores);
    }
    var i := 0;
    while i < |stores|
      invariant i <= |stores|
      invariant totCompleted == Total(CompletedIn, states[..i])
      invariant totInQueue == Total(QueuedIn, states[..i])
      invariant totInPicking == Total(PickingIn, states[..i])
    {
      assert states[i] == stores[i].State();
      OneMoreStore(states, i);
      totCompleted := totCompleted + stores[i].completedCount;
      var queued := stores[i].currentQueue.Len();
      totInQueue := totInQueue + queued;
      totInPicking := totInPicking + stores[i].activePickingCount;
      i := i + 1;
    }
    assert states[..i] == states;
    var active := totCompleted + totInQueue + totInPicking + netMerged;
    var summary := NetworkSummary(totalCreated, totCompleted, totInQueue, totInPicking, 0, netMerged, active);
    if totalCreated != active {
      result := Err(summary);
    } else {
      result := Ok(summary);
    }
  }
}
