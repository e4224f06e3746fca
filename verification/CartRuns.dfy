/**
 * Many callers on one cart store. An addition is one atomic step. A removal, a
 * finalization and a join read the cart in one step and write it in a later one, and
 * anything may happen in between.
 */
module CartRuns {
  import opened Options
  import opened Carts

  /** A caller that has read and not yet written. */
  datatype Pending =
    | Removing(cartId: string, itemId: string, seen: Cart)
    | Finalizing(cartId: string, seen: Cart)
    | LookedUp(geofence: string, host: Member, threshold: int, found: string)
    | Joining(geofence: string, host: Member, threshold: int, seen: Cart)
    | Founding(geofence: string, host: Member, threshold: int)

  datatype Shop = Shop(shelf: Shelf, pending: seq<Pending>)

  datatype Action =
    | Add(cartId: string, item: Item)
    | ReadToRemove(cartId: string, itemId: string)
    | ReadToFinalize(cartId: string)
    | LookUp(geofence: string, host: Member, threshold: int)
    | ReadToJoin(p: nat)
    | Write(p: nat, freshId: string)

  function Drop(ps: seq<Pending>, p: nat): seq<Pending>
    requires p < |ps|
  {
    ps[..p] + ps[p + 1..]
  }

  /** What a caller writes: the cart as it was read, changed. */
  function Written(s: Shelf, p: Pending, freshId: string): Shelf
    requires !p.LookedUp?
  {
    match p
    case Removing(cartId, itemId, seen) => Put(s, cartId, Removed(seen, itemId))
    case Finalizing(cartId, seen) => Put(s, cartId, Closed(seen))
    case Joining(geofence, host, _, seen) => Put(s, seen.id, Joined(seen, geofence, host))
    case Founding(geofence, host, threshold) => Opened(s, Founded(freshId, geofence, host, threshold))
  }

  /** One step of one caller; a call that ends in an error changes nothing. */
  function Step(s: Shop, a: Action): Option<Shop> {
    match a
    case Add(cartId, item) =>
      (match Open(s.shelf, cartId, true)
       case Err(_) => Some(s)
       case Ok(c) => Some(s.(shelf := Put(s.shelf, cartId, Added(c, item)))))
    case ReadToRemove(cartId, itemId) =>
      (match Open(s.shelf, cartId, true)
       case Err(_) => Some(s)
       case Ok(c) => Some(s.(pending := s.pending + [Removing(cartId, itemId, c)])))
    case ReadToFinalize(cartId) =>
      (match Open(s.shelf, cartId, false)
       case Err(_) => Some(s)
       case Ok(c) => Some(s.(pending := s.pending + [Finalizing(cartId, c)])))
    case LookUp(geofence, host, threshold) =>
      var found := if geofence in s.shelf.active then s.shelf.active[geofence] else "";
      Some(s.(pending := s.pending
                         + [if found == "" then Founding(geofence, host, threshold)
                            else LookedUp(geofence, host, threshold, found)]))
    case ReadToJoin(p) =>
      if p >= |s.pending| || !s.pending[p].LookedUp? then None
      else
        var q := s.pending[p];
        var next := match Open(s.shelf, q.found, true)
                    case Ok(c) => Joining(q.geofence, q.host, q.threshold, c)
                    case Err(_) => Founding(q.geofence, q.host, q.threshold);
        Some(s.(pending := s.pending[p := next]))
    case Write(p, freshId) =>
      if p >= |s.pending| || s.pending[p].LookedUp? then None
      else Some(Shop(Written(s.shelf, s.pending[p], freshId), Drop(s.pending, p)))
  }

  function Run(s: Shop, actions: seq<Action>): Option<Shop>
    decreases |actions|
  {
    if actions == [] then Some(s)
    else
      match Step(s, actions[0])
      case None => None
      case Some(s') => Run(s', actions[1..])
  }

  // ---------- every cart ever stored is honest ----------

  predicate HoldsSnapshot(p: Pending) {
    p.Removing? || p.Finalizing? || p.Joining?
  }

  /** Every stored cart is honest and under its own id, and so is every cart somebody has read. */
  ghost predicate AllHonest(s: Shop) {
    && (forall k | k in s.shelf.carts :: Honest(s.shelf.carts[k]) && s.shelf.carts[k].id == k)
    && (forall p | p in s.pending && HoldsSnapshot(p) :: Honest(p.seen))
    && (forall p | p in s.pending && (p.Removing? || p.Finalizing?) :: p.seen.id == p.cartId)
  }

  predicate PricesAreFair(actions: seq<Action>) {
    forall a | a in actions && a.Add? :: a.item.price >= 0
  }

  lemma WriteKeepsHonest(s: Shop, p: nat, freshId: string)
    requires AllHonest(s) && p < |s.pending| && !s.pending[p].LookedUp?
    ensures AllHonest(Shop(Written(s.shelf, s.pending[p], freshId), Drop(s.pending, p)))
  {
    hide Honest, Removed, Joined, Founded;
    var q := s.pending[p];
    assert q in s.pending;
    match q
    case Removing(_, itemId, seen) => RemoveKeeps(seen, itemId);
    case Finalizing(_, seen) => CloseKeeps(seen);
    case Joining(geofence, host, _, seen) => JoinKeeps(seen, geofence, host);
    case Founding(geofence, host, threshold) => FoundKeeps(freshId, geofence, host, threshold);
  }

  lemma RemoveKeeps(c: Cart, itemId: string)
    requires Honest(c)
    ensures Honest(Removed(c, itemId)) && Removed(c, itemId).id == c.id
  {
    RemoveKeepsHonest(c, itemId);
  }

  lemma CloseKeeps(c: Cart)
    ensures Honest(c) ==> Honest(Closed(c))
  {
  }

  lemma JoinKeeps(c: Cart, geofence: string, host: Member)
    requires Honest(c)
    ensures Honest(Joined(c, geofence, host)) && Joined(c, geofence, host).id == c.id
  {
    JoinKeepsHonest(c, geofence, host);
  }

  lemma FoundKeeps(id: string, geofence: string, host: Member, threshold: int)
    ensures Honest(Founded(id, geofence, host, threshold)) && Founded(id, geofence, host, threshold).id == id
  {
    FoundedIsExact(id, geofence, host, threshold);
  }

  lemma StepKeepsHonest(s: Shop, a: Action, s': Shop)
    requires AllHonest(s) && Step(s, a) == Some(s') && (a.Add? ==> a.item.price >= 0)
    ensures AllHonest(s')
  {
    hide Honest, Removed, Joined, Founded;
    match a
    case Add(cartId, item) =>
      if cartId in s.shelf.carts {
        AddKeepsHonest(s.shelf.carts[cartId], item);
      }
    case Write(p, freshId) => WriteKeepsHonest(s, p, freshId);
    case _ =>
  }

  /**
   * In every interleaving of additions, removals, finalizations and joins, torn or not,
   * every stored cart's total is the sum of its items' prices and an unlocked cart has
   * reached its threshold, as long as no price is negative.
   */
  lemma {:induction false} EveryStoredCartIsHonest(s: Shop, actions: seq<Action>, s': Shop)
    requires AllHonest(s) && PricesAreFair(actions) && Run(s, actions) == Some(s')
    ensures AllHonest(s')
    ensures forall k | k in s'.shelf.carts ::
              s'.shelf.carts[k].total == Sum(s'.shelf.carts[k].items)
              && (s'.shelf.carts[k].unlocked ==> s'.shelf.carts[k].total >= s'.shelf.carts[k].threshold)
    decreases |actions|
  {
    hide Step, AllHonest;
    if actions != [] {
      var m := Step(s, actions[0]).value;
      assert actions[0] in actions;
      StepKeepsHonest(s, actions[0], m);
      EveryStoredCartIsHonest(m, actions[1..], s');
    } else {
      StoredAreHonest(s');
    }
  }

  lemma StoredAreHonest(s: Shop)
    requires AllHonest(s)
    ensures forall k | k in s.shelf.carts :: Honest(s.shelf.carts[k])
  {
  }

  const EMPTY_SHOP := Shop(Shelf(map[], map[]), [])

  lemma EmptyShopIsHonest()
    ensures AllHonest(EMPTY_SHOP)
  {
  }

  /** In every run that begins with an empty store every stored cart is honest. */
  lemma EveryCartSinceTheStartIsHonest(actions: seq<Action>, s: Shop)
    requires PricesAreFair(actions) && Run(EMPTY_SHOP, actions) == Some(s)
    ensures forall k | k in s.shelf.carts :: Honest(s.shelf.carts[k]) && s.shelf.carts[k].id == k
  {
    EmptyShopIsHonest();
    EveryStoredCartIsHonest(EMPTY_SHOP, actions, s);
  }

  // ---------- additions among themselves ----------

  /** The items added to a cart, in the order of their steps. */
  function AddedTo(actions: seq<Action>, cartId: string): seq<Item> {
    if actions == [] then []
    else
      (if actions[0].Add? && actions[0].cartId == cartId then [actions[0].item] else [])
      + AddedTo(actions[1..], cartId)
  }

  /** The cart a write goes to. */
  function Aim(p: Pending, freshId: string): string
    requires !p.LookedUp?
  {
    match p
    case Removing(cartId, _, _) => cartId
    case Finalizing(cartId, _) => cartId
    case Joining(_, _, _, seen) => seen.id
    case Founding(_, _, _) => freshId
  }

  /** No read-then-write call writes this cart during the run. */
  predicate OnlyAddedTo(s: Shop, actions: seq<Action>, cartId: string)
    decreases |actions|
  {
    actions == []
    || (var a := actions[0];
        && (a.Write? && a.p < |s.pending| && !s.pending[a.p].LookedUp? ==> Aim(s.pending[a.p], a.freshId) != cartId)
        && match Step(s, a)
           case None => true
           case Some(s') => OnlyAddedTo(s', actions[1..], cartId))
  }

  /**
   * While an active cart is only added to, however many callers add, none of their
   * items is lost or doubled, the total grows by their prices, and their order is that of the steps.
   */
  lemma {:induction false} AdditionsLoseNothing(s: Shop, actions: seq<Action>, s': Shop, cartId: string)
    requires Run(s, actions) == Some(s') && OnlyAddedTo(s, actions, cartId)
    requires Open(s.shelf, cartId, true).Ok?
    ensures Open(s'.shelf, cartId, true).Ok?
    ensures s'.shelf.carts[cartId].items == s.shelf.carts[cartId].items + AddedTo(actions, cartId)
    ensures s'.shelf.carts[cartId].total == s.shelf.carts[cartId].total + Sum(AddedTo(actions, cartId))
    decreases |actions|
  {
    hide Step;
    if actions == [] {
      assert s.shelf.carts[cartId].items + [] == s.shelf.carts[cartId].items;
    } else {
      var m := Step(s, actions[0]).value;
      OtherStepsPass(s, actions[0], m, cartId);
      AdditionsLoseNothing(m, actions[1..], s', cartId);
      var rest := AddedTo(actions[1..], cartId);
      if actions[0].Add? && actions[0].cartId == cartId {
        SumConcat([actions[0].item], rest);
        SumConcat([], [actions[0].item]);
      } else {
        assert [] + rest == rest;
      }
    }
  }

  lemma OtherStepsPass(s: Shop, a: Action, s': Shop, cartId: string)
    requires Step(s, a) == Some(s') && Open(s.shelf, cartId, true).Ok?
    requires a.Write? && a.p < |s.pending| && !s.pending[a.p].LookedUp? ==> Aim(s.pending[a.p], a.freshId) != cartId
    ensures cartId in s'.shelf.carts
    ensures s'.shelf.carts[cartId]
            == if a.Add? && a.cartId == cartId then Added(s.shelf.carts[cartId], a.item) else s.shelf.carts[cartId]
  {
    hide Added, Removed, Joined;
  }

  // ---------- runs without a torn call are atomic ----------

  /** Nothing relevant has changed since the caller read: the write is not torn. */
  predicate StillCurrent(s: Shelf, p: Pending) {
    match p
    case Removing(cartId, _, seen) => Open(s, cartId, true) == Ok(seen)
    case Finalizing(cartId, seen) => Open(s, cartId, false) == Ok(seen)
    case LookedUp(_, _, _, _) => true
    case Joining(geofence, _, _, seen) => Current(s, geofence) == Some(seen)
    case Founding(geofence, _, _) => Current(s, geofence) == None
  }

  predicate NeverTorn(s: Shop, actions: seq<Action>)
    decreases |actions|
  {
    actions == []
    || (var a := actions[0];
        && (a.Write? && a.p < |s.pending| ==> StillCurrent(s.shelf, s.pending[a.p]))
        && match Step(s, a)
           case None => true
           case Some(s') => NeverTorn(s', actions[1..]))
  }

  /** The call that takes effect in a step, if one does. */
  function CallOf(s: Shop, a: Action): seq<Call> {
    match a
    case Add(cartId, item) => [AddCall(cartId, item)]
    case Write(p, freshId) =>
      if p >= |s.pending| then []
      else
        (match s.pending[p]
         case Removing(cartId, itemId, _) => [RemoveCall(cartId, itemId)]
         case Finalizing(cartId, _) => [FinalizeCall(cartId)]
         case LookedUp(_, _, _, _) => []
         case Joining(geofence, host, threshold, _) => [JoinCall(geofence, host, threshold, freshId)]
         case Founding(geofence, host, threshold) => [JoinCall(geofence, host, threshold, freshId)])
    case _ => []
  }

  function CallsOf(s: Shop, actions: seq<Action>): seq<Call>
    decreases |actions|
  {
    if actions == [] then []
    else
      match Step(s, actions[0])
      case None => []
      case Some(s') => CallOf(s, actions[0]) + CallsOf(s', actions[1..])
  }

  lemma CurrentStepsAreAtomic(s: Shop, a: Action, s': Shop)
    requires Step(s, a) == Some(s') && (a.Write? && a.p < |s.pending| ==> StillCurrent(s.shelf, s.pending[a.p]))
    ensures AtomicRun(s.shelf, CallOf(s, a)) == s'.shelf
  {
    hide Added, Removed, Joined, Founded;
    var calls := CallOf(s, a);
    if calls != [] {
      assert calls[1..] == [];
    }
  }

  /**
   * A run in which no write is torn leaves the shelf that whole, atomic calls would
   * have left, each placed where its write was.
   */
  lemma {:induction false} UntornRunsAreAtomic(s: Shop, actions: seq<Action>, s': Shop)
    requires Run(s, actions) == Some(s') && NeverTorn(s, actions)
    ensures AtomicRun(s.shelf, CallsOf(s, actions)) == s'.shelf
    decreases |actions|
  {
    hide Step, StillCurrent, Atomic, CallOf;
    if actions != [] {
      var m := Step(s, actions[0]).value;
      CurrentStepsAreAtomic(s, actions[0], m);
      UntornRunsAreAtomic(m, actions[1..], s');
      AtomicRunsAppend(s.shelf, CallOf(s, actions[0]), CallsOf(m, actions[1..]));
    }
  }

  /** Every whole call is a run of steps of one caller, from every shelf. */
  lemma WholeCallsAreRuns(s: Shelf, call: Call) returns (actions: seq<Action>)
    requires Filed(s)
    ensures Run(Shop(s, []), actions) == Some(Shop(Atomic(s, call), []))
  {
    hide Added, Removed, Joined, Founded, Closed;
    var shop := Shop(s, []);
    match call
    case AddCall(cartId, item) =>
      actions := [Add(cartId, item)];
      RunEnds(shop, actions[0], Shop(Atomic(s, call), []));
    case RemoveCall(cartId, itemId) =>
      if Open(s, cartId, true).Ok? {
        var p := Removing(cartId, itemId, s.carts[cartId]);
        assert shop.pending + [p] == [p];
        actions := TwoStepCall(shop, ReadToRemove(cartId, itemId), p, "");
      } else {
        actions := [ReadToRemove(cartId, itemId)];
        RunEnds(shop, actions[0], shop);
      }
    case FinalizeCall(cartId) =>
      if Open(s, cartId, false).Ok? {
        var p := Finalizing(cartId, s.carts[cartId]);
        assert shop.pending + [p] == [p];
        actions := TwoStepCall(shop, ReadToFinalize(cartId), p, "");
      } else {
        actions := [ReadToFinalize(cartId)];
        RunEnds(shop, actions[0], shop);
      }
    case JoinCall(geofence, host, threshold, freshId) =>
      var found := if geofence in s.active then s.active[geofence] else "";
      if found == "" {
        var p := Founding(geofence, host, threshold);
        assert shop.pending + [p] == [p];
        actions := TwoStepCall(shop, LookUp(geofence, host, threshold), p, freshId);
      } else {
        var looked := shop.(pending := [LookedUp(geofence, host, threshold, found)]);
        var next := match Current(s, geofence)
                    case Some(c) => Joining(geofence, host, threshold, c)
                    case None => Founding(geofence, host, threshold);
        assert [LookedUp(geofence, host, threshold, found)][0 := next] == [next];
        assert shop.pending + [LookedUp(geofence, host, threshold, found)] == looked.pending;
        WriteEnds(s, next, freshId);
        RunOn(shop.(pending := [next]), Write(0, freshId), Shop(Written(s, next, freshId), []), []);
        RunOn(looked, ReadToJoin(0), shop.(pending := [next]), [Write(0, freshId)] + []);
        RunOn(shop, LookUp(geofence, host, threshold), looked, [ReadToJoin(0)] + ([Write(0, freshId)] + []));
        actions := [LookUp(geofence, host, threshold)] + ([ReadToJoin(0)] + ([Write(0, freshId)] + []));
      }
  }

  lemma RunOn(s: Shop, a: Action, s': Shop, rest: seq<Action>)
    requires Step(s, a) == Some(s')
    ensures Run(s, [a] + rest) == Run(s', rest)
    ensures Run(s', []) == Some(s')
  {
    hide Step;
    assert ([a] + rest)[1..] == rest;
  }

  lemma RunEnds(s: Shop, a: Action, s': Shop)
    requires Step(s, a) == Some(s')
    ensures Run(s, [a]) == Some(s')
  {
    hide Step;
    RunOn(s, a, s', []);
    assert [a] + [] == [a];
  }

  lemma WriteEnds(s: Shelf, p: Pending, freshId: string)
    requires !p.LookedUp?
    ensures Step(Shop(s, [p]), Write(0, freshId)) == Some(Shop(Written(s, p, freshId), []))
  {
    hide Written;
    assert Drop([p], 0) == [];
  }

  lemma TwoStepCall(s: Shop, read: Action, p: Pending, freshId: string) returns (actions: seq<Action>)
    requires s.pending == [] && !p.LookedUp? && Step(s, read) == Some(s.(pending := [p]))
    ensures Run(s, actions) == Some(Shop(Written(s.shelf, p, freshId), []))
  {
    WriteEnds(s.shelf, p, freshId);
    hide Step, Written;
    RunOn(s.(pending := [p]), Write(0, freshId), Shop(Written(s.shelf, p, freshId), []), []);
    RunOn(s, read, s.(pending := [p]), [Write(0, freshId)] + []);
    actions := [read] + ([Write(0, freshId)] + []);
  }

  // ---------- unlock events ----------

  /** The cart has reached its threshold. */
  predicate Reached(s: Shelf, cartId: string) {
    cartId in s.carts && s.carts[cartId].total >= s.carts[cartId].threshold
  }

  /** This call announces that the cart is unlocked. */
  predicate Announces(s: Shelf, call: Call, cartId: string) {
    call.AddCall? && call.cartId == cartId && Open(s, cartId, true).Ok? && JustUnlocked(s.carts[cartId], call.item)
  }

  function Announcements(s: Shelf, calls: seq<Call>, cartId: string): nat
    decreases |calls|
  {
    if calls == [] then 0
    else (if Announces(s, calls[0], cartId) then 1 else 0) + Announcements(Atomic(s, calls[0]), calls[1..], cartId)
  }

  /** How often the cart's total goes from below the threshold to it or above. */
  function Crossings(s: Shelf, calls: seq<Call>, cartId: string): nat
    decreases |calls|
  {
    if calls == [] then 0
    else (if !Reached(s, cartId) && Reached(Atomic(s, calls[0]), cartId) then 1 else 0)
         + Crossings(Atomic(s, calls[0]), calls[1..], cartId)
  }

  /** Prices are not negative, the demo geofence is not joined, and ids are fresh. */
  predicate Ordinary(calls: seq<Call>, cartId: string) {
    && (forall c | c in calls && c.AddCall? :: c.item.price >= 0)
    && (forall c | c in calls && c.JoinCall? :: c.geofence != DEMO_GEOFENCE && c.freshId != cartId)
  }

  /** The cart is on the shelf, exact, and no other cart is filed under its id or writes to it. */
  ghost predicate Tracked(s: Shelf, cartId: string) {
    && cartId in s.carts && Exact(s.carts[cartId])
    && forall k | k in s.carts :: s.carts[k].id == k
  }

  lemma CallKeepsTrack(s: Shelf, call: Call, cartId: string)
    requires Tracked(s, cartId) && Ordinary([call], cartId)
    ensures Tracked(Atomic(s, call), cartId)
    ensures Announces(s, call, cartId) <==> !Reached(s, cartId) && Reached(Atomic(s, call), cartId)
    ensures !(call.RemoveCall? && call.cartId == cartId) && Reached(s, cartId) ==> Reached(Atomic(s, call), cartId)
  {
    hide Honest, Founded;
    assert call in [call];
    var c := s.carts[cartId];
    assert Honest(c) && c.id == cartId;
    match call
    case AddCall(_, item) => AddKeepsHonest(c, item);
    case RemoveCall(_, itemId) => RemoveKeepsHonest(c, itemId);
    case FinalizeCall(_) => CloseKeeps(c);
    case JoinCall(geofence, host, threshold, freshId) =>
      JoinKeepsHonest(c, geofence, host);
      FoundKeeps(freshId, geofence, host, threshold);
  }

  /**
   * Over every run of whole calls outside the demo geofence the cart is unlocked
   * exactly while its total reaches the threshold, and the unlock event fires once for
   * every time the total crosses it upwards. Without removals that is at most once:
   * exactly when the total was below at first and is not in the end.
   */
  lemma {:induction false} UnlocksAreCrossings(s: Shelf, calls: seq<Call>, cartId: string)
    requires Tracked(s, cartId) && Ordinary(calls, cartId)
    ensures var s' := AtomicRun(s, calls);
            && Tracked(s', cartId)
            && (s'.carts[cartId].unlocked <==> Reached(s', cartId))
            && Announcements(s, calls, cartId) == Crossings(s, calls, cartId)
            && ((forall c | c in calls :: !(c.RemoveCall? && c.cartId == cartId)) ==>
                  Announcements(s, calls, cartId) == if !Reached(s, cartId) && Reached(s', cartId) then 1 else 0)
            && ((forall c | c in calls :: !(c.RemoveCall? && c.cartId == cartId)) && Reached(s, cartId) ==>
                  Reached(s', cartId))
    decreases |calls|
  {
    hide Atomic, Announces;
    if calls != [] {
      var call := calls[0];
      assert call in calls;
      CallKeepsTrack(s, call, cartId);
      UnlocksAreCrossings(Atomic(s, call), calls[1..], cartId);
    }
  }

  // ---------- the event can fire any number of times ----------

  /** An item is added and taken out again, n times. */
  function Cycles(cartId: string, item: Item, n: nat): seq<Call> {
    if n == 0 then [] else [AddCall(cartId, item), RemoveCall(cartId, item.id)] + Cycles(cartId, item, n - 1)
  }

  /** Adding an item to a locked cart and removing it leaves everything as it was. */
  lemma AddAndRemove(s: Shelf, cartId: string, item: Item)
    requires Open(s, cartId, true).Ok? && Exact(s.carts[cartId]) && !s.carts[cartId].unlocked
    requires FirstMatch(s.carts[cartId].items, item.id) == |s.carts[cartId].items|
    ensures Atomic(Atomic(s, AddCall(cartId, item)), RemoveCall(cartId, item.id)) == s
  {
    var c := s.carts[cartId];
    SumNotNegative(c.items);
    FirstMatchAtTheEnd(c.items, item);
    var c' := Removed(Added(c, item), item.id);
    assert c'.items == c.items && c'.total == c.total && c' == c;
    assert s.carts[cartId := Added(c, item)][cartId := c] == s.carts;
  }

  lemma {:induction false} FirstMatchAtTheEnd(items: seq<Item>, item: Item)
    requires FirstMatch(items, item.id) == |items|
    ensures FirstMatch(items + [item], item.id) == |items|
  {
    if items == [] {
      assert items + [item] == [item];
    } else {
      FirstMatchAtTheEnd(items[1..], item);
      assert (items + [item])[1..] == items[1..] + [item];
    }
  }

  /**
   * A removal arms the unlock event again: wherever one new item brings a locked cart to
   * its threshold, adding it and taking it out n times announces the unlocking n times.
   */
  lemma {:induction false} RemovalsArmTheEvent(s: Shelf, cartId: string, item: Item, n: nat)
    requires Open(s, cartId, true).Ok? && Exact(s.carts[cartId]) && !Reached(s, cartId)
    requires s.carts[cartId].total + item.price >= s.carts[cartId].threshold
    requires FirstMatch(s.carts[cartId].items, item.id) == |s.carts[cartId].items|
    ensures Announcements(s, Cycles(cartId, item, n), cartId) == n
    ensures AtomicRun(s, Cycles(cartId, item, n)) == s
    decreases n
  {
    if n > 0 {
      var add, remove, rest := AddCall(cartId, item), RemoveCall(cartId, item.id), Cycles(cartId, item, n - 1);
      AddAndRemove(s, cartId, item);
      RemovalsArmTheEvent(s, cartId, item, n - 1);
      assert Announces(s, add, cartId) && !Announces(Atomic(s, add), remove, cartId);
      hide Announces, Atomic;
      assert ([add, remove] + rest)[1..] == [remove] + rest && ([remove] + rest)[1..] == rest;
      assert Announcements(Atomic(s, add), [remove] + rest, cartId) == Announcements(s, rest, cartId);
    }
  }

  // ---------- torn runs outside the demo geofence ----------

  /** Every stored cart and every cart somebody has read is exact, and nobody is about to join the demo geofence. */
  ghost predicate AllExact(s: Shop) {
    && (forall k | k in s.shelf.carts :: Exact(s.shelf.carts[k]) && s.shelf.carts[k].id == k)
    && (forall p | p in s.pending && HoldsSnapshot(p) :: Exact(p.seen))
    && (forall p | p in s.pending && (p.Removing? || p.Finalizing?) :: p.seen.id == p.cartId)
    && (forall p | p in s.pending && (p.LookedUp? || p.Joining? || p.Founding?) :: p.geofence != DEMO_GEOFENCE)
  }

  predicate OrdinaryActions(actions: seq<Action>) {
    && PricesAreFair(actions)
    && forall a | a in actions && a.LookUp? :: a.geofence != DEMO_GEOFENCE
  }

  lemma WriteIsExact(p: Pending, freshId: string)
    requires HoldsSnapshot(p) ==> Exact(p.seen)
    requires p.Joining? || p.Founding? ==> p.geofence != DEMO_GEOFENCE
    ensures p.Removing? ==> Exact(Removed(p.seen, p.itemId)) && Removed(p.seen, p.itemId).id == p.seen.id
    ensures p.Finalizing? ==> Exact(Closed(p.seen)) && Closed(p.seen).id == p.seen.id
    ensures p.Joining? ==> Exact(Joined(p.seen, p.geofence, p.host))
                           && Joined(p.seen, p.geofence, p.host).id == p.seen.id
    ensures p.Founding? ==> Exact(Founded(freshId, p.geofence, p.host, p.threshold))
                            && Founded(freshId, p.geofence, p.host, p.threshold).id == freshId
  {
    hide Honest;
    match p
    case Removing(_, itemId, seen) => RemoveKeepsHonest(seen, itemId);
    case Finalizing(_, seen) => CloseKeeps(seen);
    case LookedUp(_, _, _, _) =>
    case Joining(geofence, host, _, seen) => JoinKeepsHonest(seen, geofence, host);
    case Founding(geofence, host, threshold) => FoundedIsExact(freshId, geofence, host, threshold);
  }

  lemma StepKeepsExact(s: Shop, a: Action, s': Shop)
    requires AllExact(s) && Step(s, a) == Some(s') && OrdinaryActions([a])
    ensures AllExact(s')
  {
    hide Exact, Added, Removed, Joined, Founded, Closed;
    assert a in [a];
    match a
    case Add(cartId, item) =>
      if cartId in s.shelf.carts {
        AddIsExact(s.shelf.carts[cartId], item);
      }
    case Write(p, freshId) =>
      assert s.pending[p] in s.pending;
      WriteIsExact(s.pending[p], freshId);
      FoundedIn(s.pending[p], freshId);
    case _ =>
  }

  lemma AddIsExact(c: Cart, item: Item)
    requires Exact(c) && item.price >= 0
    ensures Exact(Added(c, item)) && Added(c, item).id == c.id
  {
    AddKeepsHonest(c, item);
  }

  lemma FoundedIn(p: Pending, freshId: string)
    ensures p.Founding? ==> Founded(freshId, p.geofence, p.host, p.threshold).geofence == p.geofence
  {
  }

  /** This step is an addition that announces that the cart is unlocked. */
  predicate StepAnnounces(s: Shop, a: Action, cartId: string) {
    a.Add? && Announces(s.shelf, AddCall(a.cartId, a.item), cartId)
  }

  /** This step is an addition that takes the cart's total from below the threshold to it or above. */
  predicate AdditionCrosses(s: Shop, a: Action, cartId: string) {
    && a.Add? && a.cartId == cartId && !Reached(s.shelf, cartId)
    && match Step(s, a)
       case None => false
       case Some(s') => Reached(s'.shelf, cartId)
  }

  function CountSteps(s: Shop, actions: seq<Action>, counts: (Shop, Action) -> bool): nat
    decreases |actions|
  {
    if actions == [] then 0
    else
      (if counts(s, actions[0]) then 1 else 0)
      + match Step(s, actions[0])
        case None => 0
        case Some(s') => CountSteps(s', actions[1..], counts)
  }

  /**
   * In every interleaving outside the demo geofence, torn or not, every stored cart is
   * unlocked exactly while its total reaches its threshold; and the unlock event fires
   * exactly when an addition takes the total across. A late write may also take it across,
   * without a word.
   */
  lemma {:induction false} TornRunsStayExact(s: Shop, actions: seq<Action>, s': Shop, cartId: string)
    requires AllExact(s) && OrdinaryActions(actions) && Run(s, actions) == Some(s')
    ensures AllExact(s')
    ensures forall k | k in s'.shelf.carts :: s'.shelf.carts[k].unlocked <==> Reached(s'.shelf, k)
    ensures CountSteps(s, actions, (x, a) => StepAnnounces(x, a, cartId))
            == CountSteps(s, actions, (x, a) => AdditionCrosses(x, a, cartId))
    decreases |actions|
  {
    hide Step, Exact, StepAnnounces, AdditionCrosses, Reached;
    StoredAreExact(s);
    if actions != [] {
      var a := actions[0];
      var m := Step(s, a).value;
      assert a in actions;
      StepKeepsExact(s, a, m);
      AnnouncedIsCrossed(s, a, cartId);
      TornRunsStayExact(m, actions[1..], s', cartId);
    }
  }

  lemma StoredAreExact(s: Shop)
    requires AllExact(s)
    ensures forall k | k in s.shelf.carts :: s.shelf.carts[k].unlocked <==> Reached(s.shelf, k)
  {
  }

  lemma AnnouncedIsCrossed(s: Shop, a: Action, cartId: string)
    requires AllExact(s) && Step(s, a).Some?
    ensures StepAnnounces(s, a, cartId) <==> AdditionCrosses(s, a, cartId)
  {
    if a.Add? && cartId in s.shelf.carts {
      assert Exact(s.shelf.carts[cartId]);
    }
  }
}
