/**
 * What a caller does that wrote later than it read: the exact effect of a removal, a
 * finalization or a join whose write comes after other calls have changed the cart.
 */
module TornCarts {
  import opened Options
  import opened Carts
  import opened CartRuns

  // ---------- a caller between its read and its write ----------

  /** The cart a caller has read and will write. */
  function Key(p: Pending): string
    requires HoldsSnapshot(p)
  {
    if p.Joining? then p.seen.id else p.cartId
  }

  /** What a caller makes of a cart. */
  function Change(p: Pending, c: Cart): Cart
    requires HoldsSnapshot(p)
  {
    match p
    case Removing(_, itemId, _) => Removed(c, itemId)
    case Finalizing(_, _) => Closed(c)
    case Joining(geofence, host, _, _) => Joined(c, geofence, host)
  }

  /** Where the `p`th waiting caller stands after some actions; nowhere once it has written. */
  function Place(actions: seq<Action>, p: nat): Option<nat>
    decreases |actions|
  {
    if actions == [] then Some(p)
    else
      var a, rest := actions[0], actions[1..];
      if !a.Write? || p < a.p then Place(rest, p)
      else if a.p < p then Place(rest, p - 1)
      else None
  }

  lemma {:induction false} WaitingCallersWait(s: Shop, actions: seq<Action>, s': Shop, p: nat)
    requires Run(s, actions) == Some(s') && p < |s.pending| && !s.pending[p].LookedUp?
    requires Place(actions, p).Some?
    ensures Place(actions, p).value < |s'.pending| && s'.pending[Place(actions, p).value] == s.pending[p]
    decreases |actions|
  {
    hide Written;
    if actions != [] {
      var a := actions[0];
      var m := Step(s, a).value;
      if a.Write? && a.p < p {
        WaitingCallersWait(m, actions[1..], s', p - 1);
      } else {
        WaitingCallersWait(m, actions[1..], s', p);
      }
    }
  }

  /** Nobody has written who would have written a cart that is only added to. */
  lemma {:induction false} WritersOfTheCartWait(s: Shop, actions: seq<Action>, s': Shop, p: nat)
    requires Run(s, actions) == Some(s') && p < |s.pending| && HoldsSnapshot(s.pending[p])
    requires OnlyAddedTo(s, actions, Key(s.pending[p]))
    ensures Place(actions, p).Some?
    decreases |actions|
  {
    hide Written;
    if actions != [] {
      var a := actions[0];
      var m := Step(s, a).value;
      if a.Write? && a.p < p {
        WritersOfTheCartWait(m, actions[1..], s', p - 1);
      } else {
        WritersOfTheCartWait(m, actions[1..], s', p);
      }
    }
  }

  /**
   * Whatever has happened since it read, a caller's write leaves exactly its change of
   * what it read, and touches no other cart.
   */
  lemma LateWrite(s: Shop, middle: seq<Action>, s': Shop, p: nat, freshId: string) returns (p': nat, s'': Shop)
    requires Run(s, middle) == Some(s') && p < |s.pending| && HoldsSnapshot(s.pending[p])
    requires Place(middle, p).Some?
    ensures Place(middle, p) == Some(p') && Step(s', Write(p', freshId)) == Some(s'')
    ensures s''.shelf == Put(s'.shelf, Key(s.pending[p]), Change(s.pending[p], s.pending[p].seen))
  {
    hide Run, Removed, Joined;
    WaitingCallersWait(s, middle, s', p);
    p' := Place(middle, p).value;
    s'' := Step(s', Write(p', freshId)).value;
  }

  // ---------- additions in between ----------

  function AddAll(c: Cart, items: seq<Item>): Cart
    decreases |items|
  {
    if items == [] then c else AddAll(Added(c, items[0]), items[1..])
  }

  lemma {:induction false} AddAllGrows(c: Cart, items: seq<Item>)
    ensures AddAll(c, items).items == c.items + items
    decreases |items|
  {
    if items == [] {
      assert c.items + [] == c.items;
    } else {
      AddAllGrows(Added(c, items[0]), items[1..]);
      assert (c.items + [items[0]]) + items[1..] == c.items + items;
    }
  }

  /** A cart that is only added to is the old one with everything added that was added, step by step. */
  lemma {:induction false} AdditionsAddUp(s: Shop, actions: seq<Action>, s': Shop, cartId: string)
    requires Run(s, actions) == Some(s') && OnlyAddedTo(s, actions, cartId)
    requires Open(s.shelf, cartId, true).Ok?
    ensures Open(s'.shelf, cartId, true).Ok?
    ensures s'.shelf.carts[cartId] == AddAll(s.shelf.carts[cartId], AddedTo(actions, cartId))
    decreases |actions|
  {
    hide Step;
    if actions != [] {
      var a := actions[0];
      var m := Step(s, a).value;
      OtherStepsPass(s, a, m, cartId);
      AdditionsAddUp(m, actions[1..], s', cartId);
      var rest := AddedTo(actions[1..], cartId);
      if a.Add? && a.cartId == cartId {
        assert ([a.item] + rest)[1..] == rest;
      } else {
        assert [] + rest == rest;
      }
    }
  }

  /** The cart is on the shelf, active, just as this caller has read it. */
  predicate JustRead(s: Shop, p: nat) {
    && p < |s.pending| && HoldsSnapshot(s.pending[p])
    && Open(s.shelf, Key(s.pending[p]), true) == Ok(s.pending[p].seen)
  }

  /** What a caller's change leaves are items it has read, and the seeds of the demo join. */
  lemma ChangeAddsNothing(q: Pending)
    requires HoldsSnapshot(q)
    ensures forall item | item in Change(q, q.seen).items ::
              item in q.seen.items || (q.Joining? && q.geofence == DEMO_GEOFENCE && item in SEEDS_1 + SEEDS_2)
  {
  }

  /**
   * For every caller that reads first, and every run in which the cart is otherwise only
   * added to: until the write all items that were added are in the cart, in the order of
   * their steps; the write leaves the caller's change of what it read; so of the additions,
   * all answered with success, not one is left that was not there before, the demo join's
   * own seeds aside.
   */
  lemma AdditionCanBeLost(s: Shop, middle: seq<Action>, s': Shop, p: nat, freshId: string) returns (p': nat, s'': Shop)
    requires JustRead(s, p) && Run(s, middle) == Some(s') && OnlyAddedTo(s, middle, Key(s.pending[p]))
    ensures Place(middle, p) == Some(p') && Step(s', Write(p', freshId)) == Some(s'')
    ensures var q, added := s.pending[p], AddedTo(middle, Key(s.pending[p]));
            && Key(q) in s'.shelf.carts && s'.shelf.carts[Key(q)].items == q.seen.items + added
            && s''.shelf == Put(s'.shelf, Key(q), Change(q, q.seen))
            && (forall item | item in added :: item in s'.shelf.carts[Key(q)].items)
            && (forall item | item in s''.shelf.carts[Key(q)].items ::
                  item in q.seen.items || (q.Joining? && q.geofence == DEMO_GEOFENCE && item in SEEDS_1 + SEEDS_2))
  {
    hide Run, Step, OnlyAddedTo, Change;
    var q := s.pending[p];
    WritersOfTheCartWait(s, middle, s', p);
    p', s'' := LateWrite(s, middle, s', p, freshId);
    AdditionsAddUp(s, middle, s', Key(q));
    AddAllGrows(q.seen, AddedTo(middle, Key(q)));
    PutIsThere(s'.shelf, Key(q), Change(q, q.seen));
    ChangeAddsNothing(q);
  }

  lemma PutIsThere(s: Shelf, key: string, c: Cart)
    ensures key in Put(s, key, c).carts && Put(s, key, c).carts[key] == c
  {
  }

  // ---------- when a late write is as good as a whole call ----------

  /** A removal whose item came only after its read: it removes nothing, and the addition is overwritten. */
  predicate RemovesTheAddition(seen: Cart, itemId: string, added: seq<Item>) {
    && |added| == 1 && AnswersTo(added[0], itemId) && FirstMatch(seen.items, itemId) == |seen.items|
    && (seen.unlocked || seen.total + added[0].price < seen.threshold
        || (0 < seen.threshold && seen.total < seen.threshold))
  }

  lemma {:induction false} MatchBefore(a: seq<Item>, b: seq<Item>, itemId: string)
    ensures FirstMatch(a + b, itemId)
            == if FirstMatch(a, itemId) < |a| then FirstMatch(a, itemId) else |a| + FirstMatch(b, itemId)
  {
    if a == [] {
      assert a + b == b;
    } else {
      MatchBefore(a[1..], b, itemId);
      assert (a + b)[1..] == a[1..] + b;
    }
  }

  /** A removal leaves the same whether it read the cart before or after some additions. */
  lemma LateRemovalIsWholeIff(seen: Cart, itemId: string, added: seq<Item>)
    ensures Removed(seen, itemId) == Removed(AddAll(seen, added), itemId)
            <==> added == [] || RemovesTheAddition(seen, itemId, added)
  {
    var now := AddAll(seen, added);
    AddAllGrows(seen, added);
    MatchBefore(seen.items, added, itemId);
    if |added| == 1 {
      assert added[1..] == [];
      assert now == Added(seen, added[0]);
      if FirstMatch(seen.items, itemId) == |seen.items| && AnswersTo(added[0], itemId) {
        assert Without(now.items, |seen.items|) == seen.items;
      }
    }
  }

  lemma LateFinalizationIsWholeIff(seen: Cart, added: seq<Item>)
    ensures Closed(seen) == Closed(AddAll(seen, added)) <==> added == []
  {
    AddAllGrows(seen, added);
  }

  /** The added items are seed items the demo join would have brought along, and they unlocked nothing. */
  predicate SuppliesTheSeeds(seen: Cart, geofence: string, added: seq<Item>) {
    geofence == DEMO_GEOFENCE && added + Seeds(seen.items + added) == Seeds(seen.items)
    && AddAll(seen, added).unlocked == seen.unlocked
  }

  lemma {:induction false} AddAllKeeps(c: Cart, items: seq<Item>)
    ensures var c' := AddAll(c, items);
            c' == c.(items := c'.items, total := c'.total, unlocked := c'.unlocked)
    decreases |items|
  {
    if items != [] {
      AddAllKeeps(Added(c, items[0]), items[1..]);
    }
  }

  lemma LateJoinIsWholeIff(seen: Cart, geofence: string, host: Member, added: seq<Item>)
    ensures Joined(seen, geofence, host) == Joined(AddAll(seen, added), geofence, host)
            <==> added == [] || SuppliesTheSeeds(seen, geofence, added)
  {
    hide AddAll, Seeds, Sum;
    AddAllGrows(seen, added);
    AddAllKeeps(seen, added);
    if added == [] {
      AddNothing(seen);
    } else if geofence == DEMO_GEOFENCE {
      var items := seen.items;
      assert (items + added) + Seeds(items + added) == items + (added + Seeds(items + added));
      SamePrefix(items, added + Seeds(items + added), Seeds(items));
    }
  }

  lemma AddNothing(c: Cart)
    ensures AddAll(c, []) == c
  {
  }

  lemma SamePrefix(a: seq<Item>, b: seq<Item>, c: seq<Item>)
    ensures a + b == a + c <==> b == c
  {
    assert (a + b)[|a|..] == b && (a + c)[|a|..] == c;
  }

  /** The additions a late write does no harm to. */
  predicate Harmless(q: Pending, added: seq<Item>)
    requires HoldsSnapshot(q)
  {
    || added == []
    || (q.Removing? && RemovesTheAddition(q.seen, q.itemId, added))
    || (q.Joining? && SuppliesTheSeeds(q.seen, q.geofence, added))
  }

  /**
   * Where the cart is otherwise only added to, a late write leaves what the whole call
   * would leave at that moment exactly when nothing was added since the read, when a
   * removal found nothing and the one item added is the one it would now remove, or when
   * the demo join's own seed items were added.
   */
  lemma LateWriteIsWholeIff(s: Shop, middle: seq<Action>, s': Shop, p: nat)
    requires JustRead(s, p) && Run(s, middle) == Some(s') && OnlyAddedTo(s, middle, Key(s.pending[p]))
    ensures var q := s.pending[p];
            && Key(q) in s'.shelf.carts
            && (Put(s'.shelf, Key(q), Change(q, q.seen)) == Put(s'.shelf, Key(q), Change(q, s'.shelf.carts[Key(q)]))
                <==> Harmless(q, AddedTo(middle, Key(q))))
  {
    hide Run, OnlyAddedTo, Removed, Joined, RemovesTheAddition, SuppliesTheSeeds;
    var q := s.pending[p];
    var added := AddedTo(middle, Key(q));
    AdditionsAddUp(s, middle, s', Key(q));
    PutIsThere(s'.shelf, Key(q), Change(q, q.seen));
    PutIsThere(s'.shelf, Key(q), Change(q, s'.shelf.carts[Key(q)]));
    match q
    case Removing(_, itemId, seen) => LateRemovalIsWholeIff(seen, itemId, added);
    case Finalizing(_, seen) => LateFinalizationIsWholeIff(seen, added);
    case Joining(geofence, host, _, seen) => LateJoinIsWholeIff(seen, geofence, host, added);
  }

  // ---------- a finalization in between ----------

  /** Whoever waits to remove or to join has read an active cart. */
  ghost predicate SnapshotsActive(s: Shop) {
    forall q | q in s.pending && (q.Removing? || q.Joining?) :: q.seen.status == Active
  }

  lemma {:induction false} SnapshotsStayActive(s: Shop, actions: seq<Action>, s': Shop)
    requires SnapshotsActive(s) && Run(s, actions) == Some(s')
    ensures SnapshotsActive(s')
    decreases |actions|
  {
    hide Written;
    if actions != [] {
      SnapshotsStayActive(Step(s, actions[0]).value, actions[1..], s');
    }
  }

  lemma ChangeKeepsStatus(q: Pending, c: Cart)
    requires HoldsSnapshot(q)
    ensures Change(q, c).status == if q.Finalizing? then Finalized else c.status
  {
  }

  /**
   * In every run of the store, and whatever else happens in between: a finalization that
   * comes between a caller's read and its write is kept by that write exactly when the
   * caller finalizes too. A removal or a join that read before it makes the cart active again.
   */
  lemma FinalizationCanBeOverwritten(
      before: seq<Action>, s: Shop, middle: seq<Action>, s': Shop, p: nat, freshId: string)
    returns (p': nat, s'': Shop)
    requires Run(EMPTY_SHOP, before) == Some(s) && Run(s, middle) == Some(s')
    requires p < |s.pending| && HoldsSnapshot(s.pending[p]) && Place(middle, p).Some?
    requires Key(s.pending[p]) in s'.shelf.carts && s'.shelf.carts[Key(s.pending[p])].status == Finalized
    ensures Place(middle, p) == Some(p') && Step(s', Write(p', freshId)) == Some(s'')
    ensures var q := s.pending[p];
            && s''.shelf == Put(s'.shelf, Key(q), Change(q, q.seen))
            && (s''.shelf.carts[Key(q)].status == Finalized <==> q.Finalizing?)
            && (s''.shelf.carts[Key(q)].status == Active <==> !q.Finalizing?)
  {
    hide Run, Step, Change;
    SnapshotsStayActive(EMPTY_SHOP, before, s);
    var q := s.pending[p];
    p', s'' := LateWrite(s, middle, s', p, freshId);
    ChangeKeepsStatus(q, q.seen);
    PutIsThere(s'.shelf, Key(q), Change(q, q.seen));
  }

  // ---------- it does happen ----------

  lemma RunFirst(s: Shop, a: Action, m: Shop, rest: seq<Action>)
    requires Step(s, a) == Some(m)
    ensures Run(s, [a] + rest) == Run(m, rest)
  {
    hide Step;
    assert ([a] + rest)[1..] == rest;
  }

  lemma ThreeSteps(s: Shop, a1: Action, m1: Shop, a2: Action, m2: Shop, a3: Action, m3: Shop)
    requires Step(s, a1) == Some(m1) && Step(m1, a2) == Some(m2) && Step(m2, a3) == Some(m3)
    ensures Run(s, [a1, a2, a3]) == Some(m3)
  {
    assert Run(m3, []) == Some(m3);
    hide Step, Run;
    RunFirst(m2, a3, m3, []);
    RunFirst(m1, a2, m2, [a3] + []);
    RunFirst(s, a1, m1, [a2] + ([a3] + []));
    assert [a1, a2, a3] == [a1] + ([a2] + ([a3] + []));
  }

  /** A removal: from every state with the cart active, three steps lose an addition without a trace. */
  lemma RemovalLosesAnAddition(s: Shop, cartId: string, itemId: string, item: Item, freshId: string)
    requires Open(s.shelf, cartId, true).Ok?
    ensures var c := s.shelf.carts[cartId];
            var actions := [ReadToRemove(cartId, itemId), Add(cartId, item), Write(|s.pending|, freshId)];
            Run(s, actions) == Some(s.(shelf := Put(s.shelf, cartId, Removed(c, itemId))))
  {
    hide Removed, Added;
    var c := s.shelf.carts[cartId];
    var m1 := s.(pending := s.pending + [Removing(cartId, itemId, c)]);
    var m2 := m1.(shelf := Put(s.shelf, cartId, Added(c, item)));
    var m3 := s.(shelf := Put(s.shelf, cartId, Removed(c, itemId)));
    PutTwice(s.shelf, cartId, Added(c, item), Removed(c, itemId));
    assert Drop(m2.pending, |s.pending|) == s.pending;
    ThreeSteps(s, ReadToRemove(cartId, itemId), m1, Add(cartId, item), m2, Write(|s.pending|, freshId), m3);
  }

  lemma PutTwice(s: Shelf, key: string, c: Cart, c': Cart)
    ensures Put(Put(s, key, c), key, c') == Put(s, key, c')
  {
  }

  /** A join: from every state in which the geofence has an active cart, four steps lose an addition. */
  lemma JoinLosesAnAddition(s: Shop, geofence: string, host: Member, threshold: int, item: Item, freshId: string)
    requires Current(s.shelf, geofence).Some? && Current(s.shelf, geofence).value.id == s.shelf.active[geofence]
    ensures var c := Current(s.shelf, geofence).value;
            var p := |s.pending|;
            var actions := [LookUp(geofence, host, threshold), ReadToJoin(p), Add(c.id, item), Write(p, freshId)];
            Run(s, actions) == Some(s.(shelf := Put(s.shelf, c.id, Joined(c, geofence, host))))
  {
    hide Joined, Added, Run;
    var c := Current(s.shelf, geofence).value;
    var p := |s.pending|;
    var m1 := s.(pending := s.pending + [LookedUp(geofence, host, threshold, c.id)]);
    var m2 := s.(pending := s.pending + [Joining(geofence, host, threshold, c)]);
    var m3 := m2.(shelf := Put(s.shelf, c.id, Added(c, item)));
    var m4 := s.(shelf := Put(s.shelf, c.id, Joined(c, geofence, host)));
    assert m1.pending[p := Joining(geofence, host, threshold, c)] == m2.pending;
    PutTwice(s.shelf, c.id, Added(c, item), Joined(c, geofence, host));
    assert Drop(m3.pending, p) == s.pending;
    ThreeSteps(m1, ReadToJoin(p), m2, Add(c.id, item), m3, Write(p, freshId), m4);
    RunFirst(s, LookUp(geofence, host, threshold), m1, [ReadToJoin(p), Add(c.id, item), Write(p, freshId)]);
    assert [LookUp(geofence, host, threshold), ReadToJoin(p), Add(c.id, item), Write(p, freshId)]
           == [LookUp(geofence, host, threshold)] + [ReadToJoin(p), Add(c.id, item), Write(p, freshId)];
  }

  /** A finalization between the read and the write of a removal: the cart ends up active. */
  lemma RemovalUndoesAFinalization(s: Shop, cartId: string, itemId: string, freshId: string) returns (m: Shop)
    requires Open(s.shelf, cartId, true).Ok?
    ensures Run(s, [ReadToRemove(cartId, itemId), ReadToFinalize(cartId), Write(|s.pending| + 1, freshId)]) == Some(m)
    ensures m.shelf.carts == s.shelf.carts[cartId := Closed(s.shelf.carts[cartId])]
    ensures Step(m, Write(|s.pending|, freshId))
            == Some(s.(shelf := Put(s.shelf, cartId, Removed(s.shelf.carts[cartId], itemId))))
    ensures Removed(s.shelf.carts[cartId], itemId).status == Active
  {
    hide Run;
    var c := s.shelf.carts[cartId];
    var m1 := s.(pending := s.pending + [Removing(cartId, itemId, c)]);
    var m2 := m1.(pending := m1.pending + [Finalizing(cartId, c)]);
    m := m1.(shelf := Put(s.shelf, cartId, Closed(c)));
    assert Drop(m2.pending, |s.pending| + 1) == m1.pending;
    ThreeSteps(s, ReadToRemove(cartId, itemId), m1, ReadToFinalize(cartId), m2, Write(|s.pending| + 1, freshId), m);
    assert Drop(m.pending, |s.pending|) == s.pending;
    ChangeKeepsStatus(Removing(cartId, itemId, c), c);
    hide Removed;
    assert Put(m.shelf, cartId, Removed(c, itemId)) == Put(s.shelf, cartId, Removed(c, itemId));
  }

}
