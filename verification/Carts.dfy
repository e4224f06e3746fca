/** Group carts: the effect of each store operation on a cart, and the store itself. */
module Carts {
  import opened Options

  datatype Member = Member(id: string, displayName: string)

  datatype Item = Item(id: string, sku: string, name: string, price: int, addedBy: string)

  datatype CartStatus = Active | Finalized | Expired

  datatype Cart = Cart(
    id: string,
    geofence: string,
    members: seq<Member>,
    items: seq<Item>,
    threshold: int,
    unlocked: bool,
    total: int,
    status: CartStatus)

  datatype CartError = NotFound | NotActive

  /** What Redis holds: carts by id, and the id of the active cart of a geofence. */
  datatype Shelf = Shelf(carts: map<string, Cart>, active: map<string, string>)

  const DEMO_GEOFENCE := "geofence-aravali"
  const SEEDS_1 := [Item("item-seed-1", "sku-milk-1", "Amul Taaza Milk (1L)", 7500, "mem-1"),
                    Item("item-seed-2", "sku-bread-1", "Brown Bread", 4000, "mem-1")]
  const SEEDS_2 := [Item("item-seed-3", "sku-chips-1", "Lay's Magic Masala (52g)", 2000, "mem-2"),
                    Item("item-seed-4", "sku-cola-1", "Coca-Cola Bottle (750ml)", 4000, "mem-2")]
  const DEMO_MEMBER_1 := Member("mem-1", "Aarav Mehta (Flat 402)")
  const DEMO_MEMBER_2 := Member("mem-2", "Priya Sharma (Flat 201)")

  function Sum(items: seq<Item>): int {
    if items == [] then 0 else Sum(items[..|items| - 1]) + items[|items| - 1].price
  }

  lemma {:induction false} SumConcat(a: seq<Item>, b: seq<Item>)
    ensures Sum(a + b) == Sum(a) + Sum(b)
  {
    if b == [] {
      assert a + b == a;
    } else {
      SumConcat(a, b[..|b| - 1]);
      assert (a + b)[..|a + b| - 1] == a + b[..|b| - 1];
    }
  }

  predicate NoNegativePrice(items: seq<Item>) {
    forall i | 0 <= i < |items| :: items[i].price >= 0
  }

  lemma {:induction false} SumNotNegative(items: seq<Item>)
    requires NoNegativePrice(items)
    ensures Sum(items) >= 0
  {
    if items != [] {
      SumNotNegative(items[..|items| - 1]);
    }
  }

  // ---------- the operations on one cart ----------

  function Added(c: Cart, item: Item): Cart {
    c.(items := c.items + [item], total := c.total + item.price,
       unlocked := c.unlocked || c.total + item.price >= c.threshold)
  }

  /** The addition that fires the unlock event. */
  predicate JustUnlocked(c: Cart, item: Item) {
    c.total + item.price >= c.threshold && !c.unlocked
  }

  /** An item answers to its id, and to its name or stock code when those are asked for. */
  predicate AnswersTo(item: Item, itemId: string) {
    item.id == itemId || (itemId != "" && item.name == itemId) || (itemId != "" && item.sku == itemId)
  }

  /** The place of the first item that answers, or the length. */
  function FirstMatch(items: seq<Item>, itemId: string): (k: nat)
    ensures k <= |items|
    ensures k < |items| ==> AnswersTo(items[k], itemId)
    ensures forall i | 0 <= i < k :: !AnswersTo(items[i], itemId)
  {
    if items == [] then 0
    else if AnswersTo(items[0], itemId) then 0
    else 1 + FirstMatch(items[1..], itemId)
  }

  function Without(items: seq<Item>, k: nat): seq<Item> {
    if k < |items| then items[..k] + items[k + 1..] else items
  }

  function PriceAt(items: seq<Item>, k: nat): int {
    if k < |items| then items[k].price else 0
  }

  function Removed(c: Cart, itemId: string): Cart {
    var k := FirstMatch(c.items, itemId);
    var rest := c.total - PriceAt(c.items, k);
    var total := if rest < 0 then 0 else rest;
    c.(items := Without(c.items, k), total := total, unlocked := c.unlocked && total >= c.threshold)
  }

  function Closed(c: Cart): Cart {
    c.(status := Finalized)
  }

  predicate HasMember(members: seq<Member>, id: string) {
    exists i :: 0 <= i < |members| && members[i].id == id
  }

  predicate HasItemOf(items: seq<Item>, id: string) {
    exists i :: 0 <= i < |items| && items[i].addedBy == id
  }

  function Seeds(items: seq<Item>): seq<Item> {
    (if HasItemOf(items, "mem-1") then [] else SEEDS_1) + (if HasItemOf(items, "mem-2") then [] else SEEDS_2)
  }

  /** A member joins; in the demo geofence missing seed items come along and the total is summed up again. */
  function Joined(c: Cart, geofence: string, host: Member): Cart {
    var c' := if HasMember(c.members, host.id) then c else c.(members := c.members + [host]);
    if geofence == DEMO_GEOFENCE then
      var items := c.items + Seeds(c.items);
      c'.(items := items, total := Sum(items))
    else c'
  }

  function Founded(id: string, geofence: string, host: Member, threshold: int): Cart {
    var demo := geofence == DEMO_GEOFENCE;
    var total := if demo then 17500 else 0;
    Cart(id, geofence,
         [host] + (if demo && host.id != "mem-1" then [DEMO_MEMBER_1] else [])
                + (if demo && host.id != "mem-2" then [DEMO_MEMBER_2] else []),
         if demo then SEEDS_1 + SEEDS_2 else [], threshold, total >= threshold, total, Active)
  }

  // ---------- what an operation keeps ----------

  /** The promise a cart makes: its total is what its items cost, and the discount is earned. */
  ghost predicate Honest(c: Cart) {
    && c.total == Sum(c.items)
    && (c.unlocked ==> c.total >= c.threshold)
    && NoNegativePrice(c.items)
  }

  /** Honest, and the discount is not withheld either. */
  ghost predicate Exact(c: Cart) {
    Honest(c) && (c.unlocked <==> c.total >= c.threshold)
  }

  lemma {:induction false} WithoutSums(items: seq<Item>, k: nat)
    ensures Sum(Without(items, k)) == Sum(items) - PriceAt(items, k)
  {
    if k < |items| {
      assert items == (items[..k] + [items[k]]) + items[k + 1..];
      SumConcat(items[..k] + [items[k]], items[k + 1..]);
      SumConcat(items[..k], [items[k]]);
      SumConcat(items[..k], items[k + 1..]);
      assert Sum([items[k]]) == items[k].price;
    }
  }

  /**
   * A removal takes out the first item with that id, or with that name or stock code if one
   * is given, and closes the gap; without one it changes no item. Nothing else of the cart
   * but its total and its discount changes.
   */
  lemma RemoveTakesTheFirst(c: Cart, itemId: string) returns (before: seq<Item>, after: seq<Item>)
    ensures (exists item :: item in c.items && IsMeant(item, itemId)) ==>
              && |c.items| == |before| + 1 + |after| && c.items == before + [c.items[|before|]] + after
              && IsMeant(c.items[|before|], itemId) && Removed(c, itemId).items == before + after
    ensures forall item | item in before :: !IsMeant(item, itemId)
    ensures (forall item | item in c.items :: !IsMeant(item, itemId)) ==> Removed(c, itemId).items == c.items
    ensures Removed(c, itemId) == c.(items := Removed(c, itemId).items, total := Removed(c, itemId).total,
                                     unlocked := Removed(c, itemId).unlocked)
    ensures Removed(c, itemId).unlocked <==> c.unlocked && Removed(c, itemId).total >= c.threshold
  {
    var k := FirstMatch(c.items, itemId);
    before, after := c.items[..k], if k < |c.items| then c.items[k + 1..] else [];
    assert forall item :: IsMeant(item, itemId) <==> AnswersTo(item, itemId);
  }

  /** The empty string is nobody's name or stock code, but can be an id. */
  predicate IsMeant(item: Item, itemId: string) {
    if itemId == "" then item.id == "" else itemId in {item.id, item.name, item.sku}
  }

  /** An addition puts the item last and its price on the total, and touches nothing else but the discount. */
  lemma AddPutsItLast(c: Cart, item: Item)
    ensures var c' := Added(c, item);
            && |c'.items| == |c.items| + 1 && c'.items[|c.items|] == item && c.items <= c'.items
            && c'.total - c.total == item.price
            && (c'.unlocked <==> c.unlocked || c'.total >= c.threshold)
            && (JustUnlocked(c, item) <==> !c.unlocked && c'.unlocked)
            && c' == c.(items := c'.items, total := c'.total, unlocked := c'.unlocked)
  {
  }

  lemma AddKeepsHonest(c: Cart, item: Item)
    requires item.price >= 0
    ensures Honest(c) ==> Honest(Added(c, item))
    ensures Exact(c) ==> Exact(Added(c, item))
  {
    SumConcat(c.items, [item]);
    assert Sum([item]) == item.price;
  }

  /** Removal takes the first item that answers, at its price; the clamp at zero changes nothing. */
  lemma RemoveKeepsHonest(c: Cart, itemId: string)
    requires Honest(c)
    ensures Honest(Removed(c, itemId))
    ensures Exact(c) ==> Exact(Removed(c, itemId))
    ensures Removed(c, itemId).total == c.total - PriceAt(c.items, FirstMatch(c.items, itemId)) <= c.total
  {
    var k := FirstMatch(c.items, itemId);
    WithoutSums(c.items, k);
    SumNotNegative(Without(c.items, k));
  }

  lemma JoinKeepsHonest(c: Cart, geofence: string, host: Member)
    requires Honest(c)
    ensures Honest(Joined(c, geofence, host))
    ensures geofence != DEMO_GEOFENCE && Exact(c) ==> Exact(Joined(c, geofence, host))
  {
    SumConcat(c.items, Seeds(c.items));
    assert NoNegativePrice(Seeds(c.items));
    SumNotNegative(Seeds(c.items));
  }

  predicate DistinctMembers(members: seq<Member>) {
    forall i, j :: 0 <= i < j < |members| ==> members[i].id != members[j].id
  }

  /**
   * Joining makes the host a member once and only once, keeps everybody and everything
   * that was there, and doing it again changes nothing.
   */
  lemma JoinIsIdempotent(c: Cart, geofence: string, host: Member)
    ensures var c' := Joined(c, geofence, host);
            && HasMember(c'.members, host.id)
            && c.members <= c'.members && c.items <= c'.items
            && (DistinctMembers(c.members) ==> DistinctMembers(c'.members))
            && Joined(c', geofence, host) == c'
            && (geofence == DEMO_GEOFENCE ==> HasItemOf(c'.items, "mem-1") && HasItemOf(c'.items, "mem-2"))
  {
    var c' := Joined(c, geofence, host);
    if !HasMember(c.members, host.id) {
      assert c'.members[|c.members|].id == host.id;
    }
    if geofence == DEMO_GEOFENCE {
      SeedsAreThere(c.items);
      assert c'.items + Seeds(c'.items) == c'.items;
    }
  }

  lemma SeedsAreThere(items: seq<Item>)
    ensures var items' := items + Seeds(items);
            HasItemOf(items', "mem-1") && HasItemOf(items', "mem-2") && Seeds(items') == []
  {
    var items' := items + Seeds(items);
    if HasItemOf(items, "mem-1") {
      var i :| 0 <= i < |items| && items[i].addedBy == "mem-1";
      assert items'[i].addedBy == "mem-1";
    } else {
      assert items'[|items|].addedBy == "mem-1";
    }
    if HasItemOf(items, "mem-2") {
      var i :| 0 <= i < |items| && items[i].addedBy == "mem-2";
      assert items'[i].addedBy == "mem-2";
    } else {
      assert items'[|items'| - 1].addedBy == "mem-2";
    }
  }

  /**
   * The join path of the demo geofence adds seed items without looking at the discount:
   * an exact cart stays exact there exactly when it was unlocked already or the seeds
   * do not bring it to its threshold.
   */
  lemma DemoJoinKeepsExactIff(c: Cart, host: Member)
    requires Exact(c)
    ensures Exact(Joined(c, DEMO_GEOFENCE, host)) <==> c.unlocked || c.total + Sum(Seeds(c.items)) < c.threshold
  {
    JoinKeepsHonest(c, DEMO_GEOFENCE, host);
    SumConcat(c.items, Seeds(c.items));
    assert NoNegativePrice(Seeds(c.items));
    SumNotNegative(Seeds(c.items));
  }

  lemma FoundedIsExact(id: string, geofence: string, host: Member, threshold: int)
    ensures Exact(Founded(id, geofence, host, threshold))
  {
    assert Sum(SEEDS_1) == 11500 by { SumOfTwo(SEEDS_1[0], SEEDS_1[1]); }
    assert Sum(SEEDS_2) == 6000 by { SumOfTwo(SEEDS_2[0], SEEDS_2[1]); }
    SumConcat(SEEDS_1, SEEDS_2);
  }

  lemma SumOfTwo(a: Item, b: Item)
    ensures Sum([a, b]) == a.price + b.price
  {
    assert [a, b] == [a] + [b];
    SumConcat([a], [b]);
    assert Sum([a]) == a.price && Sum([b]) == b.price;
  }

  /**
   * Prices are not validated on their way in. An addition keeps an earned discount
   * earned exactly when it does not bring an unlocked cart below its threshold.
   */
  lemma AddKeepsDiscountIff(c: Cart, item: Item)
    requires c.unlocked ==> c.total >= c.threshold
    ensures (Added(c, item).unlocked ==> Added(c, item).total >= Added(c, item).threshold)
            <==> !(c.unlocked && c.total + item.price < c.threshold)
  {
  }

  /** A removal keeps the total in step with the items exactly when what stays does not cost less than nothing. */
  lemma RemoveKeepsTotalIff(c: Cart, itemId: string)
    requires c.total == Sum(c.items)
    ensures Removed(c, itemId).total == Sum(Removed(c, itemId).items)
            <==> c.total - PriceAt(c.items, FirstMatch(c.items, itemId)) >= 0
  {
    WithoutSums(c.items, FirstMatch(c.items, itemId));
  }

  /** A refund entered as an item with a negative price breaks both promises. */
  lemma NegativePricesBreakCarts(host: Member)
    ensures var refund := Item("r", "r", "refund", -5, host.id);
            var bread := Item("b", "b", "bread", 10, host.id);
            var c := Added(Founded("c", "g", host, 8), bread);
            && Exact(c)
            && Added(c, refund).unlocked && Added(c, refund).total < 8
            && Removed(Added(c, refund), "b").total == 0
            && Sum(Removed(Added(c, refund), "b").items) == -5
  {
    var refund := Item("r", "r", "refund", -5, host.id);
    var bread := Item("b", "b", "bread", 10, host.id);
    var c := Founded("c", "g", host, 8);
    FoundedIsExact("c", "g", host, 8);
    AddKeepsHonest(c, bread);
    var items := Added(Added(c, bread), refund).items;
    assert items == [bread, refund];
    SumOfTwo(bread, refund);
    assert FirstMatch(items, "b") == 0;
    WithoutSums(items, 0);
  }

  // ---------- the operations on the shelf ----------

  /** A cart as it is read back, if it is there and, where that is asked, still active. */
  function Open(s: Shelf, cartId: string, activeOnly: bool): Result<Cart, CartError> {
    if cartId !in s.carts then Err(NotFound)
    else if activeOnly && s.carts[cartId].status != Active then Err(NotActive)
    else Ok(s.carts[cartId])
  }

  function Put(s: Shelf, key: string, c: Cart): Shelf {
    s.(carts := s.carts[key := c])
  }

  /** The cart a join of this geofence goes to: the one on record, if it is there and active. */
  function Current(s: Shelf, geofence: string): Option<Cart> {
    if geofence !in s.active || s.active[geofence] == "" then None
    else
      match Open(s, s.active[geofence], true)
      case Ok(c) => Some(c)
      case Err(_) => None
  }

  function Opened(s: Shelf, c: Cart): Shelf {
    Shelf(s.carts[c.id := c], s.active[c.geofence := c.id])
  }

  // ---------- whole calls ----------

  datatype Call =
    | AddCall(cartId: string, item: Item)
    | RemoveCall(cartId: string, itemId: string)
    | FinalizeCall(cartId: string)
    | JoinCall(geofence: string, host: Member, threshold: int, freshId: string)

  /** A whole call in one step, as the methods of the store class compute it. */
  function Atomic(s: Shelf, call: Call): Shelf {
    match call
    case AddCall(cartId, item) =>
      (match Open(s, cartId, true) case Ok(c) => Put(s, cartId, Added(c, item)) case Err(_) => s)
    case RemoveCall(cartId, itemId) =>
      (match Open(s, cartId, true) case Ok(c) => Put(s, cartId, Removed(c, itemId)) case Err(_) => s)
    case FinalizeCall(cartId) =>
      (match Open(s, cartId, false) case Ok(c) => Put(s, cartId, Closed(c)) case Err(_) => s)
    case JoinCall(geofence, host, threshold, freshId) =>
      (match Current(s, geofence)
       case Some(c) => Put(s, c.id, Joined(c, geofence, host))
       case None => Opened(s, Founded(freshId, geofence, host, threshold)))
  }

  function AtomicRun(s: Shelf, calls: seq<Call>): Shelf
    decreases |calls|
  {
    if calls == [] then s else AtomicRun(Atomic(s, calls[0]), calls[1..])
  }

  lemma {:induction false} AtomicRunsAppend(s: Shelf, a: seq<Call>, b: seq<Call>)
    ensures AtomicRun(s, a + b) == AtomicRun(AtomicRun(s, a), b)
    decreases |a|
  {
    hide Atomic;
    if a == [] {
      assert a + b == b;
    } else {
      AtomicRunsAppend(Atomic(s, a[0]), a[1..], b);
      assert (a + b)[1..] == a[1..] + b;
    }
  }

  /**
   * Additions and removals need an active cart and change no other; a finalization takes
   * any cart there is and changes nothing of it but its status. Otherwise nothing happens.
   */
  lemma CallsTouchOneCart(s: Shelf, cartId: string, item: Item, itemId: string)
    ensures var open := cartId in s.carts && s.carts[cartId].status == Active;
            && Open(s, cartId, true).Ok? == open
            && (cartId !in s.carts ==> Open(s, cartId, true) == Open(s, cartId, false) == Err(NotFound))
            && (cartId in s.carts && !open ==> Open(s, cartId, true) == Err(NotActive))
            && (!open ==> Atomic(s, AddCall(cartId, item)) == Atomic(s, RemoveCall(cartId, itemId)) == s)
            && (open ==> Atomic(s, AddCall(cartId, item))
                         == s.(carts := s.carts[cartId := Added(s.carts[cartId], item)])
                         && Atomic(s, RemoveCall(cartId, itemId))
                            == s.(carts := s.carts[cartId := Removed(s.carts[cartId], itemId)]))
            && (cartId !in s.carts ==> Atomic(s, FinalizeCall(cartId)) == s)
            && (cartId in s.carts ==>
                  Atomic(s, FinalizeCall(cartId))
                  == s.(carts := s.carts[cartId := s.carts[cartId].(status := Finalized)]))
  {
  }

  /** The record of a geofence points at a cart filed under that cart's own id. */
  ghost predicate Filed(s: Shelf) {
    forall k | k in s.carts :: s.carts[k].id == k
  }

  /**
   * A join where the geofence has no active cart: the new cart is the geofence's active cart
   * from then on, open, locked unless its threshold is reached, with the host as a member;
   * every other geofence keeps its own.
   */
  lemma FoundingIsRecorded(s: Shelf, geofence: string, host: Member, threshold: int, freshId: string)
    requires Current(s, geofence).None? && freshId != "" && freshId !in s.carts
    ensures var s' := Atomic(s, JoinCall(geofence, host, threshold, freshId));
            && Current(s', geofence).Some?
            && var c := Current(s', geofence).value;
            && c.id == freshId && c.geofence == geofence && c.threshold == threshold && c.status == Active
            && c.members != [] && c.members[0] == host
            && (geofence != DEMO_GEOFENCE ==> c.members == [host] && c.items == [] && c.total == 0)
            && (geofence == DEMO_GEOFENCE ==>
                  HasMember(c.members, "mem-1") && HasMember(c.members, "mem-2") && c.total == 17500)
            && (c.unlocked <==> c.total >= threshold)
            && s'.carts.Keys == s.carts.Keys + {freshId}
            && (forall k | k in s.carts :: s'.carts[k] == s.carts[k])
            && (forall g | g != geofence && (g in s.active ==> s.active[g] != freshId) ::
                  Current(s', g) == Current(s, g))
  {
    var c := Founded(freshId, geofence, host, threshold);
    if geofence == DEMO_GEOFENCE {
      DemoMembersAreThere(freshId, host, threshold);
    }
  }

  lemma DemoMembersAreThere(id: string, host: Member, threshold: int)
    ensures var c := Founded(id, DEMO_GEOFENCE, host, threshold);
            HasMember(c.members, "mem-1") && HasMember(c.members, "mem-2") && c.members[0] == host
  {
    var members := Founded(id, DEMO_GEOFENCE, host, threshold).members;
    if host.id == "mem-1" {
      assert members == [host] + [DEMO_MEMBER_2];
      assert members[0].id == "mem-1" && members[1].id == "mem-2";
    } else if host.id == "mem-2" {
      assert members == [host] + [DEMO_MEMBER_1];
      assert members[0].id == "mem-2" && members[1].id == "mem-1";
    } else {
      assert members == [host] + [DEMO_MEMBER_1] + [DEMO_MEMBER_2];
      assert members[1].id == "mem-1" && members[2].id == "mem-2";
    }
  }

  /**
   * A join where the geofence has an active cart goes to that cart, whatever fresh id is at
   * hand: it keeps its id and members, the host is one of them, no cart is filed anew, and no
   * other cart and no record of a geofence changes.
   */
  lemma JoinGoesToTheRecord(s: Shelf, geofence: string, host: Member, threshold: int, freshId: string)
    requires Filed(s) && Current(s, geofence).Some?
    ensures var s', c := Atomic(s, JoinCall(geofence, host, threshold, freshId)), Current(s, geofence).value;
            && Filed(s') && Current(s', geofence).Some?
            && var c' := Current(s', geofence).value;
            && c'.id == c.id && HasMember(c'.members, host.id) && c.members <= c'.members && c.items <= c'.items
            && c'.members == (if HasMember(c.members, host.id) then c.members else c.members + [host])
            && s'.active == s.active && s'.carts.Keys == s.carts.Keys
            && (forall k | k in s.carts && k != c.id :: s'.carts[k] == s.carts[k])
  {
    JoinIsIdempotent(Current(s, geofence).value, geofence, host);
  }

  /** A geofence has a current cart exactly when its record names a cart that is there and active. */
  lemma CurrentIff(s: Shelf, geofence: string, c: Cart)
    ensures Current(s, geofence) == Some(c)
            <==> geofence in s.active && s.active[geofence] != "" && (s.active[geofence], c) in s.carts.Items
                 && c.status == Active
  {
  }

  /** Once its cart is finalized a geofence has none: whoever joins next founds a new one. */
  lemma FinalizedCartsAreLeft(s: Shelf, geofence: string, host: Member, threshold: int, freshId: string)
    requires Filed(s) && Current(s, geofence).Some? && freshId != "" && freshId !in s.carts
    ensures var c := Current(s, geofence).value;
            var closed := Atomic(s, FinalizeCall(c.id));
            && Current(closed, geofence).None? && closed.carts[c.id] == c.(status := Finalized)
            && var s' := Atomic(closed, JoinCall(geofence, host, threshold, freshId));
            Current(s', geofence).Some? && Current(s', geofence).value.id == freshId != c.id
            && s'.carts[c.id] == closed.carts[c.id]
  {
    FoundingIsRecorded(Atomic(s, FinalizeCall(Current(s, geofence).value.id)), geofence, host, threshold, freshId);
  }

  function JoinCalls(geofence: string, hosts: seq<Member>, threshold: int, freshIds: seq<string>): seq<Call>
    requires |freshIds| == |hosts|
  {
    if hosts == [] then []
    else [JoinCall(geofence, hosts[0], threshold, freshIds[0])]
         + JoinCalls(geofence, hosts[1..], threshold, freshIds[1..])
  }

  /** Whoever joins a geofence with an active cart, one after the other, shares that one cart. */
  lemma {:induction false} JoinersShareTheCart(
      s: Shelf, geofence: string, hosts: seq<Member>, threshold: int, freshIds: seq<string>)
    requires Filed(s) && Current(s, geofence).Some? && |freshIds| == |hosts|
    ensures var s' := AtomicRun(s, JoinCalls(geofence, hosts, threshold, freshIds));
            && Filed(s') && Current(s', geofence).Some? && s'.carts.Keys == s.carts.Keys && s'.active == s.active
            && var c, c' := Current(s, geofence).value, Current(s', geofence).value;
            && c'.id == c.id && c.members <= c'.members
            && forall i | 0 <= i < |hosts| :: HasMember(c'.members, hosts[i].id)
    decreases |hosts|
  {
    hide Atomic, Current, Filed;
    if hosts != [] {
      var first, rest := JoinCall(geofence, hosts[0], threshold, freshIds[0]),
                         JoinCalls(geofence, hosts[1..], threshold, freshIds[1..]);
      assert ([first] + rest)[1..] == rest;
      JoinGoesToTheRecord(s, geofence, hosts[0], threshold, freshIds[0]);
      var m := Atomic(s, first);
      JoinersShareTheCart(m, geofence, hosts[1..], threshold, freshIds[1..]);
      var c, c' := Current(m, geofence).value, Current(AtomicRun(s, [first] + rest), geofence).value;
      MembersStay(c.members, c'.members, hosts[0].id);
      forall i | 0 <= i < |hosts| ensures HasMember(c'.members, hosts[i].id) {
        if i > 0 {
          assert hosts[i] == hosts[1..][i - 1];
        }
      }
    }
  }

  lemma MembersStay(members: seq<Member>, more: seq<Member>, id: string)
    requires members <= more && HasMember(members, id)
    ensures HasMember(more, id)
  {
    var i :| 0 <= i < |members| && members[i].id == id;
    assert more[i].id == id;
  }

  /** The store, one call at a time. */
  class RedisCartStore {
    var shelf: Shelf

    constructor ()
      ensures shelf == Shelf(map[], map[])
    {
      shelf := Shelf(map[], map[]);
    }

    method GetCart(cartId: string) returns (result: Result<Cart, CartError>)
      ensures result == Open(shelf, cartId, false)
    {
      if cartId !in shelf.carts {
        return Err(NotFound);
      }
      result := Ok(shelf.carts[cartId]);
    }

    method AddItemAtomic(cartId: string, item: Item) returns (result: Result<(Cart, bool), CartError>)
      modifies this
      ensures match Open(old(shelf), cartId, true)
              case Err(e) => result == Err(e) && shelf == old(shelf)
              case Ok(c) => result == Ok((Added(c, item), JustUnlocked(c, item)))
                            && shelf == Put(old(shelf), cartId, Added(c, item))
      ensures shelf == Atomic(old(shelf), AddCall(cartId, item))
    {
      if cartId !in shelf.carts {
        return Err(NotFound);
      }
      var cart := shelf.carts[cartId];
      if cart.status != Active {
        return Err(NotActive);
      }
      cart := cart.(items := cart.items + [item]);
      cart := cart.(total := cart.total + item.price);
      var justUnlocked := false;
      if cart.total >= cart.threshold && !cart.unlocked {
        cart := cart.(unlocked := true);
        justUnlocked := true;
      }
      shelf := shelf.(carts := shelf.carts[cartId := cart]);
      result := Ok((cart, justUnlocked));
    }

    /** The loop of a removal: the items that stay, and what the one that goes costs. */
    method Split(items: seq<Item>, itemId: string) returns (newItems: seq<Item>, removedCost: int)
      ensures newItems == Without(items, FirstMatch(items, itemId))
      ensures removedCost == PriceAt(items, FirstMatch(items, itemId))
    {
      newItems, removedCost := [], 0;
      var itemRemoved := false;
      var i := 0;
      while i < |items|
        invariant i <= |items|
        invariant itemRemoved <==> FirstMatch(items, itemId) < i
        invariant newItems == Without(items[..i], FirstMatch(items, itemId))
        invariant removedCost == if itemRemoved then PriceAt(items, FirstMatch(items, itemId)) else 0
      {
        var item := items[i];
        assert items[..i + 1] == items[..i] + [item];
        if !itemRemoved && AnswersTo(item, itemId) {
          removedCost := removedCost + item.price;
          itemRemoved := true;
        } else {
          newItems := newItems + [item];
        }
        i := i + 1;
      }
      assert items[..i] == items;
    }

    method RemoveItemAtomic(cartId: string, itemId: string) returns (result: Result<Cart, CartError>)
      modifies this
      ensures match Open(old(shelf), cartId, true)
              case Err(e) => result == Err(e) && shelf == old(shelf)
              case Ok(c) => result == Ok(Removed(c, itemId)) && shelf == Put(old(shelf), cartId, Removed(c, itemId))
      ensures shelf == Atomic(old(shelf), RemoveCall(cartId, itemId))
    {
      if cartId !in shelf.carts {
        return Err(NotFound);
      }
      var cart := shelf.carts[cartId];
      if cart.status != Active {
        return Err(NotActive);
      }
      var newItems, removedCost := Split(cart.items, itemId);
      cart := cart.(items := newItems, total := cart.total - removedCost);
      if cart.total < 0 {
        cart := cart.(total := 0);
      }
      if cart.total < cart.threshold {
        cart := cart.(unlocked := false);
      }
      shelf := shelf.(carts := shelf.carts[cartId := cart]);
      result := Ok(cart);
    }

    /** The status is set without looking at it: a cart can be finalized twice. */
    method FinalizeCart(cartId: string) returns (result: Result<Cart, CartError>)
      modifies this
      ensures match Open(old(shelf), cartId, false)
              case Err(e) => result == Err(e) && shelf == old(shelf)
              case Ok(c) => result == Ok(Closed(c)) && shelf == Put(old(shelf), cartId, Closed(c))
      ensures shelf == Atomic(old(shelf), FinalizeCall(cartId))
    {
      if cartId !in shelf.carts {
        return Err(NotFound);
      }
      var cart := shelf.carts[cartId].(status := Finalized);
      shelf := shelf.(carts := shelf.carts[cartId := cart]);
      result := Ok(cart);
    }

    method IsMember(members: seq<Member>, id: string) returns (found: bool)
      ensures found <==> HasMember(members, id)
    {
      found := false;
      var i := 0;
      while i < |members|
        invariant i <= |members| && !found
        invariant forall j | 0 <= j < i :: members[j].id != id
      {
        if members[i].id == id {
          return true;
        }
        i := i + 1;
      }
    }

    /** Appends the seed items of the demo members who have none, and sums the items up. */
    method Reseed(items: seq<Item>) returns (items': seq<Item>, sum: int)
      ensures items' == items + Seeds(items) && sum == Sum(items')
    {
      hide Sum;
      var hasMem1, hasMem2 := false, false;
      var i := 0;
      while i < |items|
        invariant i <= |items|
        invariant hasMem1 <==> exists j :: 0 <= j < i && items[j].addedBy == "mem-1"
        invariant hasMem2 <==> exists j :: 0 <= j < i && items[j].addedBy == "mem-2"
      {
        if items[i].addedBy == "mem-1" {
          hasMem1 := true;
        }
        if items[i].addedBy == "mem-2" {
          hasMem2 := true;
        }
        i := i + 1;
      }
      items' := items;
      if !hasMem1 {
        items' := items' + SEEDS_1;
      }
      if !hasMem2 {
        items' := items' + SEEDS_2;
      }
      assert items' == items + Seeds(items);
      sum := SumUp(items');
    }

    method SumUp(items: seq<Item>) returns (sum: int)
      ensures sum == Sum(items)
    {
      sum := 0;
      var i := 0;
      while i < |items|
        invariant i <= |items| && sum == Sum(items[..i])
      {
        assert items[..i + 1][..i] == items[..i];
        sum := sum + items[i].price;
        i := i + 1;
      }
      assert items[..i] == items;
    }

    /** Joins the geofence's active cart, or opens one under `freshId`. */
    method CreateOrGetActiveCart(geofence: string, host: Member, threshold: int, freshId: string) returns (cart: Cart)
      modifies this
      ensures match Current(old(shelf), geofence)
              case Some(c) => cart == Joined(c, geofence, host) && shelf == Put(old(shelf), c.id, cart)
              case None => cart == Founded(freshId, geofence, host, threshold) && shelf == Opened(old(shelf), cart)
      ensures shelf == Atomic(old(shelf), JoinCall(geofence, host, threshold, freshId))
    {
      if geofence in shelf.active && shelf.active[geofence] != "" {
        var existing := GetCart(shelf.active[geofence]);
        if existing.Ok? && existing.value.status == Active {
          cart := existing.value;
          var memberExists := IsMember(cart.members, host.id);
          if !memberExists {
            cart := cart.(members := cart.members + [host]);
          }
          if geofence == DEMO_GEOFENCE {
            var items, sum := Reseed(cart.items);
            cart := cart.(items := items, total := sum);
          }
          shelf := shelf.(carts := shelf.carts[cart.id := cart]);
          return;
        }
      }
      var members, items, total := [host], [], 0;
      if geofence == DEMO_GEOFENCE {
        if host.id != DEMO_MEMBER_1.id {
          members := members + [DEMO_MEMBER_1];
        }
        if host.id != DEMO_MEMBER_2.id {
          members := members + [DEMO_MEMBER_2];
        }
        items, total := SEEDS_1 + SEEDS_2, 17500;
      }
      cart := Cart(freshId, geofence, members, items, threshold, total >= threshold, total, Active);
      shelf := Shelf(shelf.carts[freshId := cart], shelf.active[geofence := freshId]);
    }
  }
}
