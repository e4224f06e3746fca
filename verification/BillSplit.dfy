/** Splitting the bill of a cart among the people who added its items. */
module BillSplits {
  import opened Options
  import opened Carts
  import opened CartRuns
  import opened MapSums

  datatype BillSplit = BillSplit(cartId: string, memberTotals: map<string, int>, grandTotal: int)

  datatype SplitError = NoCart | Mismatch(itemSum: int, total: int)

  /** What the items added by one person cost. */
  function Share(items: seq<Item>, member: string): int {
    if items == [] then 0
    else Share(items[..|items| - 1], member)
         + if items[|items| - 1].addedBy == member then items[|items| - 1].price else 0
  }

  /** Someone who is a member or has added an item. */
  predicate TakesPart(c: Cart, id: string) {
    HasMember(c.members, id) || HasItemOf(c.items, id)
  }

  // ---------- the split ----------

  /** Every member starts at zero. */
  method OpenAccounts(members: seq<Member>) returns (totals: map<string, int>)
    ensures forall id :: id in totals <==> HasMember(members, id)
    ensures forall id | id in totals :: totals[id] == 0
    ensures SumValues(totals) == 0
  {
    totals := map[];
    var i := 0;
    while i < |members|
      invariant i <= |members|
      invariant forall id :: id in totals <==> HasMember(members[..i], id)
      invariant forall id | id in totals :: totals[id] == 0
      invariant SumValues(totals) == 0
    {
      SumValuesUpdate(totals, members[i].id, 0);
      assert forall id :: HasMember(members[..i + 1], id) <==> HasMember(members[..i], id) || members[i].id == id by {
        MembersGrow(members, i);
      }
      totals := totals[members[i].id := 0];
      i := i + 1;
    }
    assert members[..i] == members;
  }

  lemma MembersGrow(members: seq<Member>, i: nat)
    requires i < |members|
    ensures forall id :: HasMember(members[..i + 1], id) <==> HasMember(members[..i], id) || members[i].id == id
  {
    assert members[..i + 1] == members[..i] + [members[i]];
    forall id | HasMember(members[..i], id) || members[i].id == id ensures HasMember(members[..i + 1], id) {
      if HasMember(members[..i], id) {
        var j :| 0 <= j < i && members[..i][j].id == id;
        assert members[..i + 1][j].id == id;
      } else {
        assert members[..i + 1][i].id == id;
      }
    }
  }

  /** Books every item to the person who added it, member or not. */
  method BookItems(items: seq<Item>, blank: map<string, int>) returns (totals: map<string, int>, sum: int)
    requires forall id | id in blank :: blank[id] == 0
    requires SumValues(blank) == 0
    ensures sum == Sum(items) == SumValues(totals)
    ensures forall id :: id in totals <==> id in blank || HasItemOf(items, id)
    ensures forall id | id in totals :: totals[id] == Share(items, id)
  {
    hide Share, Sum, SumValues, HasItemOf;
    totals, sum := blank, 0;
    var i := 0;
    assert items[..i] == [];
    NothingBooked();
    while i < |items|
      invariant i <= |items|
      invariant sum == Sum(items[..i]) == SumValues(totals)
      invariant forall id :: id in totals <==> id in blank || HasItemOf(items[..i], id)
      invariant forall id :: Share(items[..i], id) == if id in totals then totals[id] else 0
    {
      var payer := items[i].addedBy;
      var before := if payer in totals then totals[payer] else 0;
      BookOne(items, i, totals, before + items[i].price);
      totals := totals[payer := before + items[i].price];
      sum := sum + items[i].price;
      i := i + 1;
    }
    assert items[..i] == items;
  }

  lemma NothingBooked()
    ensures Sum([]) == 0
    ensures forall id :: Share([], id) == 0 && !HasItemOf([], id)
  {
  }

  lemma BookOne(items: seq<Item>, i: nat, totals: map<string, int>, v: int)
    requires i < |items|
    ensures Sum(items[..i + 1]) == Sum(items[..i]) + items[i].price
    ensures forall id ::
              Share(items[..i + 1], id) == Share(items[..i], id) + if items[i].addedBy == id then items[i].price else 0
    ensures forall id :: HasItemOf(items[..i + 1], id) <==> HasItemOf(items[..i], id) || items[i].addedBy == id
    ensures SumValues(totals[items[i].addedBy := v])
            == SumValues(totals) + v - if items[i].addedBy in totals then totals[items[i].addedBy] else 0
  {
    assert items[..i + 1][..i] == items[..i];
    SumValuesUpdate(totals, items[i].addedBy, v);
    forall id | HasItemOf(items[..i], id) || items[i].addedBy == id ensures HasItemOf(items[..i + 1], id) {
      if HasItemOf(items[..i], id) {
        var j :| 0 <= j < i && items[..i][j].addedBy == id;
        assert items[..i + 1][j].addedBy == id;
      } else {
        assert items[..i + 1][i].addedBy == id;
      }
    }
  }

  /**
   * The split succeeds exactly when the items add up to the cart's total. Then
   * everybody who takes part owes what their own items cost, nobody else is charged,
   * and the shares add up to the total.
   */
  method ComputeBillSplit(cart: Option<Cart>) returns (result: Result<BillSplit, SplitError>)
    ensures result.Ok? <==> cart.Some? && Sum(cart.value.items) == cart.value.total
    ensures cart.None? ==> result == Err(NoCart)
    ensures cart.Some? && result.Err? ==> result == Err(Mismatch(Sum(cart.value.items), cart.value.total))
    ensures result.Ok? ==>
              var c, split := cart.value, result.value;
              && split.cartId == c.id && split.grandTotal == c.total
              && (forall id :: id in split.memberTotals <==> TakesPart(c, id))
              && (forall id | id in split.memberTotals :: split.memberTotals[id] == Share(c.items, id))
              && SumValues(split.memberTotals) == split.grandTotal
  {
    if cart.None? {
      return Err(NoCart);
    }
    var c := cart.value;
    var blank := OpenAccounts(c.members);
    var memberTotals, sum := BookItems(c.items, blank);
    if sum != c.total {
      return Err(Mismatch(sum, c.total));
    }
    result := Ok(BillSplit(c.id, memberTotals, c.total));
  }

  /** A member who has added nothing owes nothing. */
  lemma {:induction false} IdleOweNothing(items: seq<Item>, member: string)
    requires !HasItemOf(items, member)
    ensures Share(items, member) == 0
  {
    if items != [] {
      var k := |items| - 1;
      forall j | 0 <= j < k ensures items[..k][j].addedBy != member {
        assert items[j].addedBy != member;
      }
      IdleOweNothing(items[..k], member);
    }
  }

  lemma {:induction false} SharesAdd(a: seq<Item>, b: seq<Item>, member: string)
    ensures Share(a + b, member) == Share(a, member) + Share(b, member)
  {
    if b == [] {
      assert a + b == a;
    } else {
      SharesAdd(a, b[..|b| - 1], member);
      assert (a + b)[..|a + b| - 1] == a + b[..|b| - 1];
    }
  }

  /** While a cart is only added to, by however many callers, everybody's share grows by exactly their own items. */
  lemma AdditionsAreBilledToTheirPayers(s: Shop, actions: seq<Action>, s': Shop, cartId: string, member: string)
    requires Run(s, actions) == Some(s') && OnlyAddedTo(s, actions, cartId)
    requires Open(s.shelf, cartId, true).Ok?
    ensures cartId in s'.shelf.carts
    ensures Share(s'.shelf.carts[cartId].items, member)
            == Share(s.shelf.carts[cartId].items, member) + Share(AddedTo(actions, cartId), member)
  {
    hide Run, OnlyAddedTo, Share;
    AdditionsLoseNothing(s, actions, s', cartId);
    SharesAdd(s.shelf.carts[cartId].items, AddedTo(actions, cartId), member);
  }

  /** No cart that any interleaving of the store's operations can leave on the shelf fails to split. */
  method SplitReachable(ghost start: Shop, ghost actions: seq<Action>, end: Shop, cartId: string)
    returns (result: Result<BillSplit, SplitError>)
    requires AllHonest(start) && PricesAreFair(actions) && Run(start, actions) == Some(end)
    requires cartId in end.shelf.carts
    ensures result.Ok? && result.value.grandTotal == SumValues(result.value.memberTotals)
  {
    EveryStoredCartIsHonest(start, actions, end);
    result := ComputeBillSplit(Some(end.shelf.carts[cartId]));
  }
}
