/** Generic values shared by the other modules. */
module Options {
  datatype Option<+T> = None | Some(value: T)
  datatype Result<+T, +E> = Ok(value: T) | Err(error: E)
}

/**
 * Orders and what a store's queue does to them, on values: the specification
 * that the class in OrderQueue.dfy is proved against.
 */
module Orders {
  // The empty status string of an order nobody has queued yet is `Unset`.
  datatype Status = Unset | Queued | Picking | Completed

  datatype Order = Order(
    id: string,
    cartId: string,
    perishable: bool,
    consolidated: bool,
    count: int,
    status: Status)

  /** The order as it is stored by a push: a status is given only to an order that has none. */
  function Pushed(o: Order): Order {
    if o.status == Unset then o.(status := Queued) else o
  }

  /** A push changes nothing about an order but a missing status, and afterwards none is missing. */
  lemma PushedIsQueued(o: Order)
    ensures o.status != Unset ==> Pushed(o) == o
    ensures o.status == Unset ==> Pushed(o).status == Queued && Pushed(o).(status := Unset) == o
    ensures Pushed(Pushed(o)) == Pushed(o)
  {
  }

  /** How many orders of `q` carry the id. */
  function Count(q: seq<Order>, id: string): nat {
    if q == [] then 0 else (if q[0].id == id then 1 else 0) + Count(q[1..], id)
  }

  /** Orders that a consolidated order stands for beyond itself. */
  function ExcessOf(o: Order): int {
    if o.consolidated && o.count > 1 then o.count - 1 else 0
  }

  function Excess(q: seq<Order>): int {
    if q == [] then 0 else ExcessOf(q[0]) + Excess(q[1..])
  }

  lemma {:induction false} CountConcat(a: seq<Order>, b: seq<Order>, id: string)
    ensures Count(a + b, id) == Count(a, id) + Count(b, id)
  {
    if a == [] {
      assert a + b == b;
    } else {
      CountConcat(a[1..], b, id);
      assert (a + b)[1..] == a[1..] + b;
    }
  }

  lemma {:induction false} ExcessConcat(a: seq<Order>, b: seq<Order>)
    ensures Excess(a + b) == Excess(a) + Excess(b)
  {
    if a == [] {
      assert a + b == b;
    } else {
      ExcessConcat(a[1..], b);
      assert (a + b)[1..] == a[1..] + b;
    }
  }

  // ---------- extraction ----------

  function NonPerishables(q: seq<Order>): (r: seq<Order>) {
    if q == [] then []
    else if q[0].perishable then NonPerishables(q[1..])
    else [q[0]] + NonPerishables(q[1..])
  }

  function Perishables(q: seq<Order>): (r: seq<Order>) {
    if q == [] then []
    else if q[0].perishable then [q[0]] + Perishables(q[1..])
    else Perishables(q[1..])
  }

  /** The orders taken and the orders left when at most `k` may be taken. */
  function Extract(q: seq<Order>, k: nat): (seq<Order>, seq<Order>) {
    if q == [] then ([], [])
    else if !q[0].perishable && k > 0 then
      var (taken, left) := Extract(q[1..], k - 1);
      ([q[0]] + taken, left)
    else
      var (taken, left) := Extract(q[1..], k);
      (taken, [q[0]] + left)
  }

  /**
   * Extraction splits the queue at one point: before it exactly the perishable
   * orders stay, after it everything stays, and the point is the end of the
   * queue unless the quota was used up.
   */
  lemma {:induction false} ExtractCutsOnce(q: seq<Order>, k: nat) returns (cut: nat)
    ensures cut <= |q|
    ensures Extract(q, k).0 == NonPerishables(q[..cut])
    ensures Extract(q, k).1 == Perishables(q[..cut]) + q[cut..]
    ensures |Extract(q, k).0| <= k
    ensures cut == |q| || |Extract(q, k).0| == k
  {
    if q == [] {
      cut := 0;
    } else if k == 0 {
      cut := 0;
      ExtractNone(q);
    } else {
      var c := ExtractCutsOnce(q[1..], if q[0].perishable then k else k - 1);
      cut := c + 1;
      assert q[..cut][1..] == q[1..][..c];
      assert q[cut..] == q[1..][c..];
    }
  }

  lemma {:induction false} ExtractNone(q: seq<Order>)
    ensures Extract(q, 0) == ([], q)
  {
    if q != [] {
      ExtractNone(q[1..]);
      assert [q[0]] + q[1..] == q;
    }
  }

  lemma NothingToExtract(k: nat)
    ensures Extract([], k) == ([], [])
  {
  }

  /** One step of an extraction along the line. */
  lemma ExtractFrom(q: seq<Order>, i: nat, k: nat)
    requires i < |q|
    ensures Extract(q[i..], k).0
            == if !q[i].perishable && k > 0 then [q[i]] + Extract(q[i + 1..], k - 1).0 else Extract(q[i + 1..], k).0
    ensures Extract(q[i..], k).1
            == if !q[i].perishable && k > 0 then Extract(q[i + 1..], k - 1).1 else [q[i]] + Extract(q[i + 1..], k).1
  {
    assert q[i..][1..] == q[i + 1..];
  }

  /** Taken and left orders are the old queue: no order is lost or doubled. */
  lemma {:induction false} ExtractPartitions(q: seq<Order>, k: nat, id: string)
    ensures Count(q, id) == Count(Extract(q, k).0, id) + Count(Extract(q, k).1, id)
    ensures Excess(q) == Excess(Extract(q, k).0) + Excess(Extract(q, k).1)
    ensures |q| == |Extract(q, k).0| + |Extract(q, k).1|
  {
    if q != [] {
      var k' := if !q[0].perishable && k > 0 then k - 1 else k;
      var (taken, left) := Extract(q[1..], k');
      ExtractPartitions(q[1..], k', id);
      assert ([q[0]] + taken)[1..] == taken && ([q[0]] + left)[1..] == left;
    }
  }

  /** What is taken comes first in line among the non-perishable orders, and no perishable one moves. */
  lemma {:induction false} ExtractTakesTheFirst(q: seq<Order>, k: nat)
    ensures Extract(q, k).0 <= NonPerishables(q)
    ensures Extract(q, k).0 + NonPerishables(Extract(q, k).1) == NonPerishables(q)
    ensures Perishables(Extract(q, k).1) == Perishables(q)
  {
    if q != [] {
      var tail := q[1..];
      if !q[0].perishable && k > 0 {
        ExtractTakesTheFirst(tail, k - 1);
      } else {
        ExtractTakesTheFirst(tail, k);
        var (taken, left) := Extract(tail, k);
        assert ([q[0]] + left)[1..] == left;
        if !q[0].perishable {
          ExtractNone(tail);
          assert taken == [];
        }
      }
    }
  }

  /** With a quota of one: the first non-perishable order leaves and the rest closes up. */
  lemma {:induction false} ExtractOne(q: seq<Order>) returns (pre: seq<Order>, post: seq<Order>)
    ensures Extract(q, 1).0 == [] ==> NonPerishables(q) == [] && Extract(q, 1).1 == q
    ensures Extract(q, 1).0 != [] ==>
      && |Extract(q, 1).0| == 1
      && q == pre + Extract(q, 1).0 + post
      && Extract(q, 1).1 == pre + post
      && !Extract(q, 1).0[0].perishable
      && (forall o | o in pre :: o.perishable)
  {
    if q == [] {
      pre, post := [], [];
    } else if q[0].perishable {
      var p;
      p, post := ExtractOne(q[1..]);
      pre := [q[0]] + p;
      var taken := Extract(q[1..], 1).0;
      assert q == [q[0]] + q[1..];
      assert pre + taken + post == [q[0]] + (p + taken + post) && pre + post == [q[0]] + (p + post);
    } else {
      pre, post := [], q[1..];
      ExtractNone(q[1..]);
    }
  }

  // ---------- consolidation ----------

  predicate Mergeable(o: Order, cart: string) {
    o.cartId == cart && !o.consolidated
  }

  function Matching(q: seq<Order>, cart: string): (r: seq<Order>)
    ensures forall o | o in r :: Mergeable(o, cart)
  {
    if q == [] then []
    else if Mergeable(q[0], cart) then [q[0]] + Matching(q[1..], cart)
    else Matching(q[1..], cart)
  }

  function Others(q: seq<Order>, cart: string): (r: seq<Order>)
    ensures forall o | o in r :: !Mergeable(o, cart)
  {
    if q == [] then []
    else if Mergeable(q[0], cart) then Others(q[1..], cart)
    else [q[0]] + Others(q[1..], cart)
  }

  lemma NothingMatches(cart: string)
    ensures Matching([], cart) == [] && Others([], cart) == []
  {
  }

  /** One step of a consolidation along the line. */
  lemma MatchingFrom(q: seq<Order>, i: nat, cart: string)
    requires i < |q|
    ensures Matching(q[i..], cart) == (if Mergeable(q[i], cart) then [q[i]] else []) + Matching(q[i + 1..], cart)
    ensures Others(q[i..], cart) == (if Mergeable(q[i], cart) then [] else [q[i]]) + Others(q[i + 1..], cart)
  {
    assert q[i..][1..] == q[i + 1..];
  }

  /** How many orders a consolidation merges: none unless at least two match. */
  function MergeCount(q: seq<Order>, cart: string): nat {
    var m := |Matching(q, cart)|;
    if |q| < 2 || cart == "" || m < 2 then 0 else m
  }

  /** The queue after a consolidation pass. */
  function Consolidated(q: seq<Order>, cart: string): seq<Order> {
    var m := Matching(q, cart);
    if MergeCount(q, cart) == 0 then q
    else [m[0].(consolidated := true, count := |m|)] + Others(q, cart)
  }

  /** The orders that disappear into the primary. */
  function Absorbed(q: seq<Order>, cart: string): seq<Order> {
    if MergeCount(q, cart) == 0 then [] else Matching(q, cart)[1..]
  }

  /** The places of the orders a consolidation leaves alone, in order. */
  function OtherPlaces(q: seq<Order>, cart: string): (places: seq<nat>)
    ensures forall j | 0 <= j < |places| :: places[j] < |q|
  {
    if q == [] then []
    else
      OtherPlaces(q[..|q| - 1], cart)
      + if q[|q| - 1].cartId == cart && !q[|q| - 1].consolidated then [] else [|q| - 1]
  }

  lemma {:induction false} MatchingAppend(a: seq<Order>, b: seq<Order>, cart: string)
    ensures Matching(a + b, cart) == Matching(a, cart) + Matching(b, cart)
    ensures Others(a + b, cart) == Others(a, cart) + Others(b, cart)
  {
    NothingMatches(cart);
    hide Matching, Others;
    if a == [] {
      assert a + b == b;
    } else {
      MatchingFrom(a, 0, cart);
      MatchingFrom(a + b, 0, cart);
      MatchingAppend(a[1..], b, cart);
      assert a[0..] == a && (a + b)[0..] == a + b && (a + b)[1..] == a[1..] + b;
    }
  }

  lemma {:induction false} OthersByPlace(q: seq<Order>, cart: string)
    ensures var places := OtherPlaces(q, cart);
            && |Others(q, cart)| == |places| && |Matching(q, cart)| == |q| - |places|
            && (forall j | 0 <= j < |places| :: Others(q, cart)[j] == q[places[j]])
            && (forall j, k | 0 <= j < k < |places| :: places[j] < places[k])
            && (forall i: nat | i < |q| :: i in places <==> !(q[i].cartId == cart && !q[i].consolidated))
  {
    if q != [] {
      var init, last := q[..|q| - 1], q[|q| - 1];
      OthersByPlace(init, cart);
      MatchingAppend(init, [last], cart);
      assert q == init + [last];
      forall i: nat | i < |init| ensures init[i] == q[i] {
      }
    }
  }

  lemma {:induction false} MatchesByPlace(q: seq<Order>, cart: string) returns (first: nat)
    ensures first <= |q|
    ensures forall i | 0 <= i < first :: !(q[i].cartId == cart && !q[i].consolidated)
    ensures first == |q| <==> Matching(q, cart) == []
    ensures first < |q| ==> q[first].cartId == cart && !q[first].consolidated && Matching(q, cart)[0] == q[first]
  {
    first := 0;
    if q != [] && !Mergeable(q[0], cart) {
      first := MatchesByPlace(q[1..], cart);
      first := first + 1;
    }
  }

  /**
   * A consolidation, place by place. If the cart is named and at least two orders of it
   * are not merged yet, the head of the new line is the first of them, flagged and with
   * their number, and behind it all other orders keep their order. Otherwise the line stays.
   */
  lemma ConsolidatedByPlace(q: seq<Order>, cart: string) returns (first: nat, others: seq<nat>)
    ensures forall j, k | 0 <= j < k < |others| :: others[j] < others[k]
    ensures forall j | 0 <= j < |others| :: others[j] < |q|
    ensures forall i: nat :: i in others <==> i < |q| && !(q[i].cartId == cart && !q[i].consolidated)
    ensures cart == "" || |q| - |others| < 2 ==> Consolidated(q, cart) == q && MergeCount(q, cart) == 0
    ensures cart != "" && |q| - |others| >= 2 ==>
              && first < |q| && first !in others && (forall i: nat | i < first :: i in others)
              && MergeCount(q, cart) == |q| - |others|
              && |Consolidated(q, cart)| == 1 + |others|
              && Consolidated(q, cart)[0] == q[first].(consolidated := true, count := |q| - |others|)
              && forall j | 0 <= j < |others| :: Consolidated(q, cart)[1 + j] == q[others[j]]
  {
    others := OtherPlaces(q, cart);
    OthersByPlace(q, cart);
    first := MatchesByPlace(q, cart);
  }

  lemma {:induction false} MatchingPartitions(q: seq<Order>, cart: string, id: string)
    ensures Count(q, id) == Count(Matching(q, cart), id) + Count(Others(q, cart), id)
    ensures Excess(q) == Excess(Others(q, cart))
    ensures |q| == |Matching(q, cart)| + |Others(q, cart)|
  {
    if q != [] {
      MatchingPartitions(q[1..], cart, id);
      assert q == [q[0]] + q[1..];
    }
  }

  lemma {:induction false} OthersHaveNoMatch(q: seq<Order>, cart: string)
    requires forall o | o in q :: !Mergeable(o, cart)
    ensures Matching(q, cart) == []
    ensures Others(q, cart) == q
  {
    if q != [] {
      assert q[0] in q;
      OthersHaveNoMatch(q[1..], cart);
      assert q == [q[0]] + q[1..];
    }
  }

  /**
   * The merge ledger of one pass. No id is lost or doubled, every order that left
   * the line is counted in the primary, and the primary is the first match.
   */
  lemma ConsolidationLedger(q: seq<Order>, cart: string, id: string)
    ensures Count(q, id) == Count(Consolidated(q, cart), id) + Count(Absorbed(q, cart), id)
    ensures Excess(Consolidated(q, cart)) == Excess(q) + |Absorbed(q, cart)|
    ensures |q| == |Consolidated(q, cart)| + |Absorbed(q, cart)|
    ensures |Absorbed(q, cart)| == if MergeCount(q, cart) == 0 then 0 else MergeCount(q, cart) - 1
  {
    MatchingPartitions(q, cart, id);
    if MergeCount(q, cart) != 0 {
      var m := Matching(q, cart);
      var primary := m[0].(consolidated := true, count := |m|);
      assert Consolidated(q, cart)[1..] == Others(q, cart);
    } else {
      assert Absorbed(q, cart) == [];
    }
  }

  /** A pass that is repeated at once finds nothing to merge. */
  lemma ConsolidationSettles(q: seq<Order>, cart: string)
    ensures MergeCount(Consolidated(q, cart), cart) == 0
    ensures Consolidated(Consolidated(q, cart), cart) == Consolidated(q, cart)
  {
    if MergeCount(q, cart) != 0 {
      var c := Consolidated(q, cart);
      forall o | o in c ensures !Mergeable(o, cart) {
        if o in Others(q, cart) {
        } else {
          assert o == c[0];
        }
      }
      OthersHaveNoMatch(c, cart);
    }
  }
}
