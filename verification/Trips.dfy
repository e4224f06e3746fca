/** Pooled delivery trips: the atomic join and the fee it sets. */
module Trips {
  import opened Options

  datatype TripMember = TripMember(
    orderId: string,
    memberId: string,
    displayName: string,
    flatLocation: string,
    itemsSummary: string,
    orderTotal: int,
    avatarColor: string)

  datatype TripStatus = Available | Pooled | Dispatched | Delivered

  datatype Trip = Trip(
    id: string,
    orderIds: seq<string>,
    members: seq<TripMember>,
    fee: int,
    discount: int,
    status: TripStatus)

  datatype JoinError = TripNotFound | Unreadable

  // ---------- the fee ----------

  /** The pooled fee and the discount: half the base, rounded down, for two and nothing from three on. */
  function PooledFee(base: int, count: nat): (int, int) {
    if count == 2 then (base / 2, base - base / 2)
    else if count >= 3 then (0, base)
    else (base, 0)
  }

  /** Division that rounds towards zero. */
  function Quotient(a: int, b: int): int
    requires b > 0
  {
    if a >= 0 then a / b else -(-a / b)
  }

  function CalculateDeliveryFee(base: int, memberCount: int): (int, int) {
    if memberCount <= 1 then (base, 0)
    else if memberCount == 2 then (Quotient(base, 2), base - Quotient(base, 2))
    else (0, base)
  }

  /** The two fee computations agree exactly when the halving does not round a negative odd base. */
  lemma FeesAgreeIff(base: int, count: nat)
    ensures PooledFee(base, count) == CalculateDeliveryFee(base, count)
            <==> count != 2 || base >= 0 || base % 2 == 0
  {
  }

  /** Fee and discount make up the base, and for a base that is not negative more company never costs more. */
  lemma FeeFalls(base: int, count: nat, more: nat)
    ensures PooledFee(base, count).0 + PooledFee(base, count).1 == base
    ensures base >= 0 && count <= more ==> 0 <= PooledFee(base, more).0 <= PooledFee(base, count).0 <= base
  {
  }

  // ---------- the join ----------

  function Contains(s: string, part: string): bool {
    part <= s || (s != "" && Contains(s[1..], part))
  }

  /** A member record that stands for whoever uses the app, whatever its id. */
  predicate Persona(m: TripMember) {
    m.displayName == "Vikram Kumar" || m.displayName == "You (Web User)" || Contains(m.flatLocation, "Flat 304")
    || "mem-user-" <= m.memberId || "mem-web-" <= m.memberId
  }

  predicate TakenFor(m: TripMember, memberId: string) {
    m.memberId == memberId || Persona(m)
  }

  /** The place of the first record taken for the member, or the length. */
  function Seat(members: seq<TripMember>, memberId: string): (k: nat)
    ensures k <= |members|
    ensures k < |members| ==> TakenFor(members[k], memberId)
    ensures forall i | 0 <= i < k :: !TakenFor(members[i], memberId)
  {
    if members == [] || TakenFor(members[0], memberId) then 0 else 1 + Seat(members[1..], memberId)
  }

  /** An existing record brought up to date with a new one. */
  function Refreshed(m: TripMember, n: TripMember): TripMember {
    m.(memberId := n.memberId, itemsSummary := n.itemsSummary, orderTotal := n.orderTotal,
       displayName := if n.displayName == "" then m.displayName else n.displayName)
  }

  predicate Known(t: Trip, orderId: string, member: Option<TripMember>) {
    orderId in t.orderIds || (member.Some? && Seat(t.members, member.value.memberId) < |t.members|)
  }

  function SeatTaken(members: seq<TripMember>, member: Option<TripMember>): seq<TripMember> {
    if member.None? then members
    else
      var k := Seat(members, member.value.memberId);
      if k < |members| then members[k := Refreshed(members[k], member.value)] else members
  }

  function PoolSize(t: Trip): nat {
    if |t.members| < |t.orderIds| then |t.orderIds| else |t.members|
  }

  function Priced(t: Trip, base: int): Trip {
    t.(fee := PooledFee(base, PoolSize(t)).0, discount := PooledFee(base, PoolSize(t)).1, status := Pooled)
  }

  /** The trip after the list changes of a join, before the fee is set. */
  function Boarded(t: Trip, orderId: string, member: Option<TripMember>): Trip {
    var members := SeatTaken(t.members, member);
    if Known(t, orderId, member) then t.(members := members)
    else
      t.(orderIds := t.orderIds + [orderId],
         members := members + if member.Some? then [member.value] else [])
  }

  function Join(t: Trip, orderId: string, base: int, member: Option<TripMember>): Trip {
    Priced(Boarded(t, orderId, member), base)
  }

  /** An empty list comes back from the script as an empty object, which the caller cannot read. */
  predicate Readable(t: Trip) {
    t.orderIds != [] && t.members != []
  }

  class RedisTripStore {
    var trips: map<string, Trip>

    constructor ()
      ensures trips == map[]
    {
      trips := map[];
    }

    method CreateOrUpdateTrip(t: Trip)
      modifies this
      ensures trips == old(trips)[t.id := t]
    {
      trips := trips[t.id := t];
    }

    /** The first loop of the script: is the order on the trip already? */
    method HasOrder(orderIds: seq<string>, orderId: string) returns (exists': bool)
      ensures exists' <==> orderId in orderIds
    {
      exists' := false;
      var i := 0;
      while i < |orderIds|
        invariant i <= |orderIds| && !exists' && orderId !in orderIds[..i]
      {
        if orderIds[i] == orderId {
          return true;
        }
        i := i + 1;
      }
    }

    /** The second loop: refreshes the first record that is taken for the member. */
    method UpdateMember(members: seq<TripMember>, member: TripMember) returns (found: bool, members': seq<TripMember>)
      ensures found <==> Seat(members, member.memberId) < |members|
      ensures members' == SeatTaken(members, Some(member))
    {
      found, members' := false, members;
      var i := 0;
      while i < |members|
        invariant i <= Seat(members, member.memberId)
      {
        var m := members[i];
        if m.memberId == member.memberId || Persona(m) {
          m := m.(memberId := member.memberId);
          m := m.(itemsSummary := member.itemsSummary);
          m := m.(orderTotal := member.orderTotal);
          if |member.displayName| > 0 {
            m := m.(displayName := member.displayName);
          }
          return true, members[i := m];
        }
        i := i + 1;
      }
    }

    method JoinTripAtomic(tripId: string, orderId: string, base: int, member: Option<TripMember>)
      returns (result: Result<Trip, JoinError>)
      modifies this
      ensures tripId !in old(trips) ==> result == Err(TripNotFound) && trips == old(trips)
      ensures tripId in old(trips) ==>
                var t := Join(old(trips)[tripId], orderId, base, member);
                && trips == old(trips)[tripId := t]
                && result == if Readable(t) then Ok(t) else Err(Unreadable)
    {
      if tripId !in trips {
        return Err(TripNotFound);
      }
      var t := Board(trips[tripId], orderId, member);
      var fee, discount := SetFee(base, t.members, t.orderIds);
      t := t.(fee := fee, discount := discount, status := Pooled);
      trips := trips[tripId := t];
      result := if |t.orderIds| == 0 || |t.members| == 0 then Err(Unreadable) else Ok(t);
    }

    /** The list changes of the script. */
    method Board(trip: Trip, orderId: string, member: Option<TripMember>) returns (t: Trip)
      ensures t == Boarded(trip, orderId, member)
    {
      t := trip;
      var known := HasOrder(t.orderIds, orderId);
      if member.Some? {
        var found, members := UpdateMember(t.members, member.value);
        known := known || found;
        t := t.(members := members);
      }
      if !known {
        t := t.(orderIds := t.orderIds + [orderId]);
        if member.Some? {
          t := t.(members := t.members + [member.value]);
        }
      }
    }

    /** The fee of a pool: its size is the longer of the two lists. */
    method SetFee(base: int, members: seq<TripMember>, orderIds: seq<string>) returns (fee: int, discount: int)
      ensures (fee, discount) == PooledFee(base, if |members| < |orderIds| then |orderIds| else |members|)
    {
      var count := |members|;
      if count < |orderIds| {
        count := |orderIds|;
      }
      fee, discount := base, 0;
      if count == 2 {
        fee := base / 2;
        discount := base - fee;
      } else if count >= 3 {
        fee, discount := 0, base;
      }
    }
  }

  // ---------- what a join leaves ----------

  /** The part stands somewhere in the text. */
  ghost predicate Occurs(s: string, part: string) {
    exists before, after :: s == before + part + after
  }

  lemma OccursFirst(s: string, part: string)
    requires part <= s
    ensures Occurs(s, part)
  {
    var after := s[|part|..];
    assert s == [] + part + after;
  }

  lemma OccursLater(c: char, s: string, part: string)
    requires Occurs(s, part)
    ensures Occurs([c] + s, part)
  {
    var before, after :| s == before + part + after;
    var before' := [c] + before;
    assert [c] + s == before' + part + after;
  }

  lemma {:induction false} ContainedOccurs(s: string, part: string)
    requires Contains(s, part)
    ensures Occurs(s, part)
  {
    hide Occurs;
    if part <= s {
      OccursFirst(s, part);
    } else {
      ContainedOccurs(s[1..], part);
      OccursLater(s[0], s[1..], part);
      assert s == [s[0]] + s[1..];
    }
  }

  lemma {:induction false} OccurringIsContained(before: string, part: string, after: string)
    ensures Contains(before + part + after, part)
  {
    var s := before + part + after;
    if before == [] {
      assert s == part + after;
    } else {
      OccurringIsContained(before[1..], part, after);
      assert s[1..] == before[1..] + part + after;
    }
  }

  lemma ContainsIff(s: string, part: string)
    ensures Contains(s, part) <==> Occurs(s, part)
  {
    if Contains(s, part) {
      ContainedOccurs(s, part);
    }
    if before, after :| s == before + part + after {
      OccurringIsContained(before, part, after);
    }
  }

  /** A record by that id, or one of the app's own user by name, by flat, or by the form of its id. */
  ghost predicate CountsAs(m: TripMember, memberId: string) {
    || m.memberId == memberId
    || m.displayName in {"Vikram Kumar", "You (Web User)"}
    || Occurs(m.flatLocation, "Flat 304")
    || (|m.memberId| >= 9 && m.memberId[..9] == "mem-user-")
    || (|m.memberId| >= 8 && m.memberId[..8] == "mem-web-")
  }

  lemma TakenForIff(m: TripMember, memberId: string)
    ensures TakenFor(m, memberId) <==> CountsAs(m, memberId)
  {
    ContainsIff(m.flatLocation, "Flat 304");
    hide Contains, Occurs;
    assert "mem-user-" <= m.memberId <==> |m.memberId| >= 9 && m.memberId[..9] == "mem-user-";
    assert "mem-web-" <= m.memberId <==> |m.memberId| >= 8 && m.memberId[..8] == "mem-web-";
  }

  /** The record `m` after a join by `n`: what of it is new and what is not. */
  predicate BroughtUpToDate(m: TripMember, n: TripMember, m': TripMember) {
    && m'.memberId == n.memberId && m'.itemsSummary == n.itemsSummary && m'.orderTotal == n.orderTotal
    && m'.displayName == (if |n.displayName| > 0 then n.displayName else m.displayName)
    && m'.orderId == m.orderId && m'.flatLocation == m.flatLocation && m'.avatarColor == m.avatarColor
  }

  /**
   * What a join by a named member leaves. The first record that counts as theirs is brought
   * up to date and every other stays, and no order comes on board; without such a record the
   * order and the member come on board at the end, unless the order is there already.
   */
  lemma JoinUpdatesOneRecord(t: Trip, orderId: string, base: int, n: TripMember) returns (k: nat)
    ensures k <= |t.members| && forall i | 0 <= i < k :: !CountsAs(t.members[i], n.memberId)
    ensures var t' := Join(t, orderId, base, Some(n));
            && (k < |t.members| ==>
                  && CountsAs(t.members[k], n.memberId)
                  && |t'.members| == |t.members| && BroughtUpToDate(t.members[k], n, t'.members[k])
                  && (forall i | 0 <= i < |t.members| && i != k :: t'.members[i] == t.members[i])
                  && t'.orderIds == t.orderIds)
            && (k == |t.members| && orderId in t.orderIds ==>
                  t'.members == t.members && t'.orderIds == t.orderIds)
            && (k == |t.members| && orderId !in t.orderIds ==>
                  t'.members == t.members + [n] && t'.orderIds == t.orderIds + [orderId])
            && t'.id == t.id && t'.status == Pooled
  {
    k := Seat(t.members, n.memberId);
    forall i | 0 <= i < |t.members| ensures TakenFor(t.members[i], n.memberId) <==> CountsAs(t.members[i], n.memberId) {
      TakenForIff(t.members[i], n.memberId);
    }
    hide CountsAs, Persona, PooledFee;
  }

  /** A join without a member only puts a new order on board. */
  lemma JoinWithoutAMember(t: Trip, orderId: string, base: int)
    ensures var t' := Join(t, orderId, base, None);
            && t'.members == t.members && t'.id == t.id && t'.status == Pooled
            && t'.orderIds == t.orderIds + if orderId in t.orderIds then [] else [orderId]
  {
    hide PooledFee;
  }

  /** The fee of a join goes by the longer of the two lists: all of the base, half of it rounded down, or nothing. */
  lemma JoinSetsTheFee(t: Trip, orderId: string, base: int, member: Option<TripMember>)
    ensures var t' := Join(t, orderId, base, member);
            var longer := if |t'.orderIds| > |t'.members| then |t'.orderIds| else |t'.members|;
            && t'.discount == base - t'.fee
            && (longer < 2 ==> t'.fee == base)
            && (longer == 2 ==> base - 1 <= 2 * t'.fee <= base)
            && (longer > 2 ==> t'.fee == 0)
  {
    hide Boarded;
  }

  // ---------- answers that cannot be read ----------

  /**
   * A join is answered with something the caller cannot read exactly when the trip has no
   * members and none comes on board, because nobody is named or the order is on it
   * already, or when it has no orders and the joiner is taken for a member.
   */
  lemma UnreadableIff(t: Trip, orderId: string, base: int, member: Option<TripMember>)
    ensures !Readable(Join(t, orderId, base, member)) <==>
              || (t.members == [] && (member.None? || orderId in t.orderIds))
              || (t.orderIds == [] && member.Some? && Seat(t.members, member.value.memberId) < |t.members|)
  {
    hide Persona, PooledFee;
  }

  /**
   * A trip created with one order and no member list: whoever joins it with that order is
   * answered with an error, and the trip is stored as pooled all the same.
   */
  lemma HostJoinIsUnreadable(t: Trip, orderId: string, base: int, member: Option<TripMember>)
    requires t.orderIds == [orderId] && t.members == []
    ensures !Readable(Join(t, orderId, base, member))
    ensures Join(t, orderId, base, member) == t.(fee := base, discount := 0, status := Pooled)
  {
    UnreadableIff(t, orderId, base, member);
  }

  // ---------- joining again ----------

  lemma {:induction false} SeatIsFirst(members: seq<TripMember>, memberId: string, k: nat)
    requires k <= |members| && forall i | 0 <= i < k :: !TakenFor(members[i], memberId)
    requires k < |members| ==> TakenFor(members[k], memberId)
    ensures Seat(members, memberId) == k
  {
  }

  /** A join that is repeated changes nothing, for every trip and every argument. */
  lemma JoinIsIdempotent(t: Trip, orderId: string, base: int, member: Option<TripMember>)
    ensures Join(Join(t, orderId, base, member), orderId, base, member) == Join(t, orderId, base, member)
  {
    var t' := Join(t, orderId, base, member);
    if member.Some? {
      var n := member.value;
      var k := Seat(t.members, n.memberId);
      if k < |t.members| {
        assert t'.members == t.members[k := Refreshed(t.members[k], n)];
        SeatIsFirst(t'.members, n.memberId, k);
        assert Refreshed(t'.members[k], n) == t'.members[k];
        assert SeatTaken(t'.members, member) == t'.members;
      } else if orderId in t.orderIds {
        assert t'.members == t.members;
      } else {
        assert t'.members == t.members + [n];
        SeatIsFirst(t'.members, n.memberId, k);
        assert Refreshed(n, n) == n;
        assert SeatTaken(t'.members, member) == t'.members;
      }
    }
    assert Known(t', orderId, member);
  }

  predicate Distinct(ids: seq<string>) {
    forall i, j :: 0 <= i < j < |ids| ==> ids[i] != ids[j]
  }

  /**
   * What every join keeps: no order id twice, fee and discount that make up the base,
   * a fee that is that of the pool's size, and a pool that grows by at most one and
   * never shrinks, so that for a base that is not negative no join raises the fee.
   */
  lemma JoinKeeps(t: Trip, orderId: string, base: int, member: Option<TripMember>)
    ensures var t' := Join(t, orderId, base, member);
            && (Distinct(t.orderIds) ==> Distinct(t'.orderIds))
            && t.orderIds <= t'.orderIds
            && t'.fee + t'.discount == base
            && PoolSize(t) <= PoolSize(t') <= PoolSize(t) + 1
            && (t'.fee, t'.discount) == PooledFee(base, PoolSize(t'))
            && (base >= 0 ==> (t'.fee, t'.discount) == CalculateDeliveryFee(base, PoolSize(t')))
            && (base >= 0 && (t.fee, t.discount) == PooledFee(base, PoolSize(t)) ==> t'.fee <= t.fee)
  {
    var t' := Join(t, orderId, base, member);
    FeeFalls(base, PoolSize(t), PoolSize(t'));
    FeesAgreeIff(base, PoolSize(t'));
  }

  // ---------- the order of joins ----------

  datatype Request = Request(orderId: string, member: TripMember)

  function Joins(t: Trip, requests: seq<Request>, base: int): Trip
    decreases |requests|
  {
    if requests == [] then t
    else Joins(Join(t, requests[0].orderId, base, Some(requests[0].member)), requests[1..], base)
  }

  /** Everybody on the trip and in the requests is a person of their own, and nobody asks twice. */
  ghost predicate AllDifferent(t: Trip, requests: seq<Request>) {
    && (forall m | m in t.members :: !Persona(m))
    && (forall r | r in requests :: !Persona(r.member) && multiset(requests)[r] == 1)
    && (forall r, q | r in requests && q in requests && r.member.memberId == q.member.memberId :: r == q)
    && (forall r, m | r in requests && m in t.members :: m.memberId != r.member.memberId)
  }

  function Ids(t: Trip): set<string> {
    set id | id in t.orderIds
  }

  function Asked(requests: seq<Request>): set<string> {
    set i | 0 <= i < |requests| :: requests[i].orderId
  }

  lemma OncePerRequest(requests: seq<Request>)
    requires requests != [] && forall r | r in requests :: multiset(requests)[r] == 1
    ensures requests[0] in requests && requests[0] !in requests[1..]
    ensures forall q | q in requests[1..] :: q in requests && multiset(requests[1..])[q] == 1
  {
    var r, rest := requests[0], requests[1..];
    assert requests == [r] + rest;
    assert multiset(requests) == multiset{r} + multiset(rest);
  }

  /** One join of somebody new: it counts exactly if the order is new. */
  lemma JoinOfANewPerson(t: Trip, requests: seq<Request>, base: int)
    requires AllDifferent(t, requests) && requests != []
    ensures var r, t' := requests[0], Join(t, requests[0].orderId, base, Some(requests[0].member));
            && AllDifferent(t', requests[1..])
            && Ids(t') == Ids(t) + {r.orderId}
            && |t'.orderIds| - |t.orderIds| == |t'.members| - |t.members| == |Ids(t')| - |Ids(t)|
  {
    hide Persona, Join;
    var r := requests[0];
    SeatIsFirst(t.members, r.member.memberId, |t.members|);
    OncePerRequest(requests);
    JoinWithoutASeat(t, r, base);
    var t' := Join(t, r.orderId, base, Some(r.member));
    assert Ids(t') == Ids(t) + {r.orderId};
  }

  lemma JoinWithoutASeat(t: Trip, r: Request, base: int)
    requires Seat(t.members, r.member.memberId) == |t.members|
    ensures var t' := Join(t, r.orderId, base, Some(r.member));
            if r.orderId in t.orderIds then t'.orderIds == t.orderIds && t'.members == t.members
            else t'.orderIds == t.orderIds + [r.orderId] && t'.members == t.members + [r.member]
  {
  }

  lemma NothingAsked()
    ensures Asked([]) == {}
  {
  }

  lemma AskedFirst(requests: seq<Request>)
    requires requests != []
    ensures Asked(requests) == {requests[0].orderId} + Asked(requests[1..])
  {
    assert forall i | 1 <= i < |requests| :: requests[i] == requests[1..][i - 1];
  }

  lemma {:induction false} JoinsCountNewOrders(t: Trip, requests: seq<Request>, base: int)
    requires AllDifferent(t, requests)
    ensures var t' := Joins(t, requests, base);
            && Ids(t') == Ids(t) + Asked(requests)
            && |t'.orderIds| - |t.orderIds| == |t'.members| - |t.members| == |Ids(t) + Asked(requests)| - |Ids(t)|
            && (requests != [] ==> (t'.fee, t'.discount) == PooledFee(base, PoolSize(t')))
    decreases |requests|
  {
    hide Join, PooledFee, AllDifferent, Ids, Asked, Distinct, CalculateDeliveryFee;
    if requests == [] {
      NothingAsked();
      assert Ids(t) + Asked(requests) == Ids(t);
    } else {
      JoinKeeps(t, requests[0].orderId, base, Some(requests[0].member));
      var m := Join(t, requests[0].orderId, base, Some(requests[0].member));
      JoinOfANewPerson(t, requests, base);
      JoinsCountNewOrders(m, requests[1..], base);
      AskedFirst(requests);
      assert Ids(m) + Asked(requests[1..]) == Ids(t) + Asked(requests);
    }
  }

  /**
   * When the same different people join, none of them a shared persona, every order of
   * the joins leads to the same orders on board, pool size, fee and discount.
   */
  lemma JoinOrderDoesNotMatter(t: Trip, requests: seq<Request>, reordered: seq<Request>, base: int)
    requires AllDifferent(t, requests) && multiset(reordered) == multiset(requests)
    ensures var a, b := Joins(t, requests, base), Joins(t, reordered, base);
            && Ids(a) == Ids(b) && PoolSize(a) == PoolSize(b) && a.fee == b.fee && a.discount == b.discount
  {
    forall r ensures r in reordered <==> r in requests {
      assert r in multiset(reordered) <==> r in multiset(requests);
    }
    assert Asked(reordered) == Asked(requests) by {
      forall id ensures id in Asked(reordered) <==> id in Asked(requests) {
        AskedFor(reordered, requests, id);
        AskedFor(requests, reordered, id);
      }
    }
    assert |reordered| == |multiset(reordered)| == |requests|;
    JoinsCountNewOrders(t, requests, base);
    JoinsCountNewOrders(t, reordered, base);
  }

  lemma AskedFor(a: seq<Request>, b: seq<Request>, id: string)
    requires forall r | r in a :: r in b
    ensures id in Asked(a) ==> id in Asked(b)
  {
    if id in Asked(a) {
      var i :| 0 <= i < |a| && a[i].orderId == id;
      assert a[i] in b;
      var j :| 0 <= j < |b| && b[j] == a[i];
      assert b[j].orderId in Asked(b);
    }
  }

  /** Two joins by strangers with new orders: the second is taken for the first if that is a persona. */
  lemma TwoStrangers(t: Trip, first: Request, second: Request, base: int)
    requires forall m | m in t.members :: !Persona(m) && m.memberId !in {first.member.memberId, second.member.memberId}
    requires first.member.memberId != second.member.memberId
    requires first.orderId !in t.orderIds && second.orderId !in t.orderIds && first.orderId != second.orderId
    ensures var t' := Joins(t, [first, second], base);
            var joined := if Persona(first.member) then 1 else 2;
            && |t'.orderIds| == |t.orderIds| + joined && |t'.members| == |t.members| + joined
            && PoolSize(t') == PoolSize(t) + joined
  {
    hide Persona, Join;
    SeatIsFirst(t.members, first.member.memberId, |t.members|);
    JoinWithoutASeat(t, first, base);
    var t1 := Join(t, first.orderId, base, Some(first.member));
    if Persona(first.member) {
      SeatIsFirst(t1.members, second.member.memberId, |t.members|);
      JoinOfAKnownPerson(t1, second, base);
    } else {
      SeatIsFirst(t1.members, second.member.memberId, |t1.members|);
      JoinWithoutASeat(t1, second, base);
    }
    TwoJoins(t, first, second, base);
  }

  lemma JoinOfAKnownPerson(t: Trip, r: Request, base: int)
    requires Seat(t.members, r.member.memberId) < |t.members|
    ensures var t' := Join(t, r.orderId, base, Some(r.member));
            t'.orderIds == t.orderIds && |t'.members| == |t.members|
  {
  }

  /**
   * When two strangers with new orders join a trip without personas, the order of their
   * joins leaves the pool the same exactly when both or neither of them is a persona.
   */
  lemma JoinOrderIsFreeIff(t: Trip, a: Request, b: Request, base: int)
    requires forall m | m in t.members :: !Persona(m) && m.memberId !in {a.member.memberId, b.member.memberId}
    requires a.member.memberId != b.member.memberId
    requires a.orderId !in t.orderIds && b.orderId !in t.orderIds && a.orderId != b.orderId
    ensures PoolSize(Joins(t, [a, b], base)) == PoolSize(Joins(t, [b, a], base))
            <==> (Persona(a.member) <==> Persona(b.member))
  {
    TwoStrangers(t, a, b, base);
    TwoStrangers(t, b, a, base);
  }

  /**
   * A persona and a stranger who is none: if the persona comes first the stranger is taken
   * for it and the pool grows by one, the other way round it grows by two.
   */
  lemma PersonasMakeOrderMatter(t: Trip, web: Request, other: Request, base: int)
    requires forall m | m in t.members :: !Persona(m) && m.memberId !in {web.member.memberId, other.member.memberId}
    requires web.member.memberId != other.member.memberId && Persona(web.member) && !Persona(other.member)
    requires web.orderId !in t.orderIds && other.orderId !in t.orderIds && web.orderId != other.orderId
    ensures PoolSize(Joins(t, [web, other], base)) == PoolSize(t) + 1
    ensures PoolSize(Joins(t, [other, web], base)) == PoolSize(t) + 2
  {
    TwoStrangers(t, web, other, base);
    TwoStrangers(t, other, web, base);
  }

  lemma TwoJoins(t: Trip, first: Request, second: Request, base: int)
    ensures Joins(t, [first, second], base)
            == Join(Join(t, first.orderId, base, Some(first.member)), second.orderId, base, Some(second.member))
  {
    hide Join;
    var m := Join(t, first.orderId, base, Some(first.member));
    var n := Join(m, second.orderId, base, Some(second.member));
    assert [first, second][1..] == [second] && [second][1..] == [];
    assert Joins(n, [], base) == n;
    assert Joins(m, [second], base) == Joins(n, [], base);
  }
}
