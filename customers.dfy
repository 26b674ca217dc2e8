/**
 * The admin dashboard's customers and VIP customers: who counts as a
 * customer, the names shown for them, promotion to and removal from VIP,
 * and a customer's purchase statistics.
 */
module Customers {
  import opened Shared
  import opened Schema

  /** A staff role: admin or clerk. */
  predicate IsStaff(u: User)
  {
    u.role == Some("admin") || u.role == Some("clerk")
  }

  /** The customer listing's filter: not staff, including users with no role. */
  predicate Listed(u: User)
  {
    !IsStaff(u)
  }

  /**
   * `whereNotIn('role', ['admin', 'clerk'])` alone, as `promote` and the
   * statistics use it: SQL never matches a NULL role against NOT IN, so a
   * user without a role is not found there.
   */
  predicate FoundAsCustomer(users: map<int, User>, id: int)
  {
    id in users && users[id].role.Some? && !IsStaff(users[id])
  }

  /** The customer listing's name: the display name, else the trimmed full name, and the email when that is empty or "0". */
  function CustomerName(u: User): (r: string)
    ensures u.displayName.Some? && Truthy(u.displayName.value) ==> r == u.displayName.value
    ensures u.displayName.Some? && !Truthy(u.displayName.value) ==> r == u.email
    ensures u.displayName.None? && Truthy(Trim(u.firstName + " " + u.lastName)) ==> r == Trim(u.firstName + " " + u.lastName)
    ensures u.displayName.None? && !Truthy(Trim(u.firstName + " " + u.lastName)) ==> r == u.email
  {
    var named := if u.displayName.Some? then u.displayName.value else Trim(u.firstName + " " + u.lastName);
    if Truthy(named) then named else u.email
  }

  datatype CustomerEntry = CustomerEntry(displayName: string, isOrganization: bool, email: string)

  /** The customer listing, keyed by user id, search left aside. */
  function CustomerIndex(users: map<int, User>): (r: map<int, CustomerEntry>)
    ensures forall id :: id in r <==> id in users && Listed(users[id])
    ensures forall id :: id in r ==> (r[id].displayName == CustomerName(users[id])
      && r[id].isOrganization == (users[id].isOrganization == Some(true)))
  {
    map id | id in users && Listed(users[id]) ::
      CustomerEntry(CustomerName(users[id]), users[id].isOrganization == Some(true), users[id].email)
  }

  /** A listed customer always has a name to show unless their email is empty too. */
  lemma CustomerNameFallsBackToEmail(u: User)
    ensures CustomerName(u) == u.email || Truthy(CustomerName(u))
  {
  }

  datatype Promotion =
    | CustomerNotFound   // 404
    | AlreadyVip         // 400
    | Promoted

  /** What `promote` answers, and the users table after it. */
  function PromoteIn(users: map<int, User>, id: int): (r: (Promotion, map<int, User>))
    ensures r.0 == CustomerNotFound <==> !FoundAsCustomer(users, id)
    ensures r.0 == AlreadyVip <==> FoundAsCustomer(users, id) && users[id].role == Some("vip")
    ensures r.0 != Promoted ==> r.1 == users
    ensures r.0 == Promoted ==> r.1 == users[id := users[id].(role := Some("vip"))]
  {
    if !FoundAsCustomer(users, id) then (CustomerNotFound, users)
    else if users[id].role == Some("vip") then (AlreadyVip, users)
    else (Promoted, users[id := users[id].(role := Some("vip"))])
  }

  /** `promote`. */
  method Promote(db: Database, id: int) returns (r: Promotion)
    requires db.Valid()
    modifies db`users
    ensures db.Valid()
    ensures (r, db.users) == PromoteIn(old(db.users), id)
  {
    if !(id in db.users && db.users[id].role.Some? && !IsStaff(db.users[id])) {
      return CustomerNotFound;
    }
    var u := db.users[id];
    if u.role == Some("vip") {
      return AlreadyVip;
    }
    db.users := db.users[id := u.(role := Some("vip"))];
    r := Promoted;
  }

  datatype Demotion =
    | UserNotFound   // 404
    | NotVip         // 400
    | Demoted

  /** What `remove` of the VIP controller answers, and the users table after it. */
  function DemoteIn(users: map<int, User>, id: int): (r: (Demotion, map<int, User>))
    ensures r.0 == UserNotFound <==> id !in users
    ensures r.0 == NotVip <==> id in users && users[id].role != Some("vip")
    ensures r.0 != Demoted ==> r.1 == users
    ensures r.0 == Demoted ==> r.1 == users[id := users[id].(role := Some("customer"))]
  {
    if id !in users then (UserNotFound, users)
    else if users[id].role != Some("vip") then (NotVip, users)
    else (Demoted, users[id := users[id].(role := Some("customer"))])
  }

  /** `remove` of the VIP controller: any user found by id; only a VIP is demoted, to "customer". */
  method RemoveVip(db: Database, id: int) returns (r: Demotion)
    requires db.Valid()
    modifies db`users
    ensures db.Valid()
    ensures (r, db.users) == DemoteIn(old(db.users), id)
  {
    if id !in db.users {
      return UserNotFound;
    }
    var u := db.users[id];
    if u.role != Some("vip") {
      return NotVip;
    }
    db.users := db.users[id := u.(role := Some("customer"))];
    r := Demoted;
  }

  /**
   * A successful promotion is always undone by a removal, which ends at
   * "customer" whatever non-staff role the user started with: the table is
   * restored exactly when the user was a "customer", and no other user changes.
   */
  lemma PromoteThenRemove(users: map<int, User>, id: int)
    requires PromoteIn(users, id).0 == Promoted
    ensures var after := DemoteIn(PromoteIn(users, id).1, id);
      && after.0 == Demoted
      && after.1 == users[id := users[id].(role := Some("customer"))]
      && (after.1 == users <==> users[id].role == Some("customer"))
      && forall k :: k in users && k != id ==> after.1[k] == users[k]
  {
    var after := DemoteIn(PromoteIn(users, id).1, id);
    if after.1 == users {
      assert after.1[id].role == Some("customer");
    }
  }

  /** The VIP listing's name: the organisation name for an organisation, else the trimmed full name. */
  function VipName(u: User): (r: Option<string>)
    ensures u.isOrganization == Some(true) ==> r == u.organizationName
    ensures u.isOrganization != Some(true) ==> r == Some(Trim(u.firstName + " " + u.lastName))
  {
    if u.isOrganization == Some(true) then u.organizationName else Some(Trim(u.firstName + " " + u.lastName))
  }

  /** The VIP listing: exactly the users whose role is "vip", with their names. */
  function VipIndex(users: map<int, User>): (r: map<int, Option<string>>)
    ensures forall id :: id in r <==> id in users && users[id].role == Some("vip")
    ensures forall id :: id in r ==> r[id] == VipName(users[id])
  {
    map id | id in users && users[id].role == Some("vip") :: VipName(users[id])
  }

  /** Every VIP is on the customer listing too. */
  lemma VipsAreListedCustomers(users: map<int, User>)
    ensures VipIndex(users).Keys <= CustomerIndex(users).Keys
  {
  }

  /** The orders of user `u`. */
  function OrdersOf(u: int): Order -> bool
  {
    (o: Order) => o.userId == u
  }

  /** An order the statistics count as spent: paid, delivered or completed. */
  function Settled(): Order -> bool
  {
    (o: Order) => o.paymentStatus == "paid" || o.status == "delivered" || o.status == "completed"
      || o.paymentStatus == "completed"
  }

  /** The sum of `total_amount` over some orders. */
  function SumTotals(orders: seq<Order>): Money
  {
    if orders == [] then 0 else orders[0].total + SumTotals(orders[1..])
  }

  datatype PurchaseStats = PurchaseStats(ok: bool, purchaseCount: nat, totalSpent: Money)

  /**
   * `getPurchaseStats`: the number of the customer's orders, and what the
   * settled ones add up to, or what all of them add up to when that is 0.
   * A customer not found is an exception here, answered with zeros.
   */
  function Stats(users: map<int, User>, orders: seq<Order>, id: int): (r: PurchaseStats)
    ensures r.ok <==> FoundAsCustomer(users, id)
    ensures !r.ok ==> r.purchaseCount == 0 && r.totalSpent == 0
    ensures r.ok ==> r.purchaseCount == |Filter(orders, OrdersOf(id))|
    ensures r.ok && SumTotals(Filter(Filter(orders, OrdersOf(id)), Settled())) != 0 ==>
      r.totalSpent == SumTotals(Filter(Filter(orders, OrdersOf(id)), Settled()))
    ensures r.ok && SumTotals(Filter(Filter(orders, OrdersOf(id)), Settled())) == 0 ==>
      r.totalSpent == SumTotals(Filter(orders, OrdersOf(id)))
  {
    if !FoundAsCustomer(users, id) then PurchaseStats(false, 0, 0)
    else
      var own := Filter(orders, OrdersOf(id));
      var settled := SumTotals(Filter(own, Settled()));
      PurchaseStats(true, |own|, if settled == 0 then SumTotals(own) else settled)
  }

  /** Over orders whose totals are not negative, a selection never adds up to more than all of them. */
  lemma {:induction false} SelectionSumsToLess(orders: seq<Order>, keep: Order -> bool)
    requires forall i :: 0 <= i < |orders| ==> orders[i].total >= 0
    ensures 0 <= SumTotals(Filter(orders, keep)) <= SumTotals(orders)
  {
    if orders != [] {
      SelectionSumsToLess(orders[1..], keep);
      assert Filter(orders, keep) == (if keep(orders[0]) then [orders[0]] else []) + Filter(orders[1..], keep);
      SumOfAppend(if keep(orders[0]) then [orders[0]] else [], Filter(orders[1..], keep));
    }
  }

  lemma {:induction false} SumOfAppend(a: seq<Order>, b: seq<Order>)
    ensures SumTotals(a + b) == SumTotals(a) + SumTotals(b)
  {
    if a == [] {
      assert a + b == b;
    } else {
      assert (a + b)[1..] == a[1..] + b;
      SumOfAppend(a[1..], b);
    }
  }

  /**
   * When order totals are not negative (as placement guarantees), the spent
   * amount is never more than the customer's orders add up to.
   */
  lemma SpentNeverExceedsOrdered(users: map<int, User>, orders: seq<Order>, id: int)
    requires forall i :: 0 <= i < |orders| ==> orders[i].total >= 0
    requires FoundAsCustomer(users, id)
    ensures 0 <= Stats(users, orders, id).totalSpent <= SumTotals(Filter(orders, OrdersOf(id)))
  {
    var own := Filter(orders, OrdersOf(id));
    assert forall i :: 0 <= i < |own| ==> own[i] in orders;
    SelectionSumsToLess(orders, OrdersOf(id));
    SelectionSumsToLess(own, Settled());
  }
}
