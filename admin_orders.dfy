/**
 * The order admin page: loading the orders with the profile of each order's
 * user (looked up once per distinct user), the search box, and the status and
 * payment buttons, which overwrite one column of one order with no check on
 * its current value.
 */
module AdminOrders {
  import opened Common
  import opened Tables

  /** `[...new Set(ids)]`: each id once, in order of first appearance. */
  function UniqueIds(ids: seq<UserId>): (r: seq<UserId>)
    ensures forall x :: x in r <==> x in ids
    ensures forall i, j :: 0 <= i < j < |r| ==> r[i] != r[j]
    ensures |r| <= |ids|
    decreases |ids|
  {
    if ids == [] then []
    else
      var front := UniqueIds(ids[..|ids| - 1]);
      var last := ids[|ids| - 1];
      assert ids == ids[..|ids| - 1] + [last];
      if last in front then front else front + [last]
  }

  /** The first id listed is the first user id of the orders. */
  lemma {:induction false} UniqueIdsKeepsFirst(ids: seq<UserId>)
    requires |ids| > 0
    ensures |UniqueIds(ids)| > 0 && UniqueIds(ids)[0] == ids[0]
    decreases |ids|
  {
    if |ids| > 1 {
      UniqueIdsKeepsFirst(ids[..|ids| - 1]);
    }
  }

  /** An order as listed: its id, its row, and the joined profile (undefined when none was found). */
  datatype ListedOrder = ListedOrder(id: OrderId, order: Order, profile: Option<Profile>)

  function UserIds(orders: seq<(OrderId, Order)>): (r: seq<UserId>)
    ensures |r| == |orders|
    ensures forall i :: 0 <= i < |orders| ==> r[i] == orders[i].1.userId
  {
    if orders == [] then [] else [orders[0].1.userId] + UserIds(orders[1..])
  }

  /** `from('profiles').select(...).in('id', ids)`: the profile rows whose id is listed. */
  function ProfilesWithIds(table: seq<Profile>, ids: seq<UserId>): (r: seq<Profile>)
    ensures forall p :: p in r <==> p in table && p.id in ids
  {
    if table == [] then []
    else (if table[0].id in ids then [table[0]] else []) + ProfilesWithIds(table[1..], ids)
  }

  /** No profile after position `i` has the same id as `profiles[i]`. */
  predicate LastWithId(profiles: seq<Profile>, i: int)
    requires 0 <= i < |profiles|
  {
    forall j :: i < j < |profiles| ==> profiles[j].id != profiles[i].id
  }

  /** `new Map(profiles.map(p => [p.id, p]))`: a later entry for the same id replaces an earlier one. */
  function ProfileMap(profiles: seq<Profile>): (m: map<UserId, Profile>)
    ensures forall id :: id in m <==> exists p :: p in profiles && p.id == id
    ensures forall id :: id in m ==> m[id] in profiles && m[id].id == id
    ensures forall i :: 0 <= i < |profiles| && LastWithId(profiles, i) ==> m[profiles[i].id] == profiles[i]
    decreases |profiles|
  {
    if profiles == [] then map[]
    else
      var front := profiles[..|profiles| - 1];
      var last := profiles[|profiles| - 1];
      assert profiles == front + [last];
      ProfileMap(front)[last.id := last]
  }

  /** `orders.map(order => ({...order, profile: map.get(order.user_id)}))` */
  function JoinProfiles(orders: seq<(OrderId, Order)>, m: map<UserId, Profile>): (r: seq<ListedOrder>)
    ensures |r| == |orders|
    ensures forall i :: 0 <= i < |orders| ==>
      r[i].id == orders[i].0 && r[i].order == orders[i].1 &&
      r[i].profile == (if orders[i].1.userId in m then Some(m[orders[i].1.userId]) else None)
  {
    if orders == [] then []
    else
      var o := orders[0];
      [ListedOrder(o.0, o.1, if o.1.userId in m then Some(m[o.1.userId]) else None)] + JoinProfiles(orders[1..], m)
  }

  /**
   * The page's query: the orders (in the order the backend returns them) with
   * the profiles fetched for their distinct user ids. A failed profile fetch is
   * ignored and leaves every profile undefined.
   */
  function LoadOrders(orders: seq<(OrderId, Order)>, profilesTable: seq<Profile>, profilesFetched: bool)
    : (r: seq<ListedOrder>)
    ensures |r| == |orders|
    ensures forall i :: 0 <= i < |orders| ==> r[i].id == orders[i].0 && r[i].order == orders[i].1
    ensures !profilesFetched ==> forall i :: 0 <= i < |r| ==> r[i].profile.None?
  {
    var fetched := if profilesFetched then ProfilesWithIds(profilesTable, UniqueIds(UserIds(orders))) else [];
    JoinProfiles(orders, ProfileMap(fetched))
  }

  /**
   * Every order keeps its place and its row, and gains a profile exactly when
   * the profile table has a row for its user; that profile is one of the
   * user's own rows.
   */
  lemma {:induction false} LoadJoinsOwnProfile(orders: seq<(OrderId, Order)>, table: seq<Profile>)
    ensures var r := LoadOrders(orders, table, true);
      && |r| == |orders|
      && forall i :: 0 <= i < |orders| ==>
        && r[i].id == orders[i].0 && r[i].order == orders[i].1
        && (r[i].profile.Some? <==> exists p :: p in table && p.id == orders[i].1.userId)
        && (r[i].profile.Some? ==> r[i].profile.value in table && r[i].profile.value.id == orders[i].1.userId)
  {
    var ids := UniqueIds(UserIds(orders));
    var fetched := ProfilesWithIds(table, ids);
    var m := ProfileMap(fetched);
    var r := LoadOrders(orders, table, true);
    forall i | 0 <= i < |orders|
      ensures r[i].profile.Some? <==> exists p :: p in table && p.id == orders[i].1.userId
    {
      var u := orders[i].1.userId;
      assert UserIds(orders)[i] == u;
      assert u in ids;
      if p :| p in table && p.id == u {
        assert p in fetched;
      }
    }
  }

  /** A failed profile fetch lists every order without a customer. */
  lemma UnfetchedProfilesLeaveOrdersBare(orders: seq<(OrderId, Order)>, table: seq<Profile>)
    ensures forall i :: 0 <= i < |orders| ==> LoadOrders(orders, table, false)[i].profile.None?
  {
  }

  /** `${order_number} ${profile?.email || ''}` */
  function Haystack(o: ListedOrder): (h: string)
    ensures Contains(h, o.order.orderNumber)
    ensures o.profile.Some? && o.profile.value.email.Some? ==> Contains(h, o.profile.value.email.value)
  {
    var email := if o.profile.Some? && o.profile.value.email.Some? then o.profile.value.email.value else "";
    var h := o.order.orderNumber + " " + email;
    ContainsInfix("", o.order.orderNumber, " " + email);
    assert "" + o.order.orderNumber + (" " + email) == h;
    ContainsInfix(o.order.orderNumber + " ", email, "");
    assert o.order.orderNumber + " " + email + "" == h;
    h
  }

  /** The search box matches case-insensitively; an empty query matches every order. */
  function MatchesQuery(o: ListedOrder, query: string): (b: bool)
    ensures |query| == 0 ==> b
  {
    Contains(ToLower(Haystack(o)), ToLower(query))
  }

  /** `filteredOrders`: no data gives [], else the orders whose lowercased haystack contains the lowercased query. */
  function FilteredOrders(orders: Option<seq<ListedOrder>>, query: string): (r: seq<ListedOrder>)
    ensures orders.None? ==> r == []
    ensures orders.Some? ==> forall o :: o in r <==> o in orders.value && MatchesQuery(o, query)
    ensures orders.Some? ==> |r| <= |orders.value|
    ensures orders.Some? ==> r == Filter(orders.value, query)
  {
    match orders
    case None => []
    case Some(os) =>
      FilterMembers(os, query);
      Filter(os, query)
  }

  function Filter(os: seq<ListedOrder>, query: string): (r: seq<ListedOrder>)
    ensures |r| <= |os|
  {
    if os == [] then []
    else (if MatchesQuery(os[0], query) then [os[0]] else []) + Filter(os[1..], query)
  }

  /** The search keeps exactly the orders that match. */
  lemma {:induction false} FilterMembers(os: seq<ListedOrder>, query: string)
    ensures forall o :: o in Filter(os, query) <==> o in os && MatchesQuery(o, query)
    decreases |os|
  {
    if os != [] {
      FilterMembers(os[1..], query);
      assert os == [os[0]] + os[1..];
    }
  }

  /** The search keeps the orders' order and repeats: filtering a concatenation concatenates the filtered parts. */
  lemma {:induction false} FilterAppend(a: seq<ListedOrder>, b: seq<ListedOrder>, query: string)
    ensures Filter(a + b, query) == Filter(a, query) + Filter(b, query)
    decreases |a|
  {
    if a != [] {
      var head := if MatchesQuery(a[0], query) then [a[0]] else [];
      assert (a + b)[0] == a[0] && (a + b)[1..] == a[1..] + b;
      assert Filter(a, query) == head + Filter(a[1..], query);
      assert Filter(a + b, query) == head + Filter(a[1..] + b, query);
      FilterAppend(a[1..], b, query);
    } else {
      assert a + b == b;
    }
  }

  /** An empty search box lists every loaded order, in order. */
  lemma {:induction false} EmptyQueryKeepsAll(os: seq<ListedOrder>)
    ensures Filter(os, "") == os
  {
    if os != [] {
      ContainsEmpty(ToLower(Haystack(os[0])));
      EmptyQueryKeepsAll(os[1..]);
      assert os == [os[0]] + os[1..];
    }
  }

  /** Typing part of an order number, in any letter case, finds that order. */
  lemma SearchFindsOrderNumber(o: ListedOrder, query: string)
    requires Contains(ToLower(o.order.orderNumber), ToLower(query))
    ensures MatchesQuery(o, query)
  {
    var email := if o.profile.Some? && o.profile.value.email.Some? then o.profile.value.email.value else "";
    ToLowerConcat(o.order.orderNumber, " " + email);
    assert Haystack(o) == o.order.orderNumber + (" " + email);
    ContainsAppend(ToLower(o.order.orderNumber), ToLower(" " + email), ToLower(query));
  }

  /** Typing part of the customer's email, in any letter case, finds the order. */
  lemma SearchFindsEmail(o: ListedOrder, query: string)
    requires o.profile.Some? && o.profile.value.email.Some?
    requires Contains(ToLower(o.profile.value.email.value), ToLower(query))
    ensures MatchesQuery(o, query)
  {
    var email := o.profile.value.email.value;
    ToLowerConcat(o.order.orderNumber + " ", email);
    ContainsPrepend(ToLower(o.order.orderNumber + " "), ToLower(email), ToLower(query));
  }

  // ---------------------------------------------------------------------
  // Status buttons

  /** Processing, Shipped, Delivered, Cancel. */
  function StatusButton(s: string): (b: bool)
    ensures b ==> s != Pending
  {
    s == "processing" || s == "shipped" || s == "delivered" || s == "cancelled"
  }

  /** Mark Paid, Refund. */
  function PaymentButton(s: string): (b: bool)
    ensures b ==> s != Pending
  {
    s == "paid" || s == "refunded"
  }

  /** A status button overwrites `status` whatever it was: a delivered or cancelled order can be reopened. */
  lemma AnyStatusFromAnyStatus(orders: map<OrderId, Order>, id: OrderId, s: string)
    requires id in orders && StatusButton(s)
    ensures SetOrderStatus(orders, id, s)[id].status == s
    ensures SetOrderStatus(orders, id, s)[id].paymentStatus == orders[id].paymentStatus
  {
  }

  /** The status and payment columns are written independently: the two writes commute. */
  lemma StatusAndPaymentIndependent(orders: map<OrderId, Order>, id1: OrderId, s: string, id2: OrderId, ps: string)
    ensures SetPaymentStatus(SetOrderStatus(orders, id1, s), id2, ps)
         == SetOrderStatus(SetPaymentStatus(orders, id2, ps), id1, s)
  {
    var a := SetPaymentStatus(SetOrderStatus(orders, id1, s), id2, ps);
    var b := SetOrderStatus(SetPaymentStatus(orders, id2, ps), id1, s);
    assert a.Keys == b.Keys;
    forall k | k in a.Keys
      ensures a[k] == b[k]
    {
    }
  }

  /** `updateStatus.mutate({id, status})` */
  method UpdateStatus(db: Db, id: OrderId, status: string, fail: Option<DbError>) returns (toast: Result<string, string>)
    requires StatusButton(status)
    modifies db`orders
    ensures toast.Ok? <==> fail.None?
    ensures toast.Ok? ==> toast.value == "Order status updated"
    ensures toast.Err? ==> toast.error == ErrorText(fail.value, "Failed to update status")
    ensures db.orders == if fail.None? then SetOrderStatus(old(db.orders), id, status) else old(db.orders)
  {
    if fail.Some? {
      return Err(ErrorText(fail.value, "Failed to update status"));
    }
    db.orders := SetOrderStatus(db.orders, id, status);
    toast := Ok("Order status updated");
  }

  /** `updatePayment.mutate({id, payment_status})` */
  method UpdatePayment(db: Db, id: OrderId, paymentStatus: string, fail: Option<DbError>)
    returns (toast: Result<string, string>)
    requires PaymentButton(paymentStatus)
    modifies db`orders
    ensures toast.Ok? <==> fail.None?
    ensures toast.Ok? ==> toast.value == "Payment status updated"
    ensures toast.Err? ==> toast.error == ErrorText(fail.value, "Failed to update payment status")
    ensures db.orders == if fail.None? then SetPaymentStatus(old(db.orders), id, paymentStatus) else old(db.orders)
  {
    if fail.Some? {
      return Err(ErrorText(fail.value, "Failed to update payment status"));
    }
    db.orders := SetPaymentStatus(db.orders, id, paymentStatus);
    toast := Ok("Payment status updated");
  }
}
