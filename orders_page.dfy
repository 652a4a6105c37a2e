/**
 * The customer's order history page: the user's orders, the colour and text
 * of each status badge, and whether the discount line is shown.
 */
module OrdersPage {
  import opened Common
  import opened Tables
  import opened Checkout

  /** `eq('user_id', user.id)`: the signed-in user's orders, in the order given. */
  function MyOrders(orders: seq<(OrderId, Order)>, user: UserId): (r: seq<(OrderId, Order)>)
    ensures forall o :: o in r <==> o in orders && o.1.userId == user
    ensures |r| <= |orders|
  {
    if orders == [] then []
    else (if orders[0].1.userId == user then [orders[0]] else []) + MyOrders(orders[1..], user)
  }

  /** The user's orders keep the given order and repeats: the selection distributes over concatenation. */
  lemma {:induction false} MyOrdersAppend(a: seq<(OrderId, Order)>, b: seq<(OrderId, Order)>, user: UserId)
    ensures MyOrders(a + b, user) == MyOrders(a, user) + MyOrders(b, user)
    decreases |a|
  {
    if a != [] {
      var head := if a[0].1.userId == user then [a[0]] else [];
      assert (a + b)[0] == a[0] && (a + b)[1..] == a[1..] + b;
      assert MyOrders(a, user) == head + MyOrders(a[1..], user);
      assert MyOrders(a + b, user) == head + MyOrders(a[1..] + b, user);
      MyOrdersAppend(a[1..], b, user);
    } else {
      assert a + b == b;
    }
  }

  const Gray := "bg-gray-500"

  /** `colors[status] || 'bg-gray-500'` */
  function StatusColor(status: string): (c: string)
    ensures status == "pending" ==> c == "bg-yellow-500"
    ensures status == "confirmed" ==> c == "bg-blue-500"
    ensures status == "processing" ==> c == "bg-purple-500"
    ensures status == "shipped" ==> c == "bg-indigo-500"
    ensures status == "delivered" ==> c == "bg-green-500"
    ensures status == "cancelled" ==> c == "bg-red-500"
    ensures c == Gray <==> status !in KnownStatuses
  {
    match status
    case "pending" => "bg-yellow-500"
    case "confirmed" => "bg-blue-500"
    case "processing" => "bg-purple-500"
    case "shipped" => "bg-indigo-500"
    case "delivered" => "bg-green-500"
    case "cancelled" => "bg-red-500"
    case _ => Gray
  }

  const KnownStatuses: set<string> := {"pending", "confirmed", "processing", "shipped", "delivered", "cancelled"}

  /** Each known status has its own colour. */
  lemma KnownStatusColorsDistinct(s: string, t: string)
    requires s in KnownStatuses && t in KnownStatuses && s != t
    ensures StatusColor(s) != StatusColor(t)
  {
  }

  /** Every status an order is created with or an admin can set has a colour of its own. */
  lemma WrittenStatusesAreColoured(s: string)
    requires s == Pending || s == "processing" || s == "shipped" || s == "delivered" || s == "cancelled"
    ensures StatusColor(s) != Gray
  {
  }

  /** `status.toUpperCase()` */
  function BadgeText(status: string): (t: string)
    ensures |t| == |status|
    ensures forall i :: 0 <= i < |t| ==> !('a' <= t[i] <= 'z')
  {
    ToUpper(status)
  }

  predicate LowerAscii(s: string) {
    forall i :: 0 <= i < |s| ==> 'a' <= s[i] <= 'z'
  }

  /** For the lowercase status names the badge loses nothing: lowercasing it gives the status back. */
  lemma BadgeTextReversible(status: string)
    requires LowerAscii(status)
    ensures ToLower(BadgeText(status)) == status
  {
    var b := BadgeText(status);
    assert forall i :: 0 <= i < |status| ==> LowerChar(b[i]) == status[i];
  }

  /** `discount_amount > 0 && (...)`: for amounts that add up, exactly when less than the subtotal was charged. */
  function ShowsDiscountLine(o: Order): (b: bool)
    ensures o.finalAmount == o.totalAmount - o.discountAmount ==> (b <==> o.finalAmount < o.totalAmount)
  {
    o.discountAmount > 0.0
  }

  /** An order placed without a coupon never shows a discount line. */
  lemma NoCouponNoDiscountLine(user: UserId, number: string, subtotal: real, address: string)
    ensures !ShowsDiscountLine(NewOrder(user, number, subtotal, Discount(None, subtotal), None, address))
  {
  }

  /** A fixed coupon of positive value always shows its discount line. */
  lemma FixedCouponShowsDiscountLine(user: UserId, number: string, subtotal: real, c: Coupon, address: string)
    requires c.discountType == Fixed && c.discountValue > 0.0
    ensures ShowsDiscountLine(NewOrder(user, number, subtotal, Discount(Some(c), subtotal), Some(c), address))
  {
  }

  /** "No orders yet" when the query has no data or lists no order. */
  function ShowsEmptyState(orders: Option<seq<(OrderId, Order)>>): (b: bool)
    ensures orders.None? ==> b
    ensures orders.Some? ==> (b <==> forall o :: o !in orders.value)
  {
    if orders.Some? && |orders.value| > 0 then
      assert orders.value[0] in orders.value;
      false
    else true
  }

  /** A signed-in user sees "No orders yet" exactly when no order in the table is theirs. */
  lemma EmptyStateIffNoOwnOrders(table: seq<(OrderId, Order)>, user: UserId)
    ensures ShowsEmptyState(Some(MyOrders(table, user))) <==> forall o :: o in table ==> o.1.userId != user
  {
  }
}
