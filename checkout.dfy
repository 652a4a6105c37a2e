/**
 * The checkout page: subtotal, coupon discount and total; the coupon guard
 * chain; and order placement, which writes the order, its line snapshots,
 * the payment flag and the cart deletion one after another, stopping at the
 * first step that fails (nothing written earlier is undone).
 */
module Checkout {
  import opened Common
  import opened Tables
  import opened Pricing

  // ---------------------------------------------------------------------
  // Discount and total

  /**
   * A percentage coupon gives `min(subtotal * value / 100, max_discount_amount || Infinity)`,
   * a fixed coupon its value (even above the subtotal), no coupon 0.
   */
  function Discount(applied: Option<Coupon>, subtotal: real): (d: real)
    ensures applied.None? ==> d == 0.0
    ensures applied.Some? && applied.value.discountType == Fixed ==> d == applied.value.discountValue
    ensures applied.Some? && applied.value.discountType == Percentage ==>
      var raw := subtotal * applied.value.discountValue / 100.0;
      var cap := applied.value.maxDiscountAmount;
      && d <= raw
      && (Truthy(cap) ==> d <= cap.value)
      && (d == raw || (Truthy(cap) && d == cap.value))
  {
    match applied
    case None => 0.0
    case Some(c) =>
      if c.discountType == Percentage then
        var raw := subtotal * c.discountValue / 100.0;
        if Truthy(c.maxDiscountAmount) then Min(raw, c.maxDiscountAmount.value) else raw
      else c.discountValue
  }

  /** A percentage coupon of 0 to 100 percent whose cap, if any, is not negative. */
  predicate PercentageWithinBounds(c: Coupon) {
    && c.discountType == Percentage && 0.0 <= c.discountValue <= 100.0
    && (Truthy(c.maxDiscountAmount) ==> c.maxDiscountAmount.value >= 0.0)
  }

  /** A percentage of at most 100 never discounts more than a non-negative subtotal. */
  lemma PercentageDiscountWithinSubtotal(c: Coupon, subtotal: real)
    requires PercentageWithinBounds(c) && subtotal >= 0.0
    ensures 0.0 <= Discount(Some(c), subtotal) <= subtotal
  {
    var raw := subtotal * c.discountValue / 100.0;
    var f := c.discountValue / 100.0;
    assert raw == subtotal * f;
    ScaleDown(subtotal, f);
    assert 0.0 <= raw <= subtotal;
    assert Discount(Some(c), subtotal) == raw
        || (Truthy(c.maxDiscountAmount) && Discount(Some(c), subtotal) == c.maxDiscountAmount.value);
  }

  /** Scaling a non-negative amount by a fraction in [0, 1] keeps it between 0 and itself. */
  lemma ScaleDown(a: real, f: real)
    requires a >= 0.0 && 0.0 <= f <= 1.0
    ensures 0.0 <= a * f <= a
  {
    assert a * f <= a * 1.0;
  }

  /** A fixed coupon above the subtotal makes the total negative: nothing clamps it. */
  lemma FixedCouponCanMakeTotalNegative(c: Coupon, subtotal: real)
    requires c.discountType == Fixed && c.discountValue > subtotal
    ensures subtotal - Discount(Some(c), subtotal) < 0.0
  {
  }

  /** Subtotal 1000 with a 10% coupon capped at 80: the discount is 80 and the total 920. */
  lemma CappedPercentageExample(c: Coupon)
    requires c.discountType == Percentage && c.discountValue == 10.0 && c.maxDiscountAmount == Some(80.0)
    ensures Discount(Some(c), 1000.0) == 80.0
    ensures 1000.0 - Discount(Some(c), 1000.0) == 920.0
  {
  }

  /** The amount handed to the payment gateway: `Math.round(total * 100)` paise. */
  function AmountInPaise(total: real): (paise: int)
    ensures total * 100.0 - 0.5 < paise as real <= total * 100.0 + 0.5
  {
    JsRound(total * 100.0)
  }

  /** A total with whole paise is charged exactly. */
  lemma WholePaiseChargedExactly(paise: int)
    ensures AmountInPaise(paise as real / 100.0) == paise
  {
    assert paise as real / 100.0 * 100.0 == paise as real;
  }

  // ---------------------------------------------------------------------
  // Coupon guard chain

  datatype CouponError =
    | LookupFailed(e: DbError)
    | InvalidCode
    | BelowMinimum(minimum: real)
    | Expired

  /** The message shown for a rejected coupon; `show` renders a number as `${n}` does. */
  function CouponMessage(e: CouponError, show: real -> string): (msg: string)
    ensures e.LookupFailed? ==> msg == e.e.message
    ensures e == InvalidCode ==> msg == "Invalid coupon code"
    ensures e.BelowMinimum? ==> msg == "Minimum order amount is ₹" + show(e.minimum)
    ensures e == Expired ==> msg == "Coupon has expired"
  {
    match e
    case LookupFailed(err) => err.message
    case InvalidCode => "Invalid coupon code"
    case BelowMinimum(m) => "Minimum order amount is ₹" + show(m)
    case Expired => "Coupon has expired"
  }

  /** The toast after the Apply button: a success text, or the guard's or the backend's message. */
  function CouponToast(r: Result<Coupon, CouponError>, show: real -> string): (t: Result<string, string>)
    ensures t.Ok? <==> r.Ok?
    ensures t.Ok? ==> t.value == "Coupon applied successfully"
    ensures r.Err? ==> t.Err? && t.error == CouponMessage(r.error, show)
  {
    if r.Ok? then Ok("Coupon applied successfully") else Err(CouponMessage(r.error, show))
  }

  predicate BelowMinimumOrder(c: Coupon, subtotal: real) {
    Truthy(c.minOrderAmount) && subtotal < c.minOrderAmount.value
  }

  predicate ExpiredAt(c: Coupon, now: int) {
    c.validUntil.Some? && c.validUntil.value < now
  }

  /**
   * The checks after the lookup, in the source's order: no active row, then the
   * minimum order (a null or 0 minimum is no minimum), then the expiry date.
   */
  function CheckCoupon(found: Option<Coupon>, subtotal: real, now: int): (r: Result<Coupon, CouponError>)
    ensures r.Ok? <==> found.Some? && !BelowMinimumOrder(found.value, subtotal) && !ExpiredAt(found.value, now)
    ensures r.Ok? ==> r.value == found.value
    ensures found.None? ==> r == Err(InvalidCode)
    ensures r.Err? && r.error.BelowMinimum? ==>
      found.Some? && Truthy(found.value.minOrderAmount) && r.error.minimum == found.value.minOrderAmount.value
    ensures r.Err? && r.error == Expired ==> found.Some? && !BelowMinimumOrder(found.value, subtotal)
  {
    match found
    case None => Err(InvalidCode)
    case Some(c) =>
      if BelowMinimumOrder(c, subtotal) then Err(BelowMinimum(c.minOrderAmount.value))
      else if ExpiredAt(c, now) then Err(Expired)
      else Ok(c)
  }

  /** A subtotal exactly at the minimum is accepted by the minimum check. */
  lemma MinimumIsInclusive(c: Coupon, now: int)
    requires Truthy(c.minOrderAmount)
    ensures !CheckCoupon(Some(c), c.minOrderAmount.value, now).Err?
         || CheckCoupon(Some(c), c.minOrderAmount.value, now) == Err(Expired)
  {
  }

  /** A coupon that is both under its minimum and expired reports the minimum. */
  lemma MinimumReportedBeforeExpiry(c: Coupon, subtotal: real, now: int)
    requires BelowMinimumOrder(c, subtotal) && ExpiredAt(c, now)
    ensures CheckCoupon(Some(c), subtotal, now) == Err(BelowMinimum(c.minOrderAmount.value))
  {
  }

  /** `.eq('code', typed.toUpperCase()).eq('is_active', true)`: a matching code is the typed one in capitals. */
  function MatchesCode(c: Coupon, typed: string): (b: bool)
    ensures b ==> c.isActive && |c.code| == |typed| && ToUpper(c.code) == c.code
  {
    ToUpperIdempotent(typed);
    c.isActive && c.code == ToUpper(typed)
  }

  /** `found` is a possible answer of the lookup: a matching row of the table, or none when no row matches. */
  function LookupAnswer(coupons: map<CouponId, Coupon>, typed: string, found: Option<Coupon>): (b: bool)
    ensures b && found.Some? ==> found.value in coupons.Values && found.value.isActive
    ensures b && found.None? ==> forall c :: c in coupons.Values ==> !MatchesCode(c, typed)
  {
    match found
    case Some(c) => MatchesCode(c, typed) && c in coupons.Values
    case None => forall id :: id in coupons ==> !MatchesCode(coupons[id], typed)
  }

  /**
   * `from('coupons').select('*').eq('code', couponCode.toUpperCase()).eq('is_active', true)`:
   * some active row whose code is the typed code uppercased, or none.
   */
  method LookupCoupon(db: Db, typed: string, fail: Option<DbError>) returns (r: Result<Option<Coupon>, DbError>)
    ensures fail.Some? ==> r == Err(fail.value)
    ensures r.Ok? && r.value.Some? ==> MatchesCode(r.value.value, typed) && r.value.value in db.coupons.Values
    ensures r.Ok? && r.value.None? ==> forall id :: id in db.coupons ==> !MatchesCode(db.coupons[id], typed)
    ensures fail.None? ==> r.Ok?
    ensures r.Ok? ==> LookupAnswer(db.coupons, typed, r.value)
  {
    if fail.Some? {
      return Err(fail.value);
    }
    if id :| id in db.coupons && MatchesCode(db.coupons[id], typed) {
      r := Ok(Some(db.coupons[id]));
    } else {
      r := Ok(None);
    }
  }

  // ---------------------------------------------------------------------
  // Order placement

  /** What the payment part (gateway order, widget, verification) comes to. */
  datatype Payment = GatewayOrderFailed | Verified | VerificationFailed | Dismissed

  /** The backend's and the gateway's answers to each step of a placement. */
  datatype Outcomes = Outcomes(
    orderInsert: Option<DbError>,
    itemsInsert: Option<DbError>,
    payment: Payment,
    markPaid: Option<DbError>,
    clearCart: Option<DbError>)

  datatype CheckoutError =
    | NotLoggedIn
    | AddressTooShort
    | CartEmpty
    | WriteFailed(e: DbError)
    | GatewayFailed
    | PaymentNotVerified
    | WindowClosed

  /** The toast for a failed placement: a fixed text per check, and the backend's message for a failed write. */
  function CheckoutMessage(e: CheckoutError): (msg: string)
    ensures e.WriteFailed? ==> msg == e.e.message
    ensures e == NotLoggedIn ==> msg == "Please login"
    ensures e == AddressTooShort ==> msg == "Address must be at least 10 characters"
    ensures e == CartEmpty ==> msg == "Cart is empty"
    ensures e == GatewayFailed ==> msg == "Failed to create Razorpay order"
    ensures e == PaymentNotVerified ==> msg == "Payment verification failed"
    ensures e == WindowClosed ==> msg == "Payment window closed"
  {
    match e
    case NotLoggedIn => "Please login"
    case AddressTooShort => "Address must be at least 10 characters"
    case CartEmpty => "Cart is empty"
    case WriteFailed(err) => err.message
    case GatewayFailed => "Failed to create Razorpay order"
    case PaymentNotVerified => "Payment verification failed"
    case WindowClosed => "Payment window closed"
  }

  /** The toast after Place Order: a success text, or the failing step's message. */
  function PlacementToast(r: Result<OrderId, CheckoutError>): (t: Result<string, string>)
    ensures t.Ok? <==> r.Ok?
    ensures t.Ok? ==> t.value == "Order placed successfully"
    ensures r.Err? ==> t.Err? && t.error == CheckoutMessage(r.error)
  {
    if r.Ok? then Ok("Order placed successfully") else Err(CheckoutMessage(r.error))
  }

  /**
   * How far a placement gets: the number of writes made (1 the pending order,
   * 2 its line snapshots, 3 the paid flag, 4 the cart deletion) and the error
   * that stopped it, if any.
   */
  function Run(user: Option<UserId>, address: string, items: Option<seq<CartLine>>, o: Outcomes)
    : (r: (nat, Option<CheckoutError>))
    ensures r.0 <= 4
    ensures r.1.None? <==> r.0 == 4
  {
    if user.None? then (0, Some(NotLoggedIn))
    else if |address| < 10 then (0, Some(AddressTooShort))
    else if items.None? || |items.value| == 0 then (0, Some(CartEmpty))
    else Writes(o)
  }

  /** How far the writes of a placement that passed the checks get, as in `Run`. */
  function Writes(o: Outcomes): (r: (nat, Option<CheckoutError>))
    ensures r.0 <= 4
    ensures r.1.None? <==> r.0 == 4
  {
    if o.orderInsert.Some? then (0, Some(WriteFailed(o.orderInsert.value)))
    else if o.itemsInsert.Some? then (1, Some(WriteFailed(o.itemsInsert.value)))
    else if o.payment == GatewayOrderFailed then (2, Some(GatewayFailed))
    else if o.payment == VerificationFailed then (2, Some(PaymentNotVerified))
    else if o.payment == Dismissed then (2, Some(WindowClosed))
    else if o.markPaid.Some? then (2, Some(WriteFailed(o.markPaid.value)))
    else if o.clearCart.Some? then (3, Some(WriteFailed(o.clearCart.value)))
    else (4, None)
  }

  /** No user, a short address or an empty cart stop the placement before any write. */
  lemma ValidationBeforeAnyWrite(user: Option<UserId>, address: string, items: Option<seq<CartLine>>, o: Outcomes)
    requires user.None? || |address| < 10 || items.None? || |items.value| == 0
    ensures Run(user, address, items, o).0 == 0
  {
  }

  /** The order is marked paid, and the cart deleted, only after the payment was verified. */
  lemma PaidOnlyAfterVerification(user: Option<UserId>, address: string, items: Option<seq<CartLine>>, o: Outcomes)
    ensures Run(user, address, items, o).0 >= 3 ==> o.payment == Verified && o.markPaid.None?
    ensures Run(user, address, items, o).0 == 4 ==> o.clearCart.None?
  {
  }

  /** A failed or dismissed payment leaves the order pending and the cart alone. */
  lemma FailedPaymentKeepsCart(user: Option<UserId>, address: string, items: Option<seq<CartLine>>, o: Outcomes)
    requires o.payment != Verified
    ensures Run(user, address, items, o).0 <= 2
  {
  }

  /** `ORD-${Date.now()}-${Math.floor(Math.random() * 1000)}` */
  function OrderNumber(now: nat, random: real): (s: string)
    requires 0.0 <= random < 1.0
    ensures StartsWith(s, "ORD-")
  {
    var suffix := (random * 1000.0).Floor;
    assert 0 <= suffix < 1000;
    "ORD-" + NatToDecimal(now) + "-" + NatToDecimal(suffix)
  }

  /** The order row `createSupabaseOrder` inserts. */
  function NewOrder(user: UserId, number: string, subtotal: real, discount: real,
                    applied: Option<Coupon>, address: string): (o: Order)
    ensures o.finalAmount == o.totalAmount - o.discountAmount
    ensures o.totalAmount == subtotal && o.discountAmount == discount
    ensures o.status == Pending && o.paymentStatus == Pending
  {
    Order(user, number, subtotal, discount, subtotal - discount,
          if applied.Some? then Some(applied.value.code) else None,
          address, Pending, Pending)
  }

  /** `products?.name || ''` */
  function ProductName(p: Option<Product>): string {
    if p.Some? then p.value.name else ""
  }

  /** One snapshot per cart row, priced at the effective unit price. */
  function OrderLines(order: OrderId, items: seq<CartLine>): (lines: seq<OrderItem>)
    ensures |lines| == |items|
    ensures forall i :: 0 <= i < |items| ==>
      lines[i] == OrderItem(order, items[i].productId, ProductName(items[i].product), items[i].quantity,
                            UnitPrice(items[i].product), UnitPrice(items[i].product) * items[i].quantity)
  {
    if items == [] then []
    else
      var it := items[0];
      [OrderItem(order, it.productId, ProductName(it.product), it.quantity,
                 UnitPrice(it.product), UnitPrice(it.product) * it.quantity)]
      + OrderLines(order, items[1..])
  }

  function SumLineTotals(lines: seq<OrderItem>): real {
    if lines == [] then 0.0 else lines[0].totalPrice + SumLineTotals(lines[1..])
  }

  /** The snapshots' line totals add up to the order's total_amount (the subtotal). */
  lemma {:induction false} LineTotalsSumToSubtotal(order: OrderId, items: seq<CartLine>)
    ensures SumLineTotals(OrderLines(order, items)) == CartTotal(Some(items))
  {
    CartTotalIsSum(items);
    LineTotalsSum(order, items);
  }

  lemma {:induction false} LineTotalsSum(order: OrderId, items: seq<CartLine>)
    ensures SumLineTotals(OrderLines(order, items)) == SumAmounts(items)
    decreases |items|
  {
    if items != [] {
      var head, rest := items[0], items[1..];
      FirstLineTotal(order, items);
      LineTotalsSum(order, rest);
      assert items == [head] + rest;
      SumAmountsCons(head, rest);
    }
  }

  /** The first snapshot's total is the first cart line's amount. */
  lemma FirstLineTotal(order: OrderId, items: seq<CartLine>)
    requires items != []
    ensures SumLineTotals(OrderLines(order, items)) == LineAmount(items[0]) + SumLineTotals(OrderLines(order, items[1..]))
  {
    var lines := OrderLines(order, items);
    assert SumLineTotals(lines) == lines[0].totalPrice + SumLineTotals(OrderLines(order, items[1..]));
  }

  /** The state of the checkout page. */
  class CheckoutPage {
    var user: Option<UserId>
    var address: string
    var couponCode: string
    var appliedCoupon: Option<Coupon>
    var cartItems: Option<seq<CartLine>>

    constructor (user: Option<UserId>, cartItems: Option<seq<CartLine>>)
      ensures this.user == user && this.cartItems == cartItems
      ensures address == "" && couponCode == "" && appliedCoupon.None?
    {
      this.user, this.cartItems := user, cartItems;
      address, couponCode, appliedCoupon := "", "", None;
    }

    /** The cart total of the loaded rows: the sum of effective price times quantity, 0 before the rows load. */
    function Subtotal(): (s: real)
      reads this
      ensures cartItems.None? ==> s == 0.0
      ensures cartItems.Some? ==> s == SumAmounts(cartItems.value)
    {
      CartTotal(cartItems)
    }

    /** The applied coupon's discount on the subtotal; within the subtotal for a percentage of 0 to 100. */
    function CurrentDiscount(): (d: real)
      reads this
      ensures appliedCoupon.None? ==> d == 0.0
      ensures appliedCoupon.Some? && PercentageWithinBounds(appliedCoupon.value) ==>
                Subtotal() >= 0.0 ==> 0.0 <= d <= Subtotal()
    {
      if appliedCoupon.Some? && PercentageWithinBounds(appliedCoupon.value) && Subtotal() >= 0.0 then
        PercentageDiscountWithinSubtotal(appliedCoupon.value, Subtotal());
        Discount(appliedCoupon, Subtotal())
      else Discount(appliedCoupon, Subtotal())
    }

    /**
     * `subtotal - discount`, not clamped at 0: with no coupon it is the
     * subtotal, a fixed coupon worth more than the subtotal drives it below 0,
     * and a percentage of at most 100 keeps it between 0 and the subtotal.
     */
    function Total(): (t: real)
      reads this
      ensures appliedCoupon.None? ==> t == Subtotal()
      ensures appliedCoupon.Some? && appliedCoupon.value.discountType == Fixed ==>
                appliedCoupon.value.discountValue > Subtotal() ==> t < 0.0
      ensures appliedCoupon.Some? && PercentageWithinBounds(appliedCoupon.value) ==>
                Subtotal() >= 0.0 ==> 0.0 <= t <= Subtotal()
    {
      Subtotal() - CurrentDiscount()
    }

    method SetAddress(text: string)
      modifies this`address
      ensures address == text
    {
      address := text;
    }

    /** The code input is disabled while a coupon is applied. */
    method SetCouponCode(text: string)
      requires appliedCoupon.None?
      modifies this`couponCode
      ensures couponCode == text
    {
      couponCode := text;
    }

    /**
     * Apply button (enabled only with a typed code and no coupon applied): look
     * the code up, run the guard chain, and apply the coupon when it passes.
     * The toast shown is `CouponToast(r, show)`.
     */
    method ApplyCoupon(db: Db, now: int, lookupFail: Option<DbError>) returns (r: Result<Coupon, CouponError>)
      requires appliedCoupon.None? && couponCode != ""
      modifies this`appliedCoupon
      ensures lookupFail.Some? ==> r == Err(LookupFailed(lookupFail.value))
      ensures r.Ok? ==> MatchesCode(r.value, couponCode) && r.value in db.coupons.Values
      ensures r.Ok? ==> !BelowMinimumOrder(r.value, Subtotal()) && !ExpiredAt(r.value, now)
      ensures r == Err(InvalidCode) ==>
        lookupFail.None? && forall id :: id in db.coupons ==> !MatchesCode(db.coupons[id], couponCode)
      ensures lookupFail.None? ==> exists found :: LookupAnswer(db.coupons, couponCode, found)
                                              && r == CheckCoupon(found, Subtotal(), now)
      ensures appliedCoupon == if r.Ok? then Some(r.value) else None
    {
      var found := LookupCoupon(db, couponCode, lookupFail);
      if found.Err? {
        return Err(LookupFailed(found.error));
      }
      r := CheckCoupon(found.value, Subtotal(), now);
      if r.Ok? {
        appliedCoupon := Some(r.value);
      }
    }

    /** Remove button: drops the coupon and clears the typed code. */
    method RemoveCoupon()
      modifies this`appliedCoupon, this`couponCode
      ensures appliedCoupon.None? && couponCode == ""
      ensures CurrentDiscount() == 0.0 && Total() == Subtotal()
    {
      appliedCoupon := None;
      couponCode := "";
    }

    /**
     * `createSupabaseOrder`: insert the pending order, then one snapshot per cart
     * row. The order row stays when the snapshot insert fails.
     */
    method CreateOrder(db: Db, orderId: OrderId, number: string, o: Outcomes)
      returns (r: Result<OrderId, CheckoutError>)
      requires db.Valid() && orderId !in db.orders
      modifies db`orders, db`orderItems
      ensures db.Valid()
      ensures r == Err(CartEmpty) <==> user.None? || cartItems.None? || |cartItems.value| == 0
      ensures var wrote := r.Ok? || (r.Err? && r.error.WriteFailed? && o.orderInsert.None?);
        db.orders == if wrote then old(db.orders)[orderId := NewOrder(user.value, number, Subtotal(),
                                     CurrentDiscount(), appliedCoupon, address)]
                     else old(db.orders)
      ensures r.Ok? <==> user.Some? && cartItems.Some? && |cartItems.value| > 0
                         && o.orderInsert.None? && o.itemsInsert.None?
      ensures r.Ok? ==> r.value == orderId
      ensures r.Ok? || (r.Err? && r.error.WriteFailed? && o.orderInsert.None?) ==>
        && db.orders[orderId].totalAmount == Subtotal() && db.orders[orderId].discountAmount == CurrentDiscount()
        && db.orders[orderId].finalAmount == Total()
      ensures r.Err? && r.error != CartEmpty ==> r.error.WriteFailed?
      ensures db.orderItems == if r.Ok? then old(db.orderItems) + OrderLines(orderId, cartItems.value)
                               else old(db.orderItems)
      ensures r.Err? && r.error.WriteFailed? ==>
        (o.orderInsert.Some? && r.error.e == o.orderInsert.value) ||
        (o.orderInsert.None? && o.itemsInsert.Some? && r.error.e == o.itemsInsert.value)
    {
      if user.None? || cartItems.None? || |cartItems.value| == 0 {
        return Err(CartEmpty);
      }
      r := InsertOrder(db, orderId, NewOrder(user.value, number, Subtotal(), CurrentDiscount(), appliedCoupon, address),
                       OrderLines(orderId, cartItems.value), o);
    }

    /**
     * Place order: validate, create the pending order and its snapshots, take
     * the payment, mark the order paid, then delete the user's cart rows. The
     * tables end up as `Run` says: the first failing step stops the rest.
     * The toast shown is `PlacementToast(r)`.
     */
    method PlaceOrder(db: Db, orderId: OrderId, now: nat, random: real, o: Outcomes)
      returns (r: Result<OrderId, CheckoutError>, charged: Option<int>)
      requires db.Valid() && orderId !in db.orders
      requires 0.0 <= random < 1.0
      modifies db`orders, db`orderItems, db`cart
      ensures db.Valid()
      ensures var run := Run(user, address, cartItems, o);
        && (r.Ok? <==> run.1.None?)
        && (r.Ok? ==> r.value == orderId)
        && (r.Err? ==> r.error == run.1.value)
        && db.orders == (if run.0 == 0 then old(db.orders)
                         else old(db.orders)[orderId := NewOrder(user.value, OrderNumber(now, random), Subtotal(),
                                   CurrentDiscount(), appliedCoupon, address)
                                   .(paymentStatus := if run.0 >= 3 then Paid else Pending)])
        && db.orderItems == (if run.0 >= 2 then old(db.orderItems) + OrderLines(orderId, cartItems.value)
                             else old(db.orderItems))
        && db.cart == (if run.0 == 4 then ClearUserCart(old(db.cart), user.value) else old(db.cart))
      ensures Run(user, address, cartItems, o).0 >= 1 ==>
        && orderId in db.orders && db.orders[orderId].totalAmount == Subtotal()
        && db.orders[orderId].discountAmount == CurrentDiscount() && db.orders[orderId].finalAmount == Total()
      ensures charged == if Run(user, address, cartItems, o).0 >= 2 then Some(AmountInPaise(Total())) else None
      ensures charged.Some? ==> orderId in db.orders && charged.value == AmountInPaise(db.orders[orderId].finalAmount)
    {
      charged := None;
      if user.None? {
        assert Run(user, address, cartItems, o) == (0, Some(NotLoggedIn));
        return Err(NotLoggedIn), None;
      }
      if |address| < 10 {
        assert Run(user, address, cartItems, o) == (0, Some(AddressTooShort));
        return Err(AddressTooShort), None;
      }
      if cartItems.None? || |cartItems.value| == 0 {
        assert Run(user, address, cartItems, o) == (0, Some(CartEmpty));
        return Err(CartEmpty), None;
      }
      r := Submit(db, orderId, NewOrder(user.value, OrderNumber(now, random), Subtotal(), CurrentDiscount(), appliedCoupon, address),
                  OrderLines(orderId, cartItems.value), user.value, o);
      if Writes(o).0 >= 2 {
        charged := Some(AmountInPaise(Total()));
      }
    }
  }

  /** `createSupabaseOrder`'s two inserts: the order row, then its line snapshots. */
  method InsertOrder(db: Db, orderId: OrderId, pending: Order, lines: seq<OrderItem>, o: Outcomes)
    returns (r: Result<OrderId, CheckoutError>)
    requires db.Valid()
    modifies db`orders, db`orderItems
    ensures db.Valid()
    ensures db.orders == if o.orderInsert.None? then old(db.orders)[orderId := pending] else old(db.orders)
    ensures db.orderItems == if o.orderInsert.None? && o.itemsInsert.None? then old(db.orderItems) + lines
                             else old(db.orderItems)
    ensures r == if o.orderInsert.Some? then Err(WriteFailed(o.orderInsert.value))
                 else if o.itemsInsert.Some? then Err(WriteFailed(o.itemsInsert.value))
                 else Ok(orderId)
  {
    if o.orderInsert.Some? {
      return Err(WriteFailed(o.orderInsert.value));
    }
    db.orders := db.orders[orderId := pending];
    if o.itemsInsert.Some? {
      return Err(WriteFailed(o.itemsInsert.value));
    }
    db.orderItems := db.orderItems + lines;
    r := Ok(orderId);
  }

  /**
   * The writes of a placement that passed the checks: the two inserts, then the
   * payment steps, each stopping the rest when it fails, as `Writes` says.
   */
  method Submit(db: Db, orderId: OrderId, pending: Order, lines: seq<OrderItem>, user: UserId, o: Outcomes)
    returns (r: Result<OrderId, CheckoutError>)
    requires db.Valid()
    modifies db`orders, db`orderItems, db`cart
    ensures db.Valid()
    ensures var w := Writes(o);
      && (r.Ok? <==> w.1.None?)
      && (r.Ok? ==> r.value == orderId)
      && (r.Err? ==> r.error == w.1.value)
      && db.orders == (if w.0 == 0 then old(db.orders)
                       else old(db.orders)[orderId := if w.0 >= 3 then pending.(paymentStatus := Paid) else pending])
      && db.orderItems == (if w.0 >= 2 then old(db.orderItems) + lines else old(db.orderItems))
      && db.cart == (if w.0 == 4 then ClearUserCart(old(db.cart), user) else old(db.cart))
  {
    r := InsertOrder(db, orderId, pending, lines, o);
    if r.Err? {
      return;
    }
    ghost var placed := db.orders;
    r := SettlePayment(db, orderId, user, o);
    assert db.orders == placed || db.orders == SetPaymentStatus(placed, orderId, Paid);
  }

  /**
   * After the order and its snapshots exist: the payment for the order (the
   * gateway order, the widget and the verification), then the paid flag, then
   * the deletion of the user's cart rows, stopping at the first failure.
   */
  method SettlePayment(db: Db, orderId: OrderId, user: UserId, o: Outcomes) returns (r: Result<OrderId, CheckoutError>)
    requires db.Valid()
    modifies db`orders, db`cart
    ensures db.Valid()
    ensures var paid := o.payment == Verified && o.markPaid.None?;
      && db.orders == (if paid then SetPaymentStatus(old(db.orders), orderId, Paid) else old(db.orders))
      && db.cart == (if paid && o.clearCart.None? then ClearUserCart(old(db.cart), user) else old(db.cart))
    ensures r.Ok? <==> o.payment == Verified && o.markPaid.None? && o.clearCart.None?
    ensures r.Ok? ==> r.value == orderId
    ensures o.payment == GatewayOrderFailed ==> r == Err(GatewayFailed)
    ensures o.payment == VerificationFailed ==> r == Err(PaymentNotVerified)
    ensures o.payment == Dismissed ==> r == Err(WindowClosed)
    ensures o.payment == Verified && o.markPaid.Some? ==> r == Err(WriteFailed(o.markPaid.value))
    ensures o.payment == Verified && o.markPaid.None? && o.clearCart.Some? ==> r == Err(WriteFailed(o.clearCart.value))
  {
    match o.payment {
      case GatewayOrderFailed => return Err(GatewayFailed);
      case VerificationFailed => return Err(PaymentNotVerified);
      case Dismissed => return Err(WindowClosed);
      case Verified =>
    }
    if o.markPaid.Some? {
      return Err(WriteFailed(o.markPaid.value));
    }
    db.orders := SetPaymentStatus(db.orders, orderId, Paid);
    if o.clearCart.Some? {
      return Err(WriteFailed(o.clearCart.value));
    }
    db.cart := ClearUserCart(db.cart, user);
    r := Ok(orderId);
  }
}
