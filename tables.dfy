/**
 * The hosted backend's tables as the storefront sees them, and the row-level
 * writes the pages issue against them. Every table is a field of `Db`; a page
 * operation receives the backend's answer (success or an error) as a
 * parameter and changes only the fields it writes.
 */
module Tables {
  import opened Common

  type UserId = nat
  type ProductId = nat
  type RowId = nat
  type OrderId = nat
  type CouponId = nat

  /** An error the backend reports: a Postgres error code and a message. */
  datatype DbError = DbError(code: string, message: string)

  /** `e.message || fallback`: the text a failed call shows. */
  function ErrorText(e: DbError, fallback: string): (t: string)
    ensures e.message != "" ==> t == e.message
    ensures e.message == "" ==> t == fallback
    ensures t == e.message || t == fallback
    ensures fallback != "" ==> t != ""
  {
    if e.message != "" then e.message else fallback
  }

  /** A row of `products`; `offer` and the text columns are nullable. */
  datatype Product = Product(
    name: string,
    description: Option<string>,
    price: real,
    offer: Option<real>,
    stock: int,
    imageUrl: Option<string>,
    isActive: bool,
    featured: bool)

  /** `cart_items` is unique on (user_id, product_id); each row also has its own id. */
  type CartKey = (UserId, ProductId)
  datatype CartRow = CartRow(id: RowId, quantity: real)

  datatype Order = Order(
    userId: UserId,
    orderNumber: string,
    totalAmount: real,
    discountAmount: real,
    finalAmount: real,
    couponCode: Option<string>,
    shippingAddress: string,
    status: string,
    paymentStatus: string)

  /** A snapshot of one cart line taken when the order is placed. */
  datatype OrderItem = OrderItem(
    orderId: OrderId,
    productId: ProductId,
    productName: string,
    quantity: real,
    pricePerLitre: real,
    totalPrice: real)

  datatype DiscountType = Percentage | Fixed

  /** A row of `coupons`; `validUntil` is a timestamp in milliseconds. */
  datatype Coupon = Coupon(
    code: string,
    discountType: DiscountType,
    discountValue: real,
    minOrderAmount: Option<real>,
    maxDiscountAmount: Option<real>,
    validUntil: Option<int>,
    isActive: bool)

  datatype Review = Review(productId: ProductId, userId: UserId, rating: int, comment: string)

  datatype RoleRow = RoleRow(userId: UserId, role: string)

  datatype Profile = Profile(id: UserId, email: Option<string>, fullName: Option<string>)

  /** The role name that opens the admin pages. */
  const AdminRole := "admin"

  const Pending := "pending"
  const Paid := "paid"

  // ---------------------------------------------------------------------
  // cart_items

  /** No two cart rows share a row id. */
  ghost predicate CartIdsUnique(cart: map<CartKey, CartRow>) {
    forall k1, k2 :: k1 in cart && k2 in cart && cart[k1].id == cart[k2].id ==> k1 == k2
  }

  predicate IdUnused(cart: map<CartKey, CartRow>, id: RowId) {
    forall k :: k in cart ==> cart[k].id != id
  }

  /**
   * `upsert({user_id, product_id, quantity_litres}, {onConflict: 'user_id,product_id'})`:
   * the pair's row gets the new quantity (keeping its id), or a new row is made.
   */
  function UpsertCart(cart: map<CartKey, CartRow>, user: UserId, product: ProductId, quantity: real, freshId: RowId)
    : (r: map<CartKey, CartRow>)
    ensures r.Keys == cart.Keys + {(user, product)}
    ensures r[(user, product)].quantity == quantity
    ensures (user, product) in cart ==> r[(user, product)].id == cart[(user, product)].id
    ensures (user, product) !in cart ==> r[(user, product)].id == freshId
    ensures forall k :: k in cart && k != (user, product) ==> r[k] == cart[k]
  {
    var row := if (user, product) in cart then cart[(user, product)].(quantity := quantity)
               else CartRow(freshId, quantity);
    cart[(user, product) := row]
  }

  /** An upsert keeps row ids unique when the backend's fresh id is unused. */
  lemma UpsertKeepsIdsUnique(cart: map<CartKey, CartRow>, user: UserId, product: ProductId, quantity: real, freshId: RowId)
    requires CartIdsUnique(cart) && IdUnused(cart, freshId)
    ensures CartIdsUnique(UpsertCart(cart, user, product, quantity, freshId))
  {
  }

  /** Upserting the same pair twice leaves one row holding the second quantity (replaced, not added). */
  lemma UpsertTwice(cart: map<CartKey, CartRow>, user: UserId, product: ProductId, q1: real, q2: real, id1: RowId, id2: RowId)
    ensures UpsertCart(UpsertCart(cart, user, product, q1, id1), user, product, q2, id2)
         == UpsertCart(cart, user, product, q2, id1)
  {
  }

  /** `update({quantity_litres}).eq('id', id)` */
  function SetCartQuantity(cart: map<CartKey, CartRow>, id: RowId, quantity: real): (r: map<CartKey, CartRow>)
    ensures r.Keys == cart.Keys
    ensures forall k :: k in cart && cart[k].id == id ==> r[k] == CartRow(id, quantity)
    ensures forall k :: k in cart && cart[k].id != id ==> r[k] == cart[k]
  {
    map k | k in cart :: if cart[k].id == id then cart[k].(quantity := quantity) else cart[k]
  }

  /** `delete().eq('id', id)` */
  function DeleteCartRow(cart: map<CartKey, CartRow>, id: RowId): (r: map<CartKey, CartRow>)
    ensures forall k :: k in r <==> k in cart && cart[k].id != id
    ensures forall k :: k in r ==> r[k] == cart[k]
  {
    map k | k in cart && cart[k].id != id :: cart[k]
  }

  /** With unique ids, deleting by id removes at most one row: exactly the one with that id. */
  lemma DeleteRemovesOneRow(cart: map<CartKey, CartRow>, k: CartKey)
    requires CartIdsUnique(cart) && k in cart
    ensures DeleteCartRow(cart, cart[k].id).Keys == cart.Keys - {k}
    ensures |DeleteCartRow(cart, cart[k].id)| == |cart| - 1
  {
    var r := DeleteCartRow(cart, cart[k].id);
    assert r.Keys == cart.Keys - {k};
  }

  /** `delete().eq('user_id', user)` */
  function ClearUserCart(cart: map<CartKey, CartRow>, user: UserId): (r: map<CartKey, CartRow>)
    ensures forall k :: k in r <==> k in cart && k.0 != user
    ensures forall k :: k in r ==> r[k] == cart[k]
  {
    map k | k in cart && k.0 != user :: cart[k]
  }

  // ---------------------------------------------------------------------
  // orders: single-field writes by id

  /** `update({status}).eq('id', id)`: no row changes when the id is absent. */
  function SetOrderStatus(orders: map<OrderId, Order>, id: OrderId, status: string): (r: map<OrderId, Order>)
    ensures r.Keys == orders.Keys
    ensures id in orders ==> r[id] == orders[id].(status := status)
    ensures forall o :: o in orders && o != id ==> r[o] == orders[o]
  {
    if id in orders then orders[id := orders[id].(status := status)] else orders
  }

  /** `update({payment_status}).eq('id', id)` */
  function SetPaymentStatus(orders: map<OrderId, Order>, id: OrderId, paymentStatus: string): (r: map<OrderId, Order>)
    ensures r.Keys == orders.Keys
    ensures id in orders ==> r[id] == orders[id].(paymentStatus := paymentStatus)
    ensures forall o :: o in orders && o != id ==> r[o] == orders[o]
  {
    if id in orders then orders[id := orders[id].(paymentStatus := paymentStatus)] else orders
  }

  // ---------------------------------------------------------------------
  // user_roles

  /**
   * The number of role rows equal to (user, 'admin'). A lookup of that row with
   * `.single()` yields a row only when this is exactly 1.
   */
  function AdminRowCount(roles: seq<RoleRow>, user: UserId): (n: nat)
    ensures n == 0 <==> RoleRow(user, AdminRole) !in roles
  {
    if roles == [] then 0
    else (if roles[0] == RoleRow(user, AdminRole) then 1 else 0) + AdminRowCount(roles[1..], user)
  }

  /** Appending a row adds one to the count exactly when it is the user's admin row. */
  lemma {:induction false} AdminRowCountAppend(roles: seq<RoleRow>, r: RoleRow, user: UserId)
    ensures AdminRowCount(roles + [r], user)
         == AdminRowCount(roles, user) + (if r == RoleRow(user, AdminRole) then 1 else 0)
    decreases |roles|
  {
    if roles == [] {
      assert roles + [r] == [r];
    } else {
      assert (roles + [r])[1..] == roles[1..] + [r];
      AdminRowCountAppend(roles[1..], r, user);
    }
  }

  // ---------------------------------------------------------------------
  // reviews

  /** At most one review per (product, user): the unique constraint behind error 23505. */
  ghost predicate ReviewsUnique(reviews: seq<Review>) {
    forall i, j :: 0 <= i < j < |reviews| ==>
      (reviews[i].productId, reviews[i].userId) != (reviews[j].productId, reviews[j].userId)
  }

  /** The remote tables. */
  class Db {
    var products: map<ProductId, Product>
    var cart: map<CartKey, CartRow>
    var orders: map<OrderId, Order>
    var orderItems: seq<OrderItem>
    var coupons: map<CouponId, Coupon>
    var reviews: seq<Review>
    var roles: seq<RoleRow>
    var profiles: seq<Profile>

    ghost predicate Valid()
      reads this
    {
      CartIdsUnique(cart) && ReviewsUnique(reviews)
    }

    constructor ()
      ensures Valid()
      ensures products == map[] && cart == map[] && orders == map[] && orderItems == []
      ensures coupons == map[] && reviews == [] && roles == [] && profiles == []
    {
      products, cart, orders, orderItems := map[], map[], map[], [];
      coupons, reviews, roles, profiles := map[], [], [], [];
    }
  }
}
