/**
 * The price rules the cart, the checkout and the product page share: the
 * effective unit price with JavaScript's `||` fallbacks, and the cart total
 * as the pages compute it (a left-to-right `reduce` starting at 0).
 */
module Pricing {
  import opened Common
  import opened Tables

  /** A cart row as the pages load it (`select('*, products (*)')`): the joined product may be missing. */
  datatype CartLine = CartLine(id: RowId, productId: ProductId, quantity: real, product: Option<Product>)

  /**
   * `products?.offer_price_per_litre || products?.price_per_litre || 0`: a null or 0
   * offer falls back to the regular price, a missing product costs 0.
   */
  function UnitPrice(p: Option<Product>): (r: real)
    ensures p.None? ==> r == 0.0
    ensures p.Some? && Truthy(p.value.offer) ==> r == p.value.offer.value
    ensures p.Some? && !Truthy(p.value.offer) ==> r == p.value.price
  {
    match p
    case None => 0.0
    case Some(prod) => OrElse(prod.offer, OrElse(Some(prod.price), 0.0))
  }

  /** A zero offer counts as no offer. */
  lemma ZeroOfferFallsBack(prod: Product)
    requires prod.offer == Some(0.0)
    ensures UnitPrice(Some(prod)) == prod.price
  {
  }

  function LineAmount(line: CartLine): real {
    UnitPrice(line.product) * line.quantity
  }

  /** `reduce((sum, item) => sum + price * item.quantity_litres, acc)` */
  function Reduce(lines: seq<CartLine>, acc: real): real
    decreases |lines|
  {
    if lines == [] then acc else Reduce(lines[1..], acc + LineAmount(lines[0]))
  }

  /**
   * `cartItems?.reduce(..., 0) || 0`: no data yet gives 0, and loaded rows give
   * the sum of their amounts (a sum of 0 falls back to the same 0).
   */
  function CartTotal(items: Option<seq<CartLine>>): (total: real)
    ensures items.None? ==> total == 0.0
    ensures items.Some? ==> total == SumAmounts(items.value)
  {
    match items
    case None => 0.0
    case Some(lines) =>
      ReduceIsSum(lines, 0.0);
      Reduce(lines, 0.0)
  }

  /** The reference sum: the amounts of all lines, added from the last one back. */
  function SumAmounts(lines: seq<CartLine>): real
    decreases |lines|
  {
    if lines == [] then 0.0 else SumAmounts(lines[..|lines| - 1]) + LineAmount(lines[|lines| - 1])
  }

  lemma {:induction false} SumAmountsCons(x: CartLine, rest: seq<CartLine>)
    ensures SumAmounts([x] + rest) == LineAmount(x) + SumAmounts(rest)
    decreases |rest|
  {
    var s := [x] + rest;
    if rest != [] {
      assert s[..|s| - 1] == [x] + rest[..|rest| - 1];
      SumAmountsCons(x, rest[..|rest| - 1]);
    } else {
      assert s[..|s| - 1] == [];
    }
  }

  /** Adding line by line from the front computes the sum of the line amounts. */
  lemma {:induction false} ReduceIsSum(lines: seq<CartLine>, acc: real)
    ensures Reduce(lines, acc) == acc + SumAmounts(lines)
    decreases |lines|
  {
    if lines != [] {
      ReduceIsSum(lines[1..], acc + LineAmount(lines[0]));
      assert lines == [lines[0]] + lines[1..];
      SumAmountsCons(lines[0], lines[1..]);
    }
  }

  lemma {:induction false} SumAmountsAppend(a: seq<CartLine>, b: seq<CartLine>)
    ensures SumAmounts(a + b) == SumAmounts(a) + SumAmounts(b)
    decreases |b|
  {
    if b == [] {
      assert a + b == a;
    } else {
      assert (a + b)[..|a + b| - 1] == a + b[..|b| - 1];
      SumAmountsAppend(a, b[..|b| - 1]);
    }
  }

  /** The cart total is the sum over cart rows of effective price times quantity. */
  lemma CartTotalIsSum(lines: seq<CartLine>)
    ensures CartTotal(Some(lines)) == SumAmounts(lines)
  {
    ReduceIsSum(lines, 0.0);
  }

  predicate PricesNonNegative(p: Option<Product>) {
    p.Some? ==> p.value.price >= 0.0 && (p.value.offer.Some? ==> p.value.offer.value >= 0.0)
  }

  ghost predicate NonNegativePrices(lines: seq<CartLine>) {
    forall i :: 0 <= i < |lines| ==> lines[i].quantity >= 0.0 && PricesNonNegative(lines[i].product)
  }

  /** With non-negative prices and quantities no line can pull the total below 0. */
  lemma {:induction false} SumAmountsNonNegative(lines: seq<CartLine>)
    requires NonNegativePrices(lines)
    ensures SumAmounts(lines) >= 0.0
    decreases |lines|
  {
    if lines != [] {
      var last := lines[|lines| - 1];
      assert UnitPrice(last.product) >= 0.0;
      SumAmountsNonNegative(lines[..|lines| - 1]);
    }
  }
}
