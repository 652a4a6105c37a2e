/**
 * The cart page: the total shown beside the rows, the three quantity
 * controls of a row (minus, typed input, plus) and the remove button.
 * Each control writes one row of `cart_items`, picked by its row id.
 */
module CartPage {
  import opened Common
  import opened Tables
  import opened Pricing

  /** Minus button: `Math.max(1, quantity_litres - 1)`. */
  function Decremented(q: real): (r: real)
    ensures r >= 1.0
    ensures q >= 2.0 ==> r == q - 1.0
    ensures q < 2.0 ==> r == 1.0
  {
    Max(1.0, q - 1.0)
  }

  /**
   * Typed input: `Math.max(1, parseFloat(value) || 1)`, the parse given as `parsed`
   * (None for NaN). Anything that is not a number of at least 1 becomes 1.
   */
  function TypedQuantity(parsed: Option<real>): (r: real)
    ensures r >= 1.0
    ensures parsed.Some? && parsed.value >= 1.0 ==> r == parsed.value
    ensures parsed.None? || parsed.value < 1.0 ==> r == 1.0
  {
    Max(1.0, OrElse(parsed, 1.0))
  }

  /** Plus button: `quantity_litres + 1`, with no stock or upper bound. */
  function Incremented(q: real): (r: real)
    ensures r > q
    ensures q >= 1.0 ==> Decremented(r) == q
  {
    q + 1.0
  }

  /** Every row's quantity is at least one litre. */
  ghost predicate QuantitiesAtLeastOne(cart: map<CartKey, CartRow>) {
    forall k :: k in cart ==> cart[k].quantity >= 1.0
  }

  /** None of the three controls can write a quantity below 1 over a row that had at least 1. */
  lemma ControlsKeepQuantityAtLeastOne(q: real, parsed: Option<real>)
    requires q >= 1.0
    ensures Decremented(q) >= 1.0 && TypedQuantity(parsed) >= 1.0 && Incremented(q) >= 1.0
    ensures Incremented(q) > q
  {
  }

  /** A row is drawn only when its product was found (`if (!product) return null`). */
  function RenderedLines(lines: seq<CartLine>): (r: seq<CartLine>)
    ensures |r| <= |lines|
  {
    if lines == [] then []
    else (if lines[0].product.Some? then [lines[0]] else []) + RenderedLines(lines[1..])
  }

  /** The rows drawn are exactly the rows whose product was found. */
  lemma {:induction false} RenderedLinesMembers(lines: seq<CartLine>)
    ensures forall x :: x in RenderedLines(lines) <==> x in lines && x.product.Some?
    decreases |lines|
  {
    if lines != [] {
      RenderedLinesMembers(lines[1..]);
      assert lines == [lines[0]] + lines[1..];
    }
  }

  /** The drawn rows keep the cart's order and repeats: drawing a concatenation concatenates the drawn parts. */
  lemma {:induction false} RenderedLinesAppend(a: seq<CartLine>, b: seq<CartLine>)
    ensures RenderedLines(a + b) == RenderedLines(a) + RenderedLines(b)
    decreases |a|
  {
    if a != [] {
      var head := if a[0].product.Some? then [a[0]] else [];
      assert (a + b)[0] == a[0] && (a + b)[1..] == a[1..] + b;
      assert RenderedLines(a) == head + RenderedLines(a[1..]);
      assert RenderedLines(a + b) == head + RenderedLines(a[1..] + b);
      RenderedLinesAppend(a[1..], b);
    } else {
      assert a + b == b;
    }
  }

  /** A row whose product is missing adds nothing to the total: the total is that of the drawn rows. */
  lemma {:induction false} HiddenRowsAddNothing(lines: seq<CartLine>)
    ensures CartTotal(Some(lines)) == CartTotal(Some(RenderedLines(lines)))
  {
    CartTotalIsSum(lines);
    CartTotalIsSum(RenderedLines(lines));
    SumRendered(lines);
  }

  lemma {:induction false} SumRendered(lines: seq<CartLine>)
    ensures SumAmounts(lines) == SumAmounts(RenderedLines(lines))
    decreases |lines|
  {
    if lines != [] {
      var head := if lines[0].product.Some? then [lines[0]] else [];
      SumRendered(lines[1..]);
      assert lines == [lines[0]] + lines[1..];
      SumAmountsAppend([lines[0]], lines[1..]);
      SumAmountsAppend(head, RenderedLines(lines[1..]));
      assert SumAmounts([lines[0]]) == LineAmount(lines[0]) by {
        assert [lines[0]][..0] == [];
      }
      if head == [] {
        assert LineAmount(lines[0]) == 0.0;
        assert head + RenderedLines(lines[1..]) == RenderedLines(lines[1..]);
      }
    }
  }

  /** `update({quantity_litres: quantity}).eq('id', id)`; a failed call changes nothing. */
  method UpdateQuantity(db: Db, id: RowId, quantity: real, ok: bool)
    requires db.Valid()
    modifies db`cart
    ensures db.Valid()
    ensures db.cart == if ok then SetCartQuantity(old(db.cart), id, quantity) else old(db.cart)
    ensures quantity >= 1.0 && QuantitiesAtLeastOne(old(db.cart)) ==> QuantitiesAtLeastOne(db.cart)
  {
    if ok {
      db.cart := SetCartQuantity(db.cart, id, quantity);
    }
  }

  /** Minus button of `line`. */
  method Decrement(db: Db, line: CartLine, ok: bool)
    requires db.Valid()
    modifies db`cart
    ensures db.Valid()
    ensures db.cart == if ok then SetCartQuantity(old(db.cart), line.id, Decremented(line.quantity)) else old(db.cart)
    ensures QuantitiesAtLeastOne(old(db.cart)) ==> QuantitiesAtLeastOne(db.cart)
  {
    UpdateQuantity(db, line.id, Decremented(line.quantity), ok);
  }

  /** Typed quantity of `line`, with the parse of the typed text given. */
  method TypeQuantity(db: Db, line: CartLine, parsed: Option<real>, ok: bool)
    requires db.Valid()
    modifies db`cart
    ensures db.Valid()
    ensures db.cart == if ok then SetCartQuantity(old(db.cart), line.id, TypedQuantity(parsed)) else old(db.cart)
    ensures QuantitiesAtLeastOne(old(db.cart)) ==> QuantitiesAtLeastOne(db.cart)
  {
    UpdateQuantity(db, line.id, TypedQuantity(parsed), ok);
  }

  /** Plus button of `line`; the written value comes from the loaded row, not from the table. */
  method Increment(db: Db, line: CartLine, ok: bool)
    requires db.Valid()
    modifies db`cart
    ensures db.Valid()
    ensures db.cart == if ok then SetCartQuantity(old(db.cart), line.id, Incremented(line.quantity)) else old(db.cart)
    ensures line.quantity >= 0.0 && QuantitiesAtLeastOne(old(db.cart)) ==> QuantitiesAtLeastOne(db.cart)
  {
    UpdateQuantity(db, line.id, Incremented(line.quantity), ok);
  }

  /** Remove button: `delete().eq('id', id)`; only a success shows a toast. */
  method RemoveItem(db: Db, id: RowId, ok: bool) returns (toast: Option<string>)
    requires db.Valid()
    modifies db`cart
    ensures db.Valid()
    ensures db.cart == if ok then DeleteCartRow(old(db.cart), id) else old(db.cart)
    ensures toast == if ok then Some("Item removed") else None
    ensures QuantitiesAtLeastOne(old(db.cart)) ==> QuantitiesAtLeastOne(db.cart)
  {
    toast := None;
    if ok {
      db.cart := DeleteCartRow(db.cart, id);
      toast := Some("Item removed");
    }
  }
}
