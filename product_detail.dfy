/**
 * The product page: the price, discount badge and star rating derived from
 * the loaded product and its reviews, the quantity picker, and the two
 * writes the page makes (add to cart, add a review).
 */
module ProductDetail {
  import opened Common
  import opened Tables
  import opened Pricing

  /** `offer_price_per_litre || price_per_litre`: the offer whenever it is truthy, even above the regular price. */
  function EffectivePrice(p: Product): (r: real)
    ensures r == UnitPrice(Some(p))
  {
    OrElse(p.offer, p.price)
  }

  /** `offer_price_per_litre && offer_price_per_litre < price_per_litre`: a shown badge means a lower price is charged. */
  function HasDiscount(p: Product): (b: bool)
    ensures b ==> p.offer.Some? && EffectivePrice(p) == p.offer.value < p.price
  {
    Truthy(p.offer) && p.offer.value < p.price
  }

  /**
   * `Math.round((price - offer) / price * 100)` when there is a discount, else 0.
   * A regular price of 0 (only possible with a negative offer) is read as 0 here.
   */
  function DiscountPercentage(p: Product): (pct: int)
    ensures !HasDiscount(p) ==> pct == 0
    ensures HasDiscount(p) && p.price > 0.0 ==> pct >= 0
  {
    if HasDiscount(p) && p.price != 0.0 then JsRound((p.price - p.offer.value) / p.price * 100.0) else 0
  }

  /** An offer above the regular price is charged, and no discount is shown. */
  lemma OfferAboveRegularIsCharged(p: Product)
    requires Truthy(p.offer) && p.offer.value >= p.price
    ensures EffectivePrice(p) == p.offer.value >= p.price
    ensures !HasDiscount(p) && DiscountPercentage(p) == 0
  {
  }

  /** With a non-negative offer, the discount badge shows a percentage between 0 and 100. */
  lemma DiscountPercentageBounds(p: Product)
    requires p.offer.Some? ==> p.offer.value >= 0.0
    ensures 0 <= DiscountPercentage(p) <= 100
    ensures HasDiscount(p) ==> EffectivePrice(p) < p.price
  {
    if HasDiscount(p) {
      var o, price := p.offer.value, p.price;
      var f := (price - o) / price;
      assert f * price == price - o;
      MulMonotone(f, 1.0, price);
      MulMonotone(0.0, f, price);
      assert 0.0 < f < 1.0;
    }
  }

  lemma MulMonotone(a: real, b: real, c: real)
    requires c > 0.0
    ensures a < b <==> a * c < b * c
  {
  }

  // ---------------------------------------------------------------------
  // Ratings

  function SumRatings(ratings: seq<int>): int {
    if ratings == [] then 0 else SumRatings(ratings[..|ratings| - 1]) + ratings[|ratings| - 1]
  }

  /** `reviews.reduce((acc, r) => acc + r.rating, 0) / reviews.length`, or 0 without reviews. */
  function AverageRating(ratings: seq<int>): (avg: real)
    ensures ratings == [] ==> avg == 0.0
    ensures ratings != [] ==> avg * |ratings| as real == SumRatings(ratings) as real
  {
    if |ratings| == 0 then 0.0 else SumRatings(ratings) as real / |ratings| as real
  }

  /** Star `i` (0 to 4) is filled when `i < Math.round(averageRating)`. */
  function StarFilled(ratings: seq<int>, i: nat): (filled: bool)
    ensures ratings == [] ==> !filled
  {
    i < JsRound(AverageRating(ratings))
  }

  ghost predicate RatingsInRange(ratings: seq<int>) {
    forall i :: 0 <= i < |ratings| ==> 1 <= ratings[i] <= 5
  }

  lemma {:induction false} SumRatingsBounds(ratings: seq<int>)
    requires RatingsInRange(ratings)
    ensures |ratings| <= SumRatings(ratings) <= 5 * |ratings|
    decreases |ratings|
  {
    if ratings != [] {
      SumRatingsBounds(ratings[..|ratings| - 1]);
    }
  }

  /** Ratings of 1 to 5 average between 1 and 5, and fill between one and five stars. */
  lemma AverageRatingBounds(ratings: seq<int>)
    requires RatingsInRange(ratings) && |ratings| > 0
    ensures 1.0 <= AverageRating(ratings) <= 5.0
    ensures StarFilled(ratings, 0) && !StarFilled(ratings, 5)
  {
    SumRatingsBounds(ratings);
    QuotientBounds(SumRatings(ratings) as real, |ratings| as real, 1.0, 5.0);
  }

  /** A quotient of a number between lo * n and hi * n by n > 0 lies between lo and hi. */
  lemma QuotientBounds(s: real, n: real, lo: real, hi: real)
    requires n > 0.0 && lo * n <= s <= hi * n
    ensures lo <= s / n <= hi
  {
    var q := s / n;
    assert q * n == s;
    MulMonotone(q, lo, n);
    MulMonotone(hi, q, n);
  }

  // ---------------------------------------------------------------------
  // Quantity picker

  /** Typed quantity: `Math.max(1, parseInt(value) || 1)`, the parse given (None for NaN). */
  function TypedQuantity(parsed: Option<int>): (q: int)
    ensures q >= 1
    ensures parsed.Some? && parsed.value >= 1 ==> q == parsed.value
    ensures parsed.None? || parsed.value < 1 ==> q == 1
  {
    var v := if parsed.Some? && parsed.value != 0 then parsed.value else 1;
    if v >= 1 then v else 1
  }

  /** The error `addReviewMutation` shows: the unique-violation code gets a message of its own. */
  function ReviewErrorMessage(e: DbError): (msg: string)
    ensures e.code == "23505" ==> msg == "You have already reviewed this product"
    ensures e.code != "23505" ==> msg == e.message
  {
    if e.code == "23505" then "You have already reviewed this product" else e.message
  }

  const UniqueViolation := DbError("23505", "duplicate key value violates unique constraint")

  /** `user` has already reviewed `product`. */
  predicate Reviewed(reviews: seq<Review>, product: ProductId, user: UserId) {
    exists r :: r in reviews && r.productId == product && r.userId == user
  }

  /** A review for a (product, user) pair not yet reviewed keeps the pairs unique. */
  lemma AppendKeepsReviewsUnique(reviews: seq<Review>, r: Review)
    requires ReviewsUnique(reviews)
    requires !Reviewed(reviews, r.productId, r.userId)
    ensures ReviewsUnique(reviews + [r])
  {
    var all := reviews + [r];
    forall i, j | 0 <= i < j < |all|
      ensures (all[i].productId, all[i].userId) != (all[j].productId, all[j].userId)
    {
      if j == |reviews| {
        assert all[i] in reviews;
      }
    }
  }

  /**
   * Why a review is refused, if it is: no user, then the table's unique
   * (product, user) constraint (code 23505), then any other backend error.
   */
  function ReviewRejection(reviews: seq<Review>, user: Option<UserId>, productId: ProductId,
                           fail: Option<DbError>): (rejection: Option<string>)
    ensures user.None? ==> rejection == Some("Please login")
    ensures user.Some? && Reviewed(reviews, productId, user.value)
            ==> rejection == Some("You have already reviewed this product")
    ensures user.Some? && !Reviewed(reviews, productId, user.value) && fail.Some?
            ==> rejection == Some(ReviewErrorMessage(fail.value))
    ensures rejection.None? <==> user.Some? && !Reviewed(reviews, productId, user.value) && fail.None?
  {
    if user.None? then Some("Please login")
    else if Reviewed(reviews, productId, user.value) then Some(ReviewErrorMessage(UniqueViolation))
    else if fail.Some? then Some(ReviewErrorMessage(fail.value))
    else None
  }

  /** The product page's own state. */
  class ProductDetailPage {
    var quantity: int
    var rating: int
    var comment: string

    ghost predicate Valid()
      reads this
    {
      quantity >= 1 && 1 <= rating <= 5
    }

    /** `useState(1)`, `useState(5)`, `useState('')` */
    constructor ()
      ensures Valid()
      ensures quantity == 1 && rating == 5 && comment == ""
    {
      quantity, rating, comment := 1, 5, "";
    }

    /** Minus button: `Math.max(1, quantity - 1)`. */
    method Minus()
      requires Valid()
      modifies this`quantity
      ensures Valid()
      ensures quantity == if old(quantity) > 1 then old(quantity) - 1 else 1
    {
      quantity := if quantity - 1 >= 1 then quantity - 1 else 1;
    }

    /** Typed quantity. */
    method TypeQuantity(parsed: Option<int>)
      requires Valid()
      modifies this`quantity
      ensures Valid()
      ensures quantity == TypedQuantity(parsed)
    {
      quantity := TypedQuantity(parsed);
    }

    /** Plus button: no upper bound, not even the stock. */
    method Plus()
      requires Valid()
      modifies this`quantity
      ensures Valid()
      ensures quantity == old(quantity) + 1
    {
      quantity := quantity + 1;
    }

    /** One of the five star buttons. */
    method SetRating(star: int)
      requires Valid()
      requires 1 <= star <= 5
      modifies this`rating
      ensures Valid() && rating == star
    {
      rating := star;
    }

    method SetComment(text: string)
      modifies this`comment
      ensures comment == text
    {
      comment := text;
    }

    /** `Total: effectivePrice * quantity` */
    function DisplayedTotal(p: Product): (t: real)
      reads this
      ensures t == UnitPrice(Some(p)) * quantity as real
    {
      EffectivePrice(p) * quantity as real
    }

    /**
     * Add to cart: needs a signed-in user, then upserts the chosen quantity on
     * (user, product), replacing any earlier quantity. The button is disabled
     * while the product's stock is 0.
     */
    method AddToCart(db: Db, user: Option<UserId>, productId: ProductId, product: Product,
                     freshId: RowId, fail: Option<DbError>) returns (toast: Result<string, string>)
      requires Valid() && db.Valid()
      requires product.stock != 0
      requires IdUnused(db.cart, freshId)
      modifies db`cart
      ensures db.Valid()
      ensures user.None? ==> toast == Err("Please login")
      ensures user.Some? && fail.Some? ==> toast == Err(fail.value.message)
      ensures toast.Ok? <==> user.Some? && fail.None?
      ensures toast.Ok? ==> toast.value == "Added to cart"
      ensures db.cart == if toast.Ok? then UpsertCart(old(db.cart), user.value, productId, quantity as real, freshId)
                         else old(db.cart)
    {
      if user.None? {
        return Err("Please login");
      }
      if fail.Some? {
        return Err(fail.value.message);
      }
      UpsertKeepsIdsUnique(db.cart, user.value, productId, quantity as real, freshId);
      db.cart := UpsertCart(db.cart, user.value, productId, quantity as real, freshId);
      toast := Ok("Added to cart");
    }

    /**
     * Submit review: needs a signed-in user; inserts the rating and the trimmed
     * comment. The table's unique (product, user) constraint answers a second
     * review with code 23505, which is shown as "already reviewed".
     */
    method AddReview(db: Db, user: Option<UserId>, productId: ProductId, fail: Option<DbError>)
      returns (toast: Result<string, string>)
      requires Valid() && db.Valid()
      modifies this`comment, db`reviews
      ensures Valid() && db.Valid()
      ensures var rejection := ReviewRejection(old(db.reviews), user, productId, fail);
        && (rejection.Some? ==> toast == Err(rejection.value) && db.reviews == old(db.reviews) && comment == old(comment))
        && (rejection.None? ==>
              && toast == Ok("Review added") && comment == ""
              && db.reviews == old(db.reviews) + [Review(productId, user.value, rating, Trim(old(comment)))])
    {
      var rejection := ReviewRejection(db.reviews, user, productId, fail);
      if rejection.Some? {
        return Err(rejection.value);
      }
      var review := Review(productId, user.value, rating, Trim(comment));
      AppendKeepsReviewsUnique(db.reviews, review);
      db.reviews := db.reviews + [review];
      comment := "";
      toast := Ok("Review added");
    }
  }
}
