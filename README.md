# OilMart storefront rules in Dafny

OilMart is a shop for edible oils sold by the litre. It is a React front end over a hosted
Supabase backend (Postgres tables, auth and file storage), plus a small Node script
that checks the storage set-up. This project models the rules that sit under the
screens and the remote calls, and proves properties of them:

- **Pricing** (`Pricing`, `ProductDetail`, `Checkout`):
  - the effective unit price, with JavaScript's `||` fallbacks (a 0 or null offer counts as no offer);
  - the cart subtotal as a left-to-right `reduce`;
  - the coupon discount: a capped percentage or a fixed amount;
  - the unclamped total and the amount in paise;
  - the discount badge and the star rating.
- **Coupons** (`Checkout`, `AdminCoupons`):
  - the guard chain of the Apply button: lookup, active row, minimum order, expiry;
  - codes are uppercased both when stored and when looked up;
  - the admin dialog that creates or edits coupons.
- **Order placement** (`Checkout.CheckoutPage.PlaceOrder`) writes step by step:
  1. the pending order;
  2. its line snapshots;
  3. the payment (its outcome is a parameter);
  4. the paid flag;
  5. the deletion of the cart.

  The first step that fails stops the rest, and nothing written earlier is undone.
- **The cart table** (`Tables`, `CartPage`): rows keyed by (user, product), each with its own
  row id. The product page upserts rows; the cart's quantity controls clamp the quantity to
  at least one litre; removal is by row id.
- **Admin pages** (`AdminOrders`, `AdminUsers`, `AdminProducts`, `AdminCoupons`):
  - profile joins and deduplication;
  - case-insensitive search;
  - status and payment writes with no guard on the current value;
  - the grant/revoke decision and the remove-roles-then-profile sequence;
  - image-upload validation, the storage path and error messages;
  - product and coupon forms, with their null rules and edit/save round trips.
- **Customer pages** (`OrdersPage`, `Auth`):
  - the order history's badge colour and text, and when the discount line shows;
  - the sign-in and sign-up schemas;
  - the admin-login gate;
  - the `loading` flag.
- **The storage set-up script** (`SetupStorage`):
  - its hand-written `.env` reader, with its quirks: truncation at a second `=`, and the emptiness test done before trimming;
  - the settings check;
  - the bucket lookup and the upload-failure hints.

How the model is built:
- Remote tables are fields of the class `Tables.Db`.
- Every page operation takes the backend's answer (success, or a `DbError`) as a parameter and changes only the tables it writes.
- Component state (forms, dialogs, quantity pickers) lives in one class per page.
- Money is `real`.
- Clocks, random numbers, number parsing and formatting, and email validity are parameters.

## Model

| member | source | states |
|---|---|---|
| Tables.ErrorText | src/pages/admin/Products.tsx:174 | a failed call shows either the error's message or the fallback, the message whenever it is non-empty; so with a non-empty fallback the toast is never empty |
| Tables.UpsertCart | src/pages/ProductDetail.tsx:56-65 | upsert on (user, product): that pair's row holds the new quantity, keeps its id when it existed (otherwise it gets the fresh id), and every other row is unchanged |
| Tables.UpsertKeepsIdsUnique | src/pages/ProductDetail.tsx:56-65 | an upsert with an unused fresh id keeps cart row ids unique |
| Tables.UpsertTwice | src/pages/ProductDetail.tsx:56-65 | upserting a pair twice equals one upsert with the second quantity: the quantity is replaced, not added |
| Tables.SetCartQuantity | src/pages/Cart.tsx:38-41 | a quantity update changes only the quantity of the row with that id; every other row and the key set are unchanged |
| Tables.DeleteCartRow | src/pages/Cart.tsx:52-55 | deletion keeps exactly the rows whose id differs, with their contents |
| Tables.DeleteRemovesOneRow | src/pages/Cart.tsx:52-55 | with unique row ids, deleting by a row's id removes exactly that one row |
| Tables.ClearUserCart | src/pages/Checkout.tsx:192-196 | clearing the cart removes exactly the user's rows and keeps every other row |
| Tables.SetOrderStatus | src/pages/admin/Orders.tsx:59-69 | only `status` of the order with that id changes; other orders and columns are kept, and a missing id changes nothing |
| Tables.SetPaymentStatus | src/pages/admin/Orders.tsx:71-81 | only `payment_status` of the order with that id changes; other orders and columns are kept |
| Tables.AdminRowCount | src/pages/admin/Products.tsx:69-78 | the number of (user, 'admin') rows is 0 exactly when the user has no admin row (a `.single()` lookup finds a row only when it is 1) |
| Tables.AdminRowCountAppend | src/pages/admin/Users.tsx:60-70 | inserting a role row adds one to the count exactly when it is the user's admin row |
| Pricing.UnitPrice | src/pages/Cart.tsx:67 | the effective price is the offer when truthy, else the regular price; a missing product costs 0 |
| Pricing.ZeroOfferFallsBack | src/pages/Checkout.tsx:44-47 | a 0 offer falls back to the regular price |
| Pricing.ReduceIsSum | src/pages/Cart.tsx:66-69 | the left-to-right reduce from any start value equals that value plus the sum of the line amounts |
| Pricing.CartTotal | src/pages/Cart.tsx:66-69 | the cart total is 0 before the rows load, and otherwise the sum over the rows of effective price times quantity (the reduce is `ReduceIsSum`) |
| Pricing.CartTotalIsSum | src/pages/Checkout.tsx:44-47 | the cart total (and the checkout subtotal) is the sum over the rows of effective price times quantity |
| Pricing.SumAmountsNonNegative | src/pages/Cart.tsx:66-69 | with non-negative prices and quantities the total is non-negative |
| CartPage.Decremented | src/pages/Cart.tsx:113 | minus gives q - 1 when q >= 2, else 1; the result is never below 1 |
| CartPage.TypedQuantity | src/pages/Cart.tsx:125 | typed text stores its number when it parses to at least 1; otherwise (NaN, 0, negative, below 1) it stores 1 |
| CartPage.ControlsKeepQuantityAtLeastOne | src/pages/Cart.tsx:110-141 | from a quantity of at least 1, none of the three controls writes less than 1, and plus always increases the quantity |
| CartPage.Incremented | src/pages/Cart.tsx:134-141 | plus always increases the quantity, and minus after plus gives back any quantity of at least 1 |
| CartPage.RenderedLines | src/pages/Cart.tsx:86-88 | never draws more rows than the cart has; which rows, in what order, is `RenderedLinesMembers` and `RenderedLinesAppend` |
| CartPage.RenderedLinesMembers | src/pages/Cart.tsx:86-88 | the rows drawn are exactly the rows whose product was found |
| CartPage.RenderedLinesAppend | src/pages/Cart.tsx:86-88 | drawing a concatenation of rows draws each part in turn, so the drawn rows keep the cart's order and multiplicity |
| CartPage.HiddenRowsAddNothing | src/pages/Cart.tsx:66-88 | rows that are not drawn add nothing: the total over all rows equals the total over the drawn rows |
| CartPage.UpdateQuantity | src/pages/Cart.tsx:36-48 | a successful update sets the row's quantity and a failed one changes nothing; row ids stay unique, and a quantity of at least 1 keeps every row at least 1 |
| CartPage.Decrement | src/pages/Cart.tsx:110-116 | the minus button writes `Decremented` of the row's quantity and keeps all quantities at least 1 |
| CartPage.TypeQuantity | src/pages/Cart.tsx:121-128 | the typed input writes `TypedQuantity` of the parse and keeps all quantities at least 1 |
| CartPage.Increment | src/pages/Cart.tsx:134-141 | the plus button writes the loaded quantity plus 1 |
| CartPage.RemoveItem | src/pages/Cart.tsx:50-64 | a successful remove deletes the row with that id and shows "Item removed"; a failed one changes nothing and shows no toast |
| ProductDetail.EffectivePrice | src/pages/ProductDetail.tsx:115 | the product page's price is the same effective price the cart uses |
| ProductDetail.HasDiscount | src/pages/ProductDetail.tsx:116 | a shown discount badge means the offer is what is charged and it is below the regular price |
| ProductDetail.DiscountPercentage | src/pages/ProductDetail.tsx:116-119 | no discount shows 0%, and a discount on a positive regular price is never negative; the 0..100 bound is `DiscountPercentageBounds` |
| ProductDetail.OfferAboveRegularIsCharged | src/pages/ProductDetail.tsx:115-119 | an offer at or above the regular price is still charged, and no discount badge is shown |
| ProductDetail.DiscountPercentageBounds | src/pages/ProductDetail.tsx:116-119 | with a non-negative offer the percentage is between 0 and 100, and a shown discount means a lower effective price |
| ProductDetail.AverageRating | src/pages/ProductDetail.tsx:121-123 | no reviews give 0; otherwise the average times the number of reviews is the sum of the ratings |
| ProductDetail.StarFilled | src/pages/ProductDetail.tsx:147-151 | a product without reviews fills no star |
| ProductDetail.AverageRatingBounds | src/pages/ProductDetail.tsx:121-123 | ratings from 1 to 5 average between 1 and 5, so the first star is filled and no sixth star is |
| ProductDetail.TypedQuantity | src/pages/ProductDetail.tsx:205 | the typed quantity is the parsed integer when it is at least 1, else 1 |
| ProductDetail.ReviewErrorMessage | src/pages/ProductDetail.tsx:97-102 | unique-violation code 23505 shows "You have already reviewed this product"; any other error shows its message |
| ProductDetail.ProductDetailPage.constructor | src/pages/ProductDetail.tsx:20-22 | the picker starts at quantity 1, rating 5 and an empty comment |
| ProductDetail.ProductDetailPage.Minus | src/pages/ProductDetail.tsx:198 | minus gives q - 1 down to 1, and keeps the quantity at least 1 |
| ProductDetail.ProductDetailPage.TypeQuantity | src/pages/ProductDetail.tsx:205 | a typed quantity is stored through `TypedQuantity` |
| ProductDetail.ProductDetailPage.Plus | src/pages/ProductDetail.tsx:212 | plus adds 1 with no upper bound |
| ProductDetail.ProductDetailPage.SetRating | src/pages/ProductDetail.tsx:256 | a star button sets the rating to that star, which stays in 1..5 |
| ProductDetail.ProductDetailPage.SetComment | src/pages/ProductDetail.tsx:272 | the comment box holds the typed text |
| ProductDetail.ProductDetailPage.DisplayedTotal | src/pages/ProductDetail.tsx:235 | the shown total is the effective price times the chosen quantity |
| ProductDetail.ProductDetailPage.AddToCart | src/pages/ProductDetail.tsx:52-75 | with no user it fails with "Please login"; on success it upserts the chosen quantity on (user, product), replacing any earlier one, and row ids stay unique; a failure leaves the cart as it was |
| ProductDetail.ReviewRejection | src/pages/ProductDetail.tsx:78-102 | a review is refused with "Please login" when nobody is signed in, as "already reviewed" when the user has a review of the product (unique constraint 23505), with the backend's message on any other error, and accepted exactly when none of these holds |
| ProductDetail.ProductDetailPage.AddReview | src/pages/ProductDetail.tsx:77-104 | a refused review shows its reason and changes neither the table nor the comment box; an accepted one appends the rating with the trimmed comment, clears the box, shows "Review added", and keeps reviews unique per (product, user) |
| Checkout.Discount | src/pages/Checkout.tsx:49-56 | no coupon gives 0; a fixed coupon gives its value; a percentage coupon gives subtotal times value / 100, capped by a truthy maximum |
| Checkout.PercentageDiscountWithinSubtotal | src/pages/Checkout.tsx:49-56 | a percentage of 0 to 100 with a non-negative cap discounts between 0 and a non-negative subtotal |
| Checkout.FixedCouponCanMakeTotalNegative | src/pages/Checkout.tsx:49-58 | a fixed coupon larger than the subtotal gives a negative total, because nothing clamps it |
| Checkout.CappedPercentageExample | src/pages/Checkout.tsx:49-58 | 10% of 1000 capped at 80 gives a discount of 80 and a total of 920 |
| Checkout.AmountInPaise | src/pages/Checkout.tsx:151 | the gateway amount is total times 100, rounded to the nearest paisa |
| Checkout.WholePaiseChargedExactly | src/pages/Checkout.tsx:151-159 | a total in whole paise is charged exactly |
| Checkout.CheckCoupon | src/pages/Checkout.tsx:106-117 | a coupon is accepted iff a row was found, it is not below a truthy minimum and not expired; no row gives "Invalid coupon code"; the minimum is reported before the expiry |
| Checkout.CouponMessage | src/pages/Checkout.tsx:106-125 | a failed lookup shows its error message; the guards show "Invalid coupon code", "Minimum order amount is ₹" and the minimum, and "Coupon has expired" |
| Checkout.MinimumIsInclusive | src/pages/Checkout.tsx:109-111 | a subtotal equal to the minimum passes the minimum check |
| Checkout.MinimumReportedBeforeExpiry | src/pages/Checkout.tsx:109-115 | a coupon that is below its minimum and also expired reports the minimum |
| Checkout.MatchesCode | src/pages/Checkout.tsx:99-104 | a matching row is active and its code is the typed code in capitals: same length, and already uppercase |
| Checkout.LookupAnswer | src/pages/Checkout.tsx:99-107 | a found coupon is an active row of the table; no answer means no row matches the typed code |
| Checkout.LookupCoupon | src/pages/Checkout.tsx:99-106 | the lookup returns an active coupon whose code equals the typed code uppercased, or none when no such row exists; a failed call returns its error |
| Checkout.Run | src/pages/Checkout.tsx:128-200 | a placement makes 0 to 4 writes, and all 4 happen exactly when no step fails |
| Checkout.CheckoutMessage | src/pages/Checkout.tsx:128-209 | each failed check shows its own fixed text ("Please login", the address rule, "Cart is empty", the gateway, verification and window texts), and a failed write shows the backend's message |
| Checkout.ValidationBeforeAnyWrite | src/pages/Checkout.tsx:130-142 | no user, an address under 10 characters, or an empty cart stops the placement before any write |
| Checkout.PaidOnlyAfterVerification | src/pages/Checkout.tsx:166-197 | the paid flag and the cart deletion happen only after a verified payment |
| Checkout.FailedPaymentKeepsCart | src/pages/Checkout.tsx:145-197 | an unverified or dismissed payment leaves the order pending and the cart untouched |
| Checkout.OrderNumber | src/pages/Checkout.tsx:63 | order numbers start with "ORD-" |
| Checkout.NewOrder | src/pages/Checkout.tsx:64-80 | the inserted order has total = subtotal, discount = discount, final = total - discount, and status and payment both pending |
| Checkout.OrderLines | src/pages/Checkout.tsx:82-93 | one snapshot per cart row, in order, priced at the effective unit price, with total_price = price times quantity |
| Checkout.LineTotalsSumToSubtotal | src/pages/Checkout.tsx:82-93 | the snapshots' line totals add up to the order's subtotal |
| Checkout.CheckoutPage.constructor | src/pages/Checkout.tsx:24-26 | the page starts with an empty address, no typed code and no applied coupon |
| Checkout.CheckoutPage.Subtotal | src/pages/Checkout.tsx:44-47 | the subtotal is 0 before the cart loads, and otherwise the sum over the rows of effective price times quantity |
| Checkout.CheckoutPage.CurrentDiscount | src/pages/Checkout.tsx:49-56 | no coupon discounts 0; a percentage of 0 to 100 with a non-negative cap discounts between 0 and a non-negative subtotal |
| Checkout.CheckoutPage.Total | src/pages/Checkout.tsx:49-58 | with no coupon the total is the subtotal; a fixed coupon worth more than the subtotal makes it negative (nothing clamps it); a percentage of 0 to 100 with a non-negative cap keeps it between 0 and a non-negative subtotal |
| Checkout.CheckoutPage.SetAddress | src/pages/Checkout.tsx:237 | the address field holds the typed text |
| Checkout.CheckoutPage.SetCouponCode | src/pages/Checkout.tsx:254-256 | the code can be typed only while no coupon is applied |
| Checkout.CheckoutPage.ApplyCoupon | src/pages/Checkout.tsx:97-126 | a failed lookup is reported; otherwise the result is `CheckCoupon` of a possible answer of the lookup, so a matching active coupon that is not below its minimum and not expired is applied, and the coupon is applied exactly when the result is Ok |
| Checkout.CouponToast | src/pages/Checkout.tsx:119-125 | the Apply button shows "Coupon applied successfully" exactly when the coupon is applied, and otherwise the message of the guard or of the failed lookup |
| Checkout.CheckoutPage.RemoveCoupon | src/pages/Checkout.tsx:266-271 | removing the coupon clears the code and the discount, so the total equals the subtotal |
| Checkout.CheckoutPage.CreateOrder | src/pages/Checkout.tsx:61-95 | the order insert, then the snapshot insert; a failed snapshot insert leaves the order row behind; a written order stores the page's subtotal, discount and total as total, discount and final amount |
| Checkout.CheckoutPage.PlaceOrder | src/pages/Checkout.tsx:128-210 | the orders, line snapshots and cart end up as `Run` says: the pending order, then the snapshots, then the paid flag, then the cart deletion, stopping at the first failure; the result is the failing step's error; a written order's final amount is the page's total; once the snapshots are written the gateway is asked for `AmountInPaise` of that stored final amount |
| Checkout.Writes | src/pages/Checkout.tsx:145-197 | after validation a placement makes at most 4 writes (order, snapshots, paid flag, cart deletion), and all 4 exactly when no step reports an error |
| Checkout.InsertOrder | src/pages/Checkout.tsx:61-95 | a failed order insert writes nothing; otherwise the pending order is stored, and the snapshots are appended unless their insert fails, which leaves the order row behind; the result is the first insert error, else the order's id |
| Checkout.Submit | src/pages/Checkout.tsx:145-197 | after validation, the orders, snapshots and cart end up as `Writes` counts: the pending order from 1 write on, the snapshots from 2, the paid flag from 3, the user's cart deleted at 4; the result is the order's id exactly when `Writes` reports no error, else that error |
| Checkout.SettlePayment | src/pages/Checkout.tsx:145-197 | after the order exists: a payment that is not verified writes nothing more and reports the gateway, verification or window error; a verified one sets the paid flag, then deletes the user's cart rows, stopping at the first failed write |
| Checkout.PlacementToast | src/pages/Checkout.tsx:200-209 | Place Order shows "Order placed successfully" exactly when every step succeeded, and otherwise the failing step's message |
| OrdersPage.MyOrders | src/pages/Orders.tsx:18-25 | the page lists exactly the signed-in user's orders, with their order and repeats given by `MyOrdersAppend` |
| OrdersPage.MyOrdersAppend | src/pages/Orders.tsx:18-25 | selecting from a concatenation selects from each part in turn, so the user's orders keep the order the backend gives |
| OrdersPage.StatusColor | src/pages/Orders.tsx:38-48 | each of the six known statuses has its own colour class, and every other status is grey |
| OrdersPage.KnownStatusColorsDistinct | src/pages/Orders.tsx:39-46 | no two known statuses share a colour |
| OrdersPage.WrittenStatusesAreColoured | src/pages/Orders.tsx:38-48 | every status that checkout or the admin buttons can write gets a non-grey colour |
| OrdersPage.BadgeText | src/pages/Orders.tsx:71 | the badge is the status uppercased: same length, with no lowercase letters |
| OrdersPage.BadgeTextReversible | src/pages/Orders.tsx:71 | for lowercase status names, lowercasing the badge gives the status back |
| OrdersPage.NoCouponNoDiscountLine | src/pages/Orders.tsx:100-104 | an order placed without a coupon shows no discount line |
| OrdersPage.FixedCouponShowsDiscountLine | src/pages/Orders.tsx:100-104 | an order with a fixed coupon of positive value shows the discount line |
| OrdersPage.ShowsDiscountLine | src/pages/Orders.tsx:100-104 | for an order whose amounts add up, the discount line shows exactly when less than the subtotal was charged |
| OrdersPage.ShowsEmptyState | src/pages/Orders.tsx:57-114 | "No orders yet" shows when the query has no data, and otherwise exactly when no order is listed |
| OrdersPage.EmptyStateIffNoOwnOrders | src/pages/Orders.tsx:18-57 | a signed-in user sees "No orders yet" exactly when no order in the table is theirs |
| AdminCoupons.MinOrderColumn | src/pages/admin/Coupons.tsx:40 | an empty minimum field is stored as null, otherwise as its parse |
| AdminCoupons.NewRowDefaults | src/pages/admin/Coupons.tsx:44-48 | a created coupon has no cap and no expiry date, so it never expires, and `is_active` takes the table's default |
| AdminCoupons.SavedRow | src/pages/admin/Coupons.tsx:35-50 | a save writes the code uppercased, the type, the value and the minimum, and keeps the cap, expiry and active flag |
| AdminCoupons.EditForm | src/pages/admin/Coupons.tsx:73-82 | the edit form holds the code, the type, the value as a string, and the minimum as a string ('' when null) |
| AdminCoupons.EditThenSaveKeepsRow | src/pages/admin/Coupons.tsx:33-82 | editing a stored coupon and saving it unchanged writes back the same row |
| AdminCoupons.SavedCodeFoundInAnyCase | src/pages/admin/Coupons.tsx:37 | an active saved coupon is found at checkout by its code typed in any letter case |
| AdminCoupons.ListedCodeFindsCoupon | src/pages/admin/Coupons.tsx:45 | the stored code, typed back as listed, finds the coupon |
| AdminCoupons.DisplayText | src/pages/admin/Coupons.tsx:114 | percentage coupons read "{v}% off", fixed ones "₹{v} off" |
| AdminCoupons.DisplayTextTellsTypesApart | src/pages/admin/Coupons.tsx:114 | a percentage coupon and a fixed coupon of the same value never show the same text, whatever the number formatting |
| AdminCoupons.ShowsMinimum | src/pages/admin/Coupons.tsx:116-118 | the "Min order" line shows exactly when the minimum can block some subtotal at checkout |
| AdminCoupons.HiddenMinimumNeverBlocks | src/pages/admin/Coupons.tsx:116 | a minimum whose "Min order" line is hidden (null or 0; a 0 still renders a bare "0") never blocks a coupon at checkout |
| AdminCoupons.CouponsPage.constructor | src/pages/admin/Coupons.tsx:20-22 | the dialog starts closed, with no edit and the empty percentage form |
| AdminCoupons.CouponsPage.OpenNew | src/pages/admin/Coupons.tsx:100-104 | "Add Coupon" opens a blank form for a new row |
| AdminCoupons.CouponsPage.HandleEdit | src/pages/admin/Coupons.tsx:73-82 | the pencil opens the dialog on that coupon's form |
| AdminCoupons.CouponsPage.CloseDialog | src/pages/admin/Coupons.tsx:141-147 | closing the dialog drops the edit and resets the form |
| AdminCoupons.CouponsPage.SetForm | src/pages/admin/Coupons.tsx:155-166 | the inputs and the type select write the form |
| AdminCoupons.CouponsPage.Save | src/pages/admin/Coupons.tsx:33-60 | an update rewrites only the edited row's four columns; a create inserts a new row; success resets the dialog; a failure or an unparseable value changes nothing |
| AdminCoupons.CouponsPage.Delete | src/pages/admin/Coupons.tsx:62-71 | a successful delete removes exactly that coupon and shows "Coupon deleted"; a failed one changes nothing and shows no toast |
| AdminOrders.LoadOrders | src/pages/admin/Orders.tsx:28-45 | one listed order per order, in the backend's order, each with its own row; a failed profile fetch leaves every profile undefined |
| AdminOrders.UniqueIds | src/pages/admin/Orders.tsx:33 | the deduplicated ids are the same set, with no repeats |
| AdminOrders.UniqueIdsKeepsFirst | src/pages/admin/Orders.tsx:33 | deduplication keeps the first id in front |
| AdminOrders.UserIds | src/pages/admin/Orders.tsx:33 | one user id per order, in order |
| AdminOrders.ProfilesWithIds | src/pages/admin/Orders.tsx:34-37 | the profile fetch returns exactly the profiles whose id is listed |
| AdminOrders.ProfileMap | src/pages/admin/Orders.tsx:40 | the map holds exactly the listed ids, each with one of its profiles, and the last profile listed for an id is the one kept |
| AdminOrders.JoinProfiles | src/pages/admin/Orders.tsx:41-44 | each order keeps its place and row and gains the mapped profile, or undefined |
| AdminOrders.LoadJoinsOwnProfile | src/pages/admin/Orders.tsx:33-44 | every order gains a profile exactly when its user has one, and that profile is the user's own |
| AdminOrders.UnfetchedProfilesLeaveOrdersBare | src/pages/admin/Orders.tsx:34-44 | a failed profile fetch lists every order without a customer |
| AdminOrders.Haystack | src/pages/admin/Orders.tsx:52-55 | the searched text contains the order number and, when known, the customer's email |
| AdminOrders.MatchesQuery | src/pages/admin/Orders.tsx:52-55 | an empty query matches every order |
| AdminOrders.FilteredOrders | src/pages/admin/Orders.tsx:50-57 | no data gives []; otherwise exactly the orders whose lowercased "number email" contains the lowercased query, with their order and repeats given by `FilterAppend` |
| AdminOrders.Filter | src/pages/admin/Orders.tsx:50-57 | the search never lists more orders than it was given; which orders, in what order, is `FilterMembers` and `FilterAppend` |
| AdminOrders.FilterMembers | src/pages/admin/Orders.tsx:50-57 | the search keeps exactly the orders that match |
| AdminOrders.FilterAppend | src/pages/admin/Orders.tsx:50-57 | filtering a concatenation filters each part in turn, so the search keeps the orders' order and multiplicity |
| AdminOrders.EmptyQueryKeepsAll | src/pages/admin/Orders.tsx:50-57 | an empty query keeps every order, in order |
| AdminOrders.SearchFindsOrderNumber | src/pages/admin/Orders.tsx:50-57 | part of the order number, in any case, finds the order |
| AdminOrders.SearchFindsEmail | src/pages/admin/Orders.tsx:50-57 | part of the customer's email, in any case, finds the order |
| AdminOrders.StatusButton | src/pages/admin/Orders.tsx:133-162 | no status button sets an order back to pending |
| AdminOrders.PaymentButton | src/pages/admin/Orders.tsx:164-178 | no payment button sets a payment back to pending |
| AdminOrders.AnyStatusFromAnyStatus | src/pages/admin/Orders.tsx:133-162 | any status button sets its status from any current status, including out of delivered or cancelled, and leaves payment alone |
| AdminOrders.StatusAndPaymentIndependent | src/pages/admin/Orders.tsx:59-81 | status and payment writes commute |
| AdminOrders.UpdateStatus | src/pages/admin/Orders.tsx:59-69 | success sets that order's status and shows "Order status updated"; a failure changes nothing |
| AdminOrders.UpdatePayment | src/pages/admin/Orders.tsx:71-81 | success sets that order's payment status; a failure changes nothing |
| AdminUsers.RolesOf | src/pages/admin/Users.tsx:47-50 | a user's roles are exactly the role rows with that user id |
| AdminUsers.RolesOfAppend | src/pages/admin/Users.tsx:47-50 | the role filter keeps the table's order |
| AdminUsers.JoinRoles | src/pages/admin/Users.tsx:47-50 | each profile, in order, gains exactly its own role rows |
| AdminUsers.IsUserAdmin | src/pages/admin/Users.tsx:23 | a user counts as admin exactly when the role cell shows an "admin" badge |
| AdminUsers.JoinedAdminMatchesTable | src/pages/admin/Users.tsx:23 | a joined user shows as admin exactly when the role table has an admin row for them |
| AdminUsers.RoleBadges | src/pages/admin/Users.tsx:132-139 | one badge per role row, or a single "customer" badge when there are none |
| AdminUsers.UserHaystack | src/pages/admin/Users.tsx:55-58 | the searched text contains the email and the full name, when known |
| AdminUsers.UserMatches | src/pages/admin/Users.tsx:55-58 | an empty query matches every user |
| AdminUsers.FilteredUsers | src/pages/admin/Users.tsx:55-58 | exactly the users whose lowercased "email full_name" contains the lowercased query, with their order and repeats given by `FilterUsersAppend` |
| AdminUsers.FilterUsers | src/pages/admin/Users.tsx:55-58 | the search never lists more users than it was given; which users, in what order, is `FilterUsersMembers` and `FilterUsersAppend` |
| AdminUsers.FilterUsersMembers | src/pages/admin/Users.tsx:55-58 | the search keeps exactly the users that match |
| AdminUsers.FilterUsersAppend | src/pages/admin/Users.tsx:55-58 | filtering a concatenation filters each part in turn, so the search keeps the users' order and multiplicity |
| AdminUsers.EmptyQueryListsAll | src/pages/admin/Users.tsx:55-58 | an empty query lists every user, in order |
| AdminUsers.SearchFindsName | src/pages/admin/Users.tsx:55-58 | part of the name, in any case, finds the user |
| AdminUsers.Decide | src/pages/admin/Users.tsx:209-219 | grant iff switched on for a non-admin; revoke iff switched off for an admin; otherwise no write |
| AdminUsers.GrantedRoles | src/pages/admin/Users.tsx:60-70 | granting adds an admin row and keeps every other row |
| AdminUsers.GrantGivesSingleAdminRow | src/pages/admin/Users.tsx:60-70 | granting a non-admin leaves exactly one admin row, so the `.single()` admin checks accept the user |
| AdminUsers.RevokedRoles | src/pages/admin/Users.tsx:72-82 | revoking removes exactly the (user, 'admin') rows |
| AdminUsers.RolesWithoutUser | src/pages/admin/Users.tsx:177-193 | removing a user deletes exactly that user's role rows |
| AdminUsers.ProfilesWithout | src/pages/admin/Users.tsx:177-193 | removing a user deletes exactly that user's profile rows |
| AdminUsers.SaveMatchesSwitch | src/pages/admin/Users.tsx:209-219 | after a successful save the user is admin exactly when the switch is on, and other users' admin rows are unchanged |
| AdminUsers.UsersPage.constructor | src/pages/admin/Users.tsx:21-24 | the dialog starts closed, with no user selected and the switch off |
| AdminUsers.UsersPage.Manage | src/pages/admin/Users.tsx:150-153 | "Manage" opens on the user, with the switch set to their current admin status |
| AdminUsers.UsersPage.Toggle | src/pages/admin/Users.tsx:170-171 | the switch holds the chosen value |
| AdminUsers.UsersPage.Close | src/pages/admin/Users.tsx:201-203 | Cancel closes the dialog and drops the selection |
| AdminUsers.UsersPage.Save | src/pages/admin/Users.tsx:209-219 | at most one role write, chosen by `Decide`, with its toast; the dialog closes on success or when nothing is written, and stays open after a failed write |
| AdminUsers.UsersPage.Remove | src/pages/admin/Users.tsx:177-193 | the role rows are deleted first, then the profile; a failed role delete leaves both tables as they were; a failed profile delete keeps the roles deleted |
| AdminProducts.UploadRejection | src/pages/admin/Products.tsx:51-78 | checks run in order: size, then type, then a signed-in user, then exactly one admin row; the upload proceeds iff all four pass |
| AdminProducts.SizeLimitInclusive | src/pages/admin/Products.tsx:51-56 | exactly 5 MiB passes the size check; one byte more fails, whatever the type |
| AdminProducts.FileExtension | src/pages/admin/Products.tsx:80 | the extension is the dot-free text after the last dot, or the whole name when there is no dot |
| AdminProducts.StoragePath | src/pages/admin/Products.tsx:80-82 | the path lies under "products/" |
| AdminProducts.StoragePathKeepsExtension | src/pages/admin/Products.tsx:80-82 | the path ends in a dot and the file's own extension |
| AdminProducts.UploadErrorMessage | src/pages/admin/Products.tsx:93-105 | storage errors map by substring in priority order: bucket, permission, size, otherwise "Upload failed: " + message |
| AdminProducts.BucketReportedFirst | src/pages/admin/Products.tsx:96-104 | a message naming both a missing bucket and a permission problem reports the bucket |
| AdminProducts.RequiredFilled | src/pages/admin/Products.tsx:126-128 | the blank form never passes the required-fields check |
| AdminProducts.NullIfEmpty | src/pages/admin/Products.tsx:133-134 | empty text is stored as null, anything else as itself |
| AdminProducts.FormRow | src/pages/admin/Products.tsx:130-153 | the saved row has the form's name, switches and parsed numbers; an empty description, image or offer becomes null |
| AdminProducts.EditForm | src/pages/admin/Products.tsx:192-205 | the edit form holds the product's fields, with numbers as strings and nulls as '' |
| AdminProducts.EditThenSaveKeepsRow | src/pages/admin/Products.tsx:124-205 | editing a product and saving it unchanged writes back the same row (when it has a name and no empty text fields) |
| AdminProducts.EmptyDescriptionBecomesNull | src/pages/admin/Products.tsx:133 | an empty description does not survive a save; it becomes null |
| AdminProducts.ProductsPage.constructor | src/pages/admin/Products.tsx:21-34 | the form starts hidden and empty, with active on and featured off |
| AdminProducts.ProductsPage.ShowForm | src/pages/admin/Products.tsx:441 | "Add Product" only shows the form |
| AdminProducts.ProductsPage.Back | src/pages/admin/Products.tsx:226-239 | "Back to Products" hides the form, drops the edit and resets the form |
| AdminProducts.ProductsPage.Cancel | src/pages/admin/Products.tsx:419-420 | "Cancel" only hides the form, and is disabled while uploading |
| AdminProducts.ProductsPage.SetForm | src/pages/admin/Products.tsx:24-34 | the inputs write the form |
| AdminProducts.ProductsPage.HandleEdit | src/pages/admin/Products.tsx:192-205 | the pencil shows the form filled from the product |
| AdminProducts.ProductsPage.SelectFile | src/pages/admin/Products.tsx:47-122 | a rejected or failed upload shows its message and leaves the form; success sets the image URL to the new path's public URL; `uploading` is cleared on every exit |
| AdminProducts.ProductsPage.Save | src/pages/admin/Products.tsx:124-176 | missing required fields are refused; a backend error shows its message, or "Failed to save product" when the message is empty; an unparseable price or stock is refused by the table's not-null rule; a success updates the edited row or inserts the new one and resets the form; a failure changes nothing |
| AdminProducts.ProductsPage.Delete | src/pages/admin/Products.tsx:178-190 | a successful delete removes exactly that product |
| Auth.SignUpIssue | src/pages/Auth.tsx:12-16 | sign-up passes iff the email is valid, the password has at least 8 characters and the name at least 2; otherwise the first failing field's message |
| Auth.SignInIssue | src/pages/Auth.tsx:18-21 | sign-in passes iff the email is valid and the password non-empty; otherwise the first failing field's message |
| Auth.SignUpStricterThanSignIn | src/pages/Auth.tsx:12-21 | credentials accepted at sign-up are accepted at sign-in |
| Auth.IsAdminLogin | src/pages/Auth.tsx:27 | only the exact text "true" opens the admin login: no parameter, "1" or "TRUE" does not |
| Auth.DefaultTab | src/pages/Auth.tsx:27-28 | the sign-up tab opens iff tab is 'signup' and this is not the admin login |
| Auth.AdminLoginOpensSignIn | src/pages/Auth.tsx:28 | the admin login always opens on sign-in |
| Auth.AuthPage.HandleSignUp | src/pages/Auth.tsx:30-66 | a form issue shows its message and makes no backend call; a backend error shows its text; success shows "Account created successfully!"; `loading` ends false |
| Auth.AuthPage.HandleSignIn | src/pages/Auth.tsx:68-116 | a form issue makes no call; an auth error keeps the session; an admin login without exactly one admin row is signed out with "Access denied"; otherwise the user is signed in; `loading` ends false |
| Auth.AdminLoginNeedsAdminRow | src/pages/Auth.tsx:86-99 | an accepted admin login means the user has an admin row |
| SetupStorage.ApplyLine | scripts/setup-storage.js:19-23 | a line without '=' changes nothing |
| SetupStorage.ApplyLineFrame | scripts/setup-storage.js:20-23 | a line touches at most one key, its trimmed key piece; every other key keeps its value |
| SetupStorage.ReadLines | scripts/setup-storage.js:17-24 | the loop applies the lines to an empty dictionary one after another |
| SetupStorage.ApplyLines | scripts/setup-storage.js:19-24 | no lines leave the settings as they were, and a line never removes a setting |
| SetupStorage.LoadEnv | scripts/setup-storage.js:13-31 | a readable file is split at newlines and read line by line; an unreadable one gives the fallback environment unchanged |
| SetupStorage.PairStored | scripts/setup-storage.js:20-22 | `KEY=VALUE` stores the trimmed value under the trimmed key |
| SetupStorage.SecondEqualsTruncates | scripts/setup-storage.js:20 | anything after a second '=' is dropped |
| SetupStorage.EmptyKeySkipped | scripts/setup-storage.js:21 | a line with an empty key piece is skipped |
| SetupStorage.EmptyValueSkipped | scripts/setup-storage.js:21 | `KEY=` and `KEY==...` are skipped |
| SetupStorage.BlankPairStoredEmpty | scripts/setup-storage.js:21-22 | the emptiness test comes before the trim, so a whitespace-only pair stores '' under '' |
| SetupStorage.CarriageReturnTrimmed | scripts/setup-storage.js:19-22 | a CRLF line ending leaves a '\r' that the trim removes |
| SetupStorage.LastLineWins | scripts/setup-storage.js:22 | the last line for a key decides its value |
| SetupStorage.KeysComeFromLines | scripts/setup-storage.js:19-24 | every key read is the trimmed key piece of one of the lines |
| SetupStorage.ConfigComplete | scripts/setup-storage.js:38 | an empty environment stops the script, and going on needs both setting names present |
| SetupStorage.TwoSettingsComplete | scripts/setup-storage.js:35-44 | the two setting lines with non-blank values satisfy the settings check |
| SetupStorage.TwoLineFileIsComplete | scripts/setup-storage.js:13-44 | a two-line `.env` with non-blank values for both settings lets the script go on |
| SetupStorage.FindBucket | scripts/setup-storage.js:60 | the bucket is found iff some bucket has the id, and the one found is the first |
| SetupStorage.FindBucketFirst | scripts/setup-storage.js:60 | among several buckets with the same id, the first is reported |
| SetupStorage.UploadHint | scripts/setup-storage.js:86-92 | "bucket not found" takes priority over "permission denied"; any other message gets no hint |
| SetupStorage.BucketIds | scripts/setup-storage.js:67 | the listed ids are the buckets' ids, in order |
| SetupStorage.Setup | scripts/setup-storage.js:48-97 | a failed listing stops the script; otherwise the bucket is found iff it is listed, the ids are listed when it is missing, and the removal of the test file is requested iff the upload succeeded (its answer is ignored), with a hint otherwise |

## Left out

- Remote calls are not modelled: the backend client's queries, storage upload, public URL and auth calls. Each becomes a table write in `Tables.Db` whose outcome (success or a `DbError`) is a parameter. Also left out:
  - row-level security;
  - the backend's result ordering (`order('created_at')` is read as "in the order given");
  - `maybeSingle`: several matching coupons yield one of them.
- Razorpay is not modelled: its widget, `/create-razorpay-order` and `/verify-razorpay` become one `Payment` outcome.
- Realtime order notifications, their sound, and the `cn` class-name helper are not modelled: they are push-based, audio, or styling.
- Date.now, Math.random and `new Date()` are not modelled; they are parameters (`now`, `random`, `token`).
- Number formatting and parsing are not modelled. IEEE-754 rounding, NaN, `toFixed`, `parseFloat`/`parseInt` and `toString` are abstract function parameters; money is an exact `real`.
- zod's email regular expression is not modelled; it is an opaque `validEmail` predicate.
- String lengths: zod counts UTF-16 code units and the model counts characters.
- Case mapping covers ASCII letters only. `trim` removes ASCII whitespace, NBSP and BOM, and not the other Unicode space characters.
- Presentational pages are not modelled (Home, About, Contact, Policy, Wishlist, ProductTemplate, Navbar, Footer, ProductCard). Neither are React rendering, navigation, query invalidation and toasts beyond the text each operation shows.
- Concurrent admin edits are not modelled; each operation is one atomic write. An image upload is atomic too: the drop zone stays enabled during an upload, so the source can start a second upload before the first ends, which the model does not capture.
- An unparseable coupon value, product price or stock is modelled as a write the table refuses with a not-null error.
- New coupons take `is_active` from the table default, which is a parameter.
- A failed profile fetch on the admin order page is ignored, as in the source; every order is then listed without a customer.
- The console output of the set-up script is reduced to a `Report`. The exit on incomplete settings is the `ConfigComplete` predicate.
- Prototype-chain keys are not modelled: `colors[status]` on names such as `constructor`, and a `__proto__` key in `.env`. Strings are plain dictionary keys.
- CartPage.Incremented: no upper bound is stated, because the source has none (not even the stock). Only `Incremented(q) > q` is proved.
- ProductDetail.DiscountPercentage: a regular price of 0 with a discount (only possible with a negative offer) gives Infinity in the source; the model gives 0. Bounds are proved only for non-negative offers.
- ProductDetail.ProductDetailPage.AddToCart: the "disabled while stock is 0" rule is a precondition, not a modelled button state.
- AdminProducts.ProductsPage.ShowForm: "Add Product" does not reset an earlier edit, as in the source, so a later save still updates the earlier product.
- AdminCoupons.CouponsPage.Save: the source shows no toast when a save fails; the model returns the error only so that callers can tell the outcomes apart.
- Checkout.CheckoutPage.PlaceOrder: the gateway fetch and the widget are one outcome, so the model cannot tell an HTTP failure from a thrown network error. A network failure of the verification request inside the widget's handler is caught by nothing, so the placement never settles: no toast is shown, the order stays pending and the cart is kept. The tables then match `VerificationFailed`, but the model shows that outcome's message, which the source never shows in this case.
