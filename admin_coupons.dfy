/**
 * The coupon admin page: a dialog whose form creates or edits a coupon, the
 * normalisation applied when saving (code uppercased, an empty minimum stored
 * as null), loading a coupon back into the form, deletion, and the list text.
 */
module AdminCoupons {
  import opened Common
  import opened Tables
  import opened Checkout

  /** The dialog's form: every field is the text of its input, the type one of the two select values. */
  datatype CouponForm = CouponForm(code: string, discountType: DiscountType, value: string, minOrder: string)

  /** `{ code: '', discount_type: 'percentage', discount_value: '', min_order_amount: '' }` */
  const EmptyForm := CouponForm("", Percentage, "", "")

  /** `min_order_amount ? parseFloat(min_order_amount) : null`; a NaN parse is sent as null too. */
  function MinOrderColumn(text: string, parse: string -> Option<real>): (m: Option<real>)
    ensures text == "" ==> m.None?
    ensures text != "" ==> m == parse(text)
  {
    if text == "" then None else parse(text)
  }

  /**
   * The row a save leaves: the four columns the form writes, over `base` (the
   * edited row, or the defaults of a new row). The other columns are kept.
   */
  function SavedRow(base: Coupon, form: CouponForm, value: real, parse: string -> Option<real>): (c: Coupon)
    ensures c.code == ToUpper(form.code) && c.discountType == form.discountType && c.discountValue == value
    ensures c.minOrderAmount == MinOrderColumn(form.minOrder, parse)
    ensures c.maxDiscountAmount == base.maxDiscountAmount && c.validUntil == base.validUntil
    ensures c.isActive == base.isActive
  {
    base.(code := ToUpper(form.code), discountType := form.discountType, discountValue := value,
          minOrderAmount := MinOrderColumn(form.minOrder, parse))
  }

  /** A new row: no cap, no expiry, and the table's default for `is_active`. */
  function NewRowDefaults(defaultActive: bool): (c: Coupon)
    ensures c.maxDiscountAmount.None? && c.validUntil.None? && c.isActive == defaultActive
    ensures forall now :: !ExpiredAt(c, now)
  {
    Coupon("", Percentage, 0.0, None, None, None, defaultActive)
  }

  /** `handleEdit`: the value as its string, the minimum as its string or '' when null. */
  function EditForm(c: Coupon, show: real -> string): (f: CouponForm)
    ensures f.code == c.code && f.discountType == c.discountType && f.value == show(c.discountValue)
    ensures c.minOrderAmount.None? ==> f.minOrder == ""
    ensures c.minOrderAmount.Some? ==> f.minOrder == show(c.minOrderAmount.value)
  {
    CouponForm(c.code, c.discountType, show(c.discountValue),
               if c.minOrderAmount.Some? then show(c.minOrderAmount.value) else "")
  }

  /** `parse` reads back every number `show` writes, and `show` never writes the empty string. */
  ghost predicate ShowParses(show: real -> string, parse: string -> Option<real>) {
    forall x :: show(x) != "" && parse(show(x)) == Some(x)
  }

  /**
   * Opening a stored coupon (with an uppercase code) in the dialog and saving
   * it without changes writes back the same row.
   */
  lemma EditThenSaveKeepsRow(c: Coupon, show: real -> string, parse: string -> Option<real>)
    requires ShowParses(show, parse)
    requires ToUpper(c.code) == c.code
    ensures var f := EditForm(c, show);
      parse(f.value) == Some(c.discountValue) && SavedRow(c, f, c.discountValue, parse) == c
  {
    var f := EditForm(c, show);
    assert parse(show(c.discountValue)) == Some(c.discountValue);
    if c.minOrderAmount.Some? {
      var m := c.minOrderAmount.value;
      assert show(m) != "" && parse(show(m)) == Some(m);
      assert MinOrderColumn(f.minOrder, parse) == Some(m);
    }
  }

  /**
   * Codes are uppercased when stored and when looked up, so an active saved
   * coupon is found by its code typed in any letter case.
   */
  lemma SavedCodeFoundInAnyCase(base: Coupon, form: CouponForm, value: real, parse: string -> Option<real>, typed: string)
    requires base.isActive
    requires ToUpper(typed) == ToUpper(form.code)
    ensures MatchesCode(SavedRow(base, form, value, parse), typed)
  {
  }

  /** The stored code is already uppercase: typing it back as listed finds the coupon. */
  lemma ListedCodeFindsCoupon(base: Coupon, form: CouponForm, value: real, parse: string -> Option<real>)
    requires base.isActive
    ensures var c := SavedRow(base, form, value, parse); MatchesCode(c, c.code)
  {
    ToUpperIdempotent(form.code);
  }

  /** The list's second line: `${v}% off` or `₹${v} off`. */
  function DisplayText(c: Coupon, show: real -> string): (t: string)
    ensures c.discountType == Percentage ==> t == show(c.discountValue) + "% off"
    ensures c.discountType == Fixed ==> t == "₹" + show(c.discountValue) + " off"
  {
    if c.discountType == Percentage then show(c.discountValue) + "% off" else "₹" + show(c.discountValue) + " off"
  }

  /**
   * The list never shows a percentage coupon and a fixed one of the same value
   * with the same text, whatever the number formatting: the percentage text
   * has one more '%' than the fixed one.
   */
  lemma DisplayTextTellsTypesApart(p: Coupon, f: Coupon, show: real -> string)
    requires p.discountType == Percentage && f.discountType == Fixed && p.discountValue == f.discountValue
    ensures DisplayText(p, show) != DisplayText(f, show)
  {
    var s := show(p.discountValue);
    assert DisplayText(p, show) == s + "%" + " off";
    assert DisplayText(f, show) == "₹" + s + " off";
    PercentSigns(s);
  }

  /** Counting '%' in the two renderings of the same number text. */
  lemma PercentSigns(s: string)
    ensures multiset(s + "%" + " off")['%'] == multiset(s)['%'] + 1
    ensures multiset("₹" + s + " off")['%'] == multiset(s)['%']
  {
  }

  /**
   * The list shows the "Min order" line only when the minimum is truthy, which is
   * exactly when it can block some subtotal at checkout. A 0 minimum hides the
   * line, but `{0 && ...}` still renders a bare "0" in its place.
   */
  function ShowsMinimum(c: Coupon): (b: bool)
    ensures b <==> exists subtotal :: BelowMinimumOrder(c, subtotal)
  {
    if Truthy(c.minOrderAmount) then
      assert BelowMinimumOrder(c, c.minOrderAmount.value - 1.0);
      true
    else false
  }

  /**
   * A coupon whose "Min order" line is hidden (no minimum, or 0, which renders
   * as a bare "0" instead) never fails the minimum check at checkout.
   */
  lemma HiddenMinimumNeverBlocks(c: Coupon, subtotal: real)
    requires !ShowsMinimum(c)
    ensures !BelowMinimumOrder(c, subtotal)
  {
  }

  /** The dialog and form state of the page. */
  class CouponsPage {
    var dialogOpen: bool
    var editing: Option<CouponId>
    var form: CouponForm

    constructor ()
      ensures !dialogOpen && editing.None? && form == EmptyForm
    {
      dialogOpen, editing, form := false, None, EmptyForm;
    }

    /** "Add Coupon": a blank form for a new row. */
    method OpenNew()
      modifies this
      ensures dialogOpen && editing.None? && form == EmptyForm
    {
      dialogOpen, editing, form := true, None, EmptyForm;
    }

    /** The pencil button of coupon `id`. */
    method HandleEdit(id: CouponId, c: Coupon, show: real -> string)
      modifies this
      ensures dialogOpen && editing == Some(id) && form == EditForm(c, show)
    {
      editing := Some(id);
      form := EditForm(c, show);
      dialogOpen := true;
    }

    /** Closing the dialog drops the edit and resets the form. */
    method CloseDialog()
      modifies this
      ensures !dialogOpen && editing.None? && form == EmptyForm
    {
      dialogOpen, editing, form := false, None, EmptyForm;
    }

    /** Typing in one of the inputs or picking a type. */
    method SetForm(f: CouponForm)
      modifies this`form
      ensures form == f
    {
      form := f;
    }

    /**
     * Create/Update: an update writes the four form columns of the edited row
     * only (nothing when the id is gone); a create inserts a new row. An
     * unparseable value is refused by the table. After a success the dialog
     * closes and the form resets; after a failure nothing changes.
     */
    method Save(db: Db, parse: string -> Option<real>, freshId: CouponId, defaultActive: bool,
                fail: Option<DbError>) returns (r: Result<string, DbError>)
      requires editing.None? ==> freshId !in db.coupons
      modifies this, db`coupons
      ensures r.Ok? <==> fail.None? && parse(old(form).value).Some?
      ensures r.Ok? ==> r.value == if old(editing).Some? then "Coupon updated" else "Coupon created"
      ensures r.Ok? ==> !dialogOpen && editing.None? && form == EmptyForm
      ensures r.Err? ==> dialogOpen == old(dialogOpen) && editing == old(editing) && form == old(form)
      ensures r.Err? ==> db.coupons == old(db.coupons)
      ensures r.Ok? && old(editing).Some? ==>
        var id := old(editing).value;
        db.coupons == if id in old(db.coupons)
                      then old(db.coupons)[id := SavedRow(old(db.coupons)[id], old(form), parse(old(form).value).value, parse)]
                      else old(db.coupons)
      ensures r.Ok? && old(editing).None? ==>
        db.coupons == old(db.coupons)[freshId := SavedRow(NewRowDefaults(defaultActive), old(form),
                                                          parse(old(form).value).value, parse)]
    {
      var value := parse(form.value);
      if fail.Some? {
        return Err(fail.value);
      }
      if value.None? {
        return Err(DbError("23502", "null value in column \"discount_value\" violates not-null constraint"));
      }
      if editing.Some? {
        var id := editing.value;
        if id in db.coupons {
          db.coupons := db.coupons[id := SavedRow(db.coupons[id], form, value.value, parse)];
        }
        r := Ok("Coupon updated");
      } else {
        db.coupons := db.coupons[freshId := SavedRow(NewRowDefaults(defaultActive), form, value.value, parse)];
        r := Ok("Coupon created");
      }
      dialogOpen, editing, form := false, None, EmptyForm;
    }

    /** The trash button, after the confirmation: `delete().eq('id', id)`; only a success shows a toast. */
    method Delete(db: Db, id: CouponId, ok: bool) returns (toast: Option<string>)
      modifies db`coupons
      ensures db.coupons == if ok then old(db.coupons) - {id} else old(db.coupons)
      ensures toast == if ok then Some("Coupon deleted") else None
    {
      toast := None;
      if ok {
        db.coupons := db.coupons - {id};
        toast := Some("Coupon deleted");
      }
    }
  }
}
