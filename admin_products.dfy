/**
 * The product admin page: the image upload (file checks, the signed-in admin
 * check, the storage path and the mapping of storage errors), the product
 * form with its required fields and null rules, saving as update or insert,
 * loading a product into the form, and deletion.
 */
module AdminProducts {
  import opened Common
  import opened Tables

  // ---------------------------------------------------------------------
  // Image upload

  /** The dropped or chosen file: its name, its size in bytes and its MIME type. */
  datatype FileInfo = FileInfo(name: string, size: nat, mimeType: string)

  /** 5 MB */
  const MaxSize: nat := 5 * 1024 * 1024

  const AllowedTypes: seq<string> := ["image/jpeg", "image/jpg", "image/png", "image/webp", "image/gif"]

  const TooLargeMessage := "File size must be less than 5MB"
  const BadTypeMessage := "Only JPEG, PNG, WebP, and GIF images are allowed"
  const LoginMessage := "You must be logged in to upload images"
  const NotAdminMessage := "Admin privileges required to upload images"

  /**
   * The checks before the upload, in order: size, type, signed-in user, admin
   * role. The role query uses `.single()`, which yields no row unless exactly
   * one row matches.
   */
  function UploadRejection(file: FileInfo, user: Option<UserId>, roles: seq<RoleRow>): (e: Option<string>)
    ensures file.size > MaxSize ==> e == Some(TooLargeMessage)
    ensures file.size <= MaxSize && file.mimeType !in AllowedTypes ==> e == Some(BadTypeMessage)
    ensures file.size <= MaxSize && file.mimeType in AllowedTypes && user.None? ==> e == Some(LoginMessage)
    ensures e == Some(NotAdminMessage) <==>
      file.size <= MaxSize && file.mimeType in AllowedTypes && user.Some? && AdminRowCount(roles, user.value) != 1
    ensures e.None? <==>
      file.size <= MaxSize && file.mimeType in AllowedTypes && user.Some? && AdminRowCount(roles, user.value) == 1
  {
    if file.size > MaxSize then Some(TooLargeMessage)
    else if file.mimeType !in AllowedTypes then Some(BadTypeMessage)
    else if user.None? then Some(LoginMessage)
    else if AdminRowCount(roles, user.value) != 1 then Some(NotAdminMessage)
    else None
  }

  /** A file of exactly 5 MB passes the size check; one byte more does not, whatever its type. */
  lemma SizeLimitInclusive(name: string, mimeType: string, user: Option<UserId>, roles: seq<RoleRow>)
    ensures UploadRejection(FileInfo(name, MaxSize, mimeType), user, roles) != Some(TooLargeMessage)
    ensures UploadRejection(FileInfo(name, MaxSize + 1, mimeType), user, roles) == Some(TooLargeMessage)
  {
  }

  /** `file.name.split('.').pop()` */
  function FileExtension(name: string): (ext: string)
    ensures '.' !in ext
    ensures '.' !in name ==> ext == name
    ensures '.' in name ==> |ext| < |name| && name[|name| - |ext| - 1] == '.' && name[|name| - |ext|..] == ext
  {
    LastPiece(name, '.')
  }

  /** `products/${Date.now()}-${random}.${ext}`, with the random token given. */
  function StoragePath(now: nat, token: string, fileName: string): (path: string)
    ensures StartsWith(path, "products/")
  {
    "products/" + NatToDecimal(now) + "-" + token + "." + FileExtension(fileName)
  }

  /** The path ends in the file's own extension after a dot. */
  lemma StoragePathKeepsExtension(now: nat, token: string, fileName: string)
    ensures var path := StoragePath(now, token, fileName); var ext := FileExtension(fileName);
      |ext| < |path| && path[|path| - |ext| - 1..] == "." + ext
  {
  }

  const BucketMessage := "Storage bucket not found. Please contact administrator to set up the product-images bucket."
  const PermissionMessage := "Permission denied. Please ensure you have admin privileges."
  const FileSizeMessage := "File too large. Please choose a smaller image."

  /** The storage error's message, mapped by the first phrase it contains. */
  function UploadErrorMessage(message: string): (m: string)
    ensures Contains(message, "bucket not found") ==> m == BucketMessage
    ensures !Contains(message, "bucket not found") && Contains(message, "permission denied") ==> m == PermissionMessage
    ensures (!Contains(message, "bucket not found") && !Contains(message, "permission denied")
             && Contains(message, "file size")) ==> m == FileSizeMessage
    ensures (!Contains(message, "bucket not found") && !Contains(message, "permission denied")
             && !Contains(message, "file size")) ==> m == "Upload failed: " + message
  {
    if Contains(message, "bucket not found") then BucketMessage
    else if Contains(message, "permission denied") then PermissionMessage
    else if Contains(message, "file size") then FileSizeMessage
    else "Upload failed: " + message
  }

  /** A message naming both a missing bucket and a permission problem is reported as the bucket. */
  lemma BucketReportedFirst(a: string, b: string, c: string)
    ensures UploadErrorMessage(a + "bucket not found" + b + "permission denied" + c) == BucketMessage
  {
    ContainsInfix(a, "bucket not found", b + "permission denied" + c);
    assert a + "bucket not found" + b + "permission denied" + c
        == a + "bucket not found" + (b + "permission denied" + c);
  }

  // ---------------------------------------------------------------------
  // Product form

  /** The form: text inputs as typed, and the two switches. */
  datatype ProductForm = ProductForm(
    name: string,
    description: string,
    price: string,
    offer: string,
    stock: string,
    imageUrl: string,
    isActive: bool,
    featured: bool)

  const EmptyProductForm := ProductForm("", "", "", "", "", "", true, false)

  /** `!name || !price_per_litre || !stock_quantity` blocks the save. */
  function RequiredFilled(f: ProductForm): (b: bool)
    ensures f == EmptyProductForm ==> !b
  {
    f.name != "" && f.price != "" && f.stock != ""
  }

  /** `text || null` */
  function NullIfEmpty(text: string): (r: Option<string>)
    ensures r.None? <==> text == ""
    ensures r.Some? ==> r.value == text
  {
    if text == "" then None else Some(text)
  }

  /** The row a save writes, with the parses of the number fields given (None for NaN). */
  function FormRow(f: ProductForm, price: real, stock: int, parseFloat: string -> Option<real>): (p: Product)
    ensures p.name == f.name && p.price == price && p.stock == stock
    ensures p.description == NullIfEmpty(f.description) && p.imageUrl == NullIfEmpty(f.imageUrl)
    ensures f.offer == "" ==> p.offer.None?
    ensures f.offer != "" ==> p.offer == parseFloat(f.offer)
    ensures p.isActive == f.isActive && p.featured == f.featured
  {
    Product(f.name, NullIfEmpty(f.description), price,
            if f.offer == "" then None else parseFloat(f.offer),
            stock, NullIfEmpty(f.imageUrl), f.isActive, f.featured)
  }

  /** `handleEdit`: numbers as strings, nullable text as '' when null. */
  function EditForm(p: Product, showReal: real -> string, showInt: int -> string): (f: ProductForm)
    ensures f.name == p.name && f.price == showReal(p.price) && f.stock == showInt(p.stock)
    ensures f.description == (if p.description.Some? then p.description.value else "")
    ensures f.imageUrl == (if p.imageUrl.Some? then p.imageUrl.value else "")
    ensures f.offer == (if p.offer.Some? then showReal(p.offer.value) else "")
    ensures f.isActive == p.isActive && f.featured == p.featured
  {
    ProductForm(p.name,
                if p.description.Some? then p.description.value else "",
                showReal(p.price),
                if p.offer.Some? then showReal(p.offer.value) else "",
                showInt(p.stock),
                if p.imageUrl.Some? then p.imageUrl.value else "",
                p.isActive, p.featured)
  }

  /** `parseFloat` and `parseInt` read back what `toString` writes, which is never empty. */
  ghost predicate NumbersRoundTrip(showReal: real -> string, showInt: int -> string,
                                   parseFloat: string -> Option<real>, parseInt: string -> Option<int>) {
    && (forall x :: showReal(x) != "" && parseFloat(showReal(x)) == Some(x))
    && (forall n :: showInt(n) != "" && parseInt(showInt(n)) == Some(n))
  }

  /**
   * Editing a product and saving the form unchanged writes the same row back,
   * as long as the product has a name and no empty description or image URL
   * (an empty one comes back as null).
   */
  lemma EditThenSaveKeepsRow(p: Product, showReal: real -> string, showInt: int -> string,
                             parseFloat: string -> Option<real>, parseInt: string -> Option<int>)
    requires NumbersRoundTrip(showReal, showInt, parseFloat, parseInt)
    requires p.name != "" && p.description != Some("") && p.imageUrl != Some("")
    ensures var f := EditForm(p, showReal, showInt);
      && RequiredFilled(f)
      && parseFloat(f.price) == Some(p.price) && parseInt(f.stock) == Some(p.stock)
      && FormRow(f, p.price, p.stock, parseFloat) == p
  {
    var f := EditForm(p, showReal, showInt);
    assert showReal(p.price) != "" && parseFloat(showReal(p.price)) == Some(p.price);
    assert showInt(p.stock) != "" && parseInt(showInt(p.stock)) == Some(p.stock);
    if p.offer.Some? {
      var o := p.offer.value;
      assert showReal(o) != "" && parseFloat(showReal(o)) == Some(o);
    }
  }

  /** An empty description does not survive a save: it is stored as null. */
  lemma EmptyDescriptionBecomesNull(p: Product, showReal: real -> string, showInt: int -> string,
                                    parseFloat: string -> Option<real>)
    requires p.description == Some("")
    ensures FormRow(EditForm(p, showReal, showInt), p.price, p.stock, parseFloat).description.None?
  {
  }

  /** The table's refusal of a row whose number did not parse (it is sent as null). */
  function NotNullViolation(column: string): (msg: string)
    ensures msg != "" && Contains(msg, column)
  {
    var before, after := "null value in column \"", "\" violates not-null constraint";
    ContainsInfix(before, column, after);
    before + column + after
  }

  /** The page's form state. */
  class ProductsPage {
    var showForm: bool
    var editing: Option<ProductId>
    var imageFile: Option<FileInfo>
    var uploading: bool
    var form: ProductForm

    constructor ()
      ensures !showForm && editing.None? && imageFile.None? && !uploading && form == EmptyProductForm
    {
      showForm, editing, imageFile, uploading, form := false, None, None, false, EmptyProductForm;
    }

    /** "Add Product" only shows the form; an earlier edit and its values stay. */
    method ShowForm()
      modifies this`showForm
      ensures showForm
    {
      showForm := true;
    }

    /** "Back to Products": hide the form, drop the edit and reset the form. */
    method Back()
      modifies this`showForm, this`editing, this`form
      ensures !showForm && editing.None? && form == EmptyProductForm
    {
      showForm, editing, form := false, None, EmptyProductForm;
    }

    /** "Cancel" only hides the form. */
    method Cancel()
      requires !uploading
      modifies this`showForm
      ensures !showForm
    {
      showForm := false;
    }

    method SetForm(f: ProductForm)
      modifies this`form
      ensures form == f
    {
      form := f;
    }

    /** The pencil button of product `id`. */
    method HandleEdit(id: ProductId, p: Product, showReal: real -> string, showInt: int -> string)
      modifies this`editing, this`form, this`showForm
      ensures editing == Some(id) && form == EditForm(p, showReal, showInt) && showForm
    {
      editing := Some(id);
      form := EditForm(p, showReal, showInt);
      showForm := true;
    }

    /**
     * Dropping or choosing a file: remember it and upload it. On success the
     * form's image URL becomes the public URL of the new path; any failure
     * leaves the form alone. `uploading` is cleared on every exit.
     */
    method SelectFile(db: Db, file: FileInfo, user: Option<UserId>, now: nat, token: string,
                      storageError: Option<string>, publicUrl: string -> string)
      returns (toast: Result<string, string>)
      requires !uploading
      modifies this`imageFile, this`uploading, this`form
      ensures imageFile == Some(file) && !uploading
      ensures var rejected := UploadRejection(file, user, db.roles);
        && (rejected.Some? ==> toast == Err(rejected.value))
        && (rejected.None? && storageError.Some? ==> toast == Err(UploadErrorMessage(storageError.value)))
        && (toast.Ok? <==> rejected.None? && storageError.None?)
      ensures toast.Ok? ==>
        toast.value == "Image uploaded successfully"
        && form == old(form).(imageUrl := publicUrl(StoragePath(now, token, file.name)))
      ensures toast.Err? ==> form == old(form)
    {
      imageFile := Some(file);
      uploading := true;
      var rejected := UploadRejection(file, user, db.roles);
      if rejected.Some? {
        toast := Err(rejected.value);
      } else if storageError.Some? {
        toast := Err(UploadErrorMessage(storageError.value));
      } else {
        form := form.(imageUrl := publicUrl(StoragePath(now, token, file.name)));
        toast := Ok("Image uploaded successfully");
      }
      uploading := false;
    }

    /**
     * Create/Update (disabled while uploading): the required fields first, then
     * an update of the edited row (nothing when the id is gone) or an insert.
     * A price or stock that does not parse is refused by the table. After a
     * success the form closes and resets.
     */
    method Save(db: Db, parseFloat: string -> Option<real>, parseInt: string -> Option<int>,
                freshId: ProductId, fail: Option<DbError>) returns (toast: Result<string, string>)
      requires !uploading
      requires editing.None? ==> freshId !in db.products
      modifies this`showForm, this`editing, this`form, this`imageFile, db`products
      ensures !RequiredFilled(old(form)) ==> toast == Err("Please fill in all required fields")
      ensures RequiredFilled(old(form)) && fail.Some? ==> toast == Err(ErrorText(fail.value, "Failed to save product"))
      ensures RequiredFilled(old(form)) && fail.None? && parseFloat(old(form).price).None?
              ==> toast == Err(NotNullViolation("price_per_litre"))
      ensures RequiredFilled(old(form)) && fail.None? && parseFloat(old(form).price).Some? && parseInt(old(form).stock).None?
              ==> toast == Err(NotNullViolation("stock_quantity"))
      ensures toast.Ok? <==> RequiredFilled(old(form)) && fail.None?
                             && parseFloat(old(form).price).Some? && parseInt(old(form).stock).Some?
      ensures toast.Err? ==> db.products == old(db.products) && form == old(form) && editing == old(editing)
                             && showForm == old(showForm) && imageFile == old(imageFile)
      ensures toast.Ok? ==>
        var row := FormRow(old(form), parseFloat(old(form).price).value, parseInt(old(form).stock).value, parseFloat);
        && toast.value == (if old(editing).Some? then "Product updated successfully" else "Product created successfully")
        && db.products == (if old(editing).None? then old(db.products)[freshId := row]
                           else if old(editing).value in old(db.products) then old(db.products)[old(editing).value := row]
                           else old(db.products))
        && !showForm && editing.None? && form == EmptyProductForm && imageFile.None?
    {
      if !RequiredFilled(form) {
        return Err("Please fill in all required fields");
      }
      var price, stock := parseFloat(form.price), parseInt(form.stock);
      if fail.Some? {
        return Err(ErrorText(fail.value, "Failed to save product"));
      }
      if price.None? || stock.None? {
        return Err(NotNullViolation(if price.None? then "price_per_litre" else "stock_quantity"));
      }
      var row := FormRow(form, price.value, stock.value, parseFloat);
      if editing.Some? {
        if editing.value in db.products {
          db.products := db.products[editing.value := row];
        }
        toast := Ok("Product updated successfully");
      } else {
        db.products := db.products[freshId := row];
        toast := Ok("Product created successfully");
      }
      showForm, editing, form, imageFile := false, None, EmptyProductForm, None;
    }

    /** The trash button, after the confirmation. */
    method Delete(db: Db, id: ProductId, fail: Option<DbError>) returns (toast: Result<string, string>)
      modifies db`products
      ensures toast.Ok? <==> fail.None?
      ensures toast.Ok? ==> toast.value == "Product deleted successfully"
      ensures toast.Err? ==> toast.error == ErrorText(fail.value, "Failed to delete product")
      ensures db.products == if fail.None? then old(db.products) - {id} else old(db.products)
    {
      if fail.Some? {
        return Err(ErrorText(fail.value, "Failed to delete product"));
      }
      db.products := db.products - {id};
      toast := Ok("Product deleted successfully");
    }
  }
}
