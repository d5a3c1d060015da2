/**
 * The product screen: inserts a new product, or shows a stored one and lets
 * the user edit it, adjust its quantity, call its supplier or delete it.
 * The screen's text fields are the `Form`; the screen's own state (whether
 * it is in display mode, which product it shows, whether there are unsaved
 * edits) is the class `Editor`.
 */
module InsertProductActivity {
  import opened Wrappers
  import opened JavaLang
  import opened ProductContract
  import opened ProductDbHelper
  import opened ProductProvider
  import opened QuantityRules
  import InventoryActivity

  /** The prefix of the dial URI. */
  const Telephone := "tel:"

  /** A numeric text field once trimmed: empty, or the number it reads as. */
  datatype NumberInput = Blank | Number(n: int32)

  /** The five fields of the screen, as typed. */
  datatype Form = Form(name: string, price: NumberInput, quantity: NumberInput, supplier: string, phone: string)

  datatype FormField = NameField | PriceField | QuantityField | SupplierField | PhoneField

  /** The order in which the save button checks the fields. */
  function FieldRank(f: FormField): nat
  {
    match f
    case NameField => 0
    case PriceField => 1
    case QuantityField => 2
    case SupplierField => 3
    case PhoneField => 4
  }

  /** The fields as the save button reads them: each text trimmed. */
  function ReadFields(form: Form): (fields: Form)
    ensures fields.name == Trim(form.name) && fields.supplier == Trim(form.supplier) && fields.phone == Trim(form.phone)
    ensures fields.price == form.price && fields.quantity == form.quantity
  {
    form.(name := Trim(form.name), supplier := Trim(form.supplier), phone := Trim(form.phone))
  }

  /** A field the save button accepts, once read: text that is not empty, or a number. */
  predicate Filled(f: FormField, fields: Form)
  {
    match f
    case NameField => fields.name != []
    case PriceField => fields.price.Number?
    case QuantityField => fields.quantity.Number?
    case SupplierField => fields.supplier != []
    case PhoneField => fields.phone != []
  }

  /** The product complete fields describe. */
  function FormProduct(fields: Form): (p: Product)
    requires fields.price.Number? && fields.quantity.Number?
    ensures p.name == fields.name && p.supplier == fields.supplier && p.phone == fields.phone
    ensures p.price == fields.price.n && p.quantity == fields.quantity.n
  {
    Product(fields.name, fields.price.n, fields.quantity.n, fields.supplier, fields.phone)
  }

  /**
   * The save button's checks on the fields it read: the first field, in
   * `FieldRank` order, that is empty, or else the five values it writes.
   */
  function CheckForm(fields: Form): (r: Result<ContentValues, FormField>)
    ensures r.Ok? ==> forall f :: Filled(f, fields)
    ensures r.Err? ==> !Filled(r.error, fields) && forall f :: FieldRank(f) < FieldRank(r.error) ==> Filled(f, fields)
    ensures r.Ok? ==> fields.price.Number? && fields.quantity.Number? && r.value == AllColumns(FormProduct(fields))
  {
    if fields.name == [] then Err(NameField)
    else if fields.price.Blank? then Err(PriceField)
    else if fields.quantity.Blank? then Err(QuantityField)
    else if fields.supplier == [] then Err(SupplierField)
    else if fields.phone == [] then Err(PhoneField)
    else Ok(AllColumns(FormProduct(fields)))
  }

  /** A field as typed that the save button treats as empty: a text of blanks only, or a blank number. */
  predicate BlankField(f: FormField, form: Form)
  {
    match f
    case NameField => forall i :: 0 <= i < |form.name| ==> IsTrimmed(form.name[i])
    case PriceField => form.price.Blank?
    case QuantityField => form.quantity.Blank?
    case SupplierField => forall i :: 0 <= i < |form.supplier| ==> IsTrimmed(form.supplier[i])
    case PhoneField => forall i :: 0 <= i < |form.phone| ==> IsTrimmed(form.phone[i])
  }

  /** A field the button reads is filled exactly when it was not typed blank. */
  lemma FilledUnlessBlank(f: FormField, form: Form)
    ensures Filled(f, ReadFields(form)) <==> !BlankField(f, form)
  {
    match f
    case NameField => TrimEmptyIff(form.name);
    case SupplierField => TrimEmptyIff(form.supplier);
    case PhoneField => TrimEmptyIff(form.phone);
    case _ =>
  }

  /**
   * The save button stops at a field exactly when that field was typed
   * blank (only blanks, for a text) and every field it checks earlier was not.
   */
  lemma BlankFieldRefused(form: Form, f: FormField)
    ensures CheckForm(ReadFields(form)) == Err(f) <==>
      BlankField(f, form) && forall g :: FieldRank(g) < FieldRank(f) ==> !BlankField(g, form)
  {
    forall g ensures Filled(g, ReadFields(form)) <==> !BlankField(g, form) {
      FilledUnlessBlank(g, form);
    }
  }

  /**
   * Fields the screen accepts hold everything the provider's insert needs:
   * the provider refuses them only for a negative number, and then names
   * the first negative field.
   */
  lemma FormCoversInsertChecks(fields: Form)
    requires CheckForm(fields).Ok?
    ensures var p := FormProduct(fields);
      CheckInsert(CheckForm(fields).value) ==
        if p.price < 0 then Some(PricePositive)
        else if p.quantity < 0 then Some(QuantityPositive)
        else None
  {
  }

  /**
   * The screen is stricter than the provider about the quantity: a blank
   * quantity stops the save, although the provider would store the same
   * product without one, with quantity 0.
   */
  lemma QuantityRequiredOnlyByScreen(fields: Form)
    requires fields.price.Number? && fields.price.n >= 0 && fields.quantity.Blank?
    requires Filled(NameField, fields) && Filled(SupplierField, fields) && Filled(PhoneField, fields)
    ensures CheckForm(fields) == Err(QuantityField)
    ensures var v := ContentValues(Put(fields.name), Put(fields.price.n), Absent, Put(fields.supplier), Put(fields.phone));
      && CheckInsert(v).None?
      && InsertedRow(v, AsText) == Some(Product(fields.name, fields.price.n, 0, fields.supplier, fields.phone))
  {
  }

  /** What the order button does. */
  datatype OrderOutcome =
    | CannotCallDummySupplier
    | Dial(uri: string)
    | NoPhoneApp

  /**
   * The order button: a dummy product's placeholder number (in any letter
   * case) is refused; otherwise the trimmed number is dialled when the
   * device has a phone app.
   */
  function OrderAction(phoneText: string, hasPhoneApp: bool): (r: OrderOutcome)
    ensures r.CannotCallDummySupplier? <==> EqualsIgnoreCase(Trim(phoneText), InventoryActivity.ProductSupplierPhoneNumber)
    ensures r.Dial? <==> !r.CannotCallDummySupplier? && hasPhoneApp
    ensures r.Dial? ==> r.uri == Telephone + Trim(phoneText)
  {
    var number := Trim(phoneText);
    if EqualsIgnoreCase(number, InventoryActivity.ProductSupplierPhoneNumber) then CannotCallDummySupplier
    else if hasPhoneApp then Dial(Telephone + number)
    else NoPhoneApp
  }

  /** The supplier of a generated dummy product can never be dialled. */
  lemma DummySupplierNotDialled(p: Product, i: int, hasPhoneApp: bool)
    requires InventoryActivity.IsDummyAt(p, i)
    ensures OrderAction(p.phone, hasPhoneApp) == CannotCallDummySupplier
  {
    TrimUnchanged(p.phone);
  }

  /** What a button of the screen ends in. */
  datatype Outcome =
    | MissingField(field: FormField)
    | Inserted(uri: Uri)
    | InsertFailed
      /** An update or delete; 0 means the product was not found. */
    | Written(count: int)
      /** The decrease button at quantity 0. */
    | BelowZero
      /** The provider threw, and the exception ends the app. */
    | Threw(error: ProviderError)
      /** A write on a null product URI, which ends the app as well. */
    | NullUri

  /**
   * Where the back and up buttons lead: the back button finishes the
   * screen, the up button returns to the product list, and either one
   * first asks before discarding unsaved edits.
   */
  datatype Navigation = Finish | UpToList | ConfirmDiscard

  /** The table after one product's row is overwritten with `v`; no other row changes. */
  function UpdatedOne(rows: map<int, Product>, id: int, v: ContentValues): (r: map<int, Product>)
    ensures r.Keys == rows.Keys
    ensures forall k :: k in rows && k != id ==> r[k] == rows[k]
    ensures id in rows ==> r[id] == Overwrite(rows[id], v, AsText)
  {
    if id in rows then rows[id := Overwrite(rows[id], v, AsText)] else rows
  }

  class Editor {
    /** True in display mode (the edit menu is shown), false while inserting or editing. */
    var shouldShowMenu: bool
    /** The product shown, None while inserting a new one. */
    var currentProductUri: Option<Uri>
    /** Whether a field was touched since the last save. */
    var productHasChanged: bool

    /** Launched with a product's URI the screen displays it; without one it inserts. */
    constructor (launchUri: Option<Uri>)
      ensures currentProductUri == launchUri
      ensures shouldShowMenu == launchUri.Some?
      ensures !productHasChanged
    {
      currentProductUri := launchUri;
      shouldShowMenu := launchUri.Some?;
      productHasChanged := false;
    }

    /** A field was touched. */
    method Touch()
      modifies this
      ensures productHasChanged
      ensures shouldShowMenu == old(shouldShowMenu) && currentProductUri == old(currentProductUri)
    {
      productHasChanged := true;
    }

    /** The edit menu item: the fields become editable. */
    method Edit()
      modifies this
      ensures !shouldShowMenu
      ensures productHasChanged == old(productHasChanged) && currentProductUri == old(currentProductUri)
    {
      shouldShowMenu := false;
    }

    /** The saved state comes back after the screen is recreated. */
    method Restore(showMenu: bool, uri: Option<Uri>, changed: bool)
      modifies this
      ensures shouldShowMenu == showMenu && currentProductUri == uri && productHasChanged == changed
    {
      shouldShowMenu := showMenu;
      currentProductUri := uri;
      productHasChanged := changed;
    }

    /** The back button: finishes the screen at once unless there are unsaved edits. */
    method OnBackPressed() returns (nav: Navigation)
      ensures nav == ConfirmDiscard <==> productHasChanged
      ensures nav != UpToList
    {
      if !productHasChanged {
        return Finish;
      }
      nav := ConfirmDiscard;
    }

    /** The up button of the action bar: returns to the list at once unless there are unsaved edits. */
    method NavigateUp() returns (nav: Navigation)
      ensures nav == ConfirmDiscard <==> productHasChanged
      ensures nav != Finish
    {
      if !productHasChanged {
        return UpToList;
      }
      nav := ConfirmDiscard;
    }

    /**
     * An update of the shown product, as the save, increase and decrease
     * buttons issue it: no selection, the provider throws on a refused
     * value, and a product URI updates that one row if it is still stored.
     */
    method UpdateCurrent(provider: Provider, values: ContentValues) returns (outcome: Outcome)
      requires provider.Valid()
      requires currentProductUri.Some? && Size(values) > 0 && !HasNull(values)
      modifies provider
      ensures provider.Valid()
      ensures outcome.Written? || outcome.Threw?
      ensures outcome.Threw? ==> unchanged(provider)
      ensures outcome.Written? ==>
        provider.rows == ApplyUpdate(old(provider.rows), Target(currentProductUri.value, AllRows), values)
      ensures currentProductUri.value.OtherUri? ==> outcome == Threw(CannotUpdate(currentProductUri.value))
      ensures !currentProductUri.value.OtherUri? && CheckUpdate(values).Some? ==>
        outcome == Threw(Invalid(CheckUpdate(values).value))
      ensures currentProductUri.value.ProductUri? && CheckUpdate(values).None? ==>
        var id := currentProductUri.value.id;
        && outcome == Written(if id in old(provider.rows) then 1 else 0)
        && provider.rows == UpdatedOne(old(provider.rows), id, values)
    {
      var uri := currentProductUri.value;
      if uri.ProductUri? {
        MatchingOne(provider.rows, uri.id);
        ApplyUpdateOne(provider.rows, uri.id, values);
      }
      var r := provider.Update(uri, values, AllRows);
      outcome := if r.Ok? then Written(r.value) else Threw(r.error);
    }

    /**
     * The insert the save button issues for a new product: the provider
     * throws on a negative number; otherwise the row is stored unless the
     * storage fails, and the screen then shows the new product.
     */
    method InsertNew(provider: Provider, p: Product, storageFails: bool) returns (outcome: Outcome)
      requires provider.Valid() && currentProductUri.None?
      modifies this, provider
      ensures provider.Valid()
      ensures shouldShowMenu == old(shouldShowMenu) && productHasChanged == old(productHasChanged)
      ensures outcome.Threw? || outcome == InsertFailed ==> unchanged(this) && unchanged(provider)
      ensures
        if p.price < 0 then outcome == Threw(Invalid(PricePositive))
        else if p.quantity < 0 then outcome == Threw(Invalid(QuantityPositive))
        else if storageFails then outcome == InsertFailed
        else
          && outcome == Inserted(ProductUri(old(provider.nextId)))
          && currentProductUri == Some(ProductUri(old(provider.nextId)))
          && old(provider.nextId) !in old(provider.rows)
          && provider.rows == old(provider.rows)[old(provider.nextId) := p]
    {
      AllColumnsValid(p);
      var r := provider.Insert(ProductsUri, AllColumns(p), storageFails);
      if r.Err? {
        return Threw(r.error);
      }
      if r.value.None? {
        outcome := InsertFailed;
      } else {
        currentProductUri := r.value;
        outcome := Inserted(r.value.value);
      }
    }

    /**
     * The save button: stops at the first empty field; otherwise inserts a
     * new product or updates the shown one, and then, whether or not the
     * write changed anything, the screen counts as saved and returns to
     * display mode. A provider exception leaves everything as it was.
     * `fields` are the screen's fields as the button reads them, `ReadFields`.
     */
    method Save(provider: Provider, fields: Form, storageFails: bool) returns (outcome: Outcome)
      requires provider.Valid()
      modifies this, provider
      ensures provider.Valid()
      ensures outcome.MissingField? <==> CheckForm(fields).Err?
      ensures CheckForm(fields).Err? ==> outcome == MissingField(CheckForm(fields).error)
      ensures outcome.MissingField? || outcome.Threw? ==> unchanged(this) && unchanged(provider)
      ensures !outcome.MissingField? && !outcome.Threw? ==> !productHasChanged && shouldShowMenu
      ensures CheckForm(fields).Ok? && old(currentProductUri).None? ==>
        var p := FormProduct(fields);
        if p.price < 0 then outcome == Threw(Invalid(PricePositive))
        else if p.quantity < 0 then outcome == Threw(Invalid(QuantityPositive))
        else if storageFails then outcome == InsertFailed && currentProductUri.None? && unchanged(provider)
        else
          && outcome == Inserted(ProductUri(old(provider.nextId)))
          && currentProductUri == Some(ProductUri(old(provider.nextId)))
          && old(provider.nextId) !in old(provider.rows)
          && provider.rows == old(provider.rows)[old(provider.nextId) := p]
      ensures CheckForm(fields).Ok? && old(currentProductUri).Some? ==>
        var p := FormProduct(fields);
        var uri := old(currentProductUri).value;
        && currentProductUri == old(currentProductUri)
        && (outcome.Written? || outcome.Threw?)
        && (outcome.Written? ==> provider.rows == ApplyUpdate(old(provider.rows), Target(uri, AllRows), AllColumns(p)))
        && (uri.ProductUri? && p.price >= 0 && p.quantity >= 0 ==>
              && outcome == Written(if uri.id in old(provider.rows) then 1 else 0)
              && provider.rows == UpdatedOne(old(provider.rows), uri.id, AllColumns(p)))
    {
      var check := CheckForm(fields);
      if check.Err? {
        return MissingField(check.error);
      }
      var values := check.value;
      if currentProductUri.None? {
        outcome := InsertNew(provider, FormProduct(fields), storageFails);
        if outcome.Threw? {
          return;
        }
      } else {
        AllColumnsValid(FormProduct(fields));
        if CheckInsert(values).None? {
          InsertStricterThanUpdate(values);
        }
        outcome := UpdateCurrent(provider, values);
        if outcome.Threw? {
          return;
        }
      }
      productHasChanged := false;
      shouldShowMenu := true;
    }

    /**
     * The increase button: writes the shown quantity plus one. No ceiling is
     * checked, so the largest int wraps to a negative number, which the
     * provider refuses with an exception.
     */
    method Increase(provider: Provider, shownQuantity: int32) returns (outcome: Outcome)
      requires provider.Valid()
      modifies provider
      ensures provider.Valid()
      ensures outcome.Threw? || outcome == NullUri ==> unchanged(provider)
      ensures currentProductUri.None? ==> outcome == NullUri
      ensures currentProductUri.Some? && currentProductUri.value.ProductUri? ==>
        var id := currentProductUri.value.id;
        if Increased(shownQuantity) < 0 then outcome == Threw(Invalid(QuantityPositive))
        else
          && outcome == Written(if id in old(provider.rows) then 1 else 0)
          && provider.rows == UpdatedOne(old(provider.rows), id, QuantityOnly(Increased(shownQuantity)))
      ensures shownQuantity == MaxInt32 && currentProductUri.Some? && !currentProductUri.value.OtherUri? ==>
        outcome == Threw(Invalid(QuantityPositive))
    {
      if currentProductUri.None? {
        return NullUri;
      }
      outcome := UpdateCurrent(provider, QuantityOnly(Increased(shownQuantity)));
    }

    /**
     * The decrease button: refuses to go below 0 without writing; otherwise
     * writes the shown quantity minus one, which the provider always accepts.
     */
    method Decrease(provider: Provider, shownQuantity: int32) returns (outcome: Outcome)
      requires provider.Valid()
      modifies provider
      ensures provider.Valid()
      ensures outcome.Threw? || outcome == NullUri || outcome == BelowZero ==> unchanged(provider)
      ensures shownQuantity <= 0 ==> outcome == BelowZero
      ensures shownQuantity > 0 && currentProductUri.None? ==> outcome == NullUri
      ensures shownQuantity > 0 && currentProductUri.Some? && currentProductUri.value.ProductUri? ==>
        var id := currentProductUri.value.id;
        && outcome == Written(if id in old(provider.rows) then 1 else 0)
        && provider.rows == UpdatedOne(old(provider.rows), id, QuantityOnly(shownQuantity - 1))
    {
      var q := Decreased(shownQuantity);
      if q.None? {
        return BelowZero;
      }
      if currentProductUri.None? {
        return NullUri;
      }
      DecreasedIsValid(shownQuantity);
      outcome := UpdateCurrent(provider, QuantityOnly(q.value));
    }

    /** The confirmed delete: removes the shown product, then the screen closes. */
    method DeleteProduct(provider: Provider) returns (outcome: Outcome)
      requires provider.Valid()
      modifies provider
      ensures provider.Valid()
      ensures outcome.Threw? || outcome == NullUri ==> unchanged(provider)
      ensures currentProductUri.None? ==> outcome == NullUri
      ensures currentProductUri.Some? && currentProductUri.value.ProductUri? ==>
        var id := currentProductUri.value.id;
        && outcome == Written(if id in old(provider.rows) then 1 else 0)
        && provider.rows == old(provider.rows) - {id}
    {
      if currentProductUri.None? {
        return NullUri;
      }
      var uri := currentProductUri.value;
      if uri.ProductUri? {
        MatchingOne(provider.rows, uri.id);
      }
      var r := provider.Delete(uri, AllRows);
      outcome := if r.Ok? then Written(r.value) else Threw(r.error);
    }
  }
}
