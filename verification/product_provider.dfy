/**
 * The content provider: routes a content URI to one operation on the
 * products table, validates the values of every write before touching the
 * table, and signals a change to observers only when rows were affected.
 */
module ProductProvider {
  import opened Wrappers
  import opened JavaLang
  import opened ProductContract
  import opened ProductDbHelper

  /** The provider's field checks, named after the message each one raises. */
  datatype Rule =
    | NameRequired
    | PriceNotNull
    | PricePositive
    | QuantityPositive
    | SupplierRequired
    | PhoneRequired

  /** The position of a check in the order the provider runs them. */
  function Rank(rule: Rule): nat
  {
    match rule
    case NameRequired => 0
    case PriceNotNull => 1
    case PricePositive => 2
    case QuantityPositive => 3
    case SupplierRequired => 4
    case PhoneRequired => 5
  }

  /** The exceptions the provider throws. */
  datatype ProviderError =
    | CannotQuery(uri: Uri)
    | UnknownUri(uri: Uri)
    | CannotInsert(uri: Uri)
    | CannotDelete(uri: Uri)
    | CannotUpdate(uri: Uri)
    | Invalid(rule: Rule)
      /** SQLite refuses an UPDATE that writes null into a NOT NULL column. */
    | NotNullConstraintFailed

  /**
   * When a check passes for an insert. `getAsString`/`getAsInteger` return
   * null for a missing key and for a null value alike; a missing or null
   * quantity is not checked.
   */
  predicate InsertRuleHolds(rule: Rule, v: ContentValues)
  {
    match rule
    case NameRequired => v.name.Put?
    case PriceNotNull => v.price.Put?
    case PricePositive => !(v.price.Put? && v.price.value < 0)
    case QuantityPositive => !(v.quantity.Put? && v.quantity.value < 0)
    case SupplierRequired => v.supplier.Put?
    case PhoneRequired => v.phone.Put?
  }

  /**
   * When a check passes for an update: only keys that are present are
   * checked, and a present null quantity is let through.
   */
  predicate UpdateRuleHolds(rule: Rule, v: ContentValues)
  {
    match rule
    case NameRequired => !v.name.Null?
    case PriceNotNull => !v.price.Null?
    case PricePositive => !(v.price.Put? && v.price.value < 0)
    case QuantityPositive => !(v.quantity.Put? && v.quantity.value < 0)
    case SupplierRequired => !v.supplier.Null?
    case PhoneRequired => !v.phone.Null?
  }

  /** `insertProduct`'s checks: None when all pass, else the first one, in `Rank` order, that fails. */
  function CheckInsert(v: ContentValues): (r: Option<Rule>)
    ensures r.None? ==> forall rule :: InsertRuleHolds(rule, v)
    ensures r.Some? ==> !InsertRuleHolds(r.value, v)
    ensures r.Some? ==> forall rule :: Rank(rule) < Rank(r.value) ==> InsertRuleHolds(rule, v)
  {
    if !v.name.Put? then Some(NameRequired)
    else if !v.price.Put? then Some(PriceNotNull)
    else if v.price.value < 0 then Some(PricePositive)
    else if v.quantity.Put? && v.quantity.value < 0 then Some(QuantityPositive)
    else if !v.supplier.Put? then Some(SupplierRequired)
    else if !v.phone.Put? then Some(PhoneRequired)
    else None
  }

  /** `updateProduct`'s checks: None when all pass, else the first one, in `Rank` order, that fails. */
  function CheckUpdate(v: ContentValues): (r: Option<Rule>)
    ensures r.None? ==> forall rule :: UpdateRuleHolds(rule, v)
    ensures r.Some? ==> !UpdateRuleHolds(r.value, v)
    ensures r.Some? ==> forall rule :: Rank(rule) < Rank(r.value) ==> UpdateRuleHolds(rule, v)
  {
    if v.name.ContainsKey() && !v.name.Put? then Some(NameRequired)
    else if v.price.ContainsKey() && !v.price.Put? then Some(PriceNotNull)
    else if v.price.ContainsKey() && v.price.value < 0 then Some(PricePositive)
    else if v.quantity.ContainsKey() && v.quantity.Put? && v.quantity.value < 0 then Some(QuantityPositive)
    else if v.supplier.ContainsKey() && !v.supplier.Put? then Some(SupplierRequired)
    else if v.phone.ContainsKey() && !v.phone.Put? then Some(PhoneRequired)
    else None
  }

  /** Values an insert accepts, an update accepts too. */
  lemma InsertStricterThanUpdate(v: ContentValues)
    requires CheckInsert(v).None?
    ensures CheckUpdate(v).None?
  {
    forall rule ensures UpdateRuleHolds(rule, v) {
      assert InsertRuleHolds(rule, v);
    }
  }

  /** For an insert a missing quantity key and a null quantity are the same, and neither is refused. */
  lemma InsertQuantityAbsentOrNull(v: ContentValues)
    ensures CheckInsert(v.(quantity := Absent)) == CheckInsert(v.(quantity := Null))
    ensures CheckInsert(v.(quantity := Absent)) != Some(QuantityPositive)
  {
  }

  /** An empty value set passes every update check. */
  lemma EmptyUpdateIsValid()
    ensures CheckUpdate(EmptyValues).None?
  {
  }

  /**
   * A product's full value set passes the insert checks exactly when its
   * price and quantity are not negative, and a table with TEXT supplier and
   * number columns stores it as given.
   */
  lemma AllColumnsValid(p: Product)
    ensures CheckInsert(AllColumns(p)).None? <==> p.price >= 0 && p.quantity >= 0
    ensures InsertedRow(AllColumns(p), AsText) == Some(p)
  {
    var v := AllColumns(p);
    if p.price < 0 {
      assert !InsertRuleHolds(PricePositive, v);
    }
    if p.quantity < 0 {
      assert !InsertRuleHolds(QuantityPositive, v);
    }
  }

  // ------------------------------------------------------------- dispatch

  /** `getType`: the MIME type of a URI. */
  function GetType(uri: Uri): (r: Result<string, ProviderError>)
    ensures r.Err? <==> uri.OtherUri?
    ensures r.Err? ==> r.error == UnknownUri(uri)
    ensures r.Ok? ==> (r.value == ContentItemType <==> uri.ProductUri?)
    ensures r.Ok? ==> (r.value == ContentListType <==> uri.ProductsUri?)
  {
    ListAndItemTypesDiffer();
    match uri
    case ProductsUri => Ok(ContentListType)
    case ProductUri(_) => Ok(ContentItemType)
    case OtherUri => Err(UnknownUri(uri))
  }

  lemma ListAndItemTypesDiffer()
    ensures ContentListType != ContentItemType
  {
    assert ContentListType[19] == 'd';
    assert ContentItemType[19] == 'i';
  }

  /**
   * The rows an operation addresses: the caller's selection for the products
   * collection, "_id = ?" for a single product URI.
   */
  datatype Selection = AllRows | IdEquals(id: int)

  predicate Selects(sel: Selection, id: int)
  {
    sel.AllRows? || sel.id == id
  }

  /** The selection an operation on `uri` runs with. */
  function Target(uri: Uri, sel: Selection): Selection
  {
    if uri.ProductUri? then IdEquals(uri.id) else sel
  }

  /** The ids of the stored rows a selection picks out. */
  function Matching(rows: map<int, Product>, sel: Selection): (r: set<int>)
    ensures r <= rows.Keys
    ensures forall id :: id in rows && Selects(sel, id) ==> id in r
  {
    set id | id in rows && Selects(sel, id)
  }

  /** Without a selection every row matches. */
  lemma MatchingAll(rows: map<int, Product>)
    ensures Matching(rows, AllRows) == rows.Keys
    ensures |Matching(rows, AllRows)| == |rows|
  {
  }

  /** A single-product selection matches that row if it exists, and nothing else. */
  lemma MatchingOne(rows: map<int, Product>, k: int)
    ensures Matching(rows, IdEquals(k)) == if k in rows then {k} else {}
    ensures |Matching(rows, IdEquals(k))| == if k in rows then 1 else 0
  {
    if k in rows {
      assert Matching(rows, IdEquals(k)) == {k};
    } else {
      assert Matching(rows, IdEquals(k)) == {};
    }
  }

  /**
   * The table after an UPDATE that NOT NULL lets through: matching rows are
   * overwritten, the others kept, and no row is added or removed.
   */
  function ApplyUpdate(rows: map<int, Product>, sel: Selection, v: ContentValues): (r: map<int, Product>)
    ensures r.Keys == rows.Keys
    ensures forall id :: id in rows && !Selects(sel, id) ==> r[id] == rows[id]
    ensures forall id :: id in rows && Selects(sel, id) ==> r[id] == Overwrite(rows[id], v, AsText)
  {
    map id | id in rows :: if Selects(sel, id) then Overwrite(rows[id], v, AsText) else rows[id]
  }

  /** An UPDATE of one product overwrites that row, if stored, and touches no other. */
  lemma ApplyUpdateOne(rows: map<int, Product>, k: int, v: ContentValues)
    ensures ApplyUpdate(rows, IdEquals(k), v) == if k in rows then rows[k := Overwrite(rows[k], v, AsText)] else rows
  {
    var r := ApplyUpdate(rows, IdEquals(k), v);
    if k in rows {
      assert r == rows[k := Overwrite(rows[k], v, AsText)];
    } else {
      assert r == rows;
    }
  }

  /** Running the same UPDATE twice leaves the table as running it once. */
  lemma ApplyUpdateIdempotent(rows: map<int, Product>, sel: Selection, v: ContentValues)
    ensures ApplyUpdate(ApplyUpdate(rows, sel, v), sel, v) == ApplyUpdate(rows, sel, v)
  {
    var once := ApplyUpdate(rows, sel, v);
    var twice := ApplyUpdate(once, sel, v);
    forall id | id in rows ensures twice[id] == once[id] {
      if Selects(sel, id) {
        OverwriteIdempotent(rows[id], v, AsText);
      }
    }
  }

  /** Deleting one product a second time deletes nothing. */
  lemma DeleteTwice(rows: map<int, Product>, k: int)
    ensures Matching(rows - Matching(rows, IdEquals(k)), IdEquals(k)) == {}
  {
    MatchingOne(rows, k);
  }

  /**
   * The rows a query returns, scanning ids lo up to hi: exactly the stored
   * rows in that range the selection picks out, in increasing id order.
   */
  function Scan(rows: map<int, Product>, sel: Selection, lo: int, hi: int): (r: seq<Row>)
    decreases hi - lo
    ensures forall x :: x in r <==> lo <= x.id < hi && x.id in rows && rows[x.id] == x.product && Selects(sel, x.id)
    ensures forall i, j :: 0 <= i < j < |r| ==> r[i].id < r[j].id
  {
    if lo >= hi then []
    else if lo in rows && Selects(sel, lo) then [Row(lo, rows[lo])] + Scan(rows, sel, lo + 1, hi)
    else Scan(rows, sel, lo + 1, hi)
  }

  /** A query for one product returns that row alone, or nothing when it is not stored. */
  lemma {:induction false} ScanOne(rows: map<int, Product>, k: int, lo: int, hi: int)
    decreases hi - lo
    ensures Scan(rows, IdEquals(k), lo, hi) == if k in rows && lo <= k < hi then [Row(k, rows[k])] else []
  {
    if lo < hi {
      ScanOne(rows, k, lo + 1, hi);
    }
  }

  /** A query without a selection returns one row per stored id in the scanned range. */
  lemma {:induction false} ScanCount(rows: map<int, Product>, lo: int, hi: int)
    decreases hi - lo
    ensures |Scan(rows, AllRows, lo, hi)| == |set id | id in rows && lo <= id < hi|
  {
    var s := set id | id in rows && lo <= id < hi;
    if lo >= hi {
      assert s == {};
    } else {
      ScanCount(rows, lo + 1, hi);
      var t := set id | id in rows && lo + 1 <= id < hi;
      if lo in rows {
        assert s == t + {lo};
      } else {
        assert s == t;
      }
    }
  }

  /** The last row of a scan carries the largest id among the rows it returns. */
  lemma ScanLastIsLargest(rows: map<int, Product>, sel: Selection, lo: int, hi: int)
    requires Scan(rows, sel, lo, hi) != []
    ensures var r := Scan(rows, sel, lo, hi);
      forall id :: lo <= id < hi && id in rows && Selects(sel, id) ==> id <= r[|r| - 1].id
  {
    var r := Scan(rows, sel, lo, hi);
    forall id | lo <= id < hi && id in rows && Selects(sel, id) ensures id <= r[|r| - 1].id {
      assert Row(id, rows[id]) in r;
    }
  }

  /**
   * A query of the whole collection, over a table whose ids all lie below
   * `hi`, returns every stored product once, the largest id last.
   */
  lemma ScanAll(rows: map<int, Product>, hi: int)
    requires forall id :: id in rows ==> 1 <= id < hi
    ensures var r := Scan(rows, AllRows, 1, hi);
      && |r| == |rows|
      && (r != [] ==> r[|r| - 1].id in rows && forall id :: id in rows ==> id <= r[|r| - 1].id)
  {
    var r := Scan(rows, AllRows, 1, hi);
    ScanCount(rows, 1, hi);
    assert (set id | id in rows && 1 <= id < hi) == rows.Keys;
    if r != [] {
      ScanLastIsLargest(rows, AllRows, 1, hi);
      assert r[|r| - 1] in r;
    }
  }

  // ---------------------------------------------------------------- table

  /**
   * The provider over its one table. `rows` maps `_id` to the stored product;
   * `nextId` is the AUTOINCREMENT counter (one more than the largest id ever
   * issued), `issued` the ids handed out so far, and `notified` the log of
   * URIs passed to `notifyChange`.
   */
  class Provider {
    var rows: map<int, Product>
    var nextId: int
    ghost var issued: set<int>
    ghost var notified: seq<Uri>

    ghost predicate Valid()
      reads this
    {
      && 1 <= nextId
      && rows.Keys <= issued
      && (forall id :: id in issued ==> 1 <= id < nextId)
      && (forall id :: id in rows ==> rows[id].price >= 0 && rows[id].quantity >= 0)
    }

    /** A freshly created, empty database. */
    constructor ()
      ensures Valid()
      ensures rows == map[] && nextId == 1 && issued == {} && notified == []
    {
      rows := map[];
      nextId := 1;
      issued := {};
      notified := [];
    }

    /** `query`: the selected rows in id order, or the exception for an unknown URI. */
    function Query(uri: Uri, sel: Selection): (r: Result<seq<Row>, ProviderError>)
      reads this
      requires Valid()
      ensures r.Err? <==> uri.OtherUri?
      ensures r.Err? ==> r.error == CannotQuery(uri)
      ensures r.Ok? ==> forall x :: x in r.value <==>
        x.id in rows && rows[x.id] == x.product && Selects(Target(uri, sel), x.id)
      ensures r.Ok? ==> forall i, j :: 0 <= i < j < |r.value| ==> r.value[i].id < r.value[j].id
    {
      if uri.OtherUri? then Err(CannotQuery(uri)) else Ok(Scan(rows, Target(uri, sel), 1, nextId))
    }

    /**
     * `insert`: only the products collection accepts inserts; the values are
     * checked; the storage engine may fail (`storageFails`, or a NOT NULL
     * column left null), which gives null and no notification; otherwise the
     * row gets a new id, larger than every id issued before, the collection
     * is notified and the product's URI is returned.
     */
    method Insert(uri: Uri, values: ContentValues, storageFails: bool)
      returns (r: Result<Option<Uri>, ProviderError>)
      requires Valid()
      modifies this
      ensures Valid()
      ensures !uri.ProductsUri? ==> r == Err(CannotInsert(uri))
      ensures uri.ProductsUri? && CheckInsert(values).Some? ==> r == Err(Invalid(CheckInsert(values).value))
      ensures uri.ProductsUri? && CheckInsert(values).None? ==>
        r == Ok(if storageFails || InsertedRow(values, AsText).None? then None else Some(ProductUri(old(nextId))))
      ensures r.Err? || r == Ok(None) ==> unchanged(this)
      ensures r.Ok? && r.value.Some? ==>
        && old(nextId) !in old(issued)
        && (forall id :: id in old(issued) ==> id < old(nextId))
        && rows == old(rows)[old(nextId) := InsertedRow(values, AsText).value]
        && nextId == old(nextId) + 1
        && issued == old(issued) + {old(nextId)}
        && notified == old(notified) + [ProductsUri]
    {
      if !uri.ProductsUri? {
        return Err(CannotInsert(uri));
      }
      var check := CheckInsert(values);
      if check.Some? {
        return Err(Invalid(check.value));
      }
      var stored := InsertedRow(values, AsText);
      if storageFails || stored.None? {
        // db.insert returned -1
        return Ok(None);
      }
      assert InsertRuleHolds(PricePositive, values) && InsertRuleHolds(QuantityPositive, values);
      var newRowId := nextId;
      rows := rows[newRowId := stored.value];
      issued := issued + {newRowId};
      nextId := nextId + 1;
      notified := notified + [uri];
      r := Ok(Some(WithAppendedId(newRowId)));
    }

    /**
     * `update`: the products collection updates the caller's selection, a
     * product URI its own row. The present keys are checked, an empty value
     * set returns 0 untouched, and the count of matched rows is returned;
     * the URI is notified only when that count is not zero.
     */
    method Update(uri: Uri, values: ContentValues, sel: Selection) returns (r: Result<int, ProviderError>)
      requires Valid()
      modifies this
      ensures Valid()
      ensures nextId == old(nextId) && issued == old(issued)
      ensures uri.OtherUri? ==> r == Err(CannotUpdate(uri))
      ensures !uri.OtherUri? && CheckUpdate(values).Some? ==> r == Err(Invalid(CheckUpdate(values).value))
      ensures !uri.OtherUri? && CheckUpdate(values).None? && Size(values) == 0 ==> r == Ok(0)
      ensures !uri.OtherUri? && CheckUpdate(values).None? && Size(values) > 0 ==>
        var hit := Matching(old(rows), Target(uri, sel));
        if hit != {} && HasNull(values) then r == Err(NotNullConstraintFailed)
        else
          && r == Ok(|hit|)
          && rows == ApplyUpdate(old(rows), Target(uri, sel), values)
          && notified == old(notified) + (if |hit| != 0 then [uri] else [])
      ensures r.Err? || Size(values) == 0 ==> unchanged(this)
    {
      if uri.OtherUri? {
        return Err(CannotUpdate(uri));
      }
      var check := CheckUpdate(values);
      if check.Some? {
        return Err(Invalid(check.value));
      }
      if Size(values) == 0 {
        return Ok(0);
      }
      var target := Target(uri, sel);
      var hit := Matching(rows, target);
      if hit != {} && HasNull(values) {
        return Err(NotNullConstraintFailed);
      }
      assert UpdateRuleHolds(PricePositive, values) && UpdateRuleHolds(QuantityPositive, values);
      rows := ApplyUpdate(rows, target, values);
      var rowsUpdated := |hit|;
      if rowsUpdated != 0 {
        notified := notified + [uri];
      }
      r := Ok(rowsUpdated);
    }

    /**
     * `delete`: removes the rows the URI and selection address, returns their
     * number and notifies the URI only when it is not zero.
     */
    method Delete(uri: Uri, sel: Selection) returns (r: Result<int, ProviderError>)
      requires Valid()
      modifies this
      ensures Valid()
      ensures nextId == old(nextId) && issued == old(issued)
      ensures uri.OtherUri? ==> r == Err(CannotDelete(uri)) && unchanged(this)
      ensures !uri.OtherUri? ==>
        var hit := Matching(old(rows), Target(uri, sel));
        && r == Ok(|hit|)
        && rows == old(rows) - hit
        && notified == old(notified) + (if |hit| != 0 then [uri] else [])
    {
      if uri.OtherUri? {
        return Err(CannotDelete(uri));
      }
      var hit := Matching(rows, Target(uri, sel));
      rows := rows - hit;
      var rowsDeleted := |hit|;
      if rowsDeleted != 0 {
        notified := notified + [uri];
      }
      r := Ok(rowsDeleted);
    }
  }
}
