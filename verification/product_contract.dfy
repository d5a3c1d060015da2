/**
 * The names the app shares between its screens and its data layer: the
 * content URIs, the MIME types, the columns of the products table, the
 * key/value bag a write carries, and the product record itself.
 */
module ProductContract {
  import opened JavaLang

  const ContentAuthority := "udacityscholarship.rada.raul.inventoryapp"
  const PathProducts := "products"
  const TableName := "products"
  const CursorDirBaseType := "vnd.android.cursor.dir"
  const CursorItemBaseType := "vnd.android.cursor.item"

  /** MIME type of the whole products list. */
  const ContentListType := CursorDirBaseType + "/" + ContentAuthority + "/" + PathProducts
  /** MIME type of a single product. */
  const ContentItemType := CursorItemBaseType + "/" + ContentAuthority + "/" + PathProducts

  /** The columns of the products table, in table order. */
  datatype Column = Id | Name | Price | Quantity | Supplier | Phone

  function ColumnName(c: Column): string
  {
    match c
    case Id => "_id"
    case Name => "product"
    case Price => "price"
    case Quantity => "quantity"
    case Supplier => "supplier"
    case Phone => "number"
  }

  /**
   * A content URI as the provider's matcher sees it: the products collection
   * (".../products"), one product (".../products/#", where # is a run of
   * digits), or anything else.
   */
  datatype Uri = ProductsUri | ProductUri(id: nat) | OtherUri

  /**
   * `ContentUris.withAppendedId(CONTENT_URI, id)`. A negative id is written
   * with a minus sign, which the "#" wildcard does not match.
   */
  function WithAppendedId(id: int): (u: Uri)
    ensures id >= 0 <==> u.ProductUri?
    ensures u.ProductUri? ==> u.id == id
  {
    if id >= 0 then ProductUri(id) else OtherUri
  }

  /**
   * One key of a `ContentValues`: the key is missing, present with a null
   * value, or present with a value.
   */
  datatype Entry<T> = Absent | Null | Put(value: T)
  {
    /** `containsKey` */
    predicate ContainsKey() { !Absent? }
  }

  /**
   * The `ContentValues` of a write. Each product column has its own typed
   * slot; the app never puts the `_id` column.
   */
  datatype ContentValues = ContentValues(
    name: Entry<string>,
    price: Entry<int32>,
    quantity: Entry<int32>,
    supplier: Entry<string>,
    phone: Entry<string>)

  const EmptyValues := ContentValues(Absent, Absent, Absent, Absent, Absent)

  function Count<T>(e: Entry<T>): nat { if e.ContainsKey() then 1 else 0 }

  /** `ContentValues.size()`: the number of keys, null-valued keys included. */
  function Size(v: ContentValues): (n: nat)
    ensures n <= 5
    ensures n == 0 <==> v == EmptyValues
  {
    Count(v.name) + Count(v.price) + Count(v.quantity) + Count(v.supplier) + Count(v.phone)
  }

  /** Whether some key of the bag carries a null value. */
  predicate HasNull(v: ContentValues)
  {
    v.name.Null? || v.price.Null? || v.quantity.Null? || v.supplier.Null? || v.phone.Null?
  }

  /** The stored columns of one product; its `_id` is the key it is stored under. */
  datatype Product = Product(name: string, price: int32, quantity: int32, supplier: string, phone: string)

  /** One row of a query result: `_id` and the product stored under it. */
  datatype Row = Row(id: int, product: Product)

  /** The write that sets every column of a product. */
  function AllColumns(p: Product): (v: ContentValues)
    ensures Size(v) == 5 && !HasNull(v)
  {
    ContentValues(Put(p.name), Put(p.price), Put(p.quantity), Put(p.supplier), Put(p.phone))
  }

  /** The write that sets only the quantity column. */
  function QuantityOnly(q: int32): (v: ContentValues)
    ensures Size(v) == 1 && !HasNull(v) && v.quantity == Put(q)
  {
    EmptyValues.(quantity := Put(q))
  }
}
