/**
 * The schema of the products table and what the storage engine does with a
 * write under that schema: which defaults fill missing columns and which
 * writes the NOT NULL constraints refuse.
 */
module ProductDbHelper {
  import opened Wrappers
  import opened JavaLang
  import opened ProductContract

  const DatabaseName := "inventory.db"
  const DatabaseVersion := 1

  /** The default text of the supplier and number columns. */
  const NotAvailable := "n/a"

  /**
   * The declared column types. "STRING" is written as in the table
   * definition: it contains none of the words SQLite recognises (INT, CHAR,
   * CLOB, TEXT, BLOB, REAL, FLOA, DOUB), so SQLite gives such a column
   * NUMERIC affinity, and a text that reads as a number is stored as one.
   */
  datatype SqlType = IntegerType | TextType | StringType

  /**
   * How the supplier and number columns are declared: as the CREATE TABLE
   * statement writes them (STRING), or as TEXT, as they are evidently meant
   * to be, since they hold a supplier's name and a phone number. The
   * provider's table is modelled with TEXT columns; `PhoneLeadingZeroLost`
   * shows what the columns as written do instead.
   */
  datatype Declaration = AsWritten | AsText

  datatype DefaultValue = NoDefault | DefaultInt(i: int32) | DefaultText(t: string)

  datatype ColumnDef = ColumnDef(
    column: Column,
    sqlType: SqlType,
    autoIncrementKey: bool,
    notNull: bool,
    default: DefaultValue)

  /** The type and constraints of each column in the CREATE TABLE statement. */
  function Definition(c: Column, decl: Declaration): (d: ColumnDef)
    ensures d.column == c
    ensures d.sqlType == StringType <==> decl == AsWritten && (c == Supplier || c == Phone)
  {
    var text := if decl == AsWritten then StringType else TextType;
    match c
    case Id => ColumnDef(Id, IntegerType, true, false, NoDefault)
    case Name => ColumnDef(Name, TextType, false, true, NoDefault)
    case Price => ColumnDef(Price, IntegerType, false, true, NoDefault)
    case Quantity => ColumnDef(Quantity, IntegerType, false, true, DefaultInt(0))
    case Supplier => ColumnDef(Supplier, text, false, true, DefaultText(NotAvailable))
    case Phone => ColumnDef(Phone, text, false, true, DefaultText(NotAvailable))
  }

  /** The columns of the table, in the order the CREATE TABLE statement lists them. */
  const Schema: seq<ColumnDef> :=
    [Definition(Id, AsWritten), Definition(Name, AsWritten), Definition(Price, AsWritten),
     Definition(Quantity, AsWritten), Definition(Supplier, AsWritten), Definition(Phone, AsWritten)]

  /** The table has six columns: `_id, product, price, quantity, supplier, number`. */
  lemma SchemaShape()
    ensures |Schema| == 6
    ensures forall i, j :: 0 <= i < j < |Schema| ==> Schema[i].column != Schema[j].column
    ensures forall c: Column :: Definition(c, AsWritten) in Schema
    ensures seq(|Schema|, i requires 0 <= i < |Schema| => ColumnName(Schema[i].column))
         == ["_id", "product", "price", "quantity", "supplier", "number"]
    ensures Schema[0].autoIncrementKey && forall i :: 1 <= i < |Schema| ==> Schema[i].notNull
  {
  }

  // ------------------------------------------------------ NUMERIC affinity

  const MinInt64: int := -0x8000_0000_0000_0000
  const MaxInt64: int := 0x7fff_ffff_ffff_ffff

  /** A text without its leading sign, if it has one. */
  function Unsigned(s: string): string
  {
    if |s| > 0 && (s[0] == '+' || s[0] == '-') then s[1..] else s
  }

  /** A text SQLite reads as an integer: an optional sign, then one or more decimal digits. */
  predicate IsIntegerText(s: string)
  {
    Unsigned(s) != [] && IsDigits(Unsigned(s))
  }

  function IntegerTextValue(s: string): int
    requires IsIntegerText(s)
  {
    if s[0] == '-' then -(DigitsValue(s[1..]) as int) else DigitsValue(Unsigned(s))
  }

  /**
   * The text a column of NUMERIC affinity gives back for a stored text: an
   * integer text within 64 bits is stored as that integer, and reads back
   * as its decimal text; any other text is stored as it is.
   */
  function NumericText(s: string): string
  {
    if IsIntegerText(s) && MinInt64 <= IntegerTextValue(s) <= MaxInt64 then IntToString(IntegerTextValue(s))
    else s
  }

  /** The text a column of type t gives back for a stored text. */
  function Affinity(t: SqlType, s: string): string
  {
    if t == StringType then NumericText(s) else s
  }

  /** The decimal text of a number is an integer text for that number. */
  lemma IntToStringIsIntegerText(n: int)
    ensures IsIntegerText(IntToString(n)) && IntegerTextValue(IntToString(n)) == n
  {
    var s := IntToString(n);
    if n < 0 {
      assert s[1..] == NatToString(-n);
      NatToStringRoundTrip(-n);
    } else {
      NatToStringRoundTrip(n);
    }
  }

  /** An integer text comes back as a text for the same number. */
  lemma NumericTextKeepsValue(s: string)
    requires IsIntegerText(s) && MinInt64 <= IntegerTextValue(s) <= MaxInt64
    ensures IsIntegerText(NumericText(s)) && IntegerTextValue(NumericText(s)) == IntegerTextValue(s)
  {
    IntToStringIsIntegerText(IntegerTextValue(s));
  }

  /** Storing the text a numeric column gave back stores the same text again. */
  lemma NumericTextIdempotent(s: string)
    ensures NumericText(NumericText(s)) == NumericText(s)
  {
    if IsIntegerText(s) && MinInt64 <= IntegerTextValue(s) <= MaxInt64 {
      IntToStringIsIntegerText(IntegerTextValue(s));
    }
  }

  /**
   * A text with some character other than a sign or a digit is stored as it
   * is: every name, the "n/a" default and each dummy supplier.
   */
  lemma NumericTextKeepsOtherText(s: string, i: int)
    requires 0 <= i < |s| && s[i] != '+' && s[i] != '-' && !('0' <= s[i] <= '9')
    ensures NumericText(s) == s
  {
  }

  function Pow10(n: nat): nat
  {
    if n == 0 then 1 else 10 * Pow10(n - 1)
  }

  /** A run of n digits is worth less than 10^n. */
  lemma {:induction false} DigitsValueBound(s: string)
    requires IsDigits(s)
    ensures DigitsValue(s) < Pow10(|s|)
  {
    if |s| > 0 {
      DigitsValueBound(s[..|s| - 1]);
    }
  }

  /**
   * What one column of an INSERT stores: the value put, the column default
   * when the key is missing, and nothing (a constraint failure) for a null
   * or for a missing key with no default, since every product column is
   * NOT NULL. An explicit null is refused even when the column has a default.
   */
  function StoredInt(e: Entry<int32>, d: ColumnDef): (r: Option<int32>)
    ensures r.Some? <==> e.Put? || (e.Absent? && d.default.DefaultInt?)
  {
    match e
    case Put(x) => Some(x)
    case Null => None
    case Absent => if d.default.DefaultInt? then Some(d.default.i) else None
  }

  /** A text column also converts the text put by its affinity. */
  function StoredText(e: Entry<string>, d: ColumnDef): (r: Option<string>)
    ensures r.Some? <==> e.Put? || (e.Absent? && d.default.DefaultText?)
    ensures e.Put? && d.sqlType != StringType ==> r == Some(e.value)
    ensures e.Put? && d.sqlType == StringType ==> r == Some(NumericText(e.value))
  {
    match e
    case Put(x) => Some(Affinity(d.sqlType, x))
    case Null => None
    case Absent => if d.default.DefaultText? then Some(d.default.t) else None
  }

  /** The row an INSERT with these values stores, or None when a NOT NULL constraint refuses it. */
  function InsertedRow(v: ContentValues, decl: Declaration): (r: Option<Product>)
    ensures r.Some? <==> !HasNull(v) && v.name.Put? && v.price.Put?
    ensures r.Some? ==>
      && r.value.name == v.name.value
      && r.value.price == v.price.value
      && r.value.quantity == (if v.quantity.Put? then v.quantity.value else 0)
      && r.value.supplier == (if v.supplier.Put? then Affinity(Definition(Supplier, decl).sqlType, v.supplier.value) else NotAvailable)
      && r.value.phone == (if v.phone.Put? then Affinity(Definition(Phone, decl).sqlType, v.phone.value) else NotAvailable)
  {
    var name := StoredText(v.name, Definition(Name, decl));
    var price := StoredInt(v.price, Definition(Price, decl));
    var quantity := StoredInt(v.quantity, Definition(Quantity, decl));
    var supplier := StoredText(v.supplier, Definition(Supplier, decl));
    var phone := StoredText(v.phone, Definition(Phone, decl));
    if name.Some? && price.Some? && quantity.Some? && supplier.Some? && phone.Some? then
      Some(Product(name.value, price.value, quantity.value, supplier.value, phone.value))
    else
      None
  }

  /**
   * The columns of p after an UPDATE that sets the keys of v (a null, which
   * NOT NULL refuses before this, sets nothing). Every column the update
   * does not set keeps its value; a set column takes the value as its
   * column stores it.
   */
  function Overwrite(p: Product, v: ContentValues, decl: Declaration): (r: Product)
    ensures !v.name.Put? ==> r.name == p.name
    ensures !v.price.Put? ==> r.price == p.price
    ensures !v.quantity.Put? ==> r.quantity == p.quantity
    ensures !v.supplier.Put? ==> r.supplier == p.supplier
    ensures !v.phone.Put? ==> r.phone == p.phone
    ensures v.name.Put? ==> r.name == v.name.value
    ensures v.price.Put? ==> r.price == v.price.value
    ensures v.quantity.Put? ==> r.quantity == v.quantity.value
    ensures v.supplier.Put? ==> r.supplier == if decl == AsText then v.supplier.value else NumericText(v.supplier.value)
    ensures v.phone.Put? ==> r.phone == if decl == AsText then v.phone.value else NumericText(v.phone.value)
  {
    Product(
      if v.name.Put? then v.name.value else p.name,
      if v.price.Put? then v.price.value else p.price,
      if v.quantity.Put? then v.quantity.value else p.quantity,
      if v.supplier.Put? then Affinity(Definition(Supplier, decl).sqlType, v.supplier.value) else p.supplier,
      if v.phone.Put? then Affinity(Definition(Phone, decl).sqlType, v.phone.value) else p.phone)
  }

  /** With TEXT columns, a row inserted with all its columns is stored exactly as given. */
  lemma InsertAllColumns(p: Product)
    ensures InsertedRow(AllColumns(p), AsText) == Some(p)
  {
  }

  /** With the columns as written, the supplier and number come back as their numeric text. */
  lemma InsertAllColumnsAsWritten(p: Product)
    ensures InsertedRow(AllColumns(p), AsWritten) ==
      Some(p.(supplier := NumericText(p.supplier), phone := NumericText(p.phone)))
  {
  }

  /**
   * With the columns as written, a phone number with a leading zero does
   * not come back as it was put: "0721234567" is stored as the integer
   * 721234567.
   */
  lemma PhoneLeadingZeroLost(p: Product)
    requires p.phone == "0721234567"
    ensures InsertedRow(AllColumns(p), AsWritten).Some?
    ensures InsertedRow(AllColumns(p), AsWritten).value.phone != p.phone
  {
    var s := p.phone;
    assert IsIntegerText(s) && Unsigned(s) == s;
    DigitsValueBound(s);
    assert Pow10(|s|) == 10_000_000_000;
    var t := NatToString(DigitsValue(s));
    assert NumericText(s) == t;
    if |t| > 1 {
      assert t[0] != s[0];
    }
  }

  /**
   * With TEXT columns, writing all columns of p over any row gives p; under
   * either declaration, writing no key changes nothing.
   */
  lemma OverwriteAllOrNothing(p: Product, q: Product, decl: Declaration)
    ensures Overwrite(q, AllColumns(p), AsText) == p
    ensures Overwrite(q, EmptyValues, decl) == q
  {
  }

  /** Repeating the same UPDATE has no further effect. */
  lemma OverwriteIdempotent(p: Product, v: ContentValues, decl: Declaration)
    ensures Overwrite(Overwrite(p, v, decl), v, decl) == Overwrite(p, v, decl)
  {
    if v.supplier.Put? {
      NumericTextIdempotent(v.supplier.value);
    }
    if v.phone.Put? {
      NumericTextIdempotent(v.phone.value);
    }
  }
}
