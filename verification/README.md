# InventoryApp in Dafny

A model of the data core of InventoryApp, an Android app that keeps a
store's products (name, price, quantity, supplier, supplier phone number)
in one SQLite table behind a content provider, and of the screens that
write to that table.

- `ProductContract` (product_contract.dfy): the content URIs the provider
  recognises, the MIME types, the columns, the `ContentValues` of a write
  (each key missing, null, or carrying a value) and the product record.
- `ProductDbHelper` (product_db_helper.dfy): the table's schema, and what
  SQLite does with an insert or an update under it. Missing keys get the
  column default. An explicit null into a NOT NULL column is refused.
  The supplier and number columns are declared `STRING`, to which SQLite
  gives NUMERIC affinity; `Declaration` chooses between that schema as
  written and the TEXT columns it evidently means (see "## Findings").
  The provider's table has the TEXT columns.
- `ProductProvider` (product_provider.dfy): the provider's checks on the
  values of an insert and of an update, with the first failing check in
  source order as the error. Also `getType`, and the class `Provider`,
  whose `query`, `insert`, `update` and `delete` change the table (a map
  from `_id` to product), the AUTOINCREMENT counter and the log of
  change notifications.
- `QuantityRules` (quantity_rules.dfy): the increase (Java `int`
  wrap-around included) and the decrease with its floor at 0.
- `InsertProductActivity` (insert_product_activity.dfy): the product
  screen. It has the field checks of the save button, the order button,
  and the class `Editor` with the screen's mode, its URI and its
  unsaved-edits flag.
- `ProductCursorAdapter` (product_cursor_adapter.dfy): the sell button of a
  list row, which captures the product's id and quantity when the row is
  bound.
- `InventoryActivity` (inventory_activity.dfy): the list screen. It has the
  class `Catalog`, the batch of ten dummy products numbered on from the
  last shown id, the reload of the list and the delete-all menu item.
- `JavaLang` (java_lang.dfy) holds the pieces of the Java library the app
  relies on: `int` wrap-around, `String.trim`, `Integer.toString` and
  `equalsIgnoreCase`. `Wrappers` (wrappers.dfy) holds `Option` and
  `Result`.

Other inputs are parameters:
- a storage failure (SQLite's `insert` returning -1) is a boolean
  argument, one per insert for the dummy batch;
- the random numbers of the dummy batch are a nondeterministic choice in
  their range;
- the user's answer to a confirmation dialog is a boolean argument;
- whether the device has a phone app is a boolean argument.

The comment above the quantity check of the save button
(InsertProductActivity.java:201-205) says that an empty quantity is
allowed and stored as 0. The code refuses it with its own message. The
model follows the code: `CheckForm` refuses a blank quantity, and
`QuantityRequiredOnlyByScreen` shows that the provider alone would store
such a product with quantity 0.

Paths below are relative to the repository root.

## Model

| member | source | states |
|---|---|---|
| JavaLang.Wrap32 | app/src/main/java/udacityscholarship/rada/raul/inventoryapp/InsertProductActivity.java:352 | a Java `int` result: unchanged inside the int range, otherwise congruent modulo 2^32 |
| JavaLang.Trim | app/src/main/java/udacityscholarship/rada/raul/inventoryapp/InsertProductActivity.java:177 | a trimmed text is no longer than the text and has no character up to U+0020 at either end |
| JavaLang.TrimIsInfix | app/src/main/java/udacityscholarship/rada/raul/inventoryapp/InsertProductActivity.java:177 | `trim` keeps a contiguous middle part of the text; every character it cuts off, before or after that part, is a blank (up to U+0020); the part has no blank at either end |
| JavaLang.TrimEmptyIff | app/src/main/java/udacityscholarship/rada/raul/inventoryapp/InsertProductActivity.java:177-184 | a trimmed text is empty exactly when every character of the text is blank |
| JavaLang.TrimUnchanged | app/src/main/java/udacityscholarship/rada/raul/inventoryapp/InsertProductActivity.java:311-312 | a text without blanks at its ends is its own trim |
| JavaLang.IntToStringRoundTrip | app/src/main/java/udacityscholarship/rada/raul/inventoryapp/InventoryActivity.java:228 | parsing the decimal text of any int gives the int back |
| JavaLang.IntToStringInjective | app/src/main/java/udacityscholarship/rada/raul/inventoryapp/InventoryActivity.java:228-231 | different numbers have different decimal texts |
| JavaLang.EqualsIgnoreCase | app/src/main/java/udacityscholarship/rada/raul/inventoryapp/InsertProductActivity.java:315 | texts equal ignoring case have the same length, and equal texts are equal ignoring case |
| ProductContract.WithAppendedId | app/src/main/java/udacityscholarship/rada/raul/inventoryapp/ProductCursorAdapter.java:108-109 | the URI is a single-product URI exactly when the id is not negative, and then it carries that id |
| ProductContract.Size | app/src/main/java/udacityscholarship/rada/raul/inventoryapp/data/ProductProvider.java:403 | `size()` is at most 5, and 0 exactly for the empty value set |
| ProductContract.AllColumns | app/src/main/java/udacityscholarship/rada/raul/inventoryapp/InsertProductActivity.java:245-251 | the save button's write puts all five keys and no null |
| ProductContract.QuantityOnly | app/src/main/java/udacityscholarship/rada/raul/inventoryapp/InsertProductActivity.java:356-357 | the quantity buttons' write has the one quantity key, set to the given value |
| ProductDbHelper.Definition | app/src/main/java/udacityscholarship/rada/raul/inventoryapp/data/ProductDbHelper.java:25-54 | each column's definition is for that column; supplier and number are declared STRING exactly when the schema is taken as written |
| ProductDbHelper.SchemaShape | app/src/main/java/udacityscholarship/rada/raul/inventoryapp/data/ProductDbHelper.java:69-86 | the table has six distinct columns named `_id, product, price, quantity, supplier, number`; `_id` is the AUTOINCREMENT key; every other column is NOT NULL |
| ProductDbHelper.StoredInt | app/src/main/java/udacityscholarship/rada/raul/inventoryapp/data/ProductDbHelper.java:35-41 | an integer column gets a value exactly when one is put, or the key is missing and the column has a default |
| ProductDbHelper.StoredText | app/src/main/java/udacityscholarship/rada/raul/inventoryapp/data/ProductDbHelper.java:30-54 | a text column gets a value exactly when one is put, or the key is missing and the column has a default; a TEXT column stores a put text as given, a STRING column (NUMERIC affinity) stores an integer text within 64 bits as its canonical decimal |
| ProductDbHelper.IntToStringIsIntegerText | app/src/main/java/udacityscholarship/rada/raul/inventoryapp/data/ProductDbHelper.java:46-54 | the decimal text of a number is an integer text that reads back as that number |
| ProductDbHelper.NumericTextKeepsValue | app/src/main/java/udacityscholarship/rada/raul/inventoryapp/data/ProductDbHelper.java:46-54 | NUMERIC affinity keeps the value of an integer text within 64 bits and gives an integer text again |
| ProductDbHelper.NumericTextIdempotent | app/src/main/java/udacityscholarship/rada/raul/inventoryapp/data/ProductDbHelper.java:46-54 | applying NUMERIC affinity to a stored text changes nothing more |
| ProductDbHelper.NumericTextKeepsOtherText | app/src/main/java/udacityscholarship/rada/raul/inventoryapp/data/ProductDbHelper.java:46-54 | a text with a character other than a sign or a digit is stored as given even in a STRING column |
| ProductDbHelper.InsertedRow | app/src/main/java/udacityscholarship/rada/raul/inventoryapp/data/ProductDbHelper.java:25-54 | an insert is stored exactly when no key is null and name and price are given; missing quantity becomes 0, missing supplier and number "n/a"; with STRING columns supplier and number pass through NUMERIC affinity |
| ProductDbHelper.InsertAllColumns | app/src/main/java/udacityscholarship/rada/raul/inventoryapp/InventoryActivity.java:169-180 | with supplier and number declared TEXT, a product inserted with all its columns is stored exactly as given |
| ProductDbHelper.InsertAllColumnsAsWritten | app/src/main/java/udacityscholarship/rada/raul/inventoryapp/data/ProductDbHelper.java:46-54 | with the STRING columns as written, a product inserted with all its columns comes back with supplier and number in their numeric form |
| ProductDbHelper.PhoneLeadingZeroLost | app/src/main/java/udacityscholarship/rada/raul/inventoryapp/data/ProductDbHelper.java:53-54 | with the STRING columns as written, the phone number "0721234567" is stored as a different text (the number 721234567) |
| ProductDbHelper.Overwrite | app/src/main/java/udacityscholarship/rada/raul/inventoryapp/data/ProductProvider.java:411-412 | an update keeps every column whose key it does not put and gives every put column its value, in canonical decimal for an integer text in a STRING column |
| ProductDbHelper.OverwriteAllOrNothing | app/src/main/java/udacityscholarship/rada/raul/inventoryapp/data/ProductProvider.java:411-412 | with TEXT columns, writing all columns of p over any row gives p; writing no key leaves the row under either declaration |
| ProductDbHelper.OverwriteIdempotent | app/src/main/java/udacityscholarship/rada/raul/inventoryapp/data/ProductProvider.java:411-412 | repeating an update of a row has no further effect, under either declaration |
| ProductProvider.CheckInsert | app/src/main/java/udacityscholarship/rada/raul/inventoryapp/data/ProductProvider.java:207-251 | no error exactly when all insert checks pass; otherwise the error is a failing check and every check before it passes |
| ProductProvider.CheckUpdate | app/src/main/java/udacityscholarship/rada/raul/inventoryapp/data/ProductProvider.java:339-400 | the same for the update checks, which test only the keys present |
| ProductProvider.InsertStricterThanUpdate | app/src/main/java/udacityscholarship/rada/raul/inventoryapp/data/ProductProvider.java:207-251 | values the insert checks accept pass the update checks too |
| ProductProvider.InsertQuantityAbsentOrNull | app/src/main/java/udacityscholarship/rada/raul/inventoryapp/data/ProductProvider.java:230-235 | for an insert, a missing and a null quantity are checked alike, and neither is refused as negative |
| ProductProvider.EmptyUpdateIsValid | app/src/main/java/udacityscholarship/rada/raul/inventoryapp/data/ProductProvider.java:403-405 | an empty value set passes every update check |
| ProductProvider.AllColumnsValid | app/src/main/java/udacityscholarship/rada/raul/inventoryapp/data/ProductProvider.java:207-257 | a full product passes the insert checks exactly when price and quantity are not negative, and a table with TEXT supplier and number columns stores it as given |
| ProductProvider.GetType | app/src/main/java/udacityscholarship/rada/raul/inventoryapp/data/ProductProvider.java:170-182 | the list type for the collection, the item type for one product, an exception for any other URI |
| ProductProvider.ListAndItemTypesDiffer | app/src/main/java/udacityscholarship/rada/raul/inventoryapp/data/ProductContract.java:67-76 | the list and item MIME types differ |
| ProductProvider.Matching | app/src/main/java/udacityscholarship/rada/raul/inventoryapp/data/ProductProvider.java:286-294 | the addressed rows are stored rows, and every stored row the selection picks is addressed |
| ProductProvider.MatchingAll | app/src/main/java/udacityscholarship/rada/raul/inventoryapp/data/ProductProvider.java:286-289 | without a selection every stored row is addressed |
| ProductProvider.MatchingOne | app/src/main/java/udacityscholarship/rada/raul/inventoryapp/data/ProductProvider.java:290-295 | a single-product URI addresses that row if it is stored, and no other |
| ProductProvider.ApplyUpdate | app/src/main/java/udacityscholarship/rada/raul/inventoryapp/data/ProductProvider.java:405-412 | an UPDATE keeps the set of ids and every row the selection does not pick, and overwrites each picked row with the values |
| ProductProvider.ApplyUpdateOne | app/src/main/java/udacityscholarship/rada/raul/inventoryapp/data/ProductProvider.java:320-326 | a single-product update overwrites that row, if stored, and no other |
| ProductProvider.ApplyUpdateIdempotent | app/src/main/java/udacityscholarship/rada/raul/inventoryapp/data/ProductProvider.java:314-326 | running the same update twice leaves the table as running it once |
| ProductProvider.DeleteTwice | app/src/main/java/udacityscholarship/rada/raul/inventoryapp/data/ProductProvider.java:290-294 | deleting a product a second time addresses no row |
| ProductProvider.Scan | app/src/main/java/udacityscholarship/rada/raul/inventoryapp/data/ProductProvider.java:116-151 | a scan returns exactly the stored rows in its range that the selection picks, in increasing id order |
| ProductProvider.ScanOne | app/src/main/java/udacityscholarship/rada/raul/inventoryapp/data/ProductProvider.java:127-151 | a query for one product returns that row alone, or nothing when it is not stored |
| ProductProvider.ScanCount | app/src/main/java/udacityscholarship/rada/raul/inventoryapp/data/ProductProvider.java:117-125 | a scan without selection returns one row per stored id in its range |
| ProductProvider.ScanLastIsLargest | app/src/main/java/udacityscholarship/rada/raul/inventoryapp/data/ProductProvider.java:116-151 | the last row of a scan carries the largest selected id |
| ProductProvider.ScanAll | app/src/main/java/udacityscholarship/rada/raul/inventoryapp/data/ProductProvider.java:117-125 | a query of the whole collection returns every stored product once, with the largest id last |
| ProductProvider.Provider.constructor | app/src/main/java/udacityscholarship/rada/raul/inventoryapp/data/ProductProvider.java:93-96 | a new database is empty and will issue id 1 first |
| ProductProvider.Provider.Query | app/src/main/java/udacityscholarship/rada/raul/inventoryapp/data/ProductProvider.java:103-164 | an exception exactly for an unknown URI; otherwise exactly the addressed stored rows, in id order |
| ProductProvider.Provider.Insert | app/src/main/java/udacityscholarship/rada/raul/inventoryapp/data/ProductProvider.java:188-270 | exception for a non-collection URI, then the first failing check; null and no change when storage fails; otherwise the row is stored under a new id above all issued ids, the collection is notified and the product's URI is returned |
| ProductProvider.Provider.Update | app/src/main/java/udacityscholarship/rada/raul/inventoryapp/data/ProductProvider.java:314-422 | exception for an unknown URI, then the first failing check; 0 and no change for an empty value set; otherwise the matched rows are overwritten, their count returned, and the URI notified only when it is not 0 |
| ProductProvider.Provider.Delete | app/src/main/java/udacityscholarship/rada/raul/inventoryapp/data/ProductProvider.java:276-308 | exception for an unknown URI; otherwise the addressed rows are removed, their count returned, and the URI notified only when it is not 0 |
| QuantityRules.Increased | app/src/main/java/udacityscholarship/rada/raul/inventoryapp/InsertProductActivity.java:349-352 | one more, except that the largest int wraps to the smallest |
| QuantityRules.Decreased | app/src/main/java/udacityscholarship/rada/raul/inventoryapp/InsertProductActivity.java:392-403 | one less exactly when the quantity is positive, and never below 0 |
| QuantityRules.IncreaseDecreaseInverse | app/src/main/java/udacityscholarship/rada/raul/inventoryapp/InsertProductActivity.java:339-428 | a decrease undoes an increase below the largest int, and an increase undoes a decrease |
| QuantityRules.DecreasedIsValid | app/src/main/java/udacityscholarship/rada/raul/inventoryapp/ProductCursorAdapter.java:112-135 | the provider accepts every quantity a decrease writes |
| QuantityRules.IncreasedIsValid | app/src/main/java/udacityscholarship/rada/raul/inventoryapp/InsertProductActivity.java:349-364 | the provider accepts an increased stored quantity except at the largest int, whose wrapped value it refuses as negative |
| InsertProductActivity.ReadFields | app/src/main/java/udacityscholarship/rada/raul/inventoryapp/InsertProductActivity.java:177-232 | the name, supplier and number are the typed texts trimmed; the numbers are left as typed |
| InsertProductActivity.FormProduct | app/src/main/java/udacityscholarship/rada/raul/inventoryapp/InsertProductActivity.java:245-251 | the product carries the form's name, price, quantity, supplier and number |
| InsertProductActivity.CheckForm | app/src/main/java/udacityscholarship/rada/raul/inventoryapp/InsertProductActivity.java:177-251 | accepted fields are all filled and give the five-column write of their product; a refusal names an empty field, and every field checked before it is filled |
| InsertProductActivity.FilledUnlessBlank | app/src/main/java/udacityscholarship/rada/raul/inventoryapp/InsertProductActivity.java:177-243 | a field counts as filled once read exactly when it was not blank as typed: not all blanks for a text, not empty for a number |
| InsertProductActivity.BlankFieldRefused | app/src/main/java/udacityscholarship/rada/raul/inventoryapp/InsertProductActivity.java:177-243 | the save stops at a field exactly when that field is blank as typed and every field checked before it is not |
| InsertProductActivity.FormCoversInsertChecks | app/src/main/java/udacityscholarship/rada/raul/inventoryapp/InsertProductActivity.java:245-259 | on fields the screen accepts, the provider refuses only a negative price, then only a negative quantity |
| InsertProductActivity.QuantityRequiredOnlyByScreen | app/src/main/java/udacityscholarship/rada/raul/inventoryapp/InsertProductActivity.java:206-219 | a blank quantity stops the save, although the provider would store the product with quantity 0 |
| InsertProductActivity.OrderAction | app/src/main/java/udacityscholarship/rada/raul/inventoryapp/InsertProductActivity.java:307-334 | refused exactly for "n/a" in any letter case; otherwise dials "tel:" and the trimmed number exactly when a phone app exists |
| InsertProductActivity.DummySupplierNotDialled | app/src/main/java/udacityscholarship/rada/raul/inventoryapp/InsertProductActivity.java:315-318 | a dummy product's supplier is never dialled |
| InsertProductActivity.UpdatedOne | app/src/main/java/udacityscholarship/rada/raul/inventoryapp/InsertProductActivity.java:279-280 | overwriting one product keeps the ids and every other row |
| InsertProductActivity.Editor.constructor | app/src/main/java/udacityscholarship/rada/raul/inventoryapp/InsertProductActivity.java:151-166 | launched with a URI the screen displays it; without one it inserts; no unsaved edits |
| InsertProductActivity.Editor.Touch | app/src/main/java/udacityscholarship/rada/raul/inventoryapp/InsertProductActivity.java:114-120 | touching a field marks unsaved edits and changes nothing else |
| InsertProductActivity.Editor.Edit | app/src/main/java/udacityscholarship/rada/raul/inventoryapp/InsertProductActivity.java:633-636 | the edit menu item leaves display mode and changes nothing else |
| InsertProductActivity.Editor.Restore | app/src/main/java/udacityscholarship/rada/raul/inventoryapp/InsertProductActivity.java:764-787 | the saved mode, URI and edit flag come back |
| InsertProductActivity.Editor.OnBackPressed | app/src/main/java/udacityscholarship/rada/raul/inventoryapp/InsertProductActivity.java:793-813 | the screen finishes at once exactly when there are no unsaved edits; otherwise the discard dialog is shown |
| InsertProductActivity.Editor.NavigateUp | app/src/main/java/udacityscholarship/rada/raul/inventoryapp/InsertProductActivity.java:637-659 | the up button returns to the list at once exactly when there are no unsaved edits; otherwise the discard dialog is shown |
| InsertProductActivity.Editor.UpdateCurrent | app/src/main/java/udacityscholarship/rada/raul/inventoryapp/InsertProductActivity.java:279-280 | an update of the shown product: an exception changes nothing; on a product URI with valid values exactly that row is overwritten and the count is 1 or 0 |
| InsertProductActivity.Editor.InsertNew | app/src/main/java/udacityscholarship/rada/raul/inventoryapp/InsertProductActivity.java:255-273 | exception on a negative price, then quantity; nothing stored when storage fails; otherwise the product is stored under the next id and the screen shows its URI |
| InsertProductActivity.Editor.Save | app/src/main/java/udacityscholarship/rada/raul/inventoryapp/InsertProductActivity.java:171-300 | stops at the first empty field with nothing changed; otherwise inserts or updates as above; after any write without exception the screen is saved and in display mode |
| InsertProductActivity.Editor.Increase | app/src/main/java/udacityscholarship/rada/raul/inventoryapp/InsertProductActivity.java:339-377 | writes the increased quantity into the shown product only; at the largest int the provider throws and nothing changes |
| InsertProductActivity.Editor.Decrease | app/src/main/java/udacityscholarship/rada/raul/inventoryapp/InsertProductActivity.java:382-428 | at 0 or below nothing is written; otherwise the shown product gets quantity minus one and no other row changes |
| InsertProductActivity.Editor.DeleteProduct | app/src/main/java/udacityscholarship/rada/raul/inventoryapp/InsertProductActivity.java:727-746 | removes exactly the shown product and returns 1, or 0 when it is gone |
| ProductCursorAdapter.SellButton.Bind | app/src/main/java/udacityscholarship/rada/raul/inventoryapp/ProductCursorAdapter.java:65-103 | the row captures the product's id and quantity and shows that quantity |
| ProductCursorAdapter.SellButton.Click | app/src/main/java/udacityscholarship/rada/raul/inventoryapp/ProductCursorAdapter.java:105-150 | out of stock exactly at a captured quantity of 0 or less; otherwise that product's quantity becomes the captured one minus one, sold exactly when the product is stored, and the row shows the new quantity only then |
| ProductCursorAdapter.SellButton.ClickTwice | app/src/main/java/udacityscholarship/rada/raul/inventoryapp/ProductCursorAdapter.java:101-135 | two clicks before a reload leave the table as one click does, with the same outcome |
| ProductCursorAdapter.UpdatedOneQuantity | app/src/main/java/udacityscholarship/rada/raul/inventoryapp/ProductCursorAdapter.java:127-135 | a sell sets one product's quantity and keeps every other row and column |
| ProductCursorAdapter.UpdatedOneQuantityIdempotent | app/src/main/java/udacityscholarship/rada/raul/inventoryapp/ProductCursorAdapter.java:127-135 | writing the same quantity twice is writing it once |
| InventoryActivity.DummyNameNumber | app/src/main/java/udacityscholarship/rada/raul/inventoryapp/InventoryActivity.java:228 | a dummy name is "Product " followed by a decimal text that reads back as the dummy's number |
| InventoryActivity.DummySupplierNumber | app/src/main/java/udacityscholarship/rada/raul/inventoryapp/InventoryActivity.java:231 | a dummy supplier is "Supplier " followed by a decimal text that reads back as the dummy's number |
| InventoryActivity.DummyNamesDistinct | app/src/main/java/udacityscholarship/rada/raul/inventoryapp/InventoryActivity.java:228 | different dummy numbers give different product names |
| InventoryActivity.DummyNumberUnique | app/src/main/java/udacityscholarship/rada/raul/inventoryapp/InventoryActivity.java:228-231 | a product is the dummy of at most one number |
| InventoryActivity.DummyInsertable | app/src/main/java/udacityscholarship/rada/raul/inventoryapp/InventoryActivity.java:228-233 | a dummy product passes the provider's insert checks and is stored as given |
| InventoryActivity.Successes | app/src/main/java/udacityscholarship/rada/raul/inventoryapp/InventoryActivity.java:226-234 | at most one stored row per insert of the batch |
| InventoryActivity.SuccessesWithoutFailures | app/src/main/java/udacityscholarship/rada/raul/inventoryapp/InventoryActivity.java:226-234 | without storage failures every insert of the batch stores a row |
| InventoryActivity.BatchDone | app/src/main/java/udacityscholarship/rada/raul/inventoryapp/InventoryActivity.java:226-234 | the record of a batch's turns gives what the batch did: earlier rows kept; each new row a dummy numbered in the batch under an id issued during it; turn k's dummy present exactly when its storage did not fail; larger ids carry larger numbers; names pairwise different; one row per issued id |
| InventoryActivity.BatchStoredTurns | app/src/main/java/udacityscholarship/rada/raul/inventoryapp/InventoryActivity.java:226-234 | turn k's dummy is among the new rows exactly when turn k's storage did not fail |
| InventoryActivity.BatchNumbersIncrease | app/src/main/java/udacityscholarship/rada/raul/inventoryapp/InventoryActivity.java:226-234 | of two new rows, the one with the larger id carries the larger dummy number |
| InventoryActivity.BatchNamesDistinct | app/src/main/java/udacityscholarship/rada/raul/inventoryapp/InventoryActivity.java:226-234 | no two new rows share a name |
| InventoryActivity.Catalog.constructor | app/src/main/java/udacityscholarship/rada/raul/inventoryapp/InventoryActivity.java:77-81 | no product shown yet, last id 0 |
| InventoryActivity.Catalog.GetRandomNumber | app/src/main/java/udacityscholarship/rada/raul/inventoryapp/InventoryActivity.java:198-201 | a number from 1 to n |
| InventoryActivity.Catalog.InsertProduct | app/src/main/java/udacityscholarship/rada/raul/inventoryapp/InventoryActivity.java:164-190 | `saveSuccessful` records whether a row was stored; the row is the product under the next id; a refused value throws and records nothing |
| InventoryActivity.Catalog.InsertDummy | app/src/main/java/udacityscholarship/rada/raul/inventoryapp/InventoryActivity.java:228-233 | one turn of the loop: when its storage does not fail the dummy numbered i is stored under the next id and no other row changes; when it fails the table is unchanged |
| InventoryActivity.Catalog.InsertDummyLoop | app/src/main/java/udacityscholarship/rada/raul/inventoryapp/InventoryActivity.java:226-234 | after the ten turns the batch's record holds for all of them: one new row and one new id per stored turn, each the dummy of its turn, and `saveSuccessful` from the last turn |
| InventoryActivity.Catalog.InsertDummyProducts | app/src/main/java/udacityscholarship/rada/raul/inventoryapp/InventoryActivity.java:224-243 | earlier rows kept; the dummy numbered `lastProductId + 1 + k` is added, under an id issued in the batch, exactly when insert k's storage did not fail; larger ids carry larger numbers; names pairwise different; one new row and one new id per stored insert; the message depends on the last insert only |
| InventoryActivity.Catalog.OnLoadFinished | app/src/main/java/udacityscholarship/rada/raul/inventoryapp/InventoryActivity.java:334-348 | the list shows the delivered rows and keeps the last row's id, or the old id when there are none |
| InventoryActivity.Catalog.Reload | app/src/main/java/udacityscholarship/rada/raul/inventoryapp/InventoryActivity.java:310-348 | the list shows every stored product, and the kept id is the largest stored id |
| InventoryActivity.Catalog.DeleteAllProducts | app/src/main/java/udacityscholarship/rada/raul/inventoryapp/InventoryActivity.java:256-308 | nothing happens for an empty list or a cancelled dialog; a confirmed delete empties the table and reports how many rows it removed |

## Findings

| source | as written | input that shows it | evidently intended | confidence | as-written member | corrected member |
|---|---|---|---|---|---|---|
| app/src/main/java/udacityscholarship/rada/raul/inventoryapp/data/ProductDbHelper.java:46-54 | supplier and number columns declared `STRING`, which SQLite gives NUMERIC affinity, so an integer text is stored as a number | a product whose supplier phone number is "0721234567": it is stored as 721234567 and the leading zero is lost | the columns hold the typed text, as `TEXT` columns do | high, not executed | ProductDbHelper.PhoneLeadingZeroLost | ProductDbHelper.InsertAllColumns |

## Left out

- The views, toasts, dialogs, titles, menu inflation and activity
  navigation (`finish`, `navigateUpFromSameTask`). Only the decisions they
  show are modelled: the outcome datatypes and `Navigation`.
- Loaders and cursors. A reload is `Query` followed by `OnLoadFinished`.
  A change notification is an entry in `Provider.notified`; its delivery
  to observers is not modelled.
- Arbitrary SQL selections, selection arguments, projections and sort
  orders. The app passes none, so a selection is all rows or `_id = ?`.
  ProductProvider.Scan: query results are taken to be in id order. SQLite
  does not promise an order without ORDER BY, but the list relies on the
  last row having the largest id.
- Parsing URI strings with `UriMatcher`. A URI is already classified as
  the collection, one product, or another URI.
- InsertProductActivity.Editor.Save: takes the fields already read from
  the text views and trimmed (`ReadFields`), because reading the views is
  UI. The numeric fields hold the `int` that `Integer.parseInt` returns.
  The `NumberFormatException` it throws on text that is not a number, or
  is out of range, is not modelled.
- InsertProductActivity.Editor.Increase and
  InsertProductActivity.Editor.Decrease: take the shown quantity as an
  `int`, so the `Integer.parseInt` exception is left out for the same
  reason.
- `java.util.Random`. GetRandomNumber picks any number in range.
- `onSaveInstanceState` and the `Bundle`. Restore receives the saved
  values directly.
- `onUpgrade`, which does nothing while the schema is at version 1.
- JavaLang.EqualsIgnoreCase folds ASCII letters only, not the full
  Unicode case mapping of `String.equalsIgnoreCase`.
- InventoryActivity.Catalog.InsertDummyProducts: the loop counter is
  unbounded, so the `int` overflow of `lastProductId + 10` near the
  largest int is not modelled.
- The storage engine's own failures are a boolean argument per insert,
  without a cause. The database being opened or closed is not modelled.
- ProductDbHelper.NumericText: of SQLite's NUMERIC affinity only the
  conversion of an integer text within 64 bits is modelled. Texts SQLite
  would store as REAL (a decimal point, an exponent, an integer beyond 64
  bits) and integer texts with surrounding spaces are kept as given.
- ProductProvider.Provider: its table has TEXT supplier and number
  columns. The conversion that the `STRING` declaration as written
  applies to an integer text is therefore not shown by the provider or
  the screens. ProductDbHelper.PhoneLeadingZeroLost shows it on its own.
