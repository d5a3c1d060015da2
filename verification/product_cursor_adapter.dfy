/**
 * One row of the product list and its sell button. The row captures the
 * product's id and quantity when it is bound; the button sells one unit by
 * writing that captured quantity minus one.
 */
module ProductCursorAdapter {
  import opened Wrappers
  import opened JavaLang
  import opened ProductContract
  import opened ProductDbHelper
  import opened ProductProvider
  import opened QuantityRules

  /** What a click on the sell button ends in. */
  datatype SellOutcome =
    | OutOfStock
    | UpdateFailed
    | Sold
      /** The provider threw, and the exception ends the app. */
    | Threw(error: ProviderError)

  class SellButton {
    /** The product's id, read once when the row was bound. */
    const productId: int
    /** The product's quantity, read once when the row was bound. */
    const quantity: int32
    /** The quantity the row's text shows. */
    var displayedQuantity: int32

    /** `bindView`: the row shows the product's quantity and captures its id and quantity. */
    constructor Bind(row: Row)
      ensures productId == row.id && quantity == row.product.quantity
      ensures displayedQuantity == row.product.quantity
    {
      productId := row.id;
      quantity := row.product.quantity;
      displayedQuantity := row.product.quantity;
    }

    /**
     * A click: at a captured quantity of 0 or less nothing is written;
     * otherwise the product's row gets the captured quantity minus one, and
     * the text shows it when a row was updated.
     */
    method Click(provider: Provider) returns (outcome: SellOutcome)
      requires provider.Valid()
      modifies this, provider
      ensures provider.Valid()
      ensures outcome == OutOfStock <==> quantity <= 0
      ensures outcome == OutOfStock || outcome.Threw? ==> unchanged(provider)
      ensures productId < 0 && quantity > 0 ==> outcome == Threw(CannotUpdate(OtherUri))
      ensures productId >= 0 && quantity > 0 ==>
        && provider.rows == UpdatedOneQuantity(old(provider.rows), productId, quantity - 1)
        && (outcome == Sold <==> productId in old(provider.rows))
        && (outcome == UpdateFailed <==> productId !in old(provider.rows))
      ensures outcome == Sold ==> displayedQuantity == quantity - 1
      ensures outcome != Sold ==> displayedQuantity == old(displayedQuantity)
    {
      var uri := WithAppendedId(productId);
      var innerQuantity := Decreased(quantity);
      if innerQuantity.None? {
        return OutOfStock;
      }
      DecreasedIsValid(quantity);
      var values := QuantityOnly(innerQuantity.value);
      MatchingOne(provider.rows, productId);
      ApplyUpdateOne(provider.rows, productId, values);
      var r := provider.Update(uri, values, AllRows);
      if r.Err? {
        return Threw(r.error);
      }
      if r.value == 0 {
        outcome := UpdateFailed;
      } else {
        outcome := Sold;
        displayedQuantity := innerQuantity.value;
      }
    }

    /**
     * Clicking the same row again before the list is reloaded writes the
     * same captured quantity minus one: the second click leaves the table
     * as the first left it, so a product sells one unit however often the
     * button is pressed in between.
     */
    method ClickTwice(provider: Provider) returns (first: SellOutcome, second: SellOutcome)
      requires provider.Valid()
      requires productId >= 0 && quantity > 0
      modifies this, provider
      ensures provider.Valid()
      ensures provider.rows == UpdatedOneQuantity(old(provider.rows), productId, quantity - 1)
      ensures first == second
    {
      first := Click(provider);
      ghost var once := provider.rows;
      second := Click(provider);
      UpdatedOneQuantityIdempotent(old(provider.rows), productId, quantity - 1);
    }
  }

  /** The table after a sell of product `id` wrote quantity `q`: that row's quantity is `q`, nothing else changes. */
  function UpdatedOneQuantity(rows: map<int, Product>, id: int, q: int32): (r: map<int, Product>)
    ensures r.Keys == rows.Keys
    ensures forall k :: k in rows && k != id ==> r[k] == rows[k]
    ensures id in rows ==> r[id] == rows[id].(quantity := q)
  {
    if id in rows then rows[id := Overwrite(rows[id], QuantityOnly(q), AsText)] else rows
  }

  /** Writing the same quantity to the same product twice is writing it once. */
  lemma UpdatedOneQuantityIdempotent(rows: map<int, Product>, id: int, q: int32)
    ensures UpdatedOneQuantity(UpdatedOneQuantity(rows, id, q), id, q) == UpdatedOneQuantity(rows, id, q)
  {
    var once := UpdatedOneQuantity(rows, id, q);
    if id in rows {
      assert once[id := once[id]] == once;
    }
  }
}
