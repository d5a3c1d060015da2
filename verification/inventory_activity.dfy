/**
 * The product list screen: shows the stored products, remembers the id of
 * the last one, inserts batches of dummy products numbered on from that id,
 * and deletes every product after a confirmation.
 */
module InventoryActivity {
  import opened Wrappers
  import opened JavaLang
  import opened ProductContract
  import opened ProductDbHelper
  import opened ProductProvider

  /** The placeholder supplier phone number of a dummy product. */
  const ProductSupplierPhoneNumber := "n/a"
  /** How many dummy products one menu selection inserts. */
  const MaxDummyProducts := 10
  const ProductNamePrefix := "Product "
  const ProductSupplierPrefix := "Supplier "
  const ProductMaxPrice: int32 := 100
  const ProductMaxQuantity: int32 := 10
  /** Dummy numbering starts one past the last product's id. */
  const PositionOffset := 1

  /** `PRODUCT_NAME + i`. */
  function DummyName(i: int): string
  {
    ProductNamePrefix + IntToString(i)
  }

  /** `PRODUCT_SUPPLIER + i`. */
  function DummySupplier(i: int): string
  {
    ProductSupplierPrefix + IntToString(i)
  }

  /** A dummy name is the name prefix followed by a decimal text that reads back as the dummy's number. */
  lemma DummyNameNumber(i: int)
    ensures |DummyName(i)| > |ProductNamePrefix| && DummyName(i)[..|ProductNamePrefix|] == ProductNamePrefix
    ensures ParseDecimal(DummyName(i)[|ProductNamePrefix|..]) == i
  {
    IntToStringRoundTrip(i);
    assert DummyName(i)[|ProductNamePrefix|..] == IntToString(i);
  }

  /** A dummy supplier is the supplier prefix followed by a decimal text that reads back as the dummy's number. */
  lemma DummySupplierNumber(i: int)
    ensures |DummySupplier(i)| > |ProductSupplierPrefix| && DummySupplier(i)[..|ProductSupplierPrefix|] == ProductSupplierPrefix
    ensures ParseDecimal(DummySupplier(i)[|ProductSupplierPrefix|..]) == i
  {
    IntToStringRoundTrip(i);
    assert DummySupplier(i)[|ProductSupplierPrefix|..] == IntToString(i);
  }

  /** Different numbers give different dummy names. */
  lemma DummyNamesDistinct(i: int, j: int)
    requires DummyName(i) == DummyName(j)
    ensures i == j
  {
    assert DummyName(i)[|ProductNamePrefix|..] == IntToString(i);
    assert DummyName(j)[|ProductNamePrefix|..] == IntToString(j);
    IntToStringInjective(i, j);
  }

  /** The dummy product numbered `i`: its name and supplier carry `i`, price and quantity lie in their random ranges. */
  predicate IsDummyAt(p: Product, i: int)
  {
    && p.name == DummyName(i)
    && p.supplier == DummySupplier(i)
    && p.phone == ProductSupplierPhoneNumber
    && 1 <= p.price <= ProductMaxPrice
    && 1 <= p.quantity <= ProductMaxQuantity
  }

  /** A dummy product passes the insert checks and is stored as given. */
  lemma DummyInsertable(p: Product, i: int)
    requires IsDummyAt(p, i)
    ensures CheckInsert(AllColumns(p)).None? && InsertedRow(AllColumns(p), AsText) == Some(p)
  {
    AllColumnsValid(p);
  }

  /** How many of the first `k` inserts of a batch reach the table: those whose storage does not fail. */
  function Successes(fails: seq<bool>, k: nat): (n: nat)
    requires k <= |fails|
    ensures n <= k
  {
    if k == 0 then 0 else Successes(fails, k - 1) + (if fails[k - 1] then 0 else 1)
  }

  /** Without storage failures every insert of a batch reaches the table. */
  lemma {:induction false} SuccessesWithoutFailures(fails: seq<bool>, k: nat)
    requires k <= |fails|
    requires forall j :: 0 <= j < |fails| ==> !fails[j]
    ensures Successes(fails, k) == k
  {
    if k > 0 {
      SuccessesWithoutFailures(fails, k - 1);
    }
  }

  /** Whether turn k of a batch stores its dummy product: its storage does not fail. */
  predicate Stored(fails: seq<bool>, k: int)
  {
    0 <= k < |fails| && !fails[k]
  }

  /**
   * The table part-way through a dummy batch that started on table `rows0`
   * with next id `next0`, numbering its dummies from `base + 1`, after
   * `done` of its inserts: the earlier rows are kept, and `index` maps the
   * id of each added row to the turn that stored it.
   */
  ghost predicate BatchSoFar(rows0: map<int, Product>, next0: int, base: int, fails: seq<bool>, done: nat,
                             index: map<int, nat>, rows: map<int, Product>)
  {
    && done <= |fails|
    && BatchKeeps(rows0, index, rows)
    && BatchNumbered(rows0, next0, base, fails, done, index, rows)
    && BatchComplete(fails, done, index)
    && BatchOrdered(index)
  }

  /** The rows before the batch are kept, and the others are those `index` names. */
  ghost predicate BatchKeeps(rows0: map<int, Product>, index: map<int, nat>, rows: map<int, Product>)
  {
    && rows.Keys == rows0.Keys + index.Keys
    && (forall id :: id in rows0 ==> rows[id] == rows0[id])
  }

  /**
   * Each added row has a new id, one of the `|index|` ids issued from
   * `next0` on, and was stored by a turn k so far whose storage did not
   * fail: it is the dummy numbered `base + 1 + k`.
   */
  ghost predicate BatchNumbered(rows0: map<int, Product>, next0: int, base: int, fails: seq<bool>, done: nat,
                                index: map<int, nat>, rows: map<int, Product>)
  {
    forall id :: id in index ==>
      && index[id] < done && index[id] < |fails| && !fails[index[id]]
      && id !in rows0 && id in rows && next0 <= id < next0 + |index|
      && IsDummyAt(rows[id], base + 1 + index[id])
  }

  /** Every turn so far whose storage did not fail stored a row. */
  ghost predicate BatchComplete(fails: seq<bool>, done: nat, index: map<int, nat>)
  {
    forall k :: 0 <= k < done && Stored(fails, k) ==> exists id :: id in index && index[id] == k
  }

  /** A later turn stores its row under a larger id. */
  ghost predicate BatchOrdered(index: map<int, nat>)
  {
    forall id1, id2 :: id1 in index && id2 in index && id1 < id2 ==> index[id1] < index[id2]
  }

  /** A turn whose dummy product is stored, under the next id, extends the batch. */
  lemma BatchStep(rows0: map<int, Product>, next0: int, base: int, fails: seq<bool>, done: nat,
                  index: map<int, nat>, rows: map<int, Product>, id: int, p: Product)
    requires BatchSoFar(rows0, next0, base, fails, done, index, rows)
    requires done < |fails| && Stored(fails, done)
    requires id !in rows && id == next0 + |index| && IsDummyAt(p, base + 1 + done)
    ensures BatchSoFar(rows0, next0, base, fails, done + 1, index[id := done], rows[id := p])
  {
    assert id !in index && id !in rows0;
    BatchStepKeeps(rows0, index, rows, id, done, p);
    BatchStepNumbered(rows0, next0, base, fails, done, index, rows, id, p);
    BatchStepComplete(fails, done, index, id);
    BatchStepOrdered(rows0, next0, base, fails, done, index, rows, id);
  }

  lemma BatchStepKeeps(rows0: map<int, Product>, index: map<int, nat>, rows: map<int, Product>,
                       id: int, k: nat, p: Product)
    requires BatchKeeps(rows0, index, rows) && id !in rows
    ensures BatchKeeps(rows0, index[id := k], rows[id := p])
  {
    assert rows[id := p].Keys == rows0.Keys + index[id := k].Keys;
  }

  lemma BatchStepNumbered(rows0: map<int, Product>, next0: int, base: int, fails: seq<bool>, done: nat,
                          index: map<int, nat>, rows: map<int, Product>, id: int, p: Product)
    requires BatchNumbered(rows0, next0, base, fails, done, index, rows)
    requires Stored(fails, done)
    requires id !in rows && id !in rows0 && id !in index && id == next0 + |index| && IsDummyAt(p, base + 1 + done)
    ensures BatchNumbered(rows0, next0, base, fails, done + 1, index[id := done], rows[id := p])
  {
    var index', rows' := index[id := done], rows[id := p];
    assert |index'| == |index| + 1;
    forall k | k in index'
      ensures && index'[k] < done + 1 && index'[k] < |fails| && !fails[index'[k]]
              && k !in rows0 && k in rows' && next0 <= k < next0 + |index'|
              && IsDummyAt(rows'[k], base + 1 + index'[k])
    {
      if k != id {
        assert index'[k] == index[k] && rows'[k] == rows[k];
      }
    }
  }

  lemma BatchStepComplete(fails: seq<bool>, done: nat, index: map<int, nat>, id: int)
    requires BatchComplete(fails, done, index)
    requires id !in index
    ensures BatchComplete(fails, done + 1, index[id := done])
  {
    var index' := index[id := done];
    forall k | 0 <= k < done + 1 && Stored(fails, k)
      ensures exists x :: x in index' && index'[x] == k
    {
      if k < done {
        var x :| x in index && index[x] == k;
        assert x in index' && index'[x] == k;
      } else {
        assert id in index' && index'[id] == k;
      }
    }
  }

  lemma BatchStepOrdered(rows0: map<int, Product>, next0: int, base: int, fails: seq<bool>, done: nat,
                         index: map<int, nat>, rows: map<int, Product>, id: int)
    requires BatchNumbered(rows0, next0, base, fails, done, index, rows) && BatchOrdered(index)
    requires id !in index && id == next0 + |index|
    ensures BatchOrdered(index[id := done])
  {
    var index' := index[id := done];
    forall id1, id2 | id1 in index' && id2 in index' && id1 < id2 ensures index'[id1] < index'[id2] {
      if id2 != id {
        assert id1 != id;
        assert index'[id1] == index[id1] && index'[id2] == index[id2];
      } else {
        assert index'[id1] == index[id1];
      }
    }
  }

  /** A turn whose storage fails leaves the batch as it was. */
  lemma BatchSkip(rows0: map<int, Product>, next0: int, base: int, fails: seq<bool>, done: nat,
                  index: map<int, nat>, rows: map<int, Product>)
    requires BatchSoFar(rows0, next0, base, fails, done, index, rows)
    requires done < |fails| && !Stored(fails, done)
    ensures BatchSoFar(rows0, next0, base, fails, done + 1, index, rows)
  {
  }

  /** The batch added one row per entry of `index`. */
  lemma BatchCount(rows0: map<int, Product>, index: map<int, nat>, rows: map<int, Product>)
    requires BatchKeeps(rows0, index, rows)
    requires forall id :: id in index ==> id !in rows0
    ensures |rows| == |rows0| + |index|
  {
    assert forall id :: id in index.Keys ==> id !in rows0.Keys;
    assert rows0.Keys * index.Keys == {};
    assert |rows.Keys| == |rows0.Keys| + |index.Keys|;
  }

  /**
   * What a dummy batch of `turns` turns leaves in a table that held `rows0`
   * with `next0` as its next id, when it ends with `next` as the next id and
   * the table holding `rows`: the earlier rows are kept; every added row
   * has a fresh id below `next` and is a dummy numbered within the batch;
   * turn k added the dummy numbered `base + 1 + k` exactly when its storage
   * did not fail; dummies added later carry larger numbers; no two added
   * rows share a name; and one row was added per id issued.
   */
  ghost predicate DummyBatch(rows0: map<int, Product>, next0: int, next: int, base: int, fails: seq<bool>,
                             turns: nat, rows: map<int, Product>)
  {
    && (forall id :: id in rows0 ==> id in rows && rows[id] == rows0[id])
    && (forall id :: id in rows && id !in rows0 ==>
          && next0 <= id < next
          && exists j :: base < j <= base + turns && IsDummyAt(rows[id], j))
    && (forall k {:trigger Stored(fails, k)} :: 0 <= k < turns ==>
          (Stored(fails, k) <==> exists id :: id in rows && id !in rows0 && IsDummyAt(rows[id], base + 1 + k)))
    && (forall id1, id2, j1, j2 ::
          && id1 in rows && id1 !in rows0 && id2 in rows && id2 !in rows0 && id1 < id2
          && IsDummyAt(rows[id1], j1) && IsDummyAt(rows[id2], j2)
          ==> j1 < j2)
    && (forall id1, id2 ::
          id1 in rows && id1 !in rows0 && id2 in rows && id2 !in rows0 && id1 != id2 ==> rows[id1].name != rows[id2].name)
    && |rows| == |rows0| + (next - next0)
  }

  /** A batch's record of its turns so far gives what the batch has done to the table. */
  lemma BatchDone(rows0: map<int, Product>, next0: int, next: int, base: int, fails: seq<bool>, done: nat,
                  index: map<int, nat>, rows: map<int, Product>)
    requires BatchSoFar(rows0, next0, base, fails, done, index, rows) && next == next0 + |index|
    ensures DummyBatch(rows0, next0, next, base, fails, done, rows)
  {
    BatchCount(rows0, index, rows);
    BatchAddedAreDummies(rows0, next0, base, fails, done, index, rows);
    BatchStoredTurns(rows0, next0, base, fails, done, index, rows);
    BatchNumbersIncrease(rows0, next0, base, fails, done, index, rows);
    BatchNamesDistinct(rows0, next0, base, fails, done, index, rows);
  }

  lemma BatchNamesDistinct(rows0: map<int, Product>, next0: int, base: int, fails: seq<bool>, done: nat,
                           index: map<int, nat>, rows: map<int, Product>)
    requires BatchKeeps(rows0, index, rows) && BatchNumbered(rows0, next0, base, fails, done, index, rows)
    requires BatchOrdered(index)
    ensures forall id1, id2 ::
      id1 in rows && id1 !in rows0 && id2 in rows && id2 !in rows0 && id1 != id2 ==> rows[id1].name != rows[id2].name
  {
    forall id1, id2 | id1 in rows && id1 !in rows0 && id2 in rows && id2 !in rows0 && id1 != id2
      ensures rows[id1].name != rows[id2].name
    {
      assert id1 in index && id2 in index;
      assert index[id1] != index[id2];
      DummyNamesDiffer(rows[id1], rows[id2], base + 1 + index[id1], base + 1 + index[id2]);
    }
  }

  /** Dummies with different numbers have different names. */
  lemma DummyNamesDiffer(p: Product, q: Product, i: int, j: int)
    requires IsDummyAt(p, i) && IsDummyAt(q, j) && i != j
    ensures p.name != q.name
  {
    if p.name == q.name {
      DummyNamesDistinct(i, j);
    }
  }

  lemma BatchAddedAreDummies(rows0: map<int, Product>, next0: int, base: int, fails: seq<bool>, done: nat,
                             index: map<int, nat>, rows: map<int, Product>)
    requires BatchSoFar(rows0, next0, base, fails, done, index, rows)
    ensures forall id :: id in rows && id !in rows0 ==>
      && next0 <= id < next0 + |index|
      && exists j :: base < j <= base + done && IsDummyAt(rows[id], j)
  {
    forall id | id in rows && id !in rows0
      ensures && next0 <= id < next0 + |index|
              && exists j :: base < j <= base + done && IsDummyAt(rows[id], j)
    {
      assert id in index;
      assert IsDummyAt(rows[id], base + 1 + index[id]);
    }
  }

  lemma BatchStoredTurns(rows0: map<int, Product>, next0: int, base: int, fails: seq<bool>, done: nat,
                         index: map<int, nat>, rows: map<int, Product>)
    requires BatchKeeps(rows0, index, rows) && BatchNumbered(rows0, next0, base, fails, done, index, rows)
    requires BatchComplete(fails, done, index)
    ensures forall k {:trigger Stored(fails, k)} :: 0 <= k < done ==>
      (Stored(fails, k) <==> exists id :: id in rows && id !in rows0 && IsDummyAt(rows[id], base + 1 + k))
  {
    forall k | 0 <= k < done
      ensures Stored(fails, k) <==> exists id :: id in rows && id !in rows0 && IsDummyAt(rows[id], base + 1 + k)
    {
      if Stored(fails, k) {
        StoredTurnPresent(rows0, next0, base, fails, done, index, rows, k);
      } else {
        forall id | id in rows && id !in rows0
          ensures !IsDummyAt(rows[id], base + 1 + k)
        {
          if IsDummyAt(rows[id], base + 1 + k) {
            PresentTurnStored(rows0, next0, base, fails, done, index, rows, k, id);
          }
        }
      }
    }
  }

  lemma PresentTurnStored(rows0: map<int, Product>, next0: int, base: int, fails: seq<bool>, done: nat,
                          index: map<int, nat>, rows: map<int, Product>, k: int, id: int)
    requires BatchKeeps(rows0, index, rows) && BatchNumbered(rows0, next0, base, fails, done, index, rows)
    requires id in rows && id !in rows0 && IsDummyAt(rows[id], base + 1 + k)
    ensures Stored(fails, k)
  {
    DummyRowNumber(rows0, next0, base, fails, done, index, rows, id, base + 1 + k);
    assert index[id] == k;
  }

  lemma StoredTurnPresent(rows0: map<int, Product>, next0: int, base: int, fails: seq<bool>, done: nat,
                          index: map<int, nat>, rows: map<int, Product>, k: int)
    requires BatchKeeps(rows0, index, rows) && BatchNumbered(rows0, next0, base, fails, done, index, rows)
    requires BatchComplete(fails, done, index)
    requires 0 <= k < done && Stored(fails, k)
    ensures exists id :: id in rows && id !in rows0 && IsDummyAt(rows[id], base + 1 + k)
  {
    var x :| x in index && index[x] == k;
    assert x in rows && x !in rows0 && IsDummyAt(rows[x], base + 1 + k);
  }

  /** A dummy's number is fixed by its name. */
  lemma DummyNumberUnique(p: Product, i: int, j: int)
    requires IsDummyAt(p, i) && IsDummyAt(p, j)
    ensures i == j
  {
    DummyNamesDistinct(i, j);
  }

  /** An added row that is the dummy numbered j was stored by turn `j - base - 1`. */
  lemma DummyRowNumber(rows0: map<int, Product>, next0: int, base: int, fails: seq<bool>, done: nat,
                       index: map<int, nat>, rows: map<int, Product>, id: int, j: int)
    requires BatchKeeps(rows0, index, rows) && BatchNumbered(rows0, next0, base, fails, done, index, rows)
    requires id in rows && id !in rows0 && IsDummyAt(rows[id], j)
    ensures id in index && j == base + 1 + index[id]
  {
    assert id in index;
    DummyNumberUnique(rows[id], j, base + 1 + index[id]);
  }

  lemma BatchNumbersIncrease(rows0: map<int, Product>, next0: int, base: int, fails: seq<bool>, done: nat,
                             index: map<int, nat>, rows: map<int, Product>)
    requires BatchKeeps(rows0, index, rows) && BatchNumbered(rows0, next0, base, fails, done, index, rows)
    requires BatchOrdered(index)
    ensures forall id1, id2, j1, j2 ::
      && id1 in rows && id1 !in rows0 && id2 in rows && id2 !in rows0 && id1 < id2
      && IsDummyAt(rows[id1], j1) && IsDummyAt(rows[id2], j2)
      ==> j1 < j2
  {
    forall id1, id2, j1, j2 |
      && id1 in rows && id1 !in rows0 && id2 in rows && id2 !in rows0 && id1 < id2
      && IsDummyAt(rows[id1], j1) && IsDummyAt(rows[id2], j2)
      ensures j1 < j2
    {
      DummyRowNumber(rows0, next0, base, fails, done, index, rows, id1, j1);
      DummyRowNumber(rows0, next0, base, fails, done, index, rows, id2, j2);
    }
  }

  /**
   * The counters of a dummy batch after `done` of its inserts: one new row
   * and one new id per insert whose storage did not fail, and the outcome
   * of the last insert recorded.
   */
  ghost predicate BatchCounted(fails: seq<bool>, done: nat, index: map<int, nat>,
                               next0: int, nextId: int, saveSuccessful: bool)
  {
    && done <= |fails|
    && |index| == Successes(fails, done)
    && nextId == next0 + |index|
    && (done > 0 ==> saveSuccessful == !fails[done - 1])
  }

  /** What the delete-all menu item ends in. */
  datatype DeleteAllOutcome =
    | NothingToDelete
    | Cancelled
    | DeleteFailed
    | DeletedAll(count: int)

  class Catalog {
    /** The id of the last product the list showed; 0 before any was loaded. */
    var lastProductId: int
    /** Whether the most recent insert of a dummy product succeeded. */
    var saveSuccessful: bool
    /** The number of products the list shows. */
    var listCount: nat

    constructor ()
      ensures lastProductId == 0 && !saveSuccessful && listCount == 0
    {
      lastProductId := 0;
      saveSuccessful := false;
      listCount := 0;
    }

    /** `random.nextInt(n) + 1`: a number from 1 to n. */
    method GetRandomNumber(n: int32) returns (r: int32)
      requires n > 0
      ensures 1 <= r <= n
    {
      r :| 1 <= r <= n;
    }

    /**
     * Inserts one product through the provider and records whether a row
     * was stored. A refused value makes the provider throw, and then
     * nothing is recorded.
     */
    method InsertProduct(provider: Provider, name: string, price: int32, quantity: int32,
                         supplier: string, phone: string, storageFails: bool)
      returns (r: Result<Option<Uri>, ProviderError>)
      requires provider.Valid()
      modifies this, provider
      ensures provider.Valid()
      ensures lastProductId == old(lastProductId) && listCount == old(listCount)
      ensures r.Ok? ==> saveSuccessful == r.value.Some?
      ensures r.Err? ==> saveSuccessful == old(saveSuccessful)
      ensures r.Err? || r == Ok(None) ==> unchanged(provider)
      ensures price < 0 ==> r == Err(Invalid(PricePositive))
      ensures price >= 0 && quantity < 0 ==> r == Err(Invalid(QuantityPositive))
      ensures price >= 0 && quantity >= 0 ==> r.Ok? && (r.value.Some? <==> !storageFails)
      ensures r.Ok? && r.value.Some? ==>
        && old(provider.nextId) !in old(provider.rows)
        && provider.rows == old(provider.rows)[old(provider.nextId) := Product(name, price, quantity, supplier, phone)]
        && provider.nextId == old(provider.nextId) + 1
    {
      var p := Product(name, price, quantity, supplier, phone);
      AllColumnsValid(p);
      r := provider.Insert(ProductsUri, AllColumns(p), storageFails);
      if r.Ok? {
        saveSuccessful := r.value.Some?;
      }
    }

    /**
     * One turn of the dummy batch, turn `done`: the dummy product numbered
     * `i`, with a random price and quantity, is inserted, and is stored
     * under the next id unless its storage fails.
     */
    method InsertDummy(provider: Provider, i: int, storageFails: seq<bool>, done: nat, ghost rows0: map<int, Product>,
                       ghost next0: int, ghost base: int, ghost index: map<int, nat>)
      returns (ghost index': map<int, nat>)
      requires provider.Valid()
      requires done < |storageFails| && i == base + done + 1
      requires BatchCounted(storageFails, done, index, next0, provider.nextId, saveSuccessful)
      requires BatchSoFar(rows0, next0, base, storageFails, done, index, provider.rows)
      modifies this, provider
      ensures provider.Valid()
      ensures lastProductId == old(lastProductId) && listCount == old(listCount)
      ensures BatchCounted(storageFails, done + 1, index', next0, provider.nextId, saveSuccessful)
      ensures BatchSoFar(rows0, next0, base, storageFails, done + 1, index', provider.rows)
      ensures !storageFails[done] ==>
        var id := old(provider.nextId);
        && id !in old(provider.rows) && id in provider.rows
        && provider.rows == old(provider.rows)[id := provider.rows[id]]
        && IsDummyAt(provider.rows[id], i)
        && index' == index[id := done]
      ensures storageFails[done] ==> provider.rows == old(provider.rows) && index' == index
    {
      var price := GetRandomNumber(ProductMaxPrice);
      var quantity := GetRandomNumber(ProductMaxQuantity);
      ghost var id := provider.nextId;
      ghost var rows := provider.rows;
      var p := Product(DummyName(i), price, quantity, DummySupplier(i), ProductSupplierPhoneNumber);
      var r := InsertProduct(provider, p.name, p.price, p.quantity, p.supplier, p.phone, storageFails[done]);
      if r.value.Some? {
        BatchStep(rows0, next0, base, storageFails, done, index, rows, id, p);
        index' := index[id := done];
      } else {
        BatchSkip(rows0, next0, base, storageFails, done, index, rows);
        index' := index;
      }
    }

    /**
     * The insert-dummy-products menu item: ten products numbered on from the
     * last product's id, with random prices and quantities. Turn k inserts
     * the dummy numbered `lastProductId + 1 + k`, which is stored unless
     * `storageFails[k]`, under the id issued after the turns before it that
     * stored theirs. Only the outcome of the LAST insert decides the
     * message shown.
     */
    method InsertDummyProducts(provider: Provider, storageFails: seq<bool>)
      requires provider.Valid()
      requires |storageFails| == MaxDummyProducts
      modifies this, provider
      ensures provider.Valid()
      ensures lastProductId == old(lastProductId) && listCount == old(listCount)
      ensures saveSuccessful == !storageFails[MaxDummyProducts - 1]
      ensures provider.nextId == old(provider.nextId) + Successes(storageFails, MaxDummyProducts)
      ensures DummyBatch(old(provider.rows), old(provider.nextId), provider.nextId, old(lastProductId), storageFails,
                         MaxDummyProducts, provider.rows)
    {
      ghost var rows0, next0, base := provider.rows, provider.nextId, lastProductId;
      ghost var index := InsertDummyLoop(provider, storageFails);
      BatchDone(rows0, next0, provider.nextId, base, storageFails, MaxDummyProducts, index, provider.rows);
    }

    /** The loop of the dummy batch, with `index` the turn that stored each added product. */
    method InsertDummyLoop(provider: Provider, storageFails: seq<bool>) returns (ghost index: map<int, nat>)
      requires provider.Valid()
      requires |storageFails| == MaxDummyProducts
      modifies this, provider
      ensures provider.Valid()
      ensures lastProductId == old(lastProductId) && listCount == old(listCount)
      ensures BatchCounted(storageFails, MaxDummyProducts, index, old(provider.nextId), provider.nextId, saveSuccessful)
      ensures BatchSoFar(old(provider.rows), old(provider.nextId), lastProductId, storageFails, MaxDummyProducts, index, provider.rows)
    {
      ghost var rows0 := provider.rows;
      ghost var next0 := provider.nextId;
      ghost var base := lastProductId;
      index := map[];
      // the Java loop runs i from lastProductId + 1 for ten values; `done` counts them
      for done := 0 to MaxDummyProducts
        invariant lastProductId == base && listCount == old(listCount)
        invariant provider.Valid()
        invariant BatchCounted(storageFails, done, index, next0, provider.nextId, saveSuccessful)
        invariant BatchSoFar(rows0, next0, base, storageFails, done, index, provider.rows)
      {
        var i := lastProductId + PositionOffset + done;
        index := InsertDummy(provider, i, storageFails, done, rows0, next0, base, index);
      }
    }

    /** The loader delivered the products' rows in id order: the list shows them and the last id is kept. */
    method OnLoadFinished(data: seq<Row>)
      modifies this
      ensures listCount == |data|
      ensures lastProductId == if data == [] then old(lastProductId) else data[|data| - 1].id
      ensures saveSuccessful == old(saveSuccessful)
    {
      listCount := |data|;
      if |data| > 0 {
        lastProductId := data[|data| - 1].id;
      }
    }

    /**
     * The list's loader queries the whole collection and hands the rows to
     * `OnLoadFinished`: the list then shows every product, and the kept id
     * is the largest stored one, so the next dummy batch starts past it.
     */
    method Reload(provider: Provider)
      requires provider.Valid()
      modifies this
      ensures listCount == |provider.rows|
      ensures provider.rows != map[] ==>
        lastProductId in provider.rows && forall id :: id in provider.rows ==> id <= lastProductId
      ensures provider.rows == map[] ==> lastProductId == old(lastProductId)
    {
      var data := provider.Query(ProductsUri, AllRows).value;
      ScanAll(provider.rows, provider.nextId);
      OnLoadFinished(data);
    }

    /**
     * The delete-all menu item: with an empty list it only says there is
     * nothing to delete; otherwise, once confirmed, every product is removed.
     */
    method DeleteAllProducts(provider: Provider, confirmed: bool) returns (outcome: DeleteAllOutcome)
      requires provider.Valid()
      modifies provider
      ensures provider.Valid()
      ensures listCount == 0 ==> outcome == NothingToDelete && unchanged(provider)
      ensures listCount > 0 && !confirmed ==> outcome == Cancelled && unchanged(provider)
      ensures listCount > 0 && confirmed ==>
        && provider.rows == map[]
        && outcome == if old(provider.rows) == map[] then DeleteFailed else DeletedAll(|old(provider.rows)|)
    {
      if listCount == 0 {
        return NothingToDelete;
      }
      if !confirmed {
        return Cancelled;
      }
      MatchingAll(provider.rows);
      var r := provider.Delete(ProductsUri, AllRows);
      assert provider.rows.Keys == {};
      outcome := if r.value == 0 then DeleteFailed else DeletedAll(r.value);
    }
  }
}
