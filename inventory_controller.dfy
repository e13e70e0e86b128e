/** `InventoryController` (app/controllers/inventory_controller.py): add, remove and set the
    quantity a supplier holds of a product. The arithmetic each operation performs is a
    function on the inventory table; the controller methods apply it to the store and
    commit, each touching the one (supplier_id, product_id) entry it names. */
module InventoryController {
  import opened Common
  import opened Store

  /** An inventory row as `Inventory.to_dict` reports it. */
  datatype Row = Row(supplierId: int, productId: int, quantity: int)

  /** The controller's `(result, error)` pair: the row written, or the error text. */
  type Outcome = Result<Row, string>

  const NotFound := "Product not found in inventory"
  const Insufficient := "Insufficient quantity in inventory"
  const Negative := "Quantity cannot be negative"

  /** `a` and `b` agree on every key other than `k`. */
  ghost predicate SameElsewhere(a: Stock, b: Stock, k: StockKey)
  {
    forall k' :: k' != k ==> (k' in a <==> k' in b) && (k' in a ==> a[k'] == b[k'])
  }

  ghost predicate NonNegative(inv: Stock)
  {
    forall k :: k in inv ==> inv[k] >= 0
  }

  /** The stock after `add_product_to_inventory`: an existing entry grows by `q`, a missing
      one is created holding `q`. */
  function Added(inv: Stock, k: StockKey, q: int): (r: Stock)
    ensures k in r && r[k] == (if k in inv then inv[k] + q else q)
    ensures SameElsewhere(inv, r, k)
  {
    inv[k := if k in inv then inv[k] + q else q]
  }

  /** The stock after `remove_from_inventory`, or its error. */
  function Removed(inv: Stock, k: StockKey, q: int): (r: Result<Stock, string>)
    ensures k !in inv ==> r == Failure(NotFound)
    ensures k in inv && inv[k] < q ==> r == Failure(Insufficient)
    ensures k in inv && q <= inv[k] ==>
      r.Success? && k in r.value && r.value[k] == inv[k] - q && SameElsewhere(inv, r.value, k)
    ensures r.Success? && inv[k] >= 0 ==> r.value[k] >= 0
  {
    if k !in inv then Failure(NotFound)
    else if inv[k] < q then Failure(Insufficient)
    else Success(inv[k := inv[k] - q])
  }

  /** The stock after `update_inventory_quantity`, or its error: a negative quantity is refused
      before the entry is looked up; otherwise the entry is set, created if absent. */
  function Updated(inv: Stock, k: StockKey, q: int): (r: Result<Stock, string>)
    ensures q < 0 ==> r == Failure(Negative)
    ensures 0 <= q ==> r.Success? && k in r.value && r.value[k] == q && SameElsewhere(inv, r.value, k)
  {
    if q < 0 then Failure(Negative) else Success(inv[k := q])
  }

  /** `get_supplier_inventory`: exactly the rows whose supplier_id matches. */
  function SupplierInventory(inv: Stock, supplierId: int): (r: set<Row>)
    ensures forall row :: row in r ==>
      row.supplierId == supplierId && (supplierId, row.productId) in inv
      && inv[(supplierId, row.productId)] == row.quantity
    ensures forall p :: (supplierId, p) in inv ==> Row(supplierId, p, inv[(supplierId, p)]) in r
  {
    set k | k in inv && k.0 == supplierId :: Row(k.0, k.1, inv[k])
  }

  /** The text of the `AttributeError` that `Inventory.to_dict` raises when the row's product is
      not in the products table; the controllers answer it as their error after the commit. */
  const NoProduct := "'NoneType' object has no attribute 'to_dict'"

  /** What a controller answers once its write is committed: `to_dict` reaches the row's product,
      so the row is reported only when that product exists. */
  function Reported(products: map<int, Product>, row: Row): (r: Outcome)
    ensures r.Success? <==> row.productId in products
    ensures r.Success? ==> r.value == row
    ensures r.Failure? ==> r.error == NoProduct
  {
    if row.productId in products then Success(row) else Failure(NoProduct)
  }

  /** `add_product_to_inventory`: the table is written and committed whether or not the product
      exists, since nothing enforces the foreign key; only the reply depends on it. */
  method AddProductToInventory(db: Db, supplierId: int, productId: int, quantity: int) returns (r: Outcome)
    modifies db`inventory
    ensures db.inventory == Added(old(db.inventory), (supplierId, productId), quantity)
    ensures productId in db.products ==>
      r == Success(Row(supplierId, productId, db.inventory[(supplierId, productId)]))
    ensures productId !in db.products ==> r == Failure(NoProduct)
  {
    var k := (supplierId, productId);
    if k in db.inventory {
      db.inventory := db.inventory[k := db.inventory[k] + quantity];
    } else {
      db.inventory := db.inventory[k := quantity];
    }
    r := Reported(db.products, Row(supplierId, productId, db.inventory[k]));
  }

  /** `remove_from_inventory`: its two refusals leave the table alone; otherwise the decrement is
      committed and the reply depends on the product as for add. */
  method RemoveFromInventory(db: Db, supplierId: int, productId: int, quantity: int) returns (r: Outcome)
    modifies db`inventory
    ensures var after := Removed(old(db.inventory), (supplierId, productId), quantity);
      && (after.Failure? ==> db.inventory == old(db.inventory) && r == Failure(after.error))
      && (after.Success? ==> db.inventory == after.value
                             && (productId in db.products ==>
                                   r == Success(Row(supplierId, productId, db.inventory[(supplierId, productId)])))
                             && (productId !in db.products ==> r == Failure(NoProduct)))
  {
    var k := (supplierId, productId);
    if k !in db.inventory {
      return Failure(NotFound);
    }
    if db.inventory[k] < quantity {
      return Failure(Insufficient);
    }
    db.inventory := db.inventory[k := db.inventory[k] - quantity];
    r := Reported(db.products, Row(supplierId, productId, db.inventory[k]));
  }

  /** `update_inventory_quantity`: a negative quantity is refused with the table untouched;
      otherwise the entry is set and committed and the reply depends on the product. */
  method UpdateInventoryQuantity(db: Db, supplierId: int, productId: int, newQuantity: int) returns (r: Outcome)
    modifies db`inventory
    ensures var after := Updated(old(db.inventory), (supplierId, productId), newQuantity);
      && (after.Failure? ==> db.inventory == old(db.inventory) && r == Failure(after.error))
      && (after.Success? ==> db.inventory == after.value
                             && (productId in db.products ==> r == Success(Row(supplierId, productId, newQuantity)))
                             && (productId !in db.products ==> r == Failure(NoProduct)))
  {
    if newQuantity < 0 {
      return Failure(Negative);
    }
    var k := (supplierId, productId);
    db.inventory := db.inventory[k := newQuantity];
    r := Reported(db.products, Row(supplierId, productId, newQuantity));
  }

  /** `get_supplier_inventory`: every row of the supplier is reported through `to_dict`, so one
      row naming a missing product turns the whole answer into the error. */
  function SupplierRows(inv: Stock, products: map<int, Product>, supplierId: int): (r: Result<set<Row>, string>)
    ensures r.Failure? <==> exists p :: (supplierId, p) in inv && p !in products
    ensures r.Failure? ==> r.error == NoProduct
    ensures r.Success? ==> r.value == SupplierInventory(inv, supplierId)
  {
    OrphanKey(inv, products, supplierId);
    if exists k :: k in inv && k.0 == supplierId && k.1 !in products then Failure(NoProduct)
    else Success(SupplierInventory(inv, supplierId))
  }

  /** A key of the supplier with a missing product is a product id of the supplier that is missing. */
  lemma OrphanKey(inv: Stock, products: map<int, Product>, supplierId: int)
    ensures (exists k :: k in inv && k.0 == supplierId && k.1 !in products)
            <==> (exists p :: (supplierId, p) in inv && p !in products)
  {
    if exists k :: k in inv && k.0 == supplierId && k.1 !in products {
      var k :| k in inv && k.0 == supplierId && k.1 !in products;
      var p := k.1;
      assert (supplierId, p) == k;
      assert exists p :: (supplierId, p) in inv && p !in products;
    }
    if exists p :: (supplierId, p) in inv && p !in products {
      var p :| (supplierId, p) in inv && p !in products;
      var k := (supplierId, p);
      assert k in inv && k.0 == supplierId && k.1 !in products;
    }
  }

  /** Adding `q` and then removing `q` gives back the original quantity: the table itself when
      the entry existed, and the table with an entry holding 0 when it did not. */
  lemma AddThenRemoveRestores(inv: Stock, k: StockKey, q: int)
    requires k in inv ==> inv[k] >= 0
    ensures Removed(Added(inv, k, q), k, q).Success?
    ensures k in inv ==> Removed(Added(inv, k, q), k, q).value == inv
    ensures k !in inv ==> Removed(Added(inv, k, q), k, q).value == inv[k := 0]
  {
    var after := Removed(Added(inv, k, q), k, q).value;
    if k in inv {
      assert after.Keys == inv.Keys;
    } else {
      assert after.Keys == inv.Keys + {k};
    }
  }

  /** Setting a quantity twice is the same as setting it once. */
  lemma UpdateIdempotent(inv: Stock, k: StockKey, q: int)
    requires q >= 0
    ensures Updated(Updated(inv, k, q).value, k, q) == Updated(inv, k, q)
  {
    var once := Updated(inv, k, q).value;
    assert once[k := q] == once;
  }

  /** Each route-level operation keeps every quantity non-negative: an add of a positive amount,
      a successful remove and a successful set. */
  lemma StockStaysNonNegative(inv: Stock, k: StockKey, q: int)
    requires NonNegative(inv)
    ensures q > 0 ==> NonNegative(Added(inv, k, q))
    ensures Removed(inv, k, q).Success? ==> NonNegative(Removed(inv, k, q).value)
    ensures Updated(inv, k, q).Success? ==> NonNegative(Updated(inv, k, q).value)
  {
  }
}
