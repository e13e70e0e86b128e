/** The inventory routes (app/routes/inventory_routes.py): field checks in front of
    `InventoryController`. The checks decide, from the JSON body and the caller's JWT identity
    alone, whether to answer 400 or which controller call to make; the supplier id of that call
    is always the identity, never a body field. */
module InventoryRoutes {
  import opened Common
  import opened Store
  import opened InventoryController

  /** The JSON body of add, remove and update: each field may be missing. */
  datatype StockBody = StockBody(productId: Option<int>, quantity: Option<int>)

  /** What a route answers: an error with its status, a row (200), or a list of rows (200). */
  datatype Response = Error(status: int, error: string) | RowJson(row: Row) | RowsJson(rows: set<Row>)

  /** The route's decision before the controller runs. */
  datatype Step = Reject(response: Response) | Call(supplierId: int, productId: int, quantity: int)

  const MissingFields := "Missing required fields"
  const NotPositive := "Quantity must be positive"

  /** The checks of one route; `positive` is set for add and remove, which refuse a quantity
      that is not above zero. Update has no such check of its own. */
  function CheckBody(identity: int, body: StockBody, positive: bool): (r: Step)
    ensures (body.productId.None? || body.quantity.None?) ==> r == Reject(Error(400, MissingFields))
    ensures body.productId.Some? && body.quantity.Some? && positive && body.quantity.value <= 0
            ==> r == Reject(Error(400, NotPositive))
    ensures r.Call? <==> body.productId.Some? && body.quantity.Some? && (positive ==> body.quantity.value > 0)
    ensures r.Call? ==> r == Call(identity, body.productId.value, body.quantity.value)
  {
    if body.productId.None? || body.quantity.None? then Reject(Error(400, MissingFields))
    else if positive && body.quantity.value <= 0 then Reject(Error(400, NotPositive))
    else Call(identity, body.productId.value, body.quantity.value)
  }

  /** A controller error becomes 400 carrying its text; otherwise 200 with the row. */
  function Respond(o: Outcome): (r: Response)
    ensures o.Failure? <==> r.Error?
    ensures o.Failure? ==> r == Error(400, o.error)
    ensures o.Success? ==> r == RowJson(o.value)
  {
    match o
    case Failure(e) => Error(400, e)
    case Success(row) => RowJson(row)
  }

  /** POST /inventory/add: after the checks the addition is committed; the reply is the row, or
      400 with the controller's error when the product does not exist. */
  method AddToInventory(db: Db, identity: int, body: StockBody) returns (r: Response)
    modifies db`inventory
    ensures CheckBody(identity, body, true).Reject? ==>
      r == CheckBody(identity, body, true).response && db.inventory == old(db.inventory)
    ensures CheckBody(identity, body, true).Call? ==>
      var k := (identity, body.productId.value);
      && db.inventory == Added(old(db.inventory), k, body.quantity.value)
      && (body.productId.value in db.products ==> r == RowJson(Row(identity, body.productId.value, db.inventory[k])))
      && (body.productId.value !in db.products ==> r == Error(400, NoProduct))
  {
    var step := CheckBody(identity, body, true);
    if step.Reject? {
      return step.response;
    }
    var outcome := AddProductToInventory(db, step.supplierId, step.productId, step.quantity);
    r := Respond(outcome);
  }

  /** POST /inventory/remove. */
  method RemoveFromInventoryRoute(db: Db, identity: int, body: StockBody) returns (r: Response)
    modifies db`inventory
    ensures CheckBody(identity, body, true).Reject? ==>
      r == CheckBody(identity, body, true).response && db.inventory == old(db.inventory)
    ensures CheckBody(identity, body, true).Call? ==>
      var k := (identity, body.productId.value);
      var after := Removed(old(db.inventory), k, body.quantity.value);
      && (after.Failure? ==> r == Error(400, after.error) && db.inventory == old(db.inventory))
      && (after.Success? ==> db.inventory == after.value
                             && (body.productId.value in db.products ==>
                                   r == RowJson(Row(identity, body.productId.value, db.inventory[k])))
                             && (body.productId.value !in db.products ==> r == Error(400, NoProduct)))
  {
    var step := CheckBody(identity, body, true);
    if step.Reject? {
      return step.response;
    }
    var outcome := RemoveFromInventory(db, step.supplierId, step.productId, step.quantity);
    r := Respond(outcome);
  }

  /** PUT /inventory/update: zero is passed on, a negative quantity is refused by the controller. */
  method UpdateInventoryRoute(db: Db, identity: int, body: StockBody) returns (r: Response)
    modifies db`inventory
    ensures CheckBody(identity, body, false).Reject? ==>
      r == CheckBody(identity, body, false).response && db.inventory == old(db.inventory)
    ensures CheckBody(identity, body, false).Call? ==>
      var after := Updated(old(db.inventory), (identity, body.productId.value), body.quantity.value);
      && (after.Failure? ==> r == Error(400, Negative) && db.inventory == old(db.inventory))
      && (after.Success? ==> db.inventory == after.value
                             && (body.productId.value in db.products ==>
                                   r == RowJson(Row(identity, body.productId.value, body.quantity.value)))
                             && (body.productId.value !in db.products ==> r == Error(400, NoProduct)))
  {
    var step := CheckBody(identity, body, false);
    if step.Reject? {
      return step.response;
    }
    var outcome := UpdateInventoryQuantity(db, step.supplierId, step.productId, step.quantity);
    r := Respond(outcome);
  }

  /** GET /inventory: exactly the caller's own rows, or 400 when one of them names a product
      that no longer exists. */
  function GetInventory(inv: Stock, products: map<int, Product>, identity: int): (r: Response)
    ensures r.Error? || r.RowsJson?
    ensures r.Error? <==> exists p :: (identity, p) in inv && p !in products
    ensures r.Error? ==> r == Error(400, NoProduct)
    ensures r.RowsJson? ==> forall row :: row in r.rows <==>
      row.supplierId == identity && (identity, row.productId) in inv && row.quantity == inv[(identity, row.productId)]
  {
    match SupplierRows(inv, products, identity)
    case Failure(e) => Error(400, e)
    case Success(rows) => RowsJson(rows)
  }

  /** A zero quantity passes the update route's checks but not those of add and remove. */
  lemma ZeroOnlyThroughUpdate(identity: int, productId: int)
    ensures CheckBody(identity, StockBody(Some(productId), Some(0)), false).Call?
    ensures CheckBody(identity, StockBody(Some(productId), Some(0)), true) == Reject(Error(400, NotPositive))
  {
  }
}
