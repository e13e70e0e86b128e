/** The order endpoints (app/controllers/order_controller.py). The status rules of
    `update_order` are the function `OrderRule`; shipping removes each item's quantity from the
    supplier's inventory one committed call at a time (`ShipStock`), so a failure part way
    leaves the earlier decrements in place while the order stays confirmed. */
module OrderController {
  import opened Common
  import opened Store
  import opened InventoryController

  const AdminRequired := Reply(403, "Admin access required")
  const Unauthorized := Reply(403, "Unauthorized")
  const NotFoundReply := Reply(404, "Not Found")

  /** What `update_order` does with a requested status it has parsed: set it, ship (decrement
      stock, then set it), or refuse with a 400 message. */
  datatype Verdict = Apply | Ship | Refuse(message: string)

  /** The transition rules of `update_order`, per role. */
  function OrderRule(role: Role, current: OrderStatus, requested: OrderStatus): (r: Verdict)
    // anyone may cancel, but only a pending order
    ensures requested == Cancelled ==> (r == Apply <==> current == Pending)
    ensures requested == Cancelled && current != Pending ==> r == Refuse("Can only cancel pending orders")
    // a supplier may only confirm a pending order or ship a confirmed one
    ensures role == Supplier && requested != Cancelled && !r.Refuse? ==>
      (requested == Confirmed && current == Pending && r == Apply)
      || (requested == Shipped && current == Confirmed && r == Ship)
    ensures role == Supplier && requested == Confirmed && current == Pending ==> r == Apply
    ensures role == Supplier && requested == Shipped && current == Confirmed ==> r == Ship
    ensures role == Supplier && requested in {Pending, Completed} ==>
      r == Refuse("Supplier can only mark order as confirmed or shipped")
    ensures role == Supplier && requested == Confirmed && current != Pending ==>
      r == Refuse("Can only confirm pending orders")
    ensures role == Supplier && requested == Shipped && current != Confirmed ==>
      r == Refuse("Order must be confirmed before shipping")
    // an admin completes only a shipped order, never confirms or ships, and sets anything else unchecked
    ensures role == Admin ==> r != Ship
    ensures role == Admin && requested == Completed ==> (r == Apply <==> current == Shipped)
    ensures role == Admin && requested == Completed && current != Shipped ==>
      r == Refuse("Order must be shipped before completion")
    ensures role == Admin && requested in {Confirmed, Shipped} ==>
      r == Refuse("Only supplier can mark order as confirmed or shipped")
    ensures role == Admin && requested == Pending ==> r == Apply
  {
    if requested == Cancelled then
      if current != Pending then Refuse("Can only cancel pending orders") else Apply
    else if role == Supplier then
      if requested != Confirmed && requested != Shipped then
        Refuse("Supplier can only mark order as confirmed or shipped")
      else if requested == Confirmed && current != Pending then
        Refuse("Can only confirm pending orders")
      else if requested == Shipped then
        if current != Confirmed then Refuse("Order must be confirmed before shipping") else Ship
      else Apply
    else
      if requested == Completed then
        if current != Shipped then Refuse("Order must be shipped before completion") else Apply
      else if requested == Confirmed || requested == Shipped then
        Refuse("Only supplier can mark order as confirmed or shipped")
      else Apply
  }

  /** The `status` field of the body: required, lower-cased, and the value of an `OrderStatus`. */
  function ParseRequested(status: Option<string>): (r: Result<OrderStatus, string>)
    ensures status.None? ==> r == Failure("Status is required")
    ensures r.Success? <==> status.Some? && exists s: OrderStatus :: OrderStatusValue(s) == Lower(status.value)
    ensures r.Success? ==> OrderStatusValue(r.value) == Lower(status.value)
    ensures status.Some? && r.Failure? ==> r.error == "Invalid status"
  {
    if status.None? then Failure("Status is required")
    else
      match ParseOrderStatus(Lower(status.value))
      case None => Failure("Invalid status")
      case Some(s) => Success(s)
  }

  /** One `remove_from_inventory` call of the shipping loop: the stock after it and its error.
      A refusal leaves the stock alone; a decrement is committed even when the reply then fails
      because the item's product is gone. */
  function ShipOne(inv: Stock, products: map<int, Product>, supplier: int, item: LineItem): (r: (Stock, Option<string>))
    ensures Removed(inv, (supplier, item.productId), item.qty).Failure? ==>
      r == (inv, Some(Removed(inv, (supplier, item.productId), item.qty).error))
    ensures Removed(inv, (supplier, item.productId), item.qty).Success? ==>
      r.0 == Removed(inv, (supplier, item.productId), item.qty).value
      && (r.1.None? <==> item.productId in products)
      && (r.1.Some? ==> r.1.value == NoProduct)
  {
    match Removed(inv, (supplier, item.productId), item.qty)
    case Failure(e) => (inv, Some(e))
    case Success(next) => (next, if item.productId in products then None else Some(NoProduct))
  }

  /** The inventory after shipping `items` for `supplier`, with the error of the first item
      `remove_from_inventory` answers with an error. Each committed removal stays when a later
      one fails. */
  function ShipStock(inv: Stock, products: map<int, Product>, supplier: int, items: seq<LineItem>): (r: (Stock, Option<string>))
    ensures r.0.Keys == inv.Keys
    ensures forall k :: k in inv && k.0 != supplier ==> r.0[k] == inv[k]
    ensures NonNegative(inv) ==> NonNegative(r.0)
    ensures r.1.Some? ==> r.1.value == NotFound || r.1.value == Insufficient || r.1.value == NoProduct
    decreases |items|
  {
    if items == [] then (inv, None)
    else
      var step := ShipOne(inv, products, supplier, items[0]);
      if step.1.Some? then step else ShipStock(step.0, products, supplier, items[1..])
  }

  /** The total quantity of product `p` among `items`. */
  function Total(items: seq<LineItem>, p: int): int
    decreases |items|
  {
    if items == [] then 0
    else (if items[0].productId == p then items[0].qty else 0) + Total(items[1..], p)
  }

  /** A shipment without error held an entry for every item, every item's product exists, and
      each of the supplier's quantities went down by exactly that product's total. */
  lemma {:induction false} ShipStockSuccessAmounts(inv: Stock, products: map<int, Product>, supplier: int, items: seq<LineItem>)
    ensures var r := ShipStock(inv, products, supplier, items);
      r.1.None? ==>
        && (forall i :: 0 <= i < |items| ==> (supplier, items[i].productId) in inv && items[i].productId in products)
        && (forall p :: (supplier, p) in inv ==> r.0[(supplier, p)] == inv[(supplier, p)] - Total(items, p))
    decreases |items|
  {
    if items != [] {
      var step := ShipOne(inv, products, supplier, items[0]);
      if step.1.None? {
        var k := (supplier, items[0].productId);
        assert k in inv && step.0 == inv[k := inv[k] - items[0].qty];
        ShipStockSuccessAmounts(step.0, products, supplier, items[1..]);
        var r := ShipStock(inv, products, supplier, items);
        if r.1.None? {
          forall i | 0 <= i < |items|
            ensures (supplier, items[i].productId) in inv && items[i].productId in products
          {
            if i > 0 {
              assert items[i] == items[1..][i - 1];
            }
          }
        }
      }
    }
  }

  /** When the first item ships without error, shipping the first `j + 1` items is shipping
      the `j` after it from the stock the first one left. */
  lemma ShipStockPrefixStep(inv: Stock, products: map<int, Product>, supplier: int, items: seq<LineItem>, j: int)
    requires 0 <= j < |items| && ShipOne(inv, products, supplier, items[0]).1.None?
    ensures ShipStock(inv, products, supplier, items[..j + 1])
            == ShipStock(ShipOne(inv, products, supplier, items[0]).0, products, supplier, items[1..][..j])
  {
    var prefix := items[..j + 1];
    assert prefix != [] && prefix[0] == items[0] && prefix[1..] == items[1..][..j];
  }

  /** A shipment that fails stops at some item `j`: the items before it shipped without error,
      and the stock and error are what the one call for item `j` gives from there. */
  lemma {:induction false} ShipStockFailsAtOneItem(inv: Stock, products: map<int, Product>, supplier: int, items: seq<LineItem>)
    ensures var r := ShipStock(inv, products, supplier, items);
      r.1.Some? ==>
        exists j :: 0 <= j < |items|
          && ShipStock(inv, products, supplier, items[..j]).1.None?
          && ShipOne(ShipStock(inv, products, supplier, items[..j]).0, products, supplier, items[j]) == r
    decreases |items|
  {
    if items != [] {
      var r := ShipStock(inv, products, supplier, items);
      var step := ShipOne(inv, products, supplier, items[0]);
      assert items[..0] == [];
      if step.1.None? {
        ShipStockFailsAtOneItem(step.0, products, supplier, items[1..]);
        if r.1.Some? {
          var j :| 0 <= j < |items[1..]|
            && ShipStock(step.0, products, supplier, items[1..][..j]).1.None?
            && ShipOne(ShipStock(step.0, products, supplier, items[1..][..j]).0, products, supplier, items[1..][j]) == r;
          ShipStockPrefixStep(inv, products, supplier, items, j);
          assert items[1..][j] == items[j + 1];
          assert 0 <= j + 1 < |items|
            && ShipStock(inv, products, supplier, items[..j + 1]).1.None?
            && ShipOne(ShipStock(inv, products, supplier, items[..j + 1]).0, products, supplier, items[j + 1]) == r;
        }
      }
    }
  }

  /** A shipment whose second item is short keeps the decrement of the first. */
  lemma ShipKeepsEarlierDecrements(products: map<int, Product>)
    requires 1 in products
    ensures ShipStock(map[(7, 1) := 5, (7, 2) := 0], products, 7, [LineItem(1, 2, 1.0), LineItem(2, 1, 1.0)])
            == (map[(7, 1) := 3, (7, 2) := 0], Some(Insufficient))
  {
    var inv := map[(7, 1) := 5, (7, 2) := 0];
    var first := Removed(inv, (7, 1), 2);
    assert first == Success(inv[(7, 1) := 3]);
    assert inv[(7, 1) := 3] == map[(7, 1) := 3, (7, 2) := 0];
  }

  /** The loop of `update_order` that ships: one committed `remove_from_inventory` per item,
      stopping at the first error. */
  method ShipItems(db: Db, supplier: int, items: seq<LineItem>) returns (error: Option<string>)
    modifies db`inventory
    ensures (db.inventory, error) == ShipStock(old(db.inventory), db.products, supplier, items)
  {
    var i := 0;
    while i < |items|
      invariant 0 <= i <= |items|
      invariant ShipStock(db.inventory, db.products, supplier, items[i..]) == ShipStock(old(db.inventory), db.products, supplier, items)
    {
      var outcome := RemoveFromInventory(db, supplier, items[i].productId, items[i].qty);
      if outcome.Failure? {
        return Some(outcome.error);
      }
      assert items[i..][1..] == items[i + 1..];
      i := i + 1;
    }
    error := None;
  }

  /** The loop that builds one order item per quotation item. */
  method CopyItems(items: seq<LineItem>) returns (copy: seq<LineItem>)
    ensures |copy| == |items|
    ensures forall i :: 0 <= i < |items| ==>
      copy[i].productId == items[i].productId && copy[i].qty == items[i].qty && copy[i].price == items[i].price
  {
    copy := [];
    for i := 0 to |items|
      invariant |copy| == i
      invariant forall j :: 0 <= j < i ==>
        copy[j].productId == items[j].productId && copy[j].qty == items[j].qty && copy[j].price == items[j].price
    {
      copy := copy + [LineItem(items[i].productId, items[i].qty, items[i].price)];
    }
  }

  /** The supplier of the order's quotation. */
  function OrderSupplier(db: Db, orderId: int): int
    reads db
    requires db.Valid() && orderId in db.orders
  {
    db.quotations[db.orders[orderId].quotationId].supplierUserId
  }

  /** `get_orders`: an admin sees every order, a supplier the orders of its own quotations. */
  function GetOrders(db: Db, caller: Caller): (r: set<int>)
    reads db
    requires db.Valid()
    ensures forall o :: o in r <==> o in db.orders && MayAccess(caller, OrderSupplier(db, o))
  {
    set o | o in db.orders && MayAccess(caller, OrderSupplier(db, o))
  }

  /** `get_order`: 404 for an unknown id, 403 for a supplier who does not own it. */
  function GetOrder(db: Db, caller: Caller, orderId: int): (r: Result<Order, Reply>)
    reads db
    requires db.Valid()
    ensures orderId !in db.orders ==> r == Failure(NotFoundReply)
    ensures r.Success? <==> orderId in db.orders && MayAccess(caller, OrderSupplier(db, orderId))
    ensures r.Success? ==> r.value == db.orders[orderId]
    ensures orderId in db.orders && r.Failure? ==> r.error == Unauthorized
  {
    if orderId !in db.orders then Failure(NotFoundReply)
    else if !MayAccess(caller, OrderSupplier(db, orderId)) then Failure(Unauthorized)
    else Success(db.orders[orderId])
  }

  /** `create_order`: only for an ACCEPTED quotation that has no order yet; the new PENDING
      order copies the quotation's items. */
  method CreateOrder(db: Db, caller: Caller, quotationId: Option<int>) returns (r: Reply)
    requires db.Valid()
    modifies db`orders, db`nextOrderId
    ensures db.Valid()
    ensures r.status != 201 ==> db.orders == old(db.orders)
    ensures caller.role != Admin ==> r == AdminRequired
    ensures caller.role == Admin && quotationId.None? ==> r == Reply(400, "Quotation ID is required")
    ensures caller.role == Admin && quotationId.Some? && quotationId.value !in db.quotations ==> r == NotFoundReply
    ensures caller.role == Admin && quotationId.Some? && quotationId.value in db.quotations ==>
      var q := quotationId.value;
      && (db.quotations[q].status != Accepted ==> r == Reply(400, "Can only create order for accepted quotations"))
      && (db.quotations[q].status == Accepted && HasOrder(old(db.orders), q) ==>
            r == Reply(400, "Order already exists for this quotation"))
      && (db.quotations[q].status == Accepted && !HasOrder(old(db.orders), q) ==>
            && r.status == 201
            && old(db.nextOrderId) !in old(db.orders)
            && db.orders == old(db.orders)[old(db.nextOrderId) := Order(q, Pending, db.quotations[q].items)])
  {
    if caller.role != Admin {
      return AdminRequired;
    }
    if quotationId.None? {
      return Reply(400, "Quotation ID is required");
    }
    var q := quotationId.value;
    if q !in db.quotations {
      return NotFoundReply;
    }
    var quotation := db.quotations[q];
    if quotation.status != Accepted {
      return Reply(400, "Can only create order for accepted quotations");
    }
    if HasOrder(db.orders, q) {
      return Reply(400, "Order already exists for this quotation");
    }
    var items := CopyItems(quotation.items);
    assert items == quotation.items;
    var id := db.nextOrderId;
    db.orders := db.orders[id := Order(q, Pending, items)];
    db.nextOrderId := id + 1;
    r := Reply(201, "");
  }

  /** `update_order`. */
  method UpdateOrder(db: Db, caller: Caller, orderId: int, status: Option<string>) returns (r: Reply)
    requires db.Valid()
    modifies db`orders, db`inventory
    ensures db.Valid()
    ensures orderId !in old(db.orders) ==>
      r == NotFoundReply && db.orders == old(db.orders) && db.inventory == old(db.inventory)
    ensures orderId in old(db.orders) ==>
      var order := old(db.orders[orderId]);
      var supplier := old(OrderSupplier(db, orderId));
      var parsed := ParseRequested(status);
      // a caller who may not see the order, and a missing or unknown status, change nothing
      && (!MayAccess(caller, supplier) ==>
            r == Unauthorized && db.orders == old(db.orders) && db.inventory == old(db.inventory))
      && (MayAccess(caller, supplier) && parsed.Failure? ==>
            r == Reply(400, parsed.error) && db.orders == old(db.orders) && db.inventory == old(db.inventory))
      && (MayAccess(caller, supplier) && parsed.Success? ==>
            var verdict := OrderRule(caller.role, order.status, parsed.value);
            var shipped := ShipStock(old(db.inventory), db.products, supplier, order.items);
            // a refused transition changes nothing
            && (verdict.Refuse? ==>
                  r == Reply(400, verdict.message) && db.orders == old(db.orders) && db.inventory == old(db.inventory))
            // any other transition only sets the status
            && (verdict == Apply ==>
                  r.status == 200 && db.inventory == old(db.inventory)
                  && db.orders == old(db.orders)[orderId := order.(status := parsed.value)])
            // shipping keeps every decrement it committed, and sets the status only if all succeeded
            && (verdict == Ship ==> db.inventory == shipped.0)
            && (verdict == Ship && shipped.1.Some? ==>
                  r == Reply(400, "Inventory error: " + shipped.1.value) && db.orders == old(db.orders))
            && (verdict == Ship && shipped.1.None? ==>
                  r.status == 200 && db.orders == old(db.orders)[orderId := order.(status := Shipped)]))
  {
    if orderId !in db.orders {
      return NotFoundReply;
    }
    var order := db.orders[orderId];
    var supplier := OrderSupplier(db, orderId);
    if !MayAccess(caller, supplier) {
      return Unauthorized;
    }
    var parsed := ParseRequested(status);
    if parsed.Failure? {
      return Reply(400, parsed.error);
    }
    var verdict := OrderRule(caller.role, order.status, parsed.value);
    if verdict.Refuse? {
      return Reply(400, verdict.message);
    }
    if verdict == Ship {
      var error := ShipItems(db, supplier, order.items);
      if error.Some? {
        return Reply(400, "Inventory error: " + error.value);
      }
    }
    db.orders := db.orders[orderId := order.(status := parsed.value)];
    r := Reply(200, "");
  }

  /** `delete_order`: only a pending order may be deleted. */
  method DeleteOrder(db: Db, caller: Caller, orderId: int) returns (r: Reply)
    requires db.Valid()
    modifies db`orders, db`nextOrderId
    ensures db.Valid()
    ensures caller.role != Admin ==> r == AdminRequired && db.orders == old(db.orders)
    ensures caller.role == Admin && orderId !in old(db.orders) ==> r == NotFoundReply && db.orders == old(db.orders)
    ensures caller.role == Admin && orderId in old(db.orders) && old(db.orders[orderId]).status != Pending ==>
      r == Reply(400, "Can only delete pending orders") && db.orders == old(db.orders)
    ensures caller.role == Admin && orderId in old(db.orders) && old(db.orders[orderId]).status == Pending ==>
      r == Reply(200, "Order deleted successfully") && db.orders == old(db.orders) - {orderId}
  {
    if caller.role != Admin {
      return AdminRequired;
    }
    if orderId !in db.orders {
      return NotFoundReply;
    }
    if db.orders[orderId].status != Pending {
      return Reply(400, "Can only delete pending orders");
    }
    db.orders := db.orders - {orderId};
    db.nextOrderId := NextIdAfterDelete(db.orders, db.nextOrderId);
    r := Reply(200, "Order deleted successfully");
  }
}
