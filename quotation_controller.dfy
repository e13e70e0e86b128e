/** The quotation endpoints (app/controllers/quotation_controller.py). Items are checked one
    by one against the products table and the supplier's inventory; the first item that fails
    decides the reply and nothing is stored (the session is rolled back). The stock check
    reads the inventory and never changes it. */
module QuotationController {
  import opened Common
  import opened Store
  import OrderController

  const AdminRequired := Reply(403, "Admin access required")
  const Unauthorized := Reply(403, "Unauthorized")
  const NotFoundReply := Reply(404, "Not Found")
  const MissingItemFields := Reply(400, "Missing required fields in items")

  /** One element of the body's `items` list: each key may be missing. */
  datatype ItemBody = ItemBody(productId: Option<int>, qty: Option<int>, price: Option<real>)

  /** The body of `create_quotation`. */
  datatype CreateBody = CreateBody(items: Option<seq<ItemBody>>, supplierUserId: Option<int>)

  /** The body of `update_quotation`. */
  datatype UpdateBody = UpdateBody(status: Option<string>, items: Option<seq<ItemBody>>)

  /** The checks applied to one item, in the order the loop applies them. */
  function ItemCheck(products: map<int, Product>, inv: Stock, supplier: int, item: ItemBody): (r: Result<LineItem, Reply>)
    ensures r.Success? <==>
      && item.productId.Some? && item.qty.Some? && item.price.Some?
      && item.productId.value in products
      && (supplier, item.productId.value) in inv
      && inv[(supplier, item.productId.value)] >= item.qty.value
    ensures r.Success? ==> r.value == LineItem(item.productId.value, item.qty.value, item.price.value)
    ensures (item.productId.None? || item.qty.None? || item.price.None?) ==> r == Failure(MissingItemFields)
    ensures item.productId.Some? && item.qty.Some? && item.price.Some? && item.productId.value !in products ==>
      r == Failure(Reply(404, "Product " + IntText(item.productId.value) + " not found"))
    ensures item.productId.Some? && item.qty.Some? && item.price.Some? && item.productId.value in products
            && (supplier, item.productId.value) !in inv ==>
      r == Failure(Reply(400, "Product " + IntText(item.productId.value) + " not found in supplier inventory"))
    ensures item.productId.Some? && item.qty.Some? && item.price.Some? && item.productId.value in products
            && (supplier, item.productId.value) in inv && inv[(supplier, item.productId.value)] < item.qty.value ==>
      r == Failure(Reply(400, "Insufficient quantity for product " + IntText(item.productId.value) + " in inventory"))
  {
    if item.productId.None? || item.qty.None? || item.price.None? then Failure(MissingItemFields)
    else
      var p := item.productId.value;
      if p !in products then Failure(Reply(404, "Product " + IntText(p) + " not found"))
      else if (supplier, p) !in inv then Failure(Reply(400, "Product " + IntText(p) + " not found in supplier inventory"))
      else if inv[(supplier, p)] < item.qty.value then
        Failure(Reply(400, "Insufficient quantity for product " + IntText(p) + " in inventory"))
      else Success(LineItem(p, item.qty.value, item.price.value))
  }

  /** The outcome of the item loop: every item checked, or the error of the first that fails. */
  function CheckedItems(products: map<int, Product>, inv: Stock, supplier: int, items: seq<ItemBody>): (r: Result<seq<LineItem>, Reply>)
    ensures r.Success? <==> forall i :: 0 <= i < |items| ==> ItemCheck(products, inv, supplier, items[i]).Success?
    ensures r.Success? ==> |r.value| == |items|
    ensures r.Success? ==> forall i :: 0 <= i < |items| ==> ItemCheck(products, inv, supplier, items[i]) == Success(r.value[i])
    ensures r.Failure? ==> exists i :: 0 <= i < |items| && ItemCheck(products, inv, supplier, items[i]) == Failure(r.error)
                                      && forall j :: 0 <= j < i ==> ItemCheck(products, inv, supplier, items[j]).Success?
    decreases |items|
  {
    if items == [] then Success([])
    else
      match ItemCheck(products, inv, supplier, items[0])
      case Failure(e) => Failure(e)
      case Success(line) =>
        var rest := CheckedItems(products, inv, supplier, items[1..]);
        assert forall i :: 1 <= i < |items| ==> items[i] == items[1..][i - 1];
        if rest.Failure? then
          ghost var k :| 0 <= k < |items[1..]| && ItemCheck(products, inv, supplier, items[1..][k]) == Failure(rest.error)
                         && forall j :: 0 <= j < k ==> ItemCheck(products, inv, supplier, items[1..][j]).Success?;
          assert ItemCheck(products, inv, supplier, items[k + 1]) == Failure(rest.error);
          Failure(rest.error)
        else
          Success([line] + rest.value)
  }

  /** The loop of `create_quotation` and `update_quotation` over the body's items. */
  method CheckItems(products: map<int, Product>, inv: Stock, supplier: int, items: seq<ItemBody>)
    returns (r: Result<seq<LineItem>, Reply>)
    ensures r == CheckedItems(products, inv, supplier, items)
  {
    var lines: seq<LineItem> := [];
    for i := 0 to |items|
      invariant |lines| == i
      invariant forall j :: 0 <= j < i ==> ItemCheck(products, inv, supplier, items[j]) == Success(lines[j])
    {
      var checked := ItemCheck(products, inv, supplier, items[i]);
      if checked.Failure? {
        ghost var expected := CheckedItems(products, inv, supplier, items);
        assert !expected.Success?;
        // the first failing item is unique, so it is this one
        ghost var k :| 0 <= k < |items| && ItemCheck(products, inv, supplier, items[k]) == Failure(expected.error)
                       && forall j :: 0 <= j < k ==> ItemCheck(products, inv, supplier, items[j]).Success?;
        assert k == i;
        return Failure(checked.error);
      }
      lines := lines + [checked.value];
    }
    ghost var expected := CheckedItems(products, inv, supplier, items);
    assert expected.Success?;
    assert expected.value == lines;
    r := Success(lines);
  }

  /** Each item is checked against the stock on its own: two items of the same product may
      together ask for more than the supplier holds. */
  lemma StockCheckIsPerItem()
    ensures CheckedItems(map[1 := Product("bolt", None, None, "B-1", None, None)], map[(7, 1) := 5], 7,
                         [ItemBody(Some(1), Some(3), Some(2.0)), ItemBody(Some(1), Some(3), Some(2.0))])
            == Success([LineItem(1, 3, 2.0), LineItem(1, 3, 2.0)])
  {
    var products := map[1 := Product("bolt", None, None, "B-1", None, None)];
    var item := ItemBody(Some(1), Some(3), Some(2.0));
    assert ItemCheck(products, map[(7, 1) := 5], 7, item) == Success(LineItem(1, 3, 2.0));
    assert [item][1..] == [];
    assert CheckedItems(products, map[(7, 1) := 5], 7, []) == Success([]);
    assert [LineItem(1, 3, 2.0)] + [] == [LineItem(1, 3, 2.0)];
    assert CheckedItems(products, map[(7, 1) := 5], 7, [item]) == Success([LineItem(1, 3, 2.0)]);
    assert [item, item][1..] == [item];
    assert [item, item][0] == item;
    assert CheckedItems(products, map[(7, 1) := 5], 7, [item, item]) == Success([LineItem(1, 3, 2.0)] + [LineItem(1, 3, 2.0)]);
    assert [LineItem(1, 3, 2.0)] + [LineItem(1, 3, 2.0)] == [LineItem(1, 3, 2.0), LineItem(1, 3, 2.0)];
  }

  /** `get_quotations`: an admin sees every quotation, a supplier its own. */
  function GetQuotations(db: Db, caller: Caller): (r: set<int>)
    reads db
    ensures forall q :: q in r <==> q in db.quotations && MayAccess(caller, db.quotations[q].supplierUserId)
  {
    set q | q in db.quotations && MayAccess(caller, db.quotations[q].supplierUserId)
  }

  /** `get_quotation`: 404 for an unknown id, 403 for a supplier who does not own it. */
  function GetQuotation(db: Db, caller: Caller, id: int): (r: Result<Quotation, Reply>)
    reads db
    ensures id !in db.quotations ==> r == Failure(NotFoundReply)
    ensures r.Success? <==> id in db.quotations && MayAccess(caller, db.quotations[id].supplierUserId)
    ensures r.Success? ==> r.value == db.quotations[id]
    ensures id in db.quotations && r.Failure? ==> r.error == Unauthorized
  {
    if id !in db.quotations then Failure(NotFoundReply)
    else if !MayAccess(caller, db.quotations[id].supplierUserId) then Failure(Unauthorized)
    else Success(db.quotations[id])
  }

  /** `create_quotation`. A supplier quotes for itself to admin 1; an admin names the supplier. */
  method CreateQuotation(db: Db, caller: Caller, body: CreateBody) returns (r: Reply)
    requires db.Valid()
    modifies db`quotations, db`nextQuotationId
    ensures db.Valid()
    ensures r.status != 201 ==> db.quotations == old(db.quotations)
    ensures body.items.None? || body.items.value == [] ==> r == Reply(400, "Quotation items are required")
    ensures body.items.Some? && body.items.value != [] && caller.role == Admin && body.supplierUserId.None? ==>
      r == Reply(400, "supplier_user_id is required")
    ensures body.items.Some? && body.items.value != [] && (caller.role == Supplier || body.supplierUserId.Some?) ==>
      var admin := if caller.role == Supplier then 1 else caller.id;
      var supplier := if caller.role == Supplier then caller.id else body.supplierUserId.value;
      var checked := CheckedItems(db.products, db.inventory, supplier, body.items.value);
      && (checked.Failure? ==> r == checked.error)
      && (checked.Success? ==>
            && r.status == 201
            && old(db.nextQuotationId) !in old(db.quotations)
            && db.quotations == old(db.quotations)[old(db.nextQuotationId) :=
                 Quotation(admin, supplier, QuotationPending, checked.value)])
  {
    if body.items.None? || body.items.value == [] {
      return Reply(400, "Quotation items are required");
    }
    var admin, supplier;
    if caller.role == Supplier {
      admin, supplier := 1, caller.id;
    } else {
      if body.supplierUserId.None? {
        return Reply(400, "supplier_user_id is required");
      }
      admin, supplier := caller.id, body.supplierUserId.value;
    }
    var checked := CheckItems(db.products, db.inventory, supplier, body.items.value);
    if checked.Failure? {
      return checked.error;
    }
    var id := db.nextQuotationId;
    db.quotations := db.quotations[id := Quotation(admin, supplier, QuotationPending, checked.value)];
    db.nextQuotationId := id + 1;
    r := Reply(201, "");
  }

  /** `update_quotation`: a supplier sets the status (ACCEPTED or DECLINED, from any current
      status); an admin replaces the items when the body has them. */
  method UpdateQuotation(db: Db, caller: Caller, id: int, body: UpdateBody) returns (r: Reply)
    requires db.Valid()
    modifies db`quotations
    ensures db.Valid()
    ensures id !in old(db.quotations) ==> r == NotFoundReply && db.quotations == old(db.quotations)
    ensures id in old(db.quotations) ==>
      var q := old(db.quotations[id]);
      && (!MayAccess(caller, q.supplierUserId) ==> r == Unauthorized && db.quotations == old(db.quotations))
      && (MayAccess(caller, q.supplierUserId) && caller.role == Supplier ==>
            && (body.status.None? ==> r == Reply(400, "Status is required") && db.quotations == old(db.quotations))
            && (body.status.Some? ==>
                  var s := ParseQuotationStatus(body.status.value);
                  && (s != Some(Accepted) && s != Some(Declined) ==>
                        r == Reply(400, "Invalid status") && db.quotations == old(db.quotations))
                  && (s == Some(Accepted) || s == Some(Declined) ==>
                        r.status == 200 && db.quotations == old(db.quotations)[id := q.(status := s.value)])))
      && (caller.role == Admin ==>
            && (body.items.None? ==> r.status == 200 && db.quotations == old(db.quotations))
            && (body.items.Some? ==>
                  var checked := CheckedItems(db.products, db.inventory, q.supplierUserId, body.items.value);
                  && (checked.Failure? ==> r == checked.error && db.quotations == old(db.quotations))
                  && (checked.Success? ==>
                        r.status == 200 && db.quotations == old(db.quotations)[id := q.(items := checked.value)])))
  {
    if id !in db.quotations {
      return NotFoundReply;
    }
    var q := db.quotations[id];
    if !MayAccess(caller, q.supplierUserId) {
      return Unauthorized;
    }
    if caller.role == Supplier {
      if body.status.None? {
        return Reply(400, "Status is required");
      }
      var s := ParseQuotationStatus(body.status.value);
      if s != Some(Accepted) && s != Some(Declined) {
        return Reply(400, "Invalid status");
      }
      db.quotations := db.quotations[id := q.(status := s.value)];
    } else if body.items.Some? {
      var checked := CheckItems(db.products, db.inventory, q.supplierUserId, body.items.value);
      if checked.Failure? {
        return checked.error;
      }
      db.quotations := db.quotations[id := q.(items := checked.value)];
    }
    r := Reply(200, "");
  }

  /** `delete_quotation`: refused while an order refers to the quotation. */
  method DeleteQuotation(db: Db, caller: Caller, id: int) returns (r: Reply)
    requires db.Valid()
    modifies db`quotations, db`nextQuotationId
    ensures db.Valid()
    ensures r.status != 200 ==> db.quotations == old(db.quotations)
    ensures caller.role != Admin ==> r == AdminRequired
    ensures caller.role == Admin && id !in old(db.quotations) ==> r == NotFoundReply
    ensures caller.role == Admin && id in old(db.quotations) && HasOrder(db.orders, id) ==>
      r == Reply(400, "Cannot delete quotation with associated orders")
    ensures caller.role == Admin && id in old(db.quotations) && !HasOrder(db.orders, id) ==>
      r == Reply(200, "Quotation deleted successfully") && db.quotations == old(db.quotations) - {id}
  {
    if caller.role != Admin {
      return AdminRequired;
    }
    if id !in db.quotations {
      return NotFoundReply;
    }
    if HasOrder(db.orders, id) {
      return Reply(400, "Cannot delete quotation with associated orders");
    }
    db.quotations := db.quotations - {id};
    db.nextQuotationId := NextIdAfterDelete(db.quotations, db.nextQuotationId);
    r := Reply(200, "Quotation deleted successfully");
  }

  /** `approve_quotation`: a PENDING quotation becomes ACCEPTED together with exactly one new
      PENDING order copying its items. */
  method ApproveQuotation(db: Db, caller: Caller, id: int) returns (r: Reply)
    requires db.Valid()
    modifies db`quotations, db`orders, db`nextOrderId
    ensures db.Valid()
    ensures r.status != 200 ==> db.quotations == old(db.quotations) && db.orders == old(db.orders)
    ensures caller.role != Admin ==> r == AdminRequired
    ensures caller.role == Admin && id !in old(db.quotations) ==> r == NotFoundReply
    ensures caller.role == Admin && id in old(db.quotations) && old(db.quotations[id]).status != QuotationPending ==>
      r == Reply(400, "Can only approve pending quotations")
    ensures caller.role == Admin && id in old(db.quotations) && old(db.quotations[id]).status == QuotationPending ==>
      var q := old(db.quotations[id]);
      && r == Reply(200, "Quotation approved and order created successfully")
      && !HasOrder(old(db.orders), id)
      && old(db.nextOrderId) !in old(db.orders)
      && db.orders == old(db.orders)[old(db.nextOrderId) := Order(id, Pending, q.items)]
      && db.quotations == old(db.quotations)[id := q.(status := Accepted)]
  {
    if caller.role != Admin {
      return AdminRequired;
    }
    if id !in db.quotations {
      return NotFoundReply;
    }
    var q := db.quotations[id];
    if q.status != QuotationPending {
      return Reply(400, "Can only approve pending quotations");
    }
    // a pending quotation has no order yet, so the new one is its only order
    assert !HasOrder(db.orders, id);
    var items := OrderController.CopyItems(q.items);
    assert items == q.items;
    var orderId := db.nextOrderId;
    db.orders := db.orders[orderId := Order(id, Pending, items)];
    db.nextOrderId := orderId + 1;
    db.quotations := db.quotations[id := q.(status := Accepted)];
    r := Reply(200, "Quotation approved and order created successfully");
  }

  /** `reject_quotation`: a PENDING quotation becomes DECLINED. */
  method RejectQuotation(db: Db, caller: Caller, id: int) returns (r: Reply)
    requires db.Valid()
    modifies db`quotations
    ensures db.Valid()
    ensures r.status != 200 ==> db.quotations == old(db.quotations)
    ensures caller.role != Admin ==> r == AdminRequired
    ensures caller.role == Admin && id !in old(db.quotations) ==> r == NotFoundReply
    ensures caller.role == Admin && id in old(db.quotations) && old(db.quotations[id]).status != QuotationPending ==>
      r == Reply(400, "Can only reject pending quotations")
    ensures caller.role == Admin && id in old(db.quotations) && old(db.quotations[id]).status == QuotationPending ==>
      r == Reply(200, "Quotation rejected successfully")
      && db.quotations == old(db.quotations)[id := old(db.quotations[id]).(status := Declined)]
  {
    if caller.role != Admin {
      return AdminRequired;
    }
    if id !in db.quotations {
      return NotFoundReply;
    }
    var q := db.quotations[id];
    if q.status != QuotationPending {
      return Reply(400, "Can only reject pending quotations");
    }
    db.quotations := db.quotations[id := q.(status := Declined)];
    r := Reply(200, "Quotation rejected successfully");
  }

  /** Approving a quotation and then asking `create_order` for it does not make a second
      order: the approved quotation already has one. */
  method ApproveThenCreateOrder(db: Db, caller: Caller, id: int) returns (approved: Reply, created: Reply)
    requires db.Valid() && caller.role == Admin
    modifies db`quotations, db`orders, db`nextOrderId
    ensures db.Valid()
    ensures approved.status == 200 ==> created == Reply(400, "Order already exists for this quotation")
  {
    approved := ApproveQuotation(db, caller, id);
    ghost var afterApproval := db.orders;
    assert approved.status == 200 ==> afterApproval[old(db.nextOrderId)].quotationId == id;
    created := OrderController.CreateOrder(db, caller, Some(id));
  }
}
