/** The supplier inventory page (static/js/supplier/modules/inventory.js): which products the
    "add" modal offers, when a row shows as out of stock, and which requests the update, add,
    remove and out-of-stock handlers send. A quantity arrives as `parseInt` left it: None for
    NaN. A confirmation dialog's answer is a parameter. */
module SupplierInventory {
  import opened Common
  import opened Store
  import opened InventoryController
  import opened InventoryRoutes

  /** A product of `/api/products`, and an inventory row of `/api/inventory`, as far as the
      page reads them. */
  datatype ProductEntry = ProductEntry(id: int, name: string)
  datatype InventoryEntry = InventoryEntry(productId: int, quantity: int)

  /** The `product_id` a handler puts in the body: the number of an inventory row, or the
      text value of the product select. */
  datatype ProductRef = Number(n: int) | Text(s: string)

  /** What a handler does: an alert, nothing, or one request. */
  datatype Action =
    | Alert(message: string)
    | Silent
    | Send(endpoint: string, verb: string, productId: ProductRef, quantity: int)

  const UpdateEndpoint := "/api/inventory/update"
  const AddEndpoint := "/api/inventory/add"
  const InvalidQuantity := "Please enter a valid quantity"

  predicate Stocked(inventory: seq<InventoryEntry>, id: int)
  {
    exists i :: 0 <= i < |inventory| && inventory[i].productId == id
  }

  /** The products the modal offers: those no inventory row names, in their original order. */
  function AvailableProducts(products: seq<ProductEntry>, inventory: seq<InventoryEntry>): (r: seq<ProductEntry>)
    ensures |r| <= |products|
    ensures forall p :: p in r <==> p in products && !Stocked(inventory, p.id)
    decreases |products|
  {
    if products == [] then []
    else
      var rest := AvailableProducts(products[1..], inventory);
      assert forall p :: p in products <==> p == products[0] || p in products[1..];
      if Stocked(inventory, products[0].id) then rest else [products[0]] + rest
  }

  /** The filter keeps order: filtering two lists one after the other is filtering the whole. */
  lemma {:induction false} AvailableProductsAppend(a: seq<ProductEntry>, b: seq<ProductEntry>, inventory: seq<InventoryEntry>)
    ensures AvailableProducts(a + b, inventory) == AvailableProducts(a, inventory) + AvailableProducts(b, inventory)
    decreases |a|
  {
    if a != [] {
      assert (a + b)[0] == a[0];
      assert (a + b)[1..] == a[1..] + b;
      AvailableProductsAppend(a[1..], b, inventory);
      var rest := AvailableProducts(a[1..] + b, inventory);
      assert AvailableProducts(a + b, inventory) == if Stocked(inventory, a[0].id) then rest else [a[0]] + rest;
      if !Stocked(inventory, a[0].id) {
        assert [a[0]] + (AvailableProducts(a[1..], inventory) + AvailableProducts(b, inventory))
            == ([a[0]] + AvailableProducts(a[1..], inventory)) + AvailableProducts(b, inventory);
      }
    } else {
      assert a + b == b;
    }
  }

  /** The badge of a row: out of stock at zero or below. */
  predicate IsOutOfStock(quantity: int): (r: bool)
    ensures quantity == 0 ==> r
    ensures r <==> !(quantity > 0)
  {
    quantity <= 0
  }

  /** Save in the update modal: NaN and negatives are refused with an alert; zero is sent. */
  function SaveUpdate(productId: int, parsed: Option<int>): (r: Action)
    ensures parsed.None? || parsed.value < 0 <==> r == Alert(InvalidQuantity)
    ensures parsed.Some? && parsed.value >= 0 ==> r == Send(UpdateEndpoint, "PUT", Number(productId), parsed.value)
  {
    if parsed.None? || parsed.value < 0 then Alert(InvalidQuantity)
    else Send(UpdateEndpoint, "PUT", Number(productId), parsed.value)
  }

  /** `addToInventory`: no product selected stops with an alert (whose text speaks of the
      quantity); NaN or a quantity not above zero stops silently; otherwise the selected value
      and the quantity are posted. */
  function AddStep(selected: string, parsed: Option<int>): (r: Action)
    ensures selected == "" ==> r == Alert(InvalidQuantity)
    ensures selected != "" && (parsed.None? || parsed.value <= 0) ==> r == Silent
    ensures r.Send? <==> selected != "" && parsed.Some? && parsed.value > 0
    ensures r.Send? ==> r == Send(AddEndpoint, "POST", Text(selected), parsed.value)
  {
    if selected == "" then Alert(InvalidQuantity)
    else if parsed.None? || parsed.value <= 0 then Silent
    else Send(AddEndpoint, "POST", Text(selected), parsed.value)
  }

  /** `removeInventoryItem`: once confirmed, the row is set to zero rather than deleted. */
  function RemoveInventoryItem(productId: int, confirmed: bool): (r: Action)
    ensures !confirmed <==> r == Silent
    ensures confirmed ==> r == Send(UpdateEndpoint, "PUT", Number(productId), 0)
  {
    if !confirmed then Silent else Send(UpdateEndpoint, "PUT", Number(productId), 0)
  }

  /** `markAsOutOfStock`: the same confirmation and request as `removeInventoryItem`. */
  function MarkAsOutOfStock(productId: int, confirmed: bool): (r: Action)
    ensures !confirmed <==> r == Silent
    ensures confirmed ==> r == Send(UpdateEndpoint, "PUT", Number(productId), 0)
  {
    RemoveInventoryItem(productId, confirmed)
  }

  /** Removing an item and marking it out of stock send the same request as saving zero. */
  lemma RemoveIsMarkOutOfStock(productId: int)
    ensures RemoveInventoryItem(productId, true) == MarkAsOutOfStock(productId, true) == SaveUpdate(productId, Some(0))
  {
  }

  /** Every update the page sends passes the update route and the controller, and the row it
      writes shows out of stock exactly when zero was sent. */
  lemma SentUpdateIsApplied(inv: Stock, identity: int, productId: int, parsed: Option<int>)
    requires SaveUpdate(productId, parsed).Send?
    ensures var a := SaveUpdate(productId, parsed);
      var k := (identity, productId);
      && CheckBody(identity, StockBody(Some(productId), Some(a.quantity)), false) == Call(identity, productId, a.quantity)
      && Updated(inv, k, a.quantity).Success?
      && k in Updated(inv, k, a.quantity).value
      && (IsOutOfStock(Updated(inv, k, a.quantity).value[k]) <==> a.quantity == 0)
  {
  }

  /** A removed item comes back from the server as a row held at zero, shown as out of stock. */
  lemma RemovedItemShowsOutOfStock(inv: Stock, identity: int, productId: int)
    ensures var a := RemoveInventoryItem(productId, true);
      var k := (identity, productId);
      && CheckBody(identity, StockBody(Some(productId), Some(a.quantity)), false) == Call(identity, productId, 0)
      && Updated(inv, k, 0).Success? && k in Updated(inv, k, 0).value
      && Updated(inv, k, 0).value[k] == 0 && IsOutOfStock(Updated(inv, k, 0).value[k])
  {
  }

  /** A numeric add the page sends also passes the add route's checks. */
  lemma SentAddIsPositive(selected: string, parsed: Option<int>, productId: int, identity: int)
    requires AddStep(selected, parsed).Send?
    ensures CheckBody(identity, StockBody(Some(productId), Some(AddStep(selected, parsed).quantity)), true).Call?
  {
  }
}
