# TechFix procurement core, modelled in Dafny

TechFix is a procurement portal. Suppliers keep an inventory and answer quotations. Admins
approve quotations into orders. Orders move from pending through confirmed and shipped to
completed, or are cancelled. This project models three parts of it and proves their rules.

- **The Flask back end.** The database is one mutable store, the class `Store.Db`. It holds
  users, the token blacklist, products, quotations, orders and the inventory, a map from
  (supplier_id, product_id) to a quantity. For each table it also holds the id its next row gets.
  Every integer key is declared without AUTOINCREMENT, so SQLite gives one more than the
  largest id in the table, or 1 in an empty table. The model recomputes this after every
  delete, so the id of a deleted highest row is given out again.
  - Every controller endpoint is a method that changes only the fields its `modifies` clause
    names. It returns the HTTP status and message as a `Common.Reply`.
  - Every such method keeps the store invariant `Store.Db.Valid`:
    - ids are positive, and each table's next id is one more than its largest id, or 1;
    - every order has its quotation, and no quotation has two orders;
    - a quotation with an order is no longer pending;
    - part numbers, emails and blacklist jtis are unique.
  - A commit followed by a rollback is modelled as "the table changes only on success". The
    one exception is shipping an order. There each inventory decrement is committed on its
    own, so the decrements of earlier items survive a later failure.
  - Foreign keys are not enforced, as in SQLite's default. So an inventory row may name a
    product that does not exist. The inventory endpoints commit such a row and only then
    build the reply, and `Inventory.to_dict` fails on the missing product. The model states
    this case: the table is written, and the answer is 400 with the AttributeError text.
  - The decisions themselves are pure functions, with lemmas about them:
    - the order status rules for each role;
    - the item checks of a quotation;
    - the inventory arithmetic;
    - the login decision and the role filter.
- **The browser's token gateway.** `localStorage` is the class `TokenStore.LocalStorage`. Each
  asynchronous step of `handleApiRequest` is an event method on a class:
  - the first answer is a 401 while idle, a 401 while a refresh runs, or another status;
  - the end of the refresh is a success or a failure.

  There are two copies of the gateway, and they differ:
  - The admin dashboard (`AdminDashboard.AdminGateway`) keeps its flag and its queue in one
    module. Parked callers are settled when the refresh ends, and then retry with the new
    token.
  - The supplier dashboard has two queues. `SupplierApi.ApiHandler` parks callers in its own
    queue. The `processQueue` it calls, `SupplierAuth.AuthModule.ProcessQueue`, drains the auth
    module's queue, which nothing ever fills. So a caller parked during a refresh is never
    settled, and `SupplierApi.SecondCallerIsStranded` shows this.
- **Validators and builders.** These are pure functions:
  - the image-name whitelist;
  - the login page's e-mail and password checks, and its submit gate;
  - the admin section URLs;
  - the supplier inventory page's "products not yet stocked" filter and its quantity checks.

The refresh endpoint, the login endpoint and the fetches are not modelled as network calls.
Their answers are parameters: `TokenStore.RefreshAnswer`, `Login.LoginAnswer` and the
statuses given to the `OnResponse` methods. The clock is a parameter too, as `now`. So are the
caller's identity and role, which the JWT decorators would supply, and the path an uploaded
image is saved under. A redirect to the login page is a returned `toLogin` flag.

## Model

| member | source | states |
|---|---|---|
| Store.ParseOrderStatus | app/models/order.py:5-10 | `OrderStatus(v)` gives the member whose value is v, and fails exactly when no member has that value |
| Store.ParseQuotationStatus | app/models/quotation.py:5-8 | `QuotationStatus(v)` matches values exactly, with no case folding, and fails exactly when no member has that value |
| Store.FirstMatch | app/controllers/user_controller.py:50-53 | `.first()` gives the lowest-id matching user in the range, or None when no user in range matches |
| Store.NextIdAfterDelete | app/models/order.py:15 | after a delete the next id is recomputed from a bound above every key: the result is one more than the largest id left in the table, or 1 when none is left, and never above the old next id |
| Store.NextIdIsUnique | app/models/product.py:7 | in a table with positive ids there is only one id that is one more than the largest id (or 1 when the table is empty) |
| Store.DeletedHighestIdIsReused | app/models/quotation.py:13 | adding a row under the next id moves the next id up by one, and deleting that highest row gives its id out again |
| Store.Db.FindUser | app/controllers/user_controller.py:50-53 | the lookup gives the lowest-id user that matches by name or by email; None iff no user matches |
| Common.Lower | app/controllers/user_controller.py:257 | `str.lower()` keeps the length and lower-cases each ASCII capital at its position |
| Common.MayAccess | app/controllers/order_controller.py:73-75 | an admin may act on every row; a supplier exactly on the rows whose supplier is itself (the same test is at quotation_controller.py:23-25) |
| Common.LowerOfLowerCase | app/controllers/order_controller.py:85 | text with no capital letter is unchanged by `lower()` |
| Common.Includes | static/js/admin/shared.js:57 | `includes` holds iff the text occurs at some position |
| Common.IncludesNeedsFirstChar | static/js/admin/shared.js:57 | a text that lacks the first character of t does not include t |
| Common.DigitsDenote | app/controllers/quotation_controller.py:64-78 | the decimal text of n denotes n and has no leading zero |
| Common.IntTextRoundTrip | app/controllers/quotation_controller.py:64-78 | reading back the text of an integer gives that integer, so the id a message prints is the item's |
| InventoryController.Added | app/controllers/inventory_controller.py:17-27 | an existing entry grows by exactly q and a missing one is created holding q; every other entry is unchanged |
| InventoryController.Removed | app/controllers/inventory_controller.py:47-54 | a missing entry gives "Product not found in inventory"; taking more than stored gives "Insufficient quantity in inventory"; otherwise only that entry drops by q, and it stays non-negative if it was |
| InventoryController.Updated | app/controllers/inventory_controller.py:65-83 | a negative quantity is refused before any lookup; otherwise the entry is set to q, created if absent, and every other entry is unchanged |
| InventoryController.SupplierInventory | app/controllers/inventory_controller.py:95-96 | gives exactly the rows whose supplier_id matches, with their quantities |
| InventoryController.Reported | app/models/inventory.py:18-27 | a committed row is reported only when its product exists; otherwise the answer is the AttributeError text |
| InventoryController.AddProductToInventory | app/controllers/inventory_controller.py:9-36 | the table becomes `Added` of the old table and is committed whether or not the product exists; the reply is the written row when the product exists and the AttributeError text of `to_dict` when it does not |
| InventoryController.RemoveFromInventory | app/controllers/inventory_controller.py:39-59 | the two refusals leave the table unchanged and are returned; otherwise the table becomes `Removed` of the old table, and the reply is the row with its new quantity, or the AttributeError text when the product does not exist |
| InventoryController.UpdateInventoryQuantity | app/controllers/inventory_controller.py:62-89 | a negative quantity leaves the table unchanged; otherwise the table becomes `Updated` of the old table, and the reply is the row with the new quantity, or the AttributeError text when the product does not exist |
| InventoryController.SupplierRows | app/controllers/inventory_controller.py:91-98 | the supplier's rows exactly, unless one of them names a missing product, in which case the whole answer is the AttributeError text |
| InventoryController.AddThenRemoveRestores | app/controllers/inventory_controller.py:19-53 | adding q and then removing q succeeds and restores the original quantity; a new entry is left at zero |
| InventoryController.UpdateIdempotent | app/controllers/inventory_controller.py:73-83 | setting a quantity twice equals setting it once |
| InventoryController.StockStaysNonNegative | app/controllers/inventory_controller.py:50-83 | positive adds, successful removes and successful updates keep every quantity non-negative |
| InventoryRoutes.CheckBody | app/routes/inventory_routes.py:13-19 | a missing product_id or quantity gives 400; add and remove refuse quantity <= 0; otherwise the controller is called with the caller's identity as supplier, never a value from the body |
| InventoryRoutes.Respond | app/routes/inventory_routes.py:27-30 | a controller error becomes 400 with its text; a result becomes 200 with the row |
| InventoryRoutes.AddToInventory | app/routes/inventory_routes.py:9-30 | a refused body leaves the inventory as it is; otherwise the inventory becomes `Added` of the old one, and the reply is 200 with the row holding the new quantity, or 400 with the AttributeError text when the product does not exist |
| InventoryRoutes.RemoveFromInventoryRoute | app/routes/inventory_routes.py:32-53 | a refused body leaves the inventory as it is; a remove error gives 400 with its text and changes nothing; otherwise the inventory becomes `Removed` of the old one and the reply is 200 with the row holding the new quantity, or 400 with the AttributeError text when the product does not exist |
| InventoryRoutes.UpdateInventoryRoute | app/routes/inventory_routes.py:55-73 | zero is passed on and a negative quantity is refused only by the controller, with the inventory unchanged; otherwise the inventory becomes `Updated` of the old one and the reply is 200 with the row, or 400 with the AttributeError text when the product does not exist |
| InventoryRoutes.GetInventory | app/routes/inventory_routes.py:75-85 | 400 with the AttributeError text exactly when one of the caller's rows names a missing product; otherwise 200 with the caller's own rows, all of them, with their quantities, and no others |
| InventoryRoutes.ZeroOnlyThroughUpdate | app/routes/inventory_routes.py:18-19 | a zero quantity passes the update route's checks, while add and remove refuse it with 400 |
| OrderController.OrderRule | app/controllers/order_controller.py:91-131 | cancelled needs current pending, for any role; a supplier may only confirm from pending or ship from confirmed; an admin may set completed only from shipped, never confirmed or shipped, and pending unchecked; each refusal has its own text ("Can only confirm pending orders", "Order must be confirmed before shipping", "Order must be shipped before completion" and the rest) |
| OrderController.ParseRequested | app/controllers/order_controller.py:80-89 | a missing status gives "Status is required"; otherwise it succeeds iff the lower-cased text is the value of an `OrderStatus`, else "Invalid status" |
| OrderController.ShipOne | app/controllers/order_controller.py:113-120 | a refused removal leaves the stock and returns its error; a decrement is kept, and fails afterwards exactly when the item's product does not exist |
| OrderController.ShipStock | app/controllers/order_controller.py:111-120 | shipping touches only the supplier's entries and keeps quantities non-negative; an error is one of the two remove errors or the AttributeError text |
| OrderController.ShipStockSuccessAmounts | app/controllers/order_controller.py:111-120 | a shipment without error had an entry and an existing product for every item, and each of the supplier's quantities dropped by exactly the total ordered of that product |
| OrderController.ShipStockFailsAtOneItem | app/controllers/order_controller.py:111-120 | a failing shipment stops at one item: the items before it shipped without error, and the final stock and error are those of the one call for that item |
| OrderController.ShipKeepsEarlierDecrements | app/controllers/order_controller.py:111-120 | when the second item is short, the decrement already committed for the first one stays |
| OrderController.ShipItems | app/controllers/order_controller.py:112-120 | the loop leaves the inventory and the error exactly as `ShipStock` gives them |
| OrderController.CopyItems | app/controllers/order_controller.py:57-64 | one order item per quotation item, with equal product_id, qty and price |
| OrderController.GetOrders | app/controllers/order_controller.py:10-22 | an admin gets every order and a supplier exactly the orders of its own quotations |
| OrderController.GetOrder | app/controllers/order_controller.py:25-33 | an unknown id gives 404; a supplier who does not own the order gets 403; otherwise the order |
| OrderController.CreateOrder | app/controllers/order_controller.py:36-67 | admins only; it needs an existing ACCEPTED quotation that has no order yet; a new PENDING order copying the items is added under the next id, one more than the largest order id, and nothing changes on any error |
| OrderController.UpdateOrder | app/controllers/order_controller.py:70-137 | 404 or 403 or a bad status or a refused rule changes nothing; a shipment keeps every committed decrement and sets shipped only if all succeed; any other allowed transition only sets the status |
| OrderController.DeleteOrder | app/controllers/order_controller.py:140-150 | only a pending order is removed; otherwise 400 and the orders are unchanged |
| QuotationController.ItemCheck | app/controllers/quotation_controller.py:55-78 | an item with a missing field gives 400, an unknown product 404, no inventory entry 400, too little stock 400; otherwise the item is kept as given |
| QuotationController.CheckedItems | app/controllers/quotation_controller.py:55-86 | success iff every item passes its check, giving one line item per item; otherwise the error is that of a failing item |
| QuotationController.CheckItems | app/controllers/quotation_controller.py:55-86 | the loop returns exactly `CheckedItems` |
| QuotationController.StockCheckIsPerItem | app/controllers/quotation_controller.py:66-86 | stock is checked per item and never decremented, so two items of one product may together exceed the stock |
| QuotationController.GetQuotations | app/controllers/quotation_controller.py:11-17 | an admin gets every quotation and a supplier exactly its own |
| QuotationController.GetQuotation | app/controllers/quotation_controller.py:20-27 | an unknown id gives 404; a supplier who does not own it gets 403; otherwise the quotation |
| QuotationController.CreateQuotation | app/controllers/quotation_controller.py:30-89 | missing or empty items give 400; creation is all-or-nothing: any item error stores nothing; a PENDING quotation with the checked items is added under a fresh id; the inventory is not touched |
| QuotationController.UpdateQuotation | app/controllers/quotation_controller.py:92-156 | a supplier may set only ACCEPTED or DECLINED, whatever the current status; an admin's items replace the old ones only when all pass their checks |
| QuotationController.DeleteQuotation | app/controllers/quotation_controller.py:159-169 | refused with 400 while an order refers to the quotation; otherwise the quotation is removed |
| QuotationController.ApproveQuotation | app/controllers/quotation_controller.py:172-207 | only a PENDING quotation is approved; it becomes ACCEPTED, and exactly one new PENDING order copying its items is its only order |
| QuotationController.RejectQuotation | app/controllers/quotation_controller.py:210-223 | only a PENDING quotation becomes DECLINED; otherwise 400 and nothing changes |
| QuotationController.ApproveThenCreateOrder | app/controllers/order_controller.py:48-50 | after an approval, `create_order` for the same quotation is refused: no second order is made |
| UserModel.IsBlocked | app/models/user.py:71-73 | true exactly for a user whose status is BLOCKED, never for an ACTIVE one |
| UserModel.BlockedRow | app/models/user.py:56-63 | blocking an admin raises, and nothing is set; otherwise the status is BLOCKED, blocked_at is now and blocked_by is the admin, and nothing else changes |
| UserModel.UnblockedRow | app/models/user.py:65-69 | the status is ACTIVE and the block data is cleared, and nothing else changes |
| UserModel.WithoutTokensOf | app/models/user.py:99-102 | exactly the user's blacklist rows are deleted and none is added |
| UserModel.WithoutUser | app/models/user.py:40-48 | the user's row is gone; the users it had blocked keep every field except `blocked_by`, which is cleared; every other row is unchanged |
| UserModel.UnblockUndoesBlock | app/models/user.py:56-73 | blocking and then unblocking an active non-admin row gives the row back |
| UserModel.RevokeMarksOnlyThatJti | app/models/user.py:24-26 | after one more blacklist row its jti is revoked, and every other jti keeps its answer |
| UserModel.RevokeAllUnrevokes | app/models/user.py:99-102 | a token the user had revoked is no longer revoked once `revoke_all_tokens` has deleted its row |
| UserModel.BlockUser | app/models/user.py:56-63 | the row becomes `BlockedRow`; on success the user's blacklist rows go; on the error nothing changes |
| UserModel.UnblockUser | app/models/user.py:65-69 | the row becomes `UnblockedRow` and nothing else changes |
| UserModel.RevokeToken | app/models/user.py:88-97 | one blacklist row is added for a jti not yet revoked, and none for one already revoked; either way the jti is revoked afterwards |
| UserModel.RevokeAllTokens | app/models/user.py:99-102 | the blacklist becomes `WithoutTokensOf` for the user |
| UserController.RegisterUser | app/controllers/user_controller.py:15-40 | name, email and password are required; a duplicate email gives 400 and adds nobody; otherwise a new ACTIVE SUPPLIER is added, whatever the body says |
| UserController.Login | app/controllers/user_controller.py:42-81 | password plus name or email is required; lookup is by name when present; an unknown user or a wrong password gives 401; a blocked user gives 403; otherwise the tokens name the user found |
| UserController.LoginLookup | app/controllers/user_controller.py:46-53 | the user is looked up by name when the body has one, and by e-mail otherwise |
| UserController.LoginIgnoresEmailWhenNamed | app/controllers/user_controller.py:50-53 | when the body has a name, its email plays no part in the decision |
| UserController.BlockedOnlyWithRightPassword | app/controllers/user_controller.py:55-65 | "Account is blocked" is answered only to a caller who gave the right password of a blocked user |
| UserController.RegisterThenLogin | app/controllers/user_controller.py:27-53 | a user just registered logs in by email with the registered password |
| UserController.ProfileUpdated | app/controllers/user_controller.py:159-167 | only the fields in the body change; phone is written to contact_number |
| UserController.UpdateUser | app/controllers/user_controller.py:148-170 | a change of email to one in use gives 400 and saves nothing; otherwise the caller's row becomes `ProfileUpdated` |
| UserController.UpdatePassword | app/controllers/user_controller.py:173-188 | missing fields give 400, a wrong current password 401; otherwise only the password changes |
| UserController.DeleteUser | app/controllers/user_controller.py:191-204 | admins only; the caller's own account is refused; otherwise the user's blacklist rows are deleted, and then the user is removed, with `blocked_by` cleared on the users it had blocked, unless an inventory entry or a quotation still names it, in which case the answer is 401 and the user stays |
| UserController.BlockUser | app/controllers/user_controller.py:207-216 | admins only, 404 for an unknown user; blocking an admin gives 400 with the model's text; otherwise the user is blocked and its tokens are deleted |
| UserController.UnblockUser | app/controllers/user_controller.py:219-228 | admins only; a user who is not blocked gives 400; otherwise the row becomes `UnblockedRow` |
| UserController.GetBlockedUsers | app/controllers/user_controller.py:231-239 | non-admins get 403 and admins always succeed; the result is exactly the blocked users |
| UserController.RoleFilter | app/controllers/user_controller.py:253-262 | no filter exactly when the role is absent or empty; `supplier` or `admin` in any letter case select exactly that role; 400 exactly for every other non-empty text |
| UserController.GetUsers | app/controllers/user_controller.py:242-268 | non-admins get 403; an admin with an invalid role gets its 400, and with a valid one always succeeds with exactly the users of the role selected, or every user |
| UserController.RoleFilterIgnoresCase | app/controllers/user_controller.py:257 | lower-casing the role first changes nothing |
| ProductController.AllowedFile | app/controllers/product_controller.py:17-20 | holds iff the name has a '.' and the lower-cased text after the last one is png, jpg, jpeg, gif or webp |
| ProductController.AllowedFileExamples | app/controllers/product_controller.py:17-20 | "photo.PNG" is allowed; "photo.png.exe" and "png" are not |
| ProductController.ImageAfter | app/controllers/product_controller.py:61-74 | the image is replaced only by an upload whose name is allowed |
| ProductController.CreateProduct | app/controllers/product_controller.py:42-82 | non-admins get 403; a missing name or part_number gives 400; a part_number in use gives 400 and adds nothing; otherwise the product is added with the form's fields |
| ProductController.ProductEdited | app/controllers/product_controller.py:104-137 | only the fields in the form change; the image is processed only when category is also in the form |
| ProductController.EmptyFormChangesNothing | app/controllers/product_controller.py:104-111 | a form with no fields leaves the product as it is, whatever file comes with it |
| ProductController.UpdateProduct | app/controllers/product_controller.py:85-146 | a part_number held by a different product gives 400; an unchanged one skips the check; otherwise the product becomes `ProductEdited` |
| ProductController.DeleteProduct | app/controllers/product_controller.py:149-169 | refused with 400 while any quotation item or order item names the product; a product still held in some inventory entry is not checked, so its commit fails and the answer is 401 'Authentication failed' with the product kept; otherwise the product is removed |
| TokenStore.Authorized | static/js/supplier/api/api-handler.js:15-19 | the caller's headers are kept, and `Authorization: Bearer <token>` and the JSON content type are forced |
| TokenStore.RetryCarriesNewToken | static/js/supplier/api/api-handler.js:47-48 | the retried request is the caller's headers with the new token and the JSON type |
| TokenStore.AuthorizedAgain | static/js/admin-dashboard.js:57-61 | injecting a token into headers that already carry one leaves only the new token |
| TokenStore.Settlements | static/js/supplier/auth/auth.js:5-12 | every waiter is settled once, in order; all are rejected with the error when there is one, else all are resolved with the token |
| TokenStore.SettleAll | static/js/admin-dashboard.js:6-12 | the `forEach` produces exactly `Settlements` |
| TokenStore.SettlementsAppend | static/js/supplier/auth/auth.js:6-12 | settling a longer queue settles the earlier waiters in the same way, then the new one |
| TokenStore.RefreshOutcome | static/js/supplier/auth/auth.js:16-47 | no stored refresh token fails with "No refresh token available"; with one stored, a non-ok answer fails with "Token refresh failed" and a failed request with its own message; every failure clears both keys; success stores the access token and replaces the refresh token only when one came back |
| TokenStore.RefreshKeepsRefreshToken | static/js/supplier/auth/auth.js:37-39 | a refresh that brings no refresh token keeps the stored one, so a second refresh can run |
| TokenStore.RefreshToken | static/js/admin-dashboard.js:16-47 | storage and result follow `RefreshOutcome`; every failure also goes to login |
| TokenStore.NeedsLogin | static/js/supplier/auth/auth.js:49-55 | the page goes to login unless both keys hold non-empty values |
| TokenStore.ClearTokens | static/js/admin-dashboard.js:125-126 | both keys are removed and every other item is kept |
| TokenStore.HandleLogout | static/js/supplier/auth/auth.js:57-61 | both keys are removed and the page goes to login |
| TokenStore.LogoutThenCheckAuth | static/js/supplier/auth/auth.js:49-61 | after a logout, `checkAuth` sends the page to login |
| TokenStore.Begin | static/js/supplier/api/api-handler.js:8-19 | no stored token means no request at all; otherwise the request carries the injected headers |
| SupplierAuth.AuthModule.ProcessQueue | static/js/supplier/auth/auth.js:5-14 | this module's queue is emptied and every entry is settled once, in order; the flag is untouched |
| SupplierApi.Classify | static/js/supplier/api/api-handler.js:56-69 | 404 and 403 give their fixed messages; any other failure uses the body's `error`, then its `message`, then 'API request failed'; the message is never empty |
| SupplierApi.ApiHandler.constructor | static/js/supplier/api/api-handler.js:3-4 | the handler starts idle with an empty queue of its own |
| SupplierApi.ApiHandler.OnResponse | static/js/supplier/api/api-handler.js:29-71 | a 401 while refreshing parks the caller in this handler's queue and starts no refresh; a 401 while idle starts the one refresh; another failure is classified; an ok answer is delivered |
| SupplierApi.ApiHandler.OnRefreshDone | static/js/supplier/api/api-handler.js:38-53 | the flag is cleared, storage follows `RefreshOutcome`, and the request is re-sent once with the new token or the error is rethrown; this handler's queue is untouched and nobody is settled |
| SupplierApi.SecondCallerIsStranded | static/js/supplier/api/api-handler.js:1-51 | two callers meet a 401; after a successful refresh the first is retried, while the second is still parked and was never settled |
| AdminDashboard.AdminGateway.ProcessQueue | static/js/admin-dashboard.js:5-14 | the queue is emptied and every entry is settled once, in order, with one outcome |
| AdminDashboard.AdminGateway.OnResponse | static/js/admin-dashboard.js:63-94 | a 401 while refreshing parks the caller and never starts a second refresh; a 401 while idle starts one; another non-ok status fails with 'API request failed' |
| AdminDashboard.AdminGateway.OnRefreshDone | static/js/admin-dashboard.js:73-87 | the flag is cleared; on success every parked caller is resolved and the request is retried with the new token; on failure every parked caller is rejected with the same error, which is rethrown |
| AdminDashboard.AdminGateway.Resume | static/js/admin-dashboard.js:68-70 | a rejected caller fails with the error; a resolved one re-enters `handleApiRequest` and reads the token stored now |
| AdminDashboard.ResumedCallerUsesNewToken | static/js/admin-dashboard.js:57-70 | a resumed caller is sent again with its own headers and the refreshed token |
| AdminDashboard.TwoCallersOneRefresh | static/js/admin-dashboard.js:63-87 | two callers meet a 401 and one refresh runs; both go out again with the new token |
| AdminDashboard.CheckAuthStart | static/js/admin-dashboard.js:102-113 | without both keys nothing is sent; otherwise `/api/users/verify` is requested with the token |
| AdminDashboard.CheckAuthVerdict | static/js/admin-dashboard.js:113-128 | only the role 'admin' stays; anything else, or a thrown request, clears both keys and goes to login |
| AdminShared.QueryText | static/js/admin/shared.js:37-38 | the query text is empty iff there are no parameters |
| AdminShared.SectionUrl | static/js/admin/shared.js:11-39 | suppliers gives `/api/users?role=supplier`; quotations and orders add `?status=v` only when v is not 'all'; products gives `/api/products`; any other section gives no path; admin-dashboard.js:171-199 builds the same URL |
| AdminShared.QueryMarkOnlyWithParams | static/js/admin/shared.js:36-39 | '?' is in the URL iff the section has a parameter |
| AdminShared.LoadStart | static/js/admin/shared.js:3-46 | without a stored token it fails with 'No token found' before any request; otherwise it fetches the section URL with only the token and JSON headers |
| AdminShared.LoadResponse | static/js/admin/shared.js:48-50 | a non-ok answer fails with `Failed to fetch <section>` |
| AdminShared.OnLoadError | static/js/admin/shared.js:55-63 | a message containing 'Authentication failed' or 'No token found' removes only `token` and goes to login; any other is alerted and storage is kept |
| AdminShared.LoadWithoutToken | static/js/admin/shared.js:3-6 | a load without a token ends on the login page, with the refresh token still stored |
| AdminShared.FetchFailureIsAlerted | static/js/admin/shared.js:48-61 | a failed fetch of a lower-case section is alerted, never taken for an authentication error |
| AdminShared.DisplayData | static/js/admin/shared.js:66-86 | nothing happens without the section's container; otherwise the container is cleared, and filled only for a known section |
| SupplierInventory.AvailableProducts | static/js/supplier/modules/inventory.js:196-200 | exactly the products no inventory row names, and never more than there were |
| SupplierInventory.AvailableProductsAppend | static/js/supplier/modules/inventory.js:196-200 | the filter keeps order: filtering a concatenation is the concatenation of the filtered parts |
| SupplierInventory.IsOutOfStock | static/js/supplier/modules/inventory.js:63 | a row is out of stock exactly when its quantity is not above zero, so at zero |
| SupplierInventory.SaveUpdate | static/js/supplier/modules/inventory.js:127-154 | NaN or a negative quantity is refused with an alert and nothing is sent; zero and above are sent as a PUT to the update route |
| SupplierInventory.AddStep | static/js/supplier/modules/inventory.js:233-265 | no product selected gives an alert; NaN or a quantity <= 0 stops silently; otherwise product_id and quantity are posted to the add route |
| SupplierInventory.RemoveInventoryItem | static/js/supplier/modules/inventory.js:160-182 | once confirmed, quantity 0 is sent to the update route; otherwise nothing |
| SupplierInventory.MarkAsOutOfStock | static/js/supplier/modules/inventory.js:268-290 | once confirmed, quantity 0 is sent to the update route; otherwise nothing |
| SupplierInventory.RemoveIsMarkOutOfStock | static/js/supplier/modules/inventory.js:166-172 | removing an item, marking it out of stock and saving zero send the same request |
| SupplierInventory.SentUpdateIsApplied | static/js/supplier/modules/inventory.js:63 | every update the page sends passes the route and the controller; the row shows out of stock iff zero was sent |
| SupplierInventory.RemovedItemShowsOutOfStock | static/js/supplier/modules/inventory.js:160-172 | a removed item comes back as a row held at zero, shown as out of stock |
| SupplierInventory.SentAddIsPositive | static/js/supplier/modules/inventory.js:239-254 | a numeric add the page sends also passes the add route's checks |
| Login.Trim | static/js/login.js:23 | `trim()` removes exactly the leading and trailing white space |
| Login.TrimIdempotent | static/js/login.js:74 | trimming twice is trimming once |
| Login.EmailSplitIsUnique | static/js/login.js:24 | a pattern match splits at the only '@' and at the last '.' |
| Login.IsEmailMatchesPattern | static/js/login.js:24 | the executable test accepts exactly the language of the e-mail pattern |
| Login.IsEmail | static/js/login.js:24 | every string it accepts splits as the pattern's local@domain.tld |
| Login.ValidEmailHasOneAt | static/js/login.js:24 | an address the pattern accepts holds exactly one '@' |
| Login.ValidateEmail | static/js/login.js:22-35 | the value is trimmed first; empty gives 'Email is required'; valid iff the pattern matches, else the malformed message |
| Login.Utf16Length | static/js/login.js:42 | `length` counts one unit per basic character and two per character beyond it |
| Login.ValidatePassword | static/js/login.js:37-49 | empty gives 'Password is required'; fewer than 6 UTF-16 units give the length message; otherwise valid |
| Login.ThreeAstralCharactersPass | static/js/login.js:42 | three characters beyond the basic plane count as six units and pass |
| Login.Submit | static/js/login.js:64-85 | both validators run; a request is made iff both pass, and it carries the trimmed email and the password as typed |
| Login.SubmittedLoginIsByEmail | static/js/login.js:84 | the server looks the submitted user up by email, since the body has no name |
| Login.AfterLogin | static/js/login.js:87-111 | an ok answer stores both tokens and goes to the page for the role, or stays for any other role; a non-ok answer shows `message`, else 'Invalid credentials'; a throw shows the generic error |
| Login.OnLoginAnswer | static/js/login.js:90-111 | storage and landing follow `AfterLogin` |
| Login.RefusedLoginShowsInvalidCredentials | static/js/login.js:106-108 | the server puts its refusals under `error`, so the page shows 'Invalid credentials' for every refused login |
| Login.GrantedLoginRedirects | static/js/login.js:97-105 | a granted login stores both tokens and always redirects, because the server only knows the two roles |

## Left out

- DOM work: rendering tables and modals, showing and hiding errors, alerts, confirmation dialogs and sections. A dialog's answer is a parameter; a redirect is a returned flag.
- Money totals and prices: `qty * price` sums and `toFixed` are floating point. Prices are carried along unchanged.
- Timestamps: `datetime.utcnow()` is a `now` parameter. `created_at`, `updated_at` and date display are not modelled.
- JWT creation and verification are foreign code. The caller's id and role are inputs. The role check of `admin_required` is modelled, as the 403 'Admin access required' reply of each admin endpoint.
- The exception wrapping of `auth_required` and `admin_required` is not modelled. These decorators turn any exception raised in the endpoint into a 401 reply, and that includes the 404 of `get_or_404`. The model gives the endpoint's own 404 reply.
- Password hashing: `check_password` is modelled as equality with the stored value, because werkzeug is foreign code.
- File uploads: `secure_filename`, saving the file and removing the old image are I/O. The stored path is a parameter.
- The 500 replies of the `except Exception` blocks, and errors raised while reading a malformed JSON body, are not modelled.
- The `logout`, `refresh`, `revoke_refresh_token`, `get_user`, `get_user_by_id` and `verify_token` endpoints are not modelled. Neither are `get_products` and `get_product`. None of them is part of the modelled core.
- When a product or a user is deleted, the ORM nulls the foreign keys that name it. The model keeps the consequences: a NOT NULL column makes the commit fail, and `blocked_by`, which is nullable, is cleared. It does not model the SQL the ORM issues or the order of the failing statements.
- `UserController.DeleteUser`: the 401 text of a failed delete is the whole `IntegrityError` message, which goes on to name the column, the SQL statement and its parameters. The model gives only the message's opening words, `NotNullFailed`.
- Percent-encoding in `URLSearchParams`: `AdminShared.SectionUrl` places the status value as given.
- `parseInt`: a parsed quantity arrives as an `Option<int>`, None for NaN.
- `addToInventory` sends product_id as the text of the select. How the server treats that text is not modelled.
- Asynchronous interleaving is modelled only as the discrete events of one thread. The refresh endpoint is an oracle that answers success with an access token and an optional refresh token, or failure. A network error's message is passed through as given.
- `Common.Lower`: lower-cases ASCII letters only, not the full Unicode `str.lower()`.
- `TokenStore.RefreshOutcome`: takes the access token of a granted refresh as a string. A response body without `access_token`, which `setItem` would store as "undefined", is not modelled.
- `SupplierAuth.AuthModule`: its `isRefreshing` flag is declared and never used by the module, so it is kept and never changed.
- The admin dashboard's own `displayData` has no container guard. Only the guarded copy in shared.js is modelled.
- Both `refreshToken` copies POST to `/api/auth/refresh` (static/js/admin-dashboard.js:23 and static/js/supplier/auth/auth.js:23). The server's refresh route is the POST `/api/users/refresh` (app/routes/user_routes.py:47). The only route the client's path matches is the GET-only catch-all at app/__init__.py:63, so against this server a refresh is never ok and always ends in "Token refresh failed". The model leaves the endpoint's answer as a parameter, `TokenStore.RefreshAnswer`. So the `Granted` branch, which `AdminDashboard.TwoCallersOneRefresh` and `SupplierApi.SecondCallerIsStranded` use, describes the gateways' own logic, not something this server can produce.
- The dashboard's `loadSectionData` reaches the server through `handleApiRequest`. Its URL is `AdminShared.SectionUrl`, and its error path, an alert only, is not modelled separately.
- `SupplierApi.Classify`: the 401 branch is kept, but `handleApiRequest` never reaches it. A 401 always takes the refresh path first.
