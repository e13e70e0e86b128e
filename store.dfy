/** The database the Flask controllers work on (the models under app/models), as one in-memory store.
    Each SQLAlchemy table is a field of `Db`: rows are kept by primary key, child rows
    (quotation items, order items) inside their parent, and the inventory table by its
    (supplier_id, product_id) pair, which the controllers treat as its key. A commit is the
    assignment of the new field values; a rollback is leaving the fields as they were. */
module Store {
  import opened Common

  /** `OrderStatus` (app/models/order.py). */
  datatype OrderStatus = Pending | Confirmed | Shipped | Completed | Cancelled

  function OrderStatusValue(s: OrderStatus): string
  {
    match s
    case Pending => "pending"
    case Confirmed => "confirmed"
    case Shipped => "shipped"
    case Completed => "completed"
    case Cancelled => "cancelled"
  }

  /** `OrderStatus(v)`: the member whose value is `v`, or the ValueError (None). */
  function ParseOrderStatus(v: string): (r: Option<OrderStatus>)
    ensures r.Some? ==> OrderStatusValue(r.value) == v
    ensures r.None? ==> forall s: OrderStatus :: OrderStatusValue(s) != v
  {
    if v == "pending" then Some(Pending)
    else if v == "confirmed" then Some(Confirmed)
    else if v == "shipped" then Some(Shipped)
    else if v == "completed" then Some(Completed)
    else if v == "cancelled" then Some(Cancelled)
    else None
  }

  /** `QuotationStatus` (app/models/quotation.py). */
  datatype QuotationStatus = QuotationPending | Accepted | Declined

  function QuotationStatusValue(s: QuotationStatus): string
  {
    match s
    case QuotationPending => "pending"
    case Accepted => "accepted"
    case Declined => "declined"
  }

  /** `QuotationStatus(v)`: exact match on the value, no case folding. */
  function ParseQuotationStatus(v: string): (r: Option<QuotationStatus>)
    ensures r.Some? ==> QuotationStatusValue(r.value) == v
    ensures r.None? ==> forall s: QuotationStatus :: QuotationStatusValue(s) != v
  {
    if v == "pending" then Some(QuotationPending)
    else if v == "accepted" then Some(Accepted)
    else if v == "declined" then Some(Declined)
    else None
  }

  /** A quotation item or an order item: both tables carry product_id, qty and price. */
  datatype LineItem = LineItem(productId: int, qty: int, price: real)

  datatype Quotation = Quotation(adminUserId: int, supplierUserId: int,
                                 status: QuotationStatus, items: seq<LineItem>)

  datatype Order = Order(quotationId: int, status: OrderStatus, items: seq<LineItem>)

  /** `UserRole.value`, the text `User.to_dict` sends for a role. */
  function RoleValue(r: Role): string
  {
    match r
    case Admin => "admin"
    case Supplier => "supplier"
  }

  /** `UserStatus` (app/models/user.py). */
  datatype UserStatus = Active | Blocked

  /** A row of `users`. `password` stands for `password_hash`: checking a password is
      comparing it with this value. `blockedAt` is the timestamp written by `block_user`. */
  datatype User = User(name: string, email: string, contactNumber: Option<string>,
                       address: Option<string>, password: string, role: Role,
                       status: UserStatus, blockedAt: Option<int>, blockedBy: Option<int>)

  /** A row of `token_blacklist`. */
  datatype RevokedToken = RevokedToken(jti: string, tokenType: string, userId: int, expiresAt: int)

  datatype Product = Product(name: string, description: Option<string>,
                             manufacturer: Option<string>, partNumber: string,
                             category: Option<string>, image: Option<string>)

  /** The key of an `inventory` row: (supplier_id, product_id). */
  type StockKey = (int, int)

  type Stock = map<StockKey, int>

  // ---- The integrity the store keeps ----

  ghost predicate KeysPositive<V>(m: map<int, V>)
  {
    forall k :: k in m ==> 1 <= k
  }

  /** An order always belongs to an existing quotation (`orders.quotation_id`). */
  ghost predicate OrdersHaveQuotations(orders: map<int, Order>, quotations: map<int, Quotation>)
  {
    forall o :: o in orders ==> orders[o].quotationId in quotations
  }

  /** `Quotation.order` is a one-to-one relationship: no two orders share a quotation. */
  ghost predicate OneOrderPerQuotation(orders: map<int, Order>)
  {
    forall a, b :: a in orders && b in orders && orders[a].quotationId == orders[b].quotationId ==> a == b
  }

  /** A quotation that has an order has left the PENDING state. */
  ghost predicate OrderedNotPending(orders: map<int, Order>, quotations: map<int, Quotation>)
  {
    forall o :: o in orders && orders[o].quotationId in quotations ==>
      quotations[orders[o].quotationId].status != QuotationPending
  }

  /** `products.part_number` is unique. */
  ghost predicate UniquePartNumbers(products: map<int, Product>)
  {
    forall a, b :: a in products && b in products && products[a].partNumber == products[b].partNumber ==> a == b
  }

  /** `users.email` is unique. */
  ghost predicate UniqueEmails(users: map<int, User>)
  {
    forall a, b :: a in users && b in users && users[a].email == users[b].email ==> a == b
  }

  /** `token_blacklist.jti` is unique. */
  ghost predicate UniqueJtis(revoked: set<RevokedToken>)
  {
    forall a, b :: a in revoked && b in revoked && a.jti == b.jti ==> a == b
  }

  // ---- Queries the controllers run ----

  /** `Order.query.filter_by(quotation_id=q).first()` is not None. */
  predicate HasOrder(orders: map<int, Order>, quotationId: int)
  {
    exists o :: o in orders && orders[o].quotationId == quotationId
  }

  /** `User.query.filter_by(email=e).first()` is not None. */
  predicate EmailTaken(users: map<int, User>, email: string)
  {
    exists u :: u in users && users[u].email == email
  }

  /** A product other than `except` already carries part number `pn`. */
  predicate PartNumberTaken(products: map<int, Product>, pn: string, except: Option<int>)
  {
    exists p :: p in products && products[p].partNumber == pn && Some(p) != except
  }

  /** True when the product appears in some quotation item or some order item. */
  predicate ProductReferenced(quotations: map<int, Quotation>, orders: map<int, Order>, productId: int)
  {
    || (exists q, i :: q in quotations && 0 <= i < |quotations[q].items| && quotations[q].items[i].productId == productId)
    || (exists o, i :: o in orders && 0 <= i < |orders[o].items| && orders[o].items[i].productId == productId)
  }

  /** Some inventory entry names the product. `inventory.product_id` is NOT NULL, so the ORM's
      nulling of it when the product is deleted fails the commit. */
  predicate ProductHeld(inventory: Stock, productId: int)
  {
    exists k :: k in inventory && k.1 == productId
  }

  /** Some row whose NOT NULL foreign key names the user: an inventory entry it supplies, or a
      quotation it created or received. Deleting such a user fails the commit. */
  predicate UserReferenced(inventory: Stock, quotations: map<int, Quotation>, userId: int)
  {
    || (exists k :: k in inventory && k.0 == userId)
    || (exists q :: q in quotations && (quotations[q].supplierUserId == userId || quotations[q].adminUserId == userId))
  }

  /** How `login` looks a user up. */
  datatype Lookup = ByName(name: string) | ByEmail(email: string)

  predicate Matches(u: User, l: Lookup)
  {
    match l
    case ByName(n) => u.name == n
    case ByEmail(e) => u.email == e
  }

  /** `.first()` over the users whose id lies in [from, bound): the matching user with the
      smallest id (the table's row order). */
  function FirstMatch(users: map<int, User>, l: Lookup, from: int, bound: int): (r: Option<int>)
    ensures r.Some? ==> from <= r.value < bound && r.value in users && Matches(users[r.value], l)
    ensures r.Some? ==> forall k :: from <= k < r.value && k in users ==> !Matches(users[k], l)
    ensures r.None? ==> forall k :: from <= k < bound && k in users ==> !Matches(users[k], l)
    decreases bound - from
  {
    if bound <= from then None
    else if from in users && Matches(users[from], l) then Some(from)
    else FirstMatch(users, l, from + 1, bound)
  }

  /** `next` is the id SQLite gives the next row of table `m`: its integer primary key is
      declared without AUTOINCREMENT, so that is one more than the largest id in the table, or 1
      in an empty table. The id of a deleted highest row is given out again. */
  ghost predicate IsNextId<V>(m: map<int, V>, next: int)
  {
    && 1 <= next
    && (forall k :: k in m ==> k < next)
    && (next == 1 || next - 1 in m)
  }

  /** With positive ids, a table has only one next id. */
  lemma NextIdIsUnique<V>(m: map<int, V>, a: int, b: int)
    requires KeysPositive(m) && IsNextId(m, a) && IsNextId(m, b)
    ensures a == b
  {
  }

  /** Inserting a row at the next id moves it on by one; deleting that row again gives the same
      id back, so the next insertion reuses it. */
  lemma DeletedHighestIdIsReused<V>(m: map<int, V>, next: int, v: V)
    requires IsNextId(m, next)
    ensures IsNextId(m[next := v], next + 1)
    ensures IsNextId(m[next := v] - {next}, next)
  {
  }

  /** The next id of a table after a row was deleted from it, found as SQLite's `max(id) + 1`:
      down from the old next id to just above the largest id left. */
  method NextIdAfterDelete<V>(m: map<int, V>, bound: int) returns (next: int)
    requires 1 <= bound && forall k :: k in m ==> k < bound
    ensures IsNextId(m, next)
    ensures next <= bound
  {
    next := bound;
    while next > 1 && next - 1 !in m
      invariant 1 <= next <= bound
      invariant forall k :: k in m ==> k < next
      decreases next
    {
      next := next - 1;
    }
  }

  /** The mutable store. Each table keeps the id its next row gets, as SQLite computes it. */
  class Db {
    var users: map<int, User>
    var revoked: set<RevokedToken>
    var products: map<int, Product>
    var quotations: map<int, Quotation>
    var orders: map<int, Order>
    var inventory: Stock
    var nextUserId: int
    var nextProductId: int
    var nextQuotationId: int
    var nextOrderId: int

    ghost predicate Valid()
      reads this
    {
      && KeysPositive(users) && KeysPositive(products) && KeysPositive(quotations) && KeysPositive(orders)
      && IsNextId(users, nextUserId) && IsNextId(products, nextProductId)
      && IsNextId(quotations, nextQuotationId) && IsNextId(orders, nextOrderId)
      && OrdersHaveQuotations(orders, quotations)
      && OneOrderPerQuotation(orders)
      && OrderedNotPending(orders, quotations)
      && UniquePartNumbers(products)
      && UniqueEmails(users)
      && UniqueJtis(revoked)
    }

    constructor ()
      ensures Valid()
      ensures users == map[] && revoked == {} && products == map[]
      ensures quotations == map[] && orders == map[] && inventory == map[]
    {
      users, revoked, products := map[], {}, map[];
      quotations, orders, inventory := map[], map[], map[];
      nextUserId, nextProductId, nextQuotationId, nextOrderId := 1, 1, 1, 1;
    }

    /** `User.query.filter_by(...).first()`. */
    function FindUser(l: Lookup): (r: Option<int>)
      reads this
      requires Valid()
      ensures r.Some? ==> r.value in users && Matches(users[r.value], l)
      ensures r.Some? ==> forall k :: k in users && k < r.value ==> !Matches(users[k], l)
      ensures r.None? <==> forall k :: k in users ==> !Matches(users[k], l)
    {
      FirstMatch(users, l, 1, nextUserId)
    }
  }
}
