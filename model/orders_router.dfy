/** `routers/orders.py`: who may list, create, read and re-status orders.
    The caller is the user the dependencies of `routers/base.py` resolved;
    `now` is the insertion time. */
module OrdersRouter {
  import opened Wrappers
  import opened Seqs
  import opened Tables
  import opened OrderSchemas
  import opened OrderController

  const ORDER_NOT_FOUND := "Order not found"
  const CONSUMERS_ONLY := "Only consumers can create orders"
  const VIEW_DENIED := "Not enough permissions to view this order"
  const UPDATE_DENIED := "Not enough permissions to update this order"
  const ADMINS_ONLY := "Only admins can view orders by user"

  /** `list_orders`: an admin sees the orders of the given status newest
      first, or the whole table in the model's row order; anyone else sees only their
      own orders newest first, whatever status they ask for. */
  function ListOrders(orders: seq<OrderRow>, current: UserRow, status: Option<string>, skip: nat, limit: nat)
    : (r: seq<OrderRow>)
    ensures current.role != Admin ==> IsWindow(r, Newest(orders, OfUser(current.id)), skip, limit)
    ensures current.role == Admin && Truthy(status) ==> IsWindow(r, Newest(orders, WithStatusValue(status.value)), skip, limit)
    ensures current.role == Admin && !Truthy(status) ==> IsWindow(r, orders, skip, limit)
    ensures |r| <= limit
    ensures forall i :: 0 <= i < |r| ==> r[i] in orders
    ensures current.role != Admin ==> forall i :: 0 <= i < |r| ==> r[i].userId == current.id
    ensures current.role == Admin && Truthy(status) ==> forall i :: 0 <= i < |r| ==> r[i].status == status.value
  {
    if current.role == Admin then
      if Truthy(status) then ByStatus(orders, status.value, skip, limit)
      else PaginateFrom(orders, skip, limit); Paginate(orders, skip, limit)
    else ByUser(orders, current.id, skip, limit)
  }

  /** `get_orders_by_user`: admins only; that user's orders newest first. */
  function OrdersByUser(orders: seq<OrderRow>, current: UserRow, userId: int, skip: nat, limit: nat)
    : (r: Result<seq<OrderRow>, HttpError>)
    ensures r.Ok? <==> current.role == Admin
    ensures r.Err? ==> r.error == HttpError(FORBIDDEN, ADMINS_ONLY)
    ensures r.Ok? ==> IsWindow(r.value, Newest(orders, OfUser(userId)), skip, limit)
    ensures r.Ok? ==> SortedDesc(r.value, CreatedAt)
                      && forall i :: 0 <= i < |r.value| ==> r.value[i].userId == userId && r.value[i] in orders
  {
    if current.role != Admin then Err(HttpError(FORBIDDEN, ADMINS_ONLY))
    else Ok(ByUser(orders, userId, skip, limit))
  }

  /** A non-admin's own listing is what an admin sees for that user, and the
      status a non-admin asks for changes nothing. */
  lemma OwnListingIsAdminView(orders: seq<OrderRow>, current: UserRow, admin: UserRow,
                              status: Option<string>, skip: nat, limit: nat)
    requires current.role != Admin && admin.role == Admin
    ensures ListOrders(orders, current, status, skip, limit) == OrdersByUser(orders, admin, current.id, skip, limit).value
    ensures ListOrders(orders, current, status, skip, limit) == ListOrders(orders, current, None, skip, limit)
  {
  }

  /** `get_order`: 404 for an unknown id before 403 for a caller who is
      neither an admin nor the order's owner. */
  function GetOrder(orders: seq<OrderRow>, current: UserRow, orderId: int): (r: Result<OrderRow, HttpError>)
    ensures Find(orders, HasId(orderId)).None? <==> r == Err(HttpError(NOT_FOUND, ORDER_NOT_FOUND))
    ensures r.Ok? <==> Find(orders, HasId(orderId)).Some?
                       && (current.role == Admin || Find(orders, HasId(orderId)).value.userId == current.id)
    ensures r.Err? ==> r.error.status in {NOT_FOUND, FORBIDDEN}
    ensures r.Ok? ==> r.value.id == orderId && r.value in orders
  {
    match Find(orders, HasId(orderId))
    case None => Err(HttpError(NOT_FOUND, ORDER_NOT_FOUND))
    case Some(o) =>
      if current.role != Admin && o.userId != current.id then Err(HttpError(FORBIDDEN, VIEW_DENIED))
      else Ok(o)
  }

  /** `create_order`: 403 and no change unless the caller is a consumer;
      otherwise the order, owned by the caller, with the body's status and
      address, and one item row copying each item of the body. */
  method CreateOrder(db: Database, current: UserRow, order: OrderCreate, now: int) returns (r: Result<OrderRow, HttpError>)
    modifies db
    ensures current.role != Consumer ==> r == Err(HttpError(FORBIDDEN, CONSUMERS_ONLY)) && db.tables == old(db.tables)
    ensures current.role == Consumer ==> r.Ok?
    ensures r.Ok? ==> r.value.userId == current.id && r.value.totalAmount == Total(order.items)
                      && r.value.id == NextId(old(db.tables.orders), OrderId)
                      && r.value.status == order.status && r.value.shippingAddress == order.shippingAddress
                      && r.value.supplierId.None? && r.value.createdAt == now
                      && db.tables.orders == old(db.tables.orders) + [r.value]
                      && db.tables == old(db.tables).(orders := db.tables.orders, orderItems := db.tables.orderItems)
    ensures r.Ok? ==> |db.tables.orderItems| == |old(db.tables.orderItems)| + |order.items|
                      && db.tables.orderItems[..|old(db.tables.orderItems)|] == old(db.tables.orderItems)
                      && forall k :: 0 <= k < |order.items| ==>
                           Copies(db.tables.orderItems[|old(db.tables.orderItems)| + k], r.value.id, order.items[k])
    ensures r.Ok? && ItemsReferenceOrders(old(db.tables)) ==>
              ItemsReferenceOrders(db.tables) && ItemsTotal(db.tables.orderItems, r.value.id) == r.value.totalAmount
  {
    if current.role != Consumer {
      return Err(HttpError(FORBIDDEN, CONSUMERS_ONLY));
    }
    var created := CreateWithItems(db, order, current.id, now);
    r := Ok(created);
  }

  /** `update_order_status`: 404 for an unknown id before 403 for a caller
      who is neither an admin nor a supplier, with no change in either case;
      otherwise the order with its new status, and only that field of that
      row changes. */
  method UpdateOrderStatus(db: Database, current: UserRow, orderId: int, status: string)
    returns (r: Result<OrderRow, HttpError>)
    modifies db
    ensures Find(old(db.tables.orders), HasId(orderId)).None? ==>
              r == Err(HttpError(NOT_FOUND, ORDER_NOT_FOUND)) && db.tables == old(db.tables)
    ensures Find(old(db.tables.orders), HasId(orderId)).Some? && current.role !in {Admin, Supplier} ==>
              r == Err(HttpError(FORBIDDEN, UPDATE_DENIED)) && db.tables == old(db.tables)
    ensures r.Ok? <==> Find(old(db.tables.orders), HasId(orderId)).Some? && current.role in {Admin, Supplier}
    ensures r.Ok? ==> r.value == Find(old(db.tables.orders), HasId(orderId)).value.(status := status)
                      && Find(db.tables.orders, HasId(orderId)) == Some(r.value)
                      && db.tables == old(db.tables).(orders := UpdateFirst(old(db.tables.orders), HasId(orderId),
                                                                            (o: OrderRow) => o.(status := status)))
  {
    var found := Find(db.tables.orders, HasId(orderId));
    if found.None? {
      return Err(HttpError(NOT_FOUND, ORDER_NOT_FOUND));
    }
    if current.role !in {Admin, Supplier} {
      return Err(HttpError(FORBIDDEN, UPDATE_DENIED));
    }
    StatusUpdateReadBack(db.tables.orders, orderId, status);
    UpdateStatus(db, orderId, status);
    r := Ok(found.value.(status := status));
  }
}
