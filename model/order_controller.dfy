/** `controllers/order_controller.py`: a user's or a status's orders newest
    first and paginated, order creation with its item rows, and the status
    update. Amounts are integer cents; `now` is the insertion time. */
module OrderController {
  import opened Wrappers
  import opened Seqs
  import opened Tables
  import opened OrderSchemas

  function CreatedAt(o: OrderRow): int { o.createdAt }

  /** The orders satisfying `p` as `.filter(p).order_by(created_at.desc())`
      returns them: every matching order once per stored copy, newest first,
      equal timestamps in the model's row order. */
  function Newest(orders: seq<OrderRow>, p: OrderRow -> bool): (r: seq<OrderRow>)
    ensures multiset(r) == multiset(Filter(orders, p)) && |r| == Count(orders, p)
    ensures SortedDesc(r, CreatedAt)
  {
    SortDescSorted(Filter(orders, p), CreatedAt);
    SortDesc(Filter(orders, p), CreatedAt)
  }

  /** `.filter(p).order_by(created_at.desc()).offset(skip).limit(limit)`: the
      `skip`-th and following matching orders, newest first; a first page
      leaves out no order newer than its last one. */
  function NewestFirst(orders: seq<OrderRow>, p: OrderRow -> bool, skip: nat, limit: nat): (r: seq<OrderRow>)
    ensures IsWindow(r, Newest(orders, p), skip, limit)
    ensures |r| == if skip >= Count(orders, p) then 0 else Min(limit, Count(orders, p) - skip)
    ensures forall i :: 0 <= i < |r| ==> p(r[i]) && r[i] in orders
    ensures SortedDesc(r, CreatedAt)
    ensures skip == 0 && r != [] ==>
              forall i :: 0 <= i < |orders| && p(orders[i]) && orders[i] !in r ==>
                orders[i].createdAt <= r[|r| - 1].createdAt
  {
    var all := Newest(orders, p);
    PaginateSorted(all, CreatedAt, skip, limit);
    NewestMatch(orders, p);
    FirstPageNewest(orders, p, limit);
    Paginate(all, skip, limit)
  }

  lemma NewestMatch(orders: seq<OrderRow>, p: OrderRow -> bool)
    ensures forall i :: 0 <= i < |Newest(orders, p)| ==> p(Newest(orders, p)[i]) && Newest(orders, p)[i] in orders
  {
    var all := Newest(orders, p);
    forall i | 0 <= i < |all| ensures p(all[i]) && all[i] in orders {
      assert all[i] in multiset(Filter(orders, p));
    }
  }

  lemma FirstPageNewest(orders: seq<OrderRow>, p: OrderRow -> bool, limit: nat)
    ensures var r := Paginate(Newest(orders, p), 0, limit);
            r != [] ==> forall i :: 0 <= i < |orders| && p(orders[i]) && orders[i] !in r ==>
                          orders[i].createdAt <= r[|r| - 1].createdAt
  {
    var matching := Filter(orders, p);
    var r := Paginate(Newest(orders, p), 0, limit);
    FirstPageOfSortDesc(matching, CreatedAt, limit);
    forall i | 0 <= i < |orders| && p(orders[i]) && orders[i] !in r && r != []
      ensures orders[i].createdAt <= r[|r| - 1].createdAt
    {
      assert orders[i] in matching;
      assert CreatedAt(orders[i]) <= CreatedAt(r[|r| - 1]);
    }
  }

  /** With no offset and a limit covering them, the window holds exactly the
      matching orders, each as often as stored. */
  lemma NewestFirstWhole(orders: seq<OrderRow>, p: OrderRow -> bool, limit: nat)
    requires limit >= Count(orders, p)
    ensures multiset(NewestFirst(orders, p, 0, limit)) == multiset(Filter(orders, p))
  {
    var all := Newest(orders, p);
    assert Paginate(all, 0, limit) == all;
  }

  function OfUser(userId: int): OrderRow -> bool {
    (o: OrderRow) => o.userId == userId
  }

  function WithStatusValue(status: string): OrderRow -> bool {
    (o: OrderRow) => o.status == status
  }

  /** `get_multi_by_user`: only that user's orders, newest first, paginated. */
  function ByUser(orders: seq<OrderRow>, userId: int, skip: nat, limit: nat): (r: seq<OrderRow>)
    ensures IsWindow(r, Newest(orders, OfUser(userId)), skip, limit)
    ensures |r| <= limit && SortedDesc(r, CreatedAt)
    ensures forall i :: 0 <= i < |r| ==> r[i].userId == userId && r[i] in orders
    ensures skip == 0 && r != [] ==>
              forall i :: 0 <= i < |orders| && orders[i].userId == userId && orders[i] !in r ==>
                orders[i].createdAt <= r[|r| - 1].createdAt
  {
    NewestFirst(orders, OfUser(userId), skip, limit)
  }

  /** `get_multi_by_status`: only orders with that status, same order and window. */
  function ByStatus(orders: seq<OrderRow>, status: string, skip: nat, limit: nat): (r: seq<OrderRow>)
    ensures IsWindow(r, Newest(orders, WithStatusValue(status)), skip, limit)
    ensures |r| <= limit && SortedDesc(r, CreatedAt)
    ensures forall i :: 0 <= i < |r| ==> r[i].status == status && r[i] in orders
    ensures skip == 0 && r != [] ==>
              forall i :: 0 <= i < |orders| && orders[i].status == status && orders[i] !in r ==>
                orders[i].createdAt <= r[|r| - 1].createdAt
  {
    NewestFirst(orders, WithStatusValue(status), skip, limit)
  }

  function LineAmount(i: OrderItemCreate): int { i.quantity * i.unitPrice }

  function RowAmount(r: OrderItemRow): int { r.quantity * r.unitPrice }

  /** `sum(item.quantity * item.unit_price for item in obj_in.items)`. */
  function Total(items: seq<OrderItemCreate>): int {
    Sum(items, LineAmount)
  }

  /** A non-empty order of valid items has a positive total. */
  lemma TotalPositive(items: seq<OrderItemCreate>)
    requires items != [] && forall k :: 0 <= k < |items| ==> ValidItem(items[k])
    ensures Total(items) > 0
  {
    forall k | 0 <= k < |items| ensures LineAmount(items[k]) > 0 {
      assert items[k].quantity > 0 && items[k].unitPrice > 0;
      assert items[k].quantity * items[k].unitPrice >= items[k].unitPrice;
    }
    SumPositive(items, LineAmount);
  }

  /** The stored item row `row` copies `item` into order `orderId`. */
  predicate Copies(row: OrderItemRow, orderId: int, item: OrderItemCreate) {
    row.orderId == orderId && row.productId == item.productId
    && row.quantity == item.quantity && row.unitPrice == item.unitPrice
  }

  /** Every item row refers to a stored order. */
  ghost predicate ItemsReferenceOrders(t: Tables) {
    forall i :: 0 <= i < |t.orderItems| ==>
      exists j :: 0 <= j < |t.orders| && t.orders[j].id == t.orderItems[i].orderId
  }

  /** SQL `SUM(quantity * unit_price)` over the item rows of one order. */
  function ItemsTotal(rows: seq<OrderItemRow>, orderId: int): int {
    Sum(Filter(rows, (r: OrderItemRow) => r.orderId == orderId), RowAmount)
  }

  lemma {:induction false} CopiesTotal(rows: seq<OrderItemRow>, items: seq<OrderItemCreate>, orderId: int)
    requires |rows| == |items| && forall k :: 0 <= k < |rows| ==> Copies(rows[k], orderId, items[k])
    ensures Sum(rows, RowAmount) == Total(items)
  {
    if rows != [] {
      CopiesTotal(rows[1..], items[1..], orderId);
    }
  }

  /** Item rows appended for a fresh order id make its item total the order total. */
  lemma {:induction false} NewItemsTotal(before: seq<OrderItemRow>, added: seq<OrderItemRow>,
                                         items: seq<OrderItemCreate>, orderId: int)
    requires forall i :: 0 <= i < |before| ==> before[i].orderId != orderId
    requires |added| == |items| && forall k :: 0 <= k < |added| ==> Copies(added[k], orderId, items[k])
    ensures ItemsTotal(before + added, orderId) == Total(items)
  {
    var p := (r: OrderItemRow) => r.orderId == orderId;
    FilterAppend(before, added, p);
    FilterNone(before, p);
    FilterAll(added, p);
    assert Filter(before, p) + Filter(added, p) == added;
    CopiesTotal(added, items, orderId);
  }

  /** The loop over `obj_in.items`: one item row per input item, in input
      order, each under the next key and linked to order `orderId`. */
  method AddItemRows(before: seq<OrderItemRow>, orderId: int, items: seq<OrderItemCreate>)
    returns (rows: seq<OrderItemRow>)
    ensures |rows| == |before| + |items| && rows[..|before|] == before
    ensures forall k :: 0 <= k < |items| ==> Copies(rows[|before| + k], orderId, items[k])
  {
    rows := before;
    var i := 0;
    while i < |items|
      invariant 0 <= i <= |items|
      invariant |rows| == |before| + i
      invariant rows[..|before|] == before
      invariant forall k :: 0 <= k < i ==> Copies(rows[|before| + k], orderId, items[k])
    {
      var item := items[i];
      rows := rows + [OrderItemRow(NextId(rows, OrderItemId), orderId, item.productId, item.quantity, item.unitPrice)];
      i := i + 1;
    }
  }

  /** Inserts the order with the summed total, then one item row per input
      item, in input order, each linked to the new order. */
  method CreateWithItems(db: Database, obj: OrderCreate, userId: int, now: int) returns (order: OrderRow)
    modifies db
    ensures order.id == NextId(old(db.tables.orders), OrderId)
    ensures order.userId == userId && order.status == obj.status && order.shippingAddress == obj.shippingAddress
    ensures order.totalAmount == Total(obj.items) && order.supplierId.None? && order.createdAt == now
    ensures db.tables.orders == old(db.tables.orders) + [order]
    ensures |db.tables.orderItems| == |old(db.tables.orderItems)| + |obj.items|
    ensures db.tables.orderItems[..|old(db.tables.orderItems)|] == old(db.tables.orderItems)
    ensures forall k :: 0 <= k < |obj.items| ==>
              Copies(db.tables.orderItems[|old(db.tables.orderItems)| + k], order.id, obj.items[k])
    ensures db.tables == old(db.tables).(orders := db.tables.orders, orderItems := db.tables.orderItems)
    ensures ItemsReferenceOrders(old(db.tables)) ==> ItemsReferenceOrders(db.tables)
    ensures ItemsReferenceOrders(old(db.tables)) ==> ItemsTotal(db.tables.orderItems, order.id) == order.totalAmount
  {
    var t := db.tables;
    order := OrderRow(NextId(t.orders, OrderId), userId, None, obj.status,
                      obj.shippingAddress, Total(obj.items), now);
    db.tables := t.(orders := t.orders + [order]);
    // The item rows are added to the session one by one and written by the
    // second commit.
    var rows := AddItemRows(t.orderItems, order.id, obj.items);
    db.tables := db.tables.(orderItems := rows);
    forall k | 0 <= k < |obj.items|
      ensures Copies(db.tables.orderItems[|old(db.tables.orderItems)| + k], order.id, obj.items[k])
    {
      assert Copies(rows[|t.orderItems| + k], order.id, obj.items[k]);
    }
    if ItemsReferenceOrders(t) {
      NewOrderItems(t, order, rows, obj.items);
    }
  }

  /** Item rows appended for a new order under the next id keep every item
      row pointing at a stored order, and add up to the order's total. */
  lemma NewOrderItems(t: Tables, order: OrderRow, rows: seq<OrderItemRow>, items: seq<OrderItemCreate>)
    requires order.id == NextId(t.orders, OrderId) && ItemsReferenceOrders(t)
    requires |rows| == |t.orderItems| + |items| && rows[..|t.orderItems|] == t.orderItems
    requires forall k :: 0 <= k < |items| ==> Copies(rows[|t.orderItems| + k], order.id, items[k])
    ensures ItemsReferenceOrders(t.(orders := t.orders + [order], orderItems := rows))
    ensures ItemsTotal(rows, order.id) == Total(items)
  {
    var orders := t.orders + [order];
    assert rows == t.orderItems + rows[|t.orderItems|..];
    forall i | 0 <= i < |t.orderItems| ensures t.orderItems[i].orderId != order.id {
      assert exists j :: 0 <= j < |t.orders| && t.orders[j].id == t.orderItems[i].orderId;
      var j :| 0 <= j < |t.orders| && t.orders[j].id == t.orderItems[i].orderId;
    }
    NewItemsTotal(t.orderItems, rows[|t.orderItems|..], items, order.id);
    forall i | 0 <= i < |rows|
      ensures exists j :: 0 <= j < |orders| && orders[j].id == rows[i].orderId
    {
      if i < |t.orderItems| {
        assert exists j :: 0 <= j < |t.orders| && t.orders[j].id == t.orderItems[i].orderId;
        var j :| 0 <= j < |t.orders| && t.orders[j].id == t.orderItems[i].orderId;
        assert orders[j] == t.orders[j];
      } else {
        assert orders[|t.orders|] == order;
        assert Copies(rows[|t.orderItems| + (i - |t.orderItems|)], order.id, items[i - |t.orderItems|]);
      }
    }
  }

  function HasId(id: int): OrderRow -> bool {
    (o: OrderRow) => o.id == id
  }

  /** `update_status`: the status of the order row found by id, nothing else. */
  method UpdateStatus(db: Database, orderId: int, status: string)
    modifies db
    ensures db.tables == old(db.tables).(orders := UpdateFirst(old(db.tables.orders), HasId(orderId),
                                                             (o: OrderRow) => o.(status := status)))
  {
    db.tables := db.tables.(orders := UpdateFirst(db.tables.orders, HasId(orderId), (o: OrderRow) => o.(status := status)));
  }

  /** After a status update the order read back by id carries the new status
      and is otherwise the order it was. */
  lemma StatusUpdateReadBack(orders: seq<OrderRow>, orderId: int, status: string)
    requires Find(orders, HasId(orderId)).Some?
    ensures Find(UpdateFirst(orders, HasId(orderId), (o: OrderRow) => o.(status := status)), HasId(orderId))
            == Some(Find(orders, HasId(orderId)).value.(status := status))
  {
    FindAfterUpdateFirst(orders, HasId(orderId), (o: OrderRow) => o.(status := status));
  }
}
