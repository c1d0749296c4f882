/** `routers/dashboard.py`: the counters and short lists of the consumer and
    supplier dashboards. Neither endpoint checks who is asking. Amounts are
    integer cents, times integer seconds; `now` is what `datetime.utcnow()`
    reads. A supplier's products are those whose `supplier_id` is the
    supplier's id, and their stock is the `stock_quantity` column. */
module DashboardRouter {
  import opened Wrappers
  import opened Seqs
  import opened Tables
  import opened Deps
  import OrderController

  const USER_NOT_FOUND := "User not found"
  const SUPPLIER_PROFILE_NOT_FOUND := "Supplier profile not found"

  const DELIVERED := "delivered"
  const PROCESSING := "processing"
  const IN_TRANSIT := "in-transit"

  /** List lengths: recent orders of a consumer and of a supplier, and the
      top-N lists of both. */
  const CONSUMER_RECENT := 5
  const SUPPLIER_RECENT := 10
  const TOP_N := 5

  /** Stock below this is low. */
  const LOW_STOCK := 10

  /** `timedelta(days=30)`, in seconds. */
  const THIRTY_DAYS := 30 * 24 * 60 * 60

  /** One row of a top-N list: an id, a name and how many joined rows its
      group has. */
  datatype Ranked = Ranked(id: int, name: string, orderCount: int)

  function OrderCount(g: Ranked): int { g.orderCount }

  /** `ORDER BY order_count DESC LIMIT n` over the groups: the first `n` of a
      stable descending sort. The result is ordered, drawn from the groups,
      and no group left out counts more than the last one kept. */
  function TopN(groups: seq<Ranked>, n: nat): (r: seq<Ranked>)
    ensures |r| == Min(n, |groups|)
    ensures SortedDesc(r, OrderCount)
    ensures forall i :: 0 <= i < |r| ==> r[i] in groups
    ensures forall g :: g in groups && g !in r ==> |r| == n && (n > 0 ==> g.orderCount <= r[n - 1].orderCount)
  {
    TopNDesc(groups, OrderCount, n);
    TopNKept(groups, n);
    TopNLeftOut(groups, n);
    Take(SortDesc(groups, OrderCount), n)
  }

  /** A top-N list lists no group more often than the groups hold it. */
  lemma TopNSubMultiset(groups: seq<Ranked>, n: nat)
    ensures multiset(TopN(groups, n)) <= multiset(groups)
  {
    var sorted := SortDesc(groups, OrderCount);
    var r := Take(sorted, n);
    assert sorted == r + sorted[|r|..];
  }

  lemma TopNKept(groups: seq<Ranked>, n: nat)
    ensures forall i :: 0 <= i < |Take(SortDesc(groups, OrderCount), n)| ==> Take(SortDesc(groups, OrderCount), n)[i] in groups
  {
    var sorted := SortDesc(groups, OrderCount);
    var r := Take(sorted, n);
    forall i | 0 <= i < |r| ensures r[i] in groups {
      assert r[i] == sorted[i];
      assert sorted[i] in multiset(sorted);
    }
  }

  lemma TopNLeftOut(groups: seq<Ranked>, n: nat)
    ensures var r := Take(SortDesc(groups, OrderCount), n);
            forall g :: g in groups && g !in r ==> |r| == n && (n > 0 ==> g.orderCount <= r[n - 1].orderCount)
  {
    var sorted := SortDesc(groups, OrderCount);
    var r := Take(sorted, n);
    SortDescSorted(groups, OrderCount);
    forall g | g in groups && g !in r ensures |r| == n && (n > 0 ==> g.orderCount <= r[n - 1].orderCount) {
      assert g in multiset(groups);
      assert g in multiset(sorted);
      var j :| 0 <= j < |sorted| && sorted[j] == g;
      if n > 0 {
        assert r[n - 1] == sorted[n - 1];
      }
    }
  }

  function RankedId(g: Ranked): int { g.id }

  /** The rows whose group is `g`: those with at least one joined row whose
      id, name and count are `g`'s. */
  function GroupIs<T>(g: Ranked, id: T -> int, name: T -> string, count: T -> int): T -> bool {
    (x: T) => count(x) > 0 && Ranked(id(x), name(x), count(x)) == g
  }

  /** The groups of a `GROUP BY id, name` over an inner join: one per row of
      `rows`, in the model's row order, keeping those with at least one joined
      row (see `RankingCounts`). */
  function Ranking<T>(rows: seq<T>, id: T -> int, name: T -> string, count: T -> int): (r: seq<Ranked>)
    ensures |r| <= |rows|
    ensures forall i :: 0 <= i < |r| ==>
              r[i].orderCount > 0 && exists k :: 0 <= k < |rows| && r[i] == Ranked(id(rows[k]), name(rows[k]), count(rows[k]))
    ensures forall k :: 0 <= k < |rows| && count(rows[k]) > 0 ==> Ranked(id(rows[k]), name(rows[k]), count(rows[k])) in r
  {
    if rows == [] then []
    else
      var x := rows[0];
      var head := if count(x) > 0 then [Ranked(id(x), name(x), count(x))] else [];
      var tail := Ranking(rows[1..], id, name, count);
      assert forall i :: 0 <= i < |tail| ==> exists k :: 0 <= k < |rows| && tail[i] == Ranked(id(rows[k]), name(rows[k]), count(rows[k])) by {
        forall i | 0 <= i < |tail| ensures exists k :: 0 <= k < |rows| && tail[i] == Ranked(id(rows[k]), name(rows[k]), count(rows[k])) {
          var k :| 0 <= k < |rows[1..]| && tail[i] == Ranked(id(rows[1..][k]), name(rows[1..][k]), count(rows[1..][k]));
          assert rows[1..][k] == rows[k + 1];
        }
      }
      assert forall k :: 1 <= k < |rows| ==> rows[k] == rows[1..][k - 1];
      head + tail
  }

  /** Each group occurs in the ranking exactly as often as there are rows
      giving it: one per row with at least one joined row, and no other. */
  lemma {:induction false} RankingCounts<T>(rows: seq<T>, id: T -> int, name: T -> string, count: T -> int, g: Ranked)
    ensures multiset(Ranking(rows, id, name, count))[g] == Count(rows, GroupIs(g, id, name, count))
  {
    if rows != [] {
      var x := rows[0];
      var p := GroupIs(g, id, name, count);
      var tail := Ranking(rows[1..], id, name, count);
      RankingCounts(rows[1..], id, name, count, g);
      assert Ranking(rows, id, name, count) == (if count(x) > 0 then [Ranked(id(x), name(x), count(x))] else []) + tail;
      assert Filter(rows, p) == (if p(x) then [x] else []) + Filter(rows[1..], p);
    }
  }

  /** Rows with distinct ids give groups with distinct ids. */
  lemma {:induction false} RankingUniqueIds<T>(rows: seq<T>, id: T -> int, name: T -> string, count: T -> int)
    requires UniqueIds(rows, id)
    ensures UniqueIds(Ranking(rows, id, name, count), RankedId)
  {
    if rows != [] {
      var rest := rows[1..];
      assert UniqueIds(rest, id) by {
        forall i, j | 0 <= i < j < |rest| ensures id(rest[i]) != id(rest[j]) {
          assert rest[i] == rows[i + 1] && rest[j] == rows[j + 1];
        }
      }
      RankingUniqueIds(rest, id, name, count);
      var tail := Ranking(rest, id, name, count);
      forall i | 0 <= i < |tail| ensures tail[i].id != id(rows[0]) {
        RankedFromLaterRow(rows, id, name, count, tail[i]);
      }
      var r := Ranking(rows, id, name, count);
      assert r == (if count(rows[0]) > 0 then [Ranked(id(rows[0]), name(rows[0]), count(rows[0]))] else []) + tail;
    }
  }

  /** A group of the rows after the first has an id other than the first row's. */
  lemma RankedFromLaterRow<T>(rows: seq<T>, id: T -> int, name: T -> string, count: T -> int, x: Ranked)
    requires rows != [] && UniqueIds(rows, id) && x in Ranking(rows[1..], id, name, count)
    ensures x.id != id(rows[0])
  {
    var m := RankingEntry(rows[1..], id, name, count, x);
    assert rows[1..][m] == rows[m + 1];
  }

  /** A top-N list of the groups of rows with distinct ids names no id twice. */
  lemma TopOfRankingUniqueIds<T>(rows: seq<T>, id: T -> int, name: T -> string, count: T -> int, n: nat)
    ensures UniqueIds(rows, id) ==> UniqueIds(TopN(Ranking(rows, id, name, count), n), RankedId)
  {
    if UniqueIds(rows, id) {
      RankingUniqueIds(rows, id, name, count);
      var groups := Ranking(rows, id, name, count);
      TopNSubMultiset(groups, n);
      UniqueIdsSubMultiset(TopN(groups, n), groups, RankedId);
    }
  }

  function Delivered(userId: int): OrderRow -> bool {
    (o: OrderRow) => o.userId == userId && o.status == DELIVERED
  }

  function InProgress(userId: int): OrderRow -> bool {
    (o: OrderRow) => o.userId == userId && (o.status == PROCESSING || o.status == IN_TRANSIT)
  }

  function Amount(o: OrderRow): int { o.totalAmount }

  /** SQL `SUM(total_amount)` over the orders satisfying `p`, 0 for none. */
  function Revenue(orders: seq<OrderRow>, p: OrderRow -> bool): int {
    Sum(Filter(orders, p), Amount)
  }

  /** The user's orders placed with supplier `supplierId`. */
  function OrdersWith(orders: seq<OrderRow>, userId: int, supplierId: int): nat {
    Count(orders, (o: OrderRow) => o.userId == userId && o.supplierId == Some(supplierId))
  }

  function SupplierName(s: SupplierRow): string { s.name }

  function OrdersWithEach(orders: seq<OrderRow>, userId: int): SupplierRow -> int {
    (s: SupplierRow) => OrdersWith(orders, userId, s.id)
  }

  /** The favourite-suppliers query: the suppliers joined to the user's
      orders, grouped, by order count, at most five. */
  function FavoriteSuppliers(t: Tables, userId: int): (r: seq<Ranked>)
    ensures |r| <= TOP_N
    ensures SortedDesc(r, OrderCount)
    ensures forall i :: 0 <= i < |r| ==>
              r[i].orderCount > 0 && exists k :: 0 <= k < |t.suppliers| && r[i].id == t.suppliers[k].id
                                               && r[i].name == t.suppliers[k].name
                                               && r[i].orderCount == OrdersWith(t.orders, userId, t.suppliers[k].id)
    ensures UniqueIds(t.suppliers, SupplierId) ==> UniqueIds(r, RankedId)
  {
    TopOfRankingUniqueIds(t.suppliers, SupplierId, SupplierName, OrdersWithEach(t.orders, userId), TOP_N);
    TopN(Ranking(t.suppliers, SupplierId, SupplierName, OrdersWithEach(t.orders, userId)), TOP_N)
  }

  /** Every supplier the user ordered from is a favourite, unless five are
      listed already and none of them was ordered from less. */
  lemma FavoriteSuppliersLeftOut(t: Tables, userId: int, k: int)
    requires 0 <= k < |t.suppliers| && OrdersWith(t.orders, userId, t.suppliers[k].id) > 0
    ensures var r := FavoriteSuppliers(t, userId);
            var g := Ranked(t.suppliers[k].id, t.suppliers[k].name, OrdersWith(t.orders, userId, t.suppliers[k].id));
            g in r || (|r| == TOP_N && g.orderCount <= r[TOP_N - 1].orderCount)
  {
    var groups := Ranking(t.suppliers, SupplierId, SupplierName, OrdersWithEach(t.orders, userId));
    assert OrdersWithEach(t.orders, userId)(t.suppliers[k]) > 0;
    assert Ranked(SupplierId(t.suppliers[k]), SupplierName(t.suppliers[k]), OrdersWithEach(t.orders, userId)(t.suppliers[k])) in groups;
  }

  /** The consumer dashboard's reply. */
  datatype ConsumerSummary = ConsumerSummary(
    userId: int, totalOrders: nat, completedOrders: nat, pendingOrders: nat, totalSpent: int,
    recentOrders: seq<OrderRow>, favoriteSuppliers: seq<Ranked>)

  /** `get_consumer_dashboard`: 404 for an unknown user; otherwise the
      user's order counts — delivered and in progress never adding up to
      more than the total — the sum of their order amounts, their five
      newest orders, and the at most five suppliers they ordered from most. */
  function ConsumerDashboard(t: Tables, userId: int): (r: Result<ConsumerSummary, HttpError>)
    ensures r.Err? <==> UserById(t.users, userId).None?
    ensures r.Err? ==> r.error == HttpError(NOT_FOUND, USER_NOT_FOUND)
    ensures r.Ok? ==> r.value.userId == userId
    ensures r.Ok? ==> r.value.totalOrders == Count(t.orders, OrderController.OfUser(userId))
                      && r.value.completedOrders == Count(t.orders, Delivered(userId))
                      && r.value.pendingOrders == Count(t.orders, InProgress(userId))
    ensures r.Ok? ==> r.value.completedOrders + r.value.pendingOrders <= r.value.totalOrders
    ensures r.Ok? ==> r.value.totalSpent == Revenue(t.orders, OrderController.OfUser(userId))
    ensures r.Ok? ==> IsWindow(r.value.recentOrders, OrderController.Newest(t.orders, OrderController.OfUser(userId)),
                               0, CONSUMER_RECENT)
    ensures r.Ok? ==> |r.value.recentOrders| == Min(CONSUMER_RECENT, r.value.totalOrders)
                      && SortedDesc(r.value.recentOrders, OrderController.CreatedAt)
                      && forall i :: 0 <= i < |r.value.recentOrders| ==>
                           r.value.recentOrders[i].userId == userId && r.value.recentOrders[i] in t.orders
    ensures r.Ok? && r.value.recentOrders != [] ==>
              var recent := r.value.recentOrders;
              forall i :: 0 <= i < |t.orders| && t.orders[i].userId == userId && t.orders[i] !in recent ==>
                t.orders[i].createdAt <= recent[|recent| - 1].createdAt
    ensures r.Ok? ==> r.value.favoriteSuppliers == FavoriteSuppliers(t, userId)
  {
    if UserById(t.users, userId).None? then Err(HttpError(NOT_FOUND, USER_NOT_FOUND))
    else
      var mine := OrderController.OfUser(userId);
      CountDisjoint(t.orders, Delivered(userId), InProgress(userId), mine);
      Ok(ConsumerSummary(userId, Count(t.orders, mine), Count(t.orders, Delivered(userId)),
                         Count(t.orders, InProgress(userId)), Revenue(t.orders, mine),
                         OrderController.NewestFirst(t.orders, mine, 0, CONSUMER_RECENT),
                         FavoriteSuppliers(t, userId)))
  }

  function OfSupplier(supplierId: int): OrderRow -> bool {
    (o: OrderRow) => o.supplierId == Some(supplierId)
  }

  function RecentOf(supplierId: int, since: int): OrderRow -> bool {
    (o: OrderRow) => o.supplierId == Some(supplierId) && o.createdAt >= since
  }

  function Stocks(supplierId: int): ProductRow -> bool {
    (p: ProductRow) => p.supplierId == Some(supplierId)
  }

  function LowStock(supplierId: int): ProductRow -> bool {
    (p: ProductRow) => p.supplierId == Some(supplierId) && p.stockQuantity < LOW_STOCK
  }

  /** Item rows that order product `productId`. */
  function ItemsOf(items: seq<OrderItemRow>, productId: int): nat {
    Count(items, (it: OrderItemRow) => it.productId == productId)
  }

  function ProductName(p: ProductRow): string { p.name }

  function ItemsOfEach(items: seq<OrderItemRow>): ProductRow -> int {
    (p: ProductRow) => ItemsOf(items, p.id)
  }

  /** The top-products query: the supplier's products joined to the order
      items naming them, grouped, by item count, at most five. */
  function TopProducts(t: Tables, supplierId: int): (r: seq<Ranked>)
    ensures |r| <= TOP_N
    ensures SortedDesc(r, OrderCount)
    ensures forall i :: 0 <= i < |r| ==>
              r[i].orderCount > 0 && exists k :: 0 <= k < |t.products| && r[i].id == t.products[k].id
                                               && r[i].name == t.products[k].name
                                               && t.products[k].supplierId == Some(supplierId)
                                               && r[i].orderCount == ItemsOf(t.orderItems, t.products[k].id)
    ensures UniqueIds(t.products, ProductId) ==> UniqueIds(r, RankedId)
  {
    TopProductsUniqueIds(t, supplierId);
    var r := TopN(Ranking(Filter(t.products, Stocks(supplierId)), ProductId, ProductName, ItemsOfEach(t.orderItems)), TOP_N);
    TopProductsAreOwn(t, supplierId, r);
    r
  }

  /** No product is a top product twice when product ids are distinct. */
  lemma TopProductsUniqueIds(t: Tables, supplierId: int)
    ensures UniqueIds(t.products, ProductId) ==>
              UniqueIds(TopN(Ranking(Filter(t.products, Stocks(supplierId)), ProductId, ProductName,
                                     ItemsOfEach(t.orderItems)), TOP_N), RankedId)
  {
    var own := Filter(t.products, Stocks(supplierId));
    if UniqueIds(t.products, ProductId) {
      FilterMultiset(t.products, Stocks(supplierId));
      assert multiset(own) <= multiset(t.products);
      UniqueIdsSubMultiset(own, t.products, ProductId);
    }
    TopOfRankingUniqueIds(own, ProductId, ProductName, ItemsOfEach(t.orderItems), TOP_N);
  }

  /** Every product of the supplier that some order item names is a top
      product, unless five are listed already and none of them is named by
      fewer order items. */
  lemma TopProductsLeftOut(t: Tables, supplierId: int, k: int)
    requires 0 <= k < |t.products| && t.products[k].supplierId == Some(supplierId)
    requires ItemsOf(t.orderItems, t.products[k].id) > 0
    ensures var r := TopProducts(t, supplierId);
            var g := Ranked(t.products[k].id, t.products[k].name, ItemsOf(t.orderItems, t.products[k].id));
            g in r || (|r| == TOP_N && g.orderCount <= r[TOP_N - 1].orderCount)
  {
    var own := Filter(t.products, Stocks(supplierId));
    assert Stocks(supplierId)(t.products[k]);
    var m := IndexOf(own, t.products[k]);
    var groups := Ranking(own, ProductId, ProductName, ItemsOfEach(t.orderItems));
    assert ItemsOfEach(t.orderItems)(own[m]) > 0;
    assert Ranked(ProductId(own[m]), ProductName(own[m]), ItemsOfEach(t.orderItems)(own[m])) in groups;
  }

  /** Each entry of the top-products list is one of the supplier's stored
      products with its item count. */
  lemma TopProductsAreOwn(t: Tables, supplierId: int, r: seq<Ranked>)
    requires r == TopN(Ranking(Filter(t.products, Stocks(supplierId)), ProductId, ProductName, ItemsOfEach(t.orderItems)), TOP_N)
    ensures forall i :: 0 <= i < |r| ==>
              exists k :: 0 <= k < |t.products| && r[i].id == t.products[k].id
                          && r[i].name == t.products[k].name
                          && t.products[k].supplierId == Some(supplierId)
                          && r[i].orderCount == ItemsOf(t.orderItems, t.products[k].id)
  {
    forall i | 0 <= i < |r|
      ensures exists k :: 0 <= k < |t.products| && r[i].id == t.products[k].id
                          && r[i].name == t.products[k].name
                          && t.products[k].supplierId == Some(supplierId)
                          && r[i].orderCount == ItemsOf(t.orderItems, t.products[k].id)
    {
      var m := RankingEntry(Filter(t.products, Stocks(supplierId)), ProductId, ProductName,
                            ItemsOfEach(t.orderItems), r[i]);
      OwnProduct(t, supplierId, m, r[i]);
    }
  }

  /** The group `x` of a ranking comes from one of the rows. */
  lemma RankingEntry<T>(rows: seq<T>, id: T -> int, name: T -> string, count: T -> int, x: Ranked) returns (m: nat)
    requires x in Ranking(rows, id, name, count)
    ensures m < |rows| && x == Ranked(id(rows[m]), name(rows[m]), count(rows[m]))
  {
    var ranks := Ranking(rows, id, name, count);
    var j := IndexOf(ranks, x);
    m :| 0 <= m < |rows| && ranks[j] == Ranked(id(rows[m]), name(rows[m]), count(rows[m]));
  }

  /** A group built from the supplier's `m`-th own product names a stored
      product of that supplier, with its item count. */
  lemma OwnProduct(t: Tables, supplierId: int, m: nat, x: Ranked)
    requires m < |Filter(t.products, Stocks(supplierId))|
    requires var p := Filter(t.products, Stocks(supplierId))[m];
             x == Ranked(ProductId(p), ProductName(p), ItemsOfEach(t.orderItems)(p))
    ensures exists k :: 0 <= k < |t.products| && x.id == t.products[k].id
                        && x.name == t.products[k].name
                        && t.products[k].supplierId == Some(supplierId)
                        && x.orderCount == ItemsOf(t.orderItems, t.products[k].id)
  {
    var p := Filter(t.products, Stocks(supplierId))[m];
    assert p in t.products && Stocks(supplierId)(p);
    var k := IndexOf(t.products, p);
    assert t.products[k].supplierId == Some(supplierId);
  }

  /** The supplier profile of user `userId`: the first one stored. */
  function ProfileOf(suppliers: seq<SupplierRow>, userId: int): (r: Option<SupplierRow>)
    ensures r.Some? <==> exists i :: 0 <= i < |suppliers| && suppliers[i].userId == userId
    ensures r.Some? ==> r.value.userId == userId && r.value in suppliers
  {
    var r := Find(suppliers, (s: SupplierRow) => s.userId == userId);
    if r.None? then
      assert forall i :: 0 <= i < |suppliers| ==> suppliers[i].userId != userId by {
        forall i | 0 <= i < |suppliers| ensures suppliers[i].userId != userId {
          assert !(((s: SupplierRow) => s.userId == userId)(suppliers[i]));
        }
      }
      r
    else r
  }

  /** The supplier dashboard's reply. */
  datatype SupplierSummary = SupplierSummary(
    userId: int, supplierId: int, supplierName: string,
    totalOrders: nat, totalRevenue: int, recentRevenue: int,
    totalProducts: nat, lowStockProducts: nat,
    recentOrders: seq<OrderRow>, topProducts: seq<Ranked>)

  /** The figures of the supplier dashboard for the profile `s`. */
  function SupplierFigures(t: Tables, s: SupplierRow, userId: int, now: int): (r: SupplierSummary)
    ensures r.userId == userId && r.supplierId == s.id && r.supplierName == s.name
    ensures r.totalOrders == Count(t.orders, OfSupplier(s.id))
            && r.totalRevenue == Revenue(t.orders, OfSupplier(s.id))
            && r.recentRevenue == Revenue(t.orders, RecentOf(s.id, now - THIRTY_DAYS))
    ensures r.totalProducts == Count(t.products, Stocks(s.id))
            && r.lowStockProducts == Count(t.products, LowStock(s.id))
            && r.lowStockProducts <= r.totalProducts
    ensures IsWindow(r.recentOrders, OrderController.Newest(t.orders, OfSupplier(s.id)), 0, SUPPLIER_RECENT)
    ensures |r.recentOrders| == Min(SUPPLIER_RECENT, r.totalOrders)
            && SortedDesc(r.recentOrders, OrderController.CreatedAt)
            && forall i :: 0 <= i < |r.recentOrders| ==>
                 r.recentOrders[i].supplierId == Some(s.id) && r.recentOrders[i] in t.orders
    ensures r.recentOrders != [] ==>
              forall i :: 0 <= i < |t.orders| && t.orders[i].supplierId == Some(s.id) && t.orders[i] !in r.recentOrders ==>
                t.orders[i].createdAt <= r.recentOrders[|r.recentOrders| - 1].createdAt
    ensures r.topProducts == TopProducts(t, s.id)
  {
    CountMonotone(t.products, LowStock(s.id), Stocks(s.id));
    SupplierSummary(userId, s.id, s.name, Count(t.orders, OfSupplier(s.id)),
                    Revenue(t.orders, OfSupplier(s.id)),
                    Revenue(t.orders, RecentOf(s.id, now - THIRTY_DAYS)),
                    Count(t.products, Stocks(s.id)), Count(t.products, LowStock(s.id)),
                    OrderController.NewestFirst(t.orders, OfSupplier(s.id), 0, SUPPLIER_RECENT),
                    TopProducts(t, s.id))
  }

  /** `get_supplier_dashboard`: 404 "User not found" before 404 "Supplier
      profile not found"; otherwise, for the user's supplier profile, its
      order count and revenue, the revenue of the last thirty days, its
      product count with the low-stock ones among them, its ten newest
      orders and its at most five most ordered products. */
  function SupplierDashboard(t: Tables, userId: int, now: int): (r: Result<SupplierSummary, HttpError>)
    ensures r.Err? <==> UserById(t.users, userId).None? || ProfileOf(t.suppliers, userId).None?
    ensures UserById(t.users, userId).None? ==> r == Err(HttpError(NOT_FOUND, USER_NOT_FOUND))
    ensures UserById(t.users, userId).Some? && ProfileOf(t.suppliers, userId).None? ==>
              r == Err(HttpError(NOT_FOUND, SUPPLIER_PROFILE_NOT_FOUND))
    ensures r.Ok? ==> var s := ProfileOf(t.suppliers, userId).value;
                      r.value.userId == userId && r.value.supplierId == s.id && r.value.supplierName == s.name
    ensures r.Ok? ==> var sid := r.value.supplierId;
                      r.value.totalOrders == Count(t.orders, OfSupplier(sid))
                      && r.value.totalRevenue == Revenue(t.orders, OfSupplier(sid))
                      && r.value.recentRevenue == Revenue(t.orders, RecentOf(sid, now - THIRTY_DAYS))
    ensures r.Ok? ==> var sid := r.value.supplierId;
                      r.value.totalProducts == Count(t.products, Stocks(sid))
                      && r.value.lowStockProducts == Count(t.products, LowStock(sid))
                      && r.value.lowStockProducts <= r.value.totalProducts
    ensures r.Ok? ==> IsWindow(r.value.recentOrders, OrderController.Newest(t.orders, OfSupplier(r.value.supplierId)),
                               0, SUPPLIER_RECENT)
    ensures r.Ok? ==> var sid := r.value.supplierId;
                      |r.value.recentOrders| == Min(SUPPLIER_RECENT, r.value.totalOrders)
                      && SortedDesc(r.value.recentOrders, OrderController.CreatedAt)
                      && forall i :: 0 <= i < |r.value.recentOrders| ==>
                           r.value.recentOrders[i].supplierId == Some(sid) && r.value.recentOrders[i] in t.orders
    ensures r.Ok? && r.value.recentOrders != [] ==>
              var recent := r.value.recentOrders;
              forall i :: 0 <= i < |t.orders| && t.orders[i].supplierId == Some(r.value.supplierId) && t.orders[i] !in recent ==>
                t.orders[i].createdAt <= recent[|recent| - 1].createdAt
    ensures r.Ok? ==> r.value.topProducts == TopProducts(t, r.value.supplierId)
  {
    if UserById(t.users, userId).None? then Err(HttpError(NOT_FOUND, USER_NOT_FOUND))
    else if ProfileOf(t.suppliers, userId).None? then Err(HttpError(NOT_FOUND, SUPPLIER_PROFILE_NOT_FOUND))
    else Ok(SupplierFigures(t, ProfileOf(t.suppliers, userId).value, userId, now))
  }

  /** With non-negative order amounts, the last thirty days never earn more
      than all time, and nothing is earned before any order. */
  lemma RecentRevenueBounded(t: Tables, userId: int, now: int)
    requires SupplierDashboard(t, userId, now).Ok?
    requires forall i :: 0 <= i < |t.orders| ==> t.orders[i].totalAmount >= 0
    ensures 0 <= SupplierDashboard(t, userId, now).value.recentRevenue <= SupplierDashboard(t, userId, now).value.totalRevenue
  {
    var sid := SupplierDashboard(t, userId, now).value.supplierId;
    var none := (o: OrderRow) => false;
    SumFilterMonotone(t.orders, RecentOf(sid, now - THIRTY_DAYS), OfSupplier(sid), Amount);
    SumFilterMonotone(t.orders, none, RecentOf(sid, now - THIRTY_DAYS), Amount);
    FilterNone(t.orders, none);
  }

  /** An order of the supplier older than thirty days adds to the total
      revenue but not to the recent revenue; one from the last thirty days
      adds to both. */
  lemma NewOrderRevenue(orders: seq<OrderRow>, supplierId: int, now: int, o: OrderRow)
    requires o.supplierId == Some(supplierId)
    ensures Revenue(orders + [o], OfSupplier(supplierId)) == Revenue(orders, OfSupplier(supplierId)) + o.totalAmount
    ensures Revenue(orders + [o], RecentOf(supplierId, now - THIRTY_DAYS))
            == Revenue(orders, RecentOf(supplierId, now - THIRTY_DAYS))
               + if o.createdAt >= now - THIRTY_DAYS then o.totalAmount else 0
  {
    var recent := RecentOf(supplierId, now - THIRTY_DAYS);
    assert [o][1..] == [];
    assert Sum([o], Amount) == o.totalAmount;
    assert Filter([o], OfSupplier(supplierId)) == [o];
    assert Filter([o], recent) == if o.createdAt >= now - THIRTY_DAYS then [o] else [];
    FilterAppend(orders, [o], OfSupplier(supplierId));
    FilterAppend(orders, [o], recent);
    SumAppend(Filter(orders, OfSupplier(supplierId)), [o], Amount);
    SumAppend(Filter(orders, recent), Filter([o], recent), Amount);
  }
}
