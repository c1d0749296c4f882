/** frontend/src/components/consumer/Orders.jsx: the consumer's order history
    split into tabs, the status colours and the per-order actions. */
module OrdersPage {
  import opened Seqs

  /** The fields of an order card the page's logic reads. */
  datatype OrderCard = OrderCard(id: string, supplierName: string, status: string)

  const PROCESSING := "processing"
  const IN_TRANSIT := "in-transit"
  const DELIVERED := "delivered"
  const CANCELLED := "cancelled"

  /** The tab filter: 0 active (processing or in transit), 1 delivered,
      2 cancelled, any other tab everything. */
  predicate InTab(tab: int, status: string) {
    if tab == 0 then status == PROCESSING || status == IN_TRANSIT
    else if tab == 1 then status == DELIVERED
    else if tab == 2 then status == CANCELLED
    else true
  }

  /** `filteredOrders`. */
  function FilteredOrders(orders: seq<OrderCard>, tab: int): (r: seq<OrderCard>)
    ensures forall i :: 0 <= i < |r| ==> r[i] in orders && InTab(tab, r[i].status)
    ensures forall i :: 0 <= i < |orders| && InTab(tab, orders[i].status) ==> orders[i] in r
  {
    Filter(orders, (o: OrderCard) => InTab(tab, o.status))
  }

  /** The list keeps the page's order, and any tab other than 0–2 shows everything. */
  lemma FilteredOrdersShape(orders: seq<OrderCard>, tab: int)
    ensures IsSubsequence(FilteredOrders(orders, tab), orders)
    ensures !(0 <= tab <= 2) ==> FilteredOrders(orders, tab) == orders
  {
    FilterIsSubsequence(orders, (o: OrderCard) => InTab(tab, o.status));
    if !(0 <= tab <= 2) {
      FilterAll(orders, (o: OrderCard) => InTab(tab, o.status));
    }
  }

  /** Tabs 0, 1 and 2 never show the same order. */
  lemma TabsDisjoint(t1: int, t2: int, status: string)
    requires 0 <= t1 <= 2 && 0 <= t2 <= 2 && t1 != t2
    ensures !(InTab(t1, status) && InTab(t2, status))
  {
  }

  /** An order with one of the four known statuses shows in one of tabs 0–2
      (and, by `TabsDisjoint`, in only one). */
  lemma KnownStatusInOneTab(status: string)
    requires status in {PROCESSING, IN_TRANSIT, DELIVERED, CANCELLED}
    ensures InTab(0, status) || InTab(1, status) || InTab(2, status)
  {
  }

  /** `getStatusColor`. */
  function StatusColor(status: string): (color: string)
    ensures status !in {PROCESSING, IN_TRANSIT, DELIVERED, CANCELLED} <==> color == "default"
  {
    match status
    case "processing" => "warning"
    case "in-transit" => "info"
    case "delivered" => "success"
    case "cancelled" => "error"
    case _ => "default"
  }

  /** The four known statuses get four distinct colours. */
  lemma StatusColorsDistinct(a: string, b: string)
    requires a in {PROCESSING, IN_TRANSIT, DELIVERED, CANCELLED} && b in {PROCESSING, IN_TRANSIT, DELIVERED, CANCELLED}
    ensures StatusColor(a) == StatusColor(b) <==> a == b
  {
  }

  /** "Cancel Order" is offered only on processing orders. */
  predicate CanCancel(o: OrderCard) {
    o.status == PROCESSING
  }

  /** "Order Again" is offered only on delivered orders. */
  predicate CanReorder(o: OrderCard) {
    o.status == DELIVERED
  }

  /** No order offers both actions; cancellable orders sit in the active tab
      and re-orderable ones in the delivered tab. */
  lemma ActionsByTab(o: OrderCard)
    ensures !(CanCancel(o) && CanReorder(o))
    ensures CanCancel(o) ==> InTab(0, o.status)
    ensures CanReorder(o) ==> InTab(1, o.status)
  {
  }
}
