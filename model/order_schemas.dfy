/** Request validation of `schemas/order.py`: what Pydantic accepts as an order
    item, a new order and an order update, with its defaults. A request is
    given with each field present or absent; a rejected request reports the
    names of the invalid fields. Prices are integer cents. */
module OrderSchemas {
  import opened Wrappers

  /** `OrderStatus.PENDING`, the default status of a new order. */
  const PENDING := "pending"
  const MAX_ADDRESS_LENGTH := 255

  datatype OrderItemCreate = OrderItemCreate(productId: int, quantity: int, unitPrice: int)

  datatype OrderItemInput = OrderItemInput(productId: Option<int>, quantity: Option<int>, unitPrice: Option<int>)

  /** `quantity: int = Field(..., gt=0)` and `unit_price: float = Field(..., gt=0)`. */
  predicate ValidItem(i: OrderItemCreate) {
    i.quantity > 0 && i.unitPrice > 0
  }

  function Problem(bad: bool, field: string): seq<string> {
    if bad then [field] else []
  }

  function ParseOrderItem(raw: OrderItemInput): (r: Result<OrderItemCreate, seq<string>>)
    ensures r.Ok? <==> raw.productId.Some? && raw.quantity.Some? && raw.quantity.value > 0
                       && raw.unitPrice.Some? && raw.unitPrice.value > 0
    ensures r.Ok? ==> ValidItem(r.value) && r.value.productId == raw.productId.value
                      && r.value.quantity == raw.quantity.value && r.value.unitPrice == raw.unitPrice.value
    ensures r.Err? ==> r.error != []
    ensures r.Err? ==> ("product_id" in r.error <==> raw.productId.None?)
    ensures r.Err? ==> ("quantity" in r.error <==> raw.quantity.None? || raw.quantity.value <= 0)
    ensures r.Err? ==> ("unit_price" in r.error <==> raw.unitPrice.None? || raw.unitPrice.value <= 0)
  {
    var errs := Problem(raw.productId.None?, "product_id")
      + Problem(raw.quantity.None? || raw.quantity.value <= 0, "quantity")
      + Problem(raw.unitPrice.None? || raw.unitPrice.value <= 0, "unit_price");
    if errs != [] then Err(errs)
    else Ok(OrderItemCreate(raw.productId.value, raw.quantity.value, raw.unitPrice.value))
  }

  /** The request body that carries `i`. */
  function ItemInput(i: OrderItemCreate): OrderItemInput {
    OrderItemInput(Some(i.productId), Some(i.quantity), Some(i.unitPrice))
  }

  lemma ItemRoundTrip(i: OrderItemCreate)
    requires ValidItem(i)
    ensures ParseOrderItem(ItemInput(i)) == Ok(i)
  {
  }

  /** `items: List[OrderItemCreate]`: every element must validate. */
  function ParseItems(raws: seq<OrderItemInput>): (r: Result<seq<OrderItemCreate>, seq<string>>)
    ensures r.Ok? <==> forall k :: 0 <= k < |raws| ==> ParseOrderItem(raws[k]).Ok?
    ensures r.Ok? ==> |r.value| == |raws|
    ensures r.Ok? ==> forall k :: 0 <= k < |raws| ==> ParseOrderItem(raws[k]) == Ok(r.value[k])
  {
    if raws == [] then Ok([])
    else
      match ParseOrderItem(raws[0])
      case Err(e) => Err(e)
      case Ok(first) =>
        match ParseItems(raws[1..])
        case Err(e) => Err(e)
        case Ok(rest) =>
          assert forall k :: 1 <= k < |raws| ==> raws[k] == raws[1..][k - 1];
          Ok([first] + rest)
  }

  datatype OrderCreate = OrderCreate(shippingAddress: string, status: string, items: seq<OrderItemCreate>)

  datatype OrderCreateInput = OrderCreateInput(shippingAddress: Option<string>, status: Option<string>,
                                               items: Option<seq<OrderItemInput>>)

  /** What every accepted `OrderCreate` satisfies. */
  predicate ValidOrder(o: OrderCreate) {
    |o.shippingAddress| <= MAX_ADDRESS_LENGTH && forall k :: 0 <= k < |o.items| ==> ValidItem(o.items[k])
  }

  predicate AddressOk(a: Option<string>) {
    a.Some? && |a.value| <= MAX_ADDRESS_LENGTH
  }

  function ParseOrderCreate(raw: OrderCreateInput): (r: Result<OrderCreate, seq<string>>)
    ensures r.Ok? <==> AddressOk(raw.shippingAddress) && raw.items.Some? && ParseItems(raw.items.value).Ok?
    ensures r.Ok? ==> ValidOrder(r.value)
    ensures r.Ok? ==> r.value.shippingAddress == raw.shippingAddress.value
                      && r.value.status == raw.status.GetOr(PENDING)
                      && ParseItems(raw.items.value) == Ok(r.value.items)
    ensures r.Err? ==> ("shipping_address" in r.error <==> !AddressOk(raw.shippingAddress))
    ensures r.Err? ==> ("items" in r.error <==> raw.items.None? || ParseItems(raw.items.value).Err?)
  {
    var items := if raw.items.None? then Err(["items"]) else ParseItems(raw.items.value);
    var errs := Problem(!AddressOk(raw.shippingAddress), "shipping_address")
      + (if items.Err? then ["items"] else []);
    if errs != [] then Err(errs)
    else
      var o := OrderCreate(raw.shippingAddress.value, raw.status.GetOr(PENDING), items.value);
      assert forall k :: 0 <= k < |o.items| ==> ParseOrderItem(raw.items.value[k]) == Ok(o.items[k]);
      Ok(o)
  }

  function OrderInput(o: OrderCreate): OrderCreateInput {
    OrderCreateInput(Some(o.shippingAddress), Some(o.status), Some(seq(|o.items|, k requires 0 <= k < |o.items| => ItemInput(o.items[k]))))
  }

  /** Every valid order survives being sent and validated. */
  lemma OrderRoundTrip(o: OrderCreate)
    requires ValidOrder(o)
    ensures ParseOrderCreate(OrderInput(o)) == Ok(o)
  {
    var raws := OrderInput(o).items.value;
    forall k | 0 <= k < |raws| ensures ParseOrderItem(raws[k]) == Ok(o.items[k]) {
      ItemRoundTrip(o.items[k]);
    }
    var r := ParseItems(raws);
    assert r.Ok?;
    assert r.value == o.items;
  }

  /** An order sent without a status is created PENDING. */
  lemma StatusDefaultsToPending(raw: OrderCreateInput)
    requires raw.status.None? && ParseOrderCreate(raw).Ok?
    ensures ParseOrderCreate(raw).value.status == PENDING
  {
  }

  /** `OrderUpdate` inherits the required `shipping_address` and makes only the
      status optional. */
  datatype OrderUpdate = OrderUpdate(shippingAddress: string, status: Option<string>)

  datatype OrderUpdateInput = OrderUpdateInput(shippingAddress: Option<string>, status: Option<string>)

  function ParseOrderUpdate(raw: OrderUpdateInput): (r: Result<OrderUpdate, seq<string>>)
    ensures r.Ok? <==> AddressOk(raw.shippingAddress)
    ensures r.Ok? ==> r.value.shippingAddress == raw.shippingAddress.value && r.value.status == raw.status
  {
    if !AddressOk(raw.shippingAddress) then Err(["shipping_address"])
    else Ok(OrderUpdate(raw.shippingAddress.value, raw.status))
  }

  /** An update that carries only a status is rejected, and one that omits
      the status is accepted. */
  lemma StatusOnlyUpdateRejected(s: string, address: string)
    requires |address| <= MAX_ADDRESS_LENGTH
    ensures ParseOrderUpdate(OrderUpdateInput(None, Some(s))).Err?
    ensures ParseOrderUpdate(OrderUpdateInput(Some(address), None)) == Ok(OrderUpdate(address, None))
  {
  }
}
