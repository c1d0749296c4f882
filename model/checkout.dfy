/** frontend/src/components/consumer/Checkout.jsx: the four-step wizard, the
    cart edits and the rules that enable its buttons. */
module Checkout {
  import opened Seqs

  /** A cart line; `price` is in cents (the page's totals are left out). */
  datatype CartItem = CartItem(id: int, name: string, supplier: string, price: int,
                               quantity: int, unit: string, image: string)

  /** `steps = ['Cart', 'Shipping', 'Payment', 'Review']`. */
  const STEP_COUNT := 4
  const LAST_STEP := STEP_COUNT - 1
  const PAYMENT_STEP := 2

  /** The cart without any line of that id (`filter(item => item.id !== id)`). */
  function WithoutId(items: seq<CartItem>, id: int): (r: seq<CartItem>)
    ensures |r| <= |items|
    ensures forall i :: 0 <= i < |r| ==> r[i].id != id && r[i] in items
    ensures forall i :: 0 <= i < |items| && items[i].id != id ==> items[i] in r
    ensures forall x: CartItem :: x.id != id ==> multiset(r)[x] == multiset(items)[x]
  {
    FilterMultiset(items, (item: CartItem) => item.id != id);
    Filter(items, (item: CartItem) => item.id != id)
  }

  /** The cart with every line of that id given the new quantity. */
  function WithQuantity(items: seq<CartItem>, id: int, quantity: int): (r: seq<CartItem>)
    ensures |r| == |items|
    ensures forall i :: 0 <= i < |items| ==>
              r[i] == (if items[i].id == id then items[i].(quantity := quantity) else items[i])
  {
    MapIf(items, (item: CartItem) => item.id == id, (item: CartItem) => item.(quantity := quantity))
  }

  /** Removing a line keeps the remaining lines in their order. */
  lemma WithoutIdKeepsOrder(items: seq<CartItem>, id: int)
    ensures IsSubsequence(WithoutId(items, id), items)
  {
    FilterIsSubsequence(items, (item: CartItem) => item.id != id);
  }

  /** Setting a quantity twice keeps the second; the ids are never changed. */
  lemma WithQuantityLastWins(items: seq<CartItem>, id: int, q1: int, q2: int)
    ensures WithQuantity(WithQuantity(items, id, q1), id, q2) == WithQuantity(items, id, q2)
    ensures forall i :: 0 <= i < |items| ==> WithQuantity(items, id, q1)[i].id == items[i].id
  {
  }

  /** Every line has a positive quantity. */
  ghost predicate QuantitiesPositive(items: seq<CartItem>) {
    forall i :: 0 <= i < |items| ==> items[i].quantity >= 1
  }

  /** The cart's +/- buttons call `updateQuantity(item.id, item.quantity ± 1)`:
      they keep every quantity positive, even with repeated ids, since a line
      decremented to 0 is removed. */
  lemma StepButtonsKeepQuantitiesPositive(items: seq<CartItem>, k: int, delta: int)
    requires QuantitiesPositive(items) && 0 <= k < |items| && (delta == 1 || delta == -1)
    ensures QuantitiesPositive(QuantityUpdated(items, items[k].id, items[k].quantity + delta))
  {
    var q := items[k].quantity + delta;
    if q != 0 {
      assert q >= 1;
      var r := WithQuantity(items, items[k].id, q);
      forall i | 0 <= i < |r| ensures r[i].quantity >= 1 {
        if items[i].id != items[k].id {
          assert r[i] == items[i];
        }
      }
    }
  }

  /** `updateQuantity(id, q)`'s new cart: 0 removes the lines of that id,
      anything else sets their quantity. */
  function QuantityUpdated(items: seq<CartItem>, id: int, quantity: int): (r: seq<CartItem>)
    ensures quantity == 0 ==> forall i :: 0 <= i < |r| ==> r[i].id != id
    ensures quantity != 0 ==> |r| == |items|
  {
    if quantity == 0 then WithoutId(items, id) else WithQuantity(items, id, quantity)
  }

  class Wizard {
    var activeStep: int
    var cartItems: seq<CartItem>
    var paymentMethod: string

    /** The step always names one of the four steps. */
    ghost predicate Valid()
      reads this
    {
      0 <= activeStep <= LAST_STEP
    }

    constructor (cart: seq<CartItem>)
      ensures Valid() && activeStep == 0 && cartItems == cart && paymentMethod == ""
    {
      activeStep := 0;
      cartItems := cart;
      paymentMethod := "";
    }

    /** `handleNext`: advance unless on the last step. */
    method HandleNext()
      requires Valid()
      modifies this
      ensures Valid()
      ensures activeStep == (if old(activeStep) < LAST_STEP then old(activeStep) + 1 else old(activeStep))
      ensures cartItems == old(cartItems) && paymentMethod == old(paymentMethod)
    {
      if activeStep < STEP_COUNT - 1 {
        activeStep := activeStep + 1;
      }
    }

    /** `handleBack`: retreat unless on the first step. */
    method HandleBack()
      requires Valid()
      modifies this
      ensures Valid()
      ensures activeStep == (if old(activeStep) > 0 then old(activeStep) - 1 else old(activeStep))
      ensures cartItems == old(cartItems) && paymentMethod == old(paymentMethod)
    {
      if activeStep > 0 {
        activeStep := activeStep - 1;
      }
    }

    /** `updateQuantity(itemId, newQuantity)`. */
    method UpdateQuantity(itemId: int, newQuantity: int)
      modifies this
      ensures cartItems == QuantityUpdated(old(cartItems), itemId, newQuantity)
      ensures activeStep == old(activeStep) && paymentMethod == old(paymentMethod)
    {
      if newQuantity == 0 {
        cartItems := WithoutId(cartItems, itemId);
      } else {
        cartItems := WithQuantity(cartItems, itemId, newQuantity);
      }
    }

    /** `removeItem(itemId)`. */
    method RemoveItem(itemId: int)
      modifies this
      ensures cartItems == WithoutId(old(cartItems), itemId)
      ensures activeStep == old(activeStep) && paymentMethod == old(paymentMethod)
    {
      cartItems := WithoutId(cartItems, itemId);
    }

    /** "Proceed to Shipping" is enabled only with a non-empty cart. */
    function ProceedEnabled(): (r: bool)
      reads this
      ensures r <==> |cartItems| > 0
    {
      |cartItems| != 0
    }

    /** "Back" is disabled on the first step. */
    function BackEnabled(): (r: bool)
      reads this
      ensures r <==> activeStep != 0
    {
      activeStep != 0
    }

    /** "Next" is shown on the Shipping and Payment steps only. */
    function NextShown(): (r: bool)
      reads this
      ensures r <==> activeStep == 1 || activeStep == PAYMENT_STEP
    {
      activeStep < LAST_STEP && activeStep > 0
    }

    /** "Next" is disabled on the Payment step until a method is chosen. */
    function NextEnabled(): (r: bool)
      reads this
      ensures r <==> activeStep != PAYMENT_STEP || paymentMethod != ""
    {
      !(activeStep == PAYMENT_STEP && paymentMethod == "")
    }
  }
}
