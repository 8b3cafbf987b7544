/** The order page: per-product quantities, the subtotal / delivery fee /
    total, and the submission, which refuses an empty cart and otherwise goes
    idle → submitting → success or error. The page reads one `price` per
    catalogue entry, so an entry here is `(id, name, price)`. */
module OrderPage {
  import opened Common

  datatype Product = Product(id: string, name: string, price: int)

  datatype Status = Idle | Submitting | Success | Error

  datatype Totals = Totals(subtotal: int, deliveryFee: int, total: int)

  /** One element of `orderItems`. */
  datatype OrderItem = OrderItem(id: string, name: string, price: int, quantity: int)

  datatype Customer = Customer(name: string, email: string, phone: string, address: string, notes: string)

  /** The JSON body posted to `/api/orders`. */
  datatype OrderRequest = OrderRequest(
    customer: Customer,
    items: seq<OrderItem>,
    subtotal: int,
    deliveryFee: int,
    total: int,
    isPickup: bool)

  /** What the `fetch` comes back with. */
  datatype Response = Ok | NotOk | Thrown

  const FlatDeliveryFee := 10
  const FreeDeliveryThreshold := 50

  /** `quantities[id] || 0`. */
  function Qty(quantities: map<string, int>, id: string): int
  {
    OrZero(Get(quantities, id))
  }

  predicate NonNegative(quantities: map<string, int>)
  {
    forall id :: id in quantities ==> quantities[id] >= 0
  }

  predicate PositivePrices(catalogue: seq<Product>)
  {
    forall i :: 0 <= i < |catalogue| ==> catalogue[i].price > 0
  }

  /** The `reduce` over the catalogue: Σ price × quantity. With non-negative
      quantities at positive prices it is never negative, and it is zero
      exactly when no catalogue entry has a positive quantity. */
  function Subtotal(catalogue: seq<Product>, quantities: map<string, int>): (r: int)
    ensures NonNegative(quantities) && PositivePrices(catalogue) ==> r >= 0
    ensures NonNegative(quantities) && PositivePrices(catalogue) ==>
      (r == 0 <==> forall i :: 0 <= i < |catalogue| ==> Qty(quantities, catalogue[i].id) == 0)
  {
    if catalogue == [] then 0
    else
      var init := catalogue[..|catalogue| - 1];
      var p := catalogue[|catalogue| - 1];
      var q := Qty(quantities, p.id);
      assert NonNegative(quantities) && PositivePrices(catalogue) ==>
        PositivePrices(init) && p.price * q >= 0 && (p.price * q == 0 <==> q == 0) by {
        if NonNegative(quantities) && PositivePrices(catalogue) {
          assert p.price > 0 && q >= 0;
          if q > 0 {
            assert p.price * q >= p.price;
          }
        }
      }
      Subtotal(init, quantities) + p.price * q
  }

  /** calculateTotal: the fee is waived for pickup or a subtotal of at least
      $50, and is the flat $10 otherwise; the total adds it on. */
  function CalculateTotal(catalogue: seq<Product>, quantities: map<string, int>, isPickup: bool): (t: Totals)
    ensures t.subtotal == Subtotal(catalogue, quantities)
    ensures t.deliveryFee == 0 <==> isPickup || t.subtotal >= FreeDeliveryThreshold
    ensures t.deliveryFee != 0 ==> t.deliveryFee == FlatDeliveryFee
    ensures t.total == t.subtotal + t.deliveryFee
    ensures t.subtotal <= t.total <= t.subtotal + FlatDeliveryFee
  {
    var subtotal := Subtotal(catalogue, quantities);
    var deliveryFee := if isPickup || subtotal >= FreeDeliveryThreshold then 0 else FlatDeliveryFee;
    Totals(subtotal, deliveryFee, subtotal + deliveryFee)
  }

  /** Free delivery, once reached, survives a larger subtotal. */
  lemma FreeDeliveryMonotone(catalogue: seq<Product>, q1: map<string, int>, q2: map<string, int>, isPickup: bool)
    requires Subtotal(catalogue, q1) <= Subtotal(catalogue, q2)
    requires CalculateTotal(catalogue, q1, isPickup).deliveryFee == 0
    ensures CalculateTotal(catalogue, q2, isPickup).deliveryFee == 0
  {
  }

  /** orderItems: `filter(p => quantities[p.id] > 0).map(...)`. There are
      never more lines than catalogue entries, and every line carries a
      positive quantity. */
  function OrderItems(catalogue: seq<Product>, quantities: map<string, int>): (items: seq<OrderItem>)
    ensures |items| <= |catalogue|
    ensures forall k :: 0 <= k < |items| ==> items[k].quantity > 0
  {
    if catalogue == [] then []
    else
      var p := catalogue[|catalogue| - 1];
      OrderItems(catalogue[..|catalogue| - 1], quantities)
        + (if Qty(quantities, p.id) > 0 then [LineFor(p, quantities)] else [])
  }

  function LineTotal(items: seq<OrderItem>): int
  {
    if items == [] then 0 else LineTotal(items[..|items| - 1]) + items[|items| - 1].price * items[|items| - 1].quantity
  }

  lemma {:induction false} LineTotalAppend(a: seq<OrderItem>, b: seq<OrderItem>)
    ensures LineTotal(a + b) == LineTotal(a) + LineTotal(b)
  {
    if b != [] {
      assert (a + b)[..|a + b| - 1] == a + b[..|b| - 1];
      LineTotalAppend(a, b[..|b| - 1]);
    } else {
      assert a + b == a;
    }
  }

  /** The line a catalogue entry contributes. */
  function LineFor(p: Product, quantities: map<string, int>): OrderItem
  {
    OrderItem(p.id, p.name, p.price, Qty(quantities, p.id))
  }

  /** Each order line is the line of some catalogue entry whose quantity is
      positive: it carries that entry's name, price and quantity. */
  lemma {:induction false} OrderItemsSound(catalogue: seq<Product>, quantities: map<string, int>)
    ensures var items := OrderItems(catalogue, quantities);
      && |items| <= |catalogue|
      && forall k :: 0 <= k < |items| ==>
           items[k].quantity > 0 &&
           exists i :: 0 <= i < |catalogue| && items[k] == LineFor(catalogue[i], quantities)
  {
    if catalogue != [] {
      var init := catalogue[..|catalogue| - 1];
      OrderItemsSound(init, quantities);
      var before := OrderItems(init, quantities);
      var items := OrderItems(catalogue, quantities);
      forall k | 0 <= k < |before|
        ensures exists i :: 0 <= i < |catalogue| && items[k] == LineFor(catalogue[i], quantities)
      {
        var i :| 0 <= i < |init| && before[k] == LineFor(init[i], quantities);
        assert catalogue[i] == init[i];
      }
    }
  }

  /** Every catalogue entry with a positive quantity has its line. */
  lemma {:induction false} OrderItemsComplete(catalogue: seq<Product>, quantities: map<string, int>, i: nat)
    requires i < |catalogue| && Qty(quantities, catalogue[i].id) > 0
    ensures LineFor(catalogue[i], quantities) in OrderItems(catalogue, quantities)
  {
    var init := catalogue[..|catalogue| - 1];
    if i < |init| {
      assert init[i] == catalogue[i];
      OrderItemsComplete(init, quantities, i);
    }
  }

  /** The order lines follow catalogue order: line `k` comes from entry
      `idx[k]`, the indices strictly increase, and every entry skipped has no
      positive quantity. */
  lemma {:induction false} OrderItemsInOrder(catalogue: seq<Product>, quantities: map<string, int>)
    returns (idx: seq<nat>)
    ensures var items := OrderItems(catalogue, quantities);
      && |idx| == |items|
      && (forall k :: 0 <= k < |idx| ==> idx[k] < |catalogue| && items[k] == LineFor(catalogue[idx[k]], quantities))
      && (forall k1, k2 :: 0 <= k1 < k2 < |idx| ==> idx[k1] < idx[k2])
      && (forall i :: 0 <= i < |catalogue| && i !in idx ==> Qty(quantities, catalogue[i].id) <= 0)
  {
    if catalogue == [] {
      idx := [];
    } else {
      var n := |catalogue| - 1;
      var init := catalogue[..n];
      var before := OrderItemsInOrder(init, quantities);
      assert forall i :: 0 <= i < n ==> init[i] == catalogue[i];
      if Qty(quantities, catalogue[n].id) > 0 {
        idx := before + [n];
      } else {
        idx := before;
      }
    }
  }

  /** With no negative quantity, the order lines add up to the subtotal. */
  lemma {:induction false} OrderItemsTotal(catalogue: seq<Product>, quantities: map<string, int>)
    requires NonNegative(quantities)
    ensures LineTotal(OrderItems(catalogue, quantities)) == Subtotal(catalogue, quantities)
  {
    if catalogue != [] {
      var init := catalogue[..|catalogue| - 1];
      var p := catalogue[|catalogue| - 1];
      OrderItemsTotal(init, quantities);
      var q := Qty(quantities, p.id);
      var tail := if q > 0 then [LineFor(p, quantities)] else [];
      LineTotalAppend(OrderItems(init, quantities), tail);
      if q > 0 {
        assert tail[..0] == [];
      }
    }
  }

  /** The subtotal of non-negative quantities at positive prices is zero
      exactly when no order line would be sent: the empty-cart guard refuses
      precisely the carts with nothing in them. */
  lemma {:induction false} EmptyCartIffNoItems(catalogue: seq<Product>, quantities: map<string, int>)
    requires NonNegative(quantities) && PositivePrices(catalogue)
    ensures Subtotal(catalogue, quantities) >= 0
    ensures Subtotal(catalogue, quantities) == 0 <==> OrderItems(catalogue, quantities) == []
  {
    if catalogue != [] {
      var init := catalogue[..|catalogue| - 1];
      var p := catalogue[|catalogue| - 1];
      EmptyCartIffNoItems(init, quantities);
      var q := Qty(quantities, p.id);
      assert p.price > 0;
      assert q >= 0;
      if q > 0 {
        assert p.price * q > 0;
      }
    }
  }

  /** The order the submission status moves in: a submit starts from idle or
      from an earlier error (the button is disabled while submitting, and the
      success view replaces the form), and the response settles a submitting
      request into success or error. Success is never left. */
  predicate StatusStep(from: Status, to: Status)
  {
    || ((from == Idle || from == Error) && to == Submitting)
    || (from == Submitting && (to == Success || to == Error))
  }

  /** The page's state. */
  class OrderForm {
    const catalogue: seq<Product>
    var quantities: map<string, int>
    var formData: Customer
    var isPickup: bool
    var status: Status

    ghost predicate Valid()
      reads this
    {
      NonNegative(quantities)
    }

    /** Mount: an empty cart, or one of the product named in the URL (an
        empty `product` parameter is falsy and names nothing). */
    constructor (catalogue: seq<Product>, initialProductId: Option<string>)
      ensures Valid()
      ensures this.catalogue == catalogue && status == Idle && !isPickup
      ensures quantities == if initialProductId.Some? && initialProductId.value != "" then map[initialProductId.value := 1] else map[]
    {
      this.catalogue := catalogue;
      quantities := if initialProductId.Some? && initialProductId.value != "" then map[initialProductId.value := 1] else map[];
      formData := Customer("", "", "", "", "");
      isPickup := false;
      status := Idle;
    }

    /** updateQuantity(id, delta): clamp at zero; only `id` changes. */
    method UpdateQuantity(id: string, delta: int)
      requires Valid()
      modifies this`quantities
      ensures Valid()
      ensures quantities == old(quantities)[id := Max0(Qty(old(quantities), id) + delta)]
      ensures forall other :: other != id ==> Get(quantities, other) == Get(old(quantities), other)
    {
      var current := Qty(quantities, id);
      var next := Max0(current + delta);
      quantities := quantities[id := next];
    }

    method SetPickup(pickup: bool)
      modifies this`isPickup
      ensures isPickup == pickup
    {
      isPickup := pickup;
    }

    method SetFormData(customer: Customer)
      modifies this`formData
      ensures formData == customer
    {
      formData := customer;
    }

    /** handleSubmit up to the `fetch`: an empty cart is refused with nothing
        sent and the status untouched; otherwise the status becomes
        `submitting` and the request carries the order lines and the totals. */
    method BeginSubmit() returns (request: Option<OrderRequest>)
      requires Valid() && (status == Idle || status == Error)
      modifies this`status
      ensures status == old(status) || StatusStep(old(status), status)
      ensures var t := CalculateTotal(catalogue, quantities, isPickup);
        && (t.subtotal == 0 ==> request.None? && status == old(status))
        && (t.subtotal != 0 ==>
              && status == Submitting
              && request == Some(OrderRequest(formData, OrderItems(catalogue, quantities),
                                              t.subtotal, t.deliveryFee, t.total, isPickup)))
    {
      var t := CalculateTotal(catalogue, quantities, isPickup);
      if t.subtotal == 0 {
        return None;
      }
      status := Submitting;
      var orderItems := OrderItems(catalogue, quantities);
      request := Some(OrderRequest(formData, orderItems, t.subtotal, t.deliveryFee, t.total, isPickup));
    }

    /** handleSubmit after the `fetch`: success on an ok response, error on a
        non-ok response or an exception. */
    method FinishSubmit(response: Response)
      requires status == Submitting
      modifies this`status
      ensures StatusStep(old(status), status)
      ensures status == if response == Ok then Success else Error
    {
      if response == Ok {
        status := Success;
      } else {
        status := Error;
      }
    }
  }

  /** What one submission sends: nothing for an empty cart; otherwise order
      lines that exactly cover the subtotal. */
  lemma SubmittedLinesCoverSubtotal(catalogue: seq<Product>, quantities: map<string, int>, isPickup: bool)
    requires NonNegative(quantities) && PositivePrices(catalogue)
    ensures var t := CalculateTotal(catalogue, quantities, isPickup);
      t.subtotal != 0 ==> OrderItems(catalogue, quantities) != [] && LineTotal(OrderItems(catalogue, quantities)) == t.subtotal
  {
    EmptyCartIffNoItems(catalogue, quantities);
    OrderItemsTotal(catalogue, quantities);
  }
}
