/**
 * Order creation (src/composables/useCreateOrder.ts): the classification of
 * the createOrder mutation's result, the development mock that prices an
 * order, and the payment method labels. The mock's clock reading, random
 * reference and ISO time are parameters.
 */
module CreateOrder {
  import opened Wrappers
  import opened Text
  import opened Types
  import opened Records

  datatype OrderSource = Online | InStore

  datatype OrderStatus = Pending | Confirmed | Completed

  datatype OrderItemInput = OrderItemInput(productId: string, quantity: int)

  datatype CustomerInput = CustomerInput(email: string, firstName: string, lastName: string, phone: string)

  datatype AddressInput = AddressInput(
    line1: string, line2: Option<string>, city: string, state: Option<string>, postalCode: string, country: string)

  /**
   * The order input. `shippingMethodCode` is not among the declared fields,
   * but the mock reads it, so a caller's object may carry it.
   */
  datatype CreateOrderInput = CreateOrderInput(
    source: OrderSource,
    items: seq<OrderItemInput>,
    customer: CustomerInput,
    customerId: Option<string>,
    deliveryAddress: Option<AddressInput>,
    paymentMethodCode: string,
    notes: Option<string>,
    shippingMethodCode: Option<string>)

  /** An order line; the product it names is reduced to its id. */
  datatype OrderItem = OrderItem(
    id: string, quantity: int, unitPriceCents: int, totalPriceCents: int, productName: string, productId: string)

  datatype Order = Order(
    id: string,
    reference: string,
    status: OrderStatus,
    source: OrderSource,
    subtotalCents: int,
    shippingFeeCents: int,
    convenienceFeeCents: int,
    discountCents: int,
    totalCents: int,
    shippingMethodLabel: Option<string>,
    paymentMethodLabel: Option<string>,
    createdAt: string,
    customer: Customer,
    deliveryAddress: Option<Address>,
    items: seq<OrderItem>)

  // ---------------------------------------------------------------------
  // createOrder

  /** The `data.createOrder` payload. */
  datatype OrderPayload = OrderPayload(order: Option<Order>, errors: Option<seq<ApiError>>)

  const UnknownOrderError := "Unknown error occurred during order creation"

  /** createOrder: payload errors, then an order, then an unknown error; a throw is a network failure. */
  function ClassifyCreateOrder(outcome: CallOutcome<OrderPayload>): (r: MutationResponse<Order>)
    ensures r.success <==> (outcome.Returned? && outcome.payload.Some? && outcome.payload.value.order.Some?
      && !(outcome.payload.value.errors.Some? && |outcome.payload.value.errors.value| > 0))
    ensures r.success ==> r.data == outcome.payload.value.order
    ensures (outcome.Returned? && outcome.payload.Some? && outcome.payload.value.errors.Some?
             && |outcome.payload.value.errors.value| > 0) ==>
      r == Failure(outcome.payload.value.errors.value, "Order creation failed with validation errors")
    ensures outcome.Threw? ==> r == Failure(OneError("Network error or server unavailable"), "Failed to create order")
    ensures (outcome.Returned?
             && !(outcome.payload.Some? && outcome.payload.value.errors.Some? && |outcome.payload.value.errors.value| > 0)
             && !(outcome.payload.Some? && outcome.payload.value.order.Some?)) ==>
      r == Failure(OneError(UnknownOrderError), "Order creation failed")
    ensures r.success ==> r.message == Some("Order created successfully")
    ensures !r.success ==> r.errors.Some? && |r.errors.value| > 0
  {
    match outcome
    case Threw => Failure(OneError("Network error or server unavailable"), "Failed to create order")
    case Returned(payload) =>
      if payload.Some? && payload.value.errors.Some? && |payload.value.errors.value| > 0 then
        Failure(payload.value.errors.value, "Order creation failed with validation errors")
      else if payload.Some? && payload.value.order.Some? then
        MutationResponse(true, payload.value.order, None, Some("Order created successfully"))
      else Failure(OneError(UnknownOrderError), "Order creation failed")
  }

  // ---------------------------------------------------------------------
  // getPaymentMethodLabel

  const PaymentLabels: seq<(string, string)> := [
    ("cash", "Cash on Delivery"),
    ("card", "Credit/Debit Card"),
    ("gcash", "GCash"),
    ("paymaya", "PayMaya"),
    ("bank_transfer", "Bank Transfer")
  ]

  const UnknownPaymentMethod := "Unknown Payment Method"

  /** `labels[code] || 'Unknown Payment Method'`. */
  function PaymentMethodLabel(code: string): (r: string)
    ensures HasKey(PaymentLabels, code) ==> Lookup(PaymentLabels, code) == Some(r)
    ensures !HasKey(PaymentLabels, code) ==> r == UnknownPaymentMethod
  {
    match Lookup(PaymentLabels, code)
    case Some(text) => if text != "" then text else UnknownPaymentMethod
    case None => UnknownPaymentMethod
  }

  /** The five known codes and their labels. */
  lemma PaymentLabelsKnown()
    ensures PaymentMethodLabel("cash") == "Cash on Delivery"
    ensures PaymentMethodLabel("card") == "Credit/Debit Card"
    ensures PaymentMethodLabel("gcash") == "GCash"
    ensures PaymentMethodLabel("paymaya") == "PayMaya"
    ensures PaymentMethodLabel("bank_transfer") == "Bank Transfer"
  {
    LookupDistinct(PaymentLabels, 0);
    LookupDistinct(PaymentLabels, 1);
    LookupDistinct(PaymentLabels, 2);
    LookupDistinct(PaymentLabels, 3);
    LookupDistinct(PaymentLabels, 4);
  }

  /** Any other code is labelled unknown. */
  lemma PaymentLabelUnknown(code: string)
    requires code != "cash" && code != "card" && code != "gcash" && code != "paymaya" && code != "bank_transfer"
    ensures PaymentMethodLabel(code) == UnknownPaymentMethod
  {
    assert !HasKey(PaymentLabels, code);
  }

  // ---------------------------------------------------------------------
  // useMockOrderCreation

  /** The mock charges every unit 15000 cents. */
  const MockUnitPrice := 15000

  /** `items.reduce((sum, item) => sum + 15000 * item.quantity, 0)`. */
  function MockSubtotal(items: seq<OrderItemInput>): int {
    if items == [] then 0 else MockSubtotal(items[..|items| - 1]) + MockUnitPrice * items[|items| - 1].quantity
  }

  /** The sum of the quantities. */
  function QuantitySum(items: seq<OrderItemInput>): int {
    if items == [] then 0 else QuantitySum(items[..|items| - 1]) + items[|items| - 1].quantity
  }

  /** The mock subtotal is 15000 times the number of units ordered. */
  lemma {:induction false} MockSubtotalIsUnitsTimesPrice(items: seq<OrderItemInput>)
    ensures MockSubtotal(items) == MockUnitPrice * QuantitySum(items)
  {
    if items != [] {
      var init := items[..|items| - 1];
      MockSubtotalIsUnitsTimesPrice(init);
      assert MockUnitPrice * QuantitySum(items)
          == MockUnitPrice * QuantitySum(init) + MockUnitPrice * items[|items| - 1].quantity;
    }
  }

  /** The mock order line for input line `index`. */
  function MockItem(item: OrderItemInput, index: nat): OrderItem {
    OrderItem("item-" + NatToString(index), item.quantity, MockUnitPrice, MockUnitPrice * item.quantity,
              "Product " + item.productId, item.productId)
  }

  function MockItems(items: seq<OrderItemInput>): (r: seq<OrderItem>)
    ensures |r| == |items|
    ensures forall i :: 0 <= i < |items| ==> r[i] == MockItem(items[i], i)
  {
    seq(|items|, i requires 0 <= i < |items| => MockItem(items[i], i))
  }

  /** The sum of the lines' totals. */
  function LineTotals(lines: seq<OrderItem>): int {
    if lines == [] then 0 else LineTotals(lines[..|lines| - 1]) + lines[|lines| - 1].totalPriceCents
  }

  /** The subtotal is also the sum of the mock lines' totals. */
  lemma {:induction false} MockSubtotalIsLineTotals(items: seq<OrderItemInput>)
    ensures LineTotals(MockItems(items)) == MockSubtotal(items)
  {
    if items != [] {
      var init := items[..|items| - 1];
      MockSubtotalIsLineTotals(init);
      assert MockItems(items)[..|items| - 1] == MockItems(init);
    }
  }

  /** The delivery address the mock reports for an address input. */
  function MockAddress(a: AddressInput, now: string): (r: Address)
    ensures r.street == a.line1 && r.unitFloorBuilding == a.line2 && r.city == a.city
    ensures r.barangay == "Unknown" && r.postalCode == Some(a.postalCode)
    ensures r.province == (if a.state.Some? && a.state.value != "" then a.state.value else "Unknown")
  {
    Address(Some("address-" + now), a.line2, a.line1, "Unknown", a.city,
            if a.state.Some? && a.state.value != "" then a.state.value else "Unknown",
            Some(a.postalCode), None, None)
  }

  /**
   * The mock createOrder: a pending order priced at 15000 cents a unit,
   * shipping 500 for online orders, a 100 convenience fee for card
   * payments, no discount, and the total filled in after the order is built.
   */
  method MockCreateOrder(input: CreateOrderInput, now: string, reference: string, createdAt: string)
    returns (r: MutationResponse<Order>)
    ensures r.success && r.data.Some? && r.message == Some("Order created successfully")
    ensures r.data.value.status == Pending && r.data.value.source == input.source
    ensures r.data.value.subtotalCents == MockUnitPrice * QuantitySum(input.items)
    ensures r.data.value.shippingFeeCents == (if input.source == Online then 500 else 0)
    ensures r.data.value.convenienceFeeCents == (if input.paymentMethodCode == "card" then 100 else 0)
    ensures r.data.value.discountCents == 0
    ensures r.data.value.totalCents == r.data.value.subtotalCents + r.data.value.shippingFeeCents
      + r.data.value.convenienceFeeCents - r.data.value.discountCents
    ensures r.data.value.items == MockItems(input.items)
    ensures LineTotals(r.data.value.items) == r.data.value.subtotalCents
    ensures r.data.value.customer.fullName == input.customer.firstName + " " + input.customer.lastName
    ensures r.data.value.paymentMethodLabel == Some(PaymentMethodLabel(input.paymentMethodCode))
    ensures input.deliveryAddress.None? <==> r.data.value.deliveryAddress.None?
    ensures input.deliveryAddress.Some? ==>
      r.data.value.deliveryAddress == Some(MockAddress(input.deliveryAddress.value, now))
    ensures r.data.value.shippingMethodLabel ==
      (if input.shippingMethodCode.Some? && input.shippingMethodCode.value != "" then Some("Standard Delivery") else None)
  {
    var customer := Customer("customer-" + now, input.customer.firstName, input.customer.lastName,
                             input.customer.email, input.customer.phone,
                             input.customer.firstName + " " + input.customer.lastName);
    var address := if input.deliveryAddress.Some? then Some(MockAddress(input.deliveryAddress.value, now)) else None;
    var shippingLabel := if input.shippingMethodCode.Some? && input.shippingMethodCode.value != ""
                         then Some("Standard Delivery") else None;
    var order := Order("order-" + now, reference, Pending, input.source,
                       MockSubtotal(input.items),
                       if input.source == Online then 500 else 0,
                       if input.paymentMethodCode == "card" then 100 else 0,
                       0, 0, shippingLabel, Some(PaymentMethodLabel(input.paymentMethodCode)), createdAt,
                       customer, address, MockItems(input.items));
    order := order.(totalCents := order.subtotalCents + order.shippingFeeCents + order.convenienceFeeCents
                                  - order.discountCents);
    MockSubtotalIsUnitsTimesPrice(input.items);
    MockSubtotalIsLineTotals(input.items);
    return MutationResponse(true, Some(order), None, Some("Order created successfully"));
  }
}
