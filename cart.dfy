/**
 * The cart store (src/stores/cart.ts): a table of lines keyed by product id,
 * changed in place, and the pricing getters computed from it.
 */
module Cart {
  import opened Wrappers
  import opened Types

  // ---------------------------------------------------------------------
  // Folds over the lines

  /** `items.reduce((sum, item) => sum + f(item), 0)`, folded left to right. */
  function Sum(items: seq<CartItem>, f: CartItem -> int): int {
    if items == [] then 0 else Sum(items[..|items| - 1], f) + f(items[|items| - 1])
  }

  function LineTotal(item: CartItem): int {
    item.priceCents * item.quantity
  }

  function LineQuantity(item: CartItem): int {
    item.quantity
  }

  /** subtotalCents: the sum of price times quantity over all lines. */
  function Subtotal(items: seq<CartItem>): int {
    Sum(items, LineTotal)
  }

  /** totalItems: the sum of the quantities of all lines. */
  function TotalItems(items: seq<CartItem>): int {
    Sum(items, LineQuantity)
  }

  lemma {:induction false} SumAppend(a: seq<CartItem>, b: seq<CartItem>, f: CartItem -> int)
    ensures Sum(a + b, f) == Sum(a, f) + Sum(b, f)
    decreases |b|
  {
    if b == [] {
      assert a + b == a;
    } else {
      var b' := b[..|b| - 1];
      assert (a + b)[..|a + b| - 1] == a + b';
      SumAppend(a, b', f);
    }
  }

  lemma {:induction false} SumSingle(x: CartItem, f: CartItem -> int)
    ensures Sum([x], f) == f(x)
  {
    assert [x][..0] == [];
  }

  /** Replacing line `i` changes the sum by the difference of the two lines. */
  lemma {:induction false} SumUpdate(items: seq<CartItem>, i: nat, x: CartItem, f: CartItem -> int)
    requires i < |items|
    ensures Sum(items[i := x], f) == Sum(items, f) - f(items[i]) + f(x)
  {
    assert items == items[..i] + [items[i]] + items[i + 1..];
    assert items[i := x] == items[..i] + [x] + items[i + 1..];
    SumAppend(items[..i] + [items[i]], items[i + 1..], f);
    SumAppend(items[..i] + [x], items[i + 1..], f);
    SumAppend(items[..i], [items[i]], f);
    SumAppend(items[..i], [x], f);
    SumSingle(items[i], f);
    SumSingle(x, f);
  }

  /** Removing line `i` takes that line's share out of the sum. */
  lemma {:induction false} SumRemove(items: seq<CartItem>, i: nat, f: CartItem -> int)
    requires i < |items|
    ensures Sum(items[..i] + items[i + 1..], f) == Sum(items, f) - f(items[i])
  {
    assert items == items[..i] + [items[i]] + items[i + 1..];
    SumAppend(items[..i] + [items[i]], items[i + 1..], f);
    SumAppend(items[..i], [items[i]], f);
    SumAppend(items[..i], items[i + 1..], f);
    SumSingle(items[i], f);
  }

  // ---------------------------------------------------------------------
  // Fees

  /** JavaScript truthiness of a table value: a missing key or 0 is falsy. */
  predicate Truthy(v: Option<int>) {
    v.Some? && v.value != 0
  }

  /** The shipping fee table; `fees[code]` is undefined for other codes. */
  function ShippingTable(code: string): Option<int> {
    if code == "standard" then Some(500)
    else if code == "express" then Some(1500)
    else if code == "same_day" then Some(3000)
    else if code == "pickup" then Some(0)
    else None
  }

  /**
   * shippingFeeCents: nothing for an in-store order, otherwise
   * `fees[code] || 500`. Because the pickup entry is 0, which is falsy,
   * pickup is charged the 500 default like the empty and unknown codes.
   */
  function ShippingFee(online: bool, code: string): (r: int)
    ensures !online ==> r == 0
    ensures online ==> r == (if code == "express" then 1500
                             else if code == "same_day" then 3000
                             else 500)
    ensures online ==> r >= 500
  {
    if !online then 0
    else
      var fee := ShippingTable(code);
      if Truthy(fee) then fee.value else 500
  }

  /** The convenience fee table, by payment method code. */
  function ConvenienceTable(code: string): Option<int> {
    if code == "cash" then Some(0)
    else if code == "card" then Some(100)
    else if code == "gcash" then Some(50)
    else if code == "paymaya" then Some(50)
    else if code == "bank_transfer" then Some(0)
    else None
  }

  /** convenienceFeeCents: `fees[code] || 0`. */
  function ConvenienceFee(code: string): (r: int)
    ensures r == (if code == "card" then 100
                  else if code == "gcash" || code == "paymaya" then 50
                  else 0)
    ensures ConvenienceTable(code).None? ==> r == 0
  {
    var fee := ConvenienceTable(code);
    if Truthy(fee) then fee.value else 0
  }

  /** totalCents, with no clamping at zero. */
  function Total(items: seq<CartItem>, online: bool, shippingMethod: string,
                 paymentMethod: string, voucherDiscount: int): int {
    Subtotal(items) + ShippingFee(online, shippingMethod) + ConvenienceFee(paymentMethod) - voucherDiscount
  }

  /** A voucher larger than everything else drives the total below zero. */
  lemma {:induction false} TotalNotClamped(items: seq<CartItem>, online: bool, shippingMethod: string,
                        paymentMethod: string, voucherDiscount: int)
    requires voucherDiscount > Subtotal(items) + 3100
    ensures Total(items, online, shippingMethod, paymentMethod, voucherDiscount) < 0
  {
  }

  // ---------------------------------------------------------------------
  // The line table

  /** Product ids are pairwise distinct. */
  predicate UniqueIds(items: seq<CartItem>) {
    forall i, j :: 0 <= i < j < |items| ==> items[i].productId != items[j].productId
  }

  predicate HasId(items: seq<CartItem>, id: string) {
    exists i :: 0 <= i < |items| && items[i].productId == id
  }

  /** `find`/`findIndex` by product id: the first matching line. */
  function FindIndex(items: seq<CartItem>, id: string): (r: Option<nat>)
    ensures r.Some? ==> r.value < |items| && items[r.value].productId == id
    ensures r.Some? ==> forall j :: 0 <= j < r.value ==> items[j].productId != id
    ensures r.None? ==> forall j :: 0 <= j < |items| ==> items[j].productId != id
  {
    if items == [] then None
    else if items[0].productId == id then Some(0)
    else
      match FindIndex(items[1..], id)
      case Some(i) => Some(i + 1)
      case None => None
  }

  /** The line pushed for a product not yet in the cart. */
  function NewLine(product: Product, quantity: int): CartItem {
    CartItem(product.id, product.name, product.price.cents, product.productType, quantity,
             if product.photoUrl.Some? && product.photoUrl.value != "" then product.photoUrl else None)
  }

  /** addToCart: bump the first line with this product id, or append a new line. */
  function AddLine(items: seq<CartItem>, product: Product, quantity: int): seq<CartItem> {
    match FindIndex(items, product.id)
    case Some(i) => items[i := items[i].(quantity := items[i].quantity + quantity)]
    case None => items + [NewLine(product, quantity)]
  }

  /** removeFromCart: splice out the first line with this id, if any. */
  function RemoveLine(items: seq<CartItem>, id: string): seq<CartItem> {
    match FindIndex(items, id)
    case Some(i) => items[..i] + items[i + 1..]
    case None => items
  }

  /** updateQuantity: no change for an absent id, removal for quantity <= 0, else set. */
  function UpdateLine(items: seq<CartItem>, id: string, quantity: int): seq<CartItem> {
    match FindIndex(items, id)
    case None => items
    case Some(i) =>
      if quantity <= 0 then RemoveLine(items, id)
      else items[i := items[i].(quantity := quantity)]
  }

  /** The lines whose product id differs from `id`, in their order. */
  function WithoutId(items: seq<CartItem>, id: string): (r: seq<CartItem>)
    ensures |r| <= |items|
  {
    if items == [] then []
    else (if items[0].productId == id then [] else [items[0]]) + WithoutId(items[1..], id)
  }

  lemma {:induction false} WithoutAbsentId(items: seq<CartItem>, id: string)
    requires !HasId(items, id)
    ensures WithoutId(items, id) == items
  {
    if items != [] {
      assert !HasId(items[1..], id) by {
        forall j | 0 <= j < |items[1..]| ensures items[1..][j].productId != id {
          assert items[1..][j] == items[j + 1];
        }
      }
      WithoutAbsentId(items[1..], id);
      assert items == [items[0]] + items[1..];
    }
  }

  lemma {:induction false} UniqueTail(items: seq<CartItem>)
    requires items != [] && UniqueIds(items)
    ensures UniqueIds(items[1..])
    ensures !HasId(items[1..], items[0].productId)
  {
    var rest := items[1..];
    forall i, j | 0 <= i < j < |rest| ensures rest[i].productId != rest[j].productId {
      assert rest[i] == items[i + 1] && rest[j] == items[j + 1];
    }
    forall j | 0 <= j < |rest| ensures rest[j].productId != items[0].productId {
      assert rest[j] == items[j + 1];
    }
  }

  /** Past a first line with another id, removal works on the rest of the table. */
  lemma {:induction false} RemoveLineCons(items: seq<CartItem>, id: string)
    requires items != [] && items[0].productId != id
    ensures RemoveLine(items, id) == [items[0]] + RemoveLine(items[1..], id)
  {
    var rest := items[1..];
    match FindIndex(rest, id)
    case None =>
      assert items == [items[0]] + rest;
    case Some(k) =>
      assert items[..k + 1] == [items[0]] + rest[..k];
      assert items[k + 2..] == rest[k + 1..];
  }

  /**
   * On a table with distinct ids, removeFromCart keeps exactly the other
   * lines in their order: the result is the table filtered by id.
   */
  lemma {:induction false} RemoveLineIsFilter(items: seq<CartItem>, id: string)
    requires UniqueIds(items)
    ensures RemoveLine(items, id) == WithoutId(items, id)
  {
    if items == [] {
    } else if items[0].productId == id {
      UniqueTail(items);
      WithoutAbsentId(items[1..], id);
    } else {
      UniqueTail(items);
      RemoveLineIsFilter(items[1..], id);
      RemoveLineCons(items, id);
    }
  }

  /** Removing an absent id changes nothing. */
  lemma {:induction false} RemoveAbsentId(items: seq<CartItem>, id: string)
    requires !HasId(items, id)
    ensures RemoveLine(items, id) == items
  {
  }

  lemma {:induction false} UniqueWithout(items: seq<CartItem>, i: nat)
    requires UniqueIds(items) && i < |items|
    ensures UniqueIds(items[..i] + items[i + 1..])
    ensures !HasId(items[..i] + items[i + 1..], items[i].productId)
  {
    var r := items[..i] + items[i + 1..];
    forall a | 0 <= a < |r| ensures r[a] == items[if a < i then a else a + 1] {
    }
  }

  /** addToCart keeps product ids distinct, and afterwards the product is in the cart. */
  lemma {:induction false} AddLineKeepsUnique(items: seq<CartItem>, product: Product, quantity: int)
    requires UniqueIds(items)
    ensures UniqueIds(AddLine(items, product, quantity))
    ensures HasId(AddLine(items, product, quantity), product.id)
  {
    var r := AddLine(items, product, quantity);
    match FindIndex(items, product.id)
    case Some(i) =>
      assert r[i].productId == product.id;
    case None =>
      assert r[|items|].productId == product.id;
  }

  /** addToCart on a product already present changes only that line's quantity. */
  lemma {:induction false} AddExisting(items: seq<CartItem>, product: Product, quantity: int, i: nat)
    requires UniqueIds(items) && i < |items| && items[i].productId == product.id
    ensures |AddLine(items, product, quantity)| == |items|
    ensures AddLine(items, product, quantity)[i] == items[i].(quantity := items[i].quantity + quantity)
    ensures forall j :: 0 <= j < |items| && j != i ==> AddLine(items, product, quantity)[j] == items[j]
  {
    assert FindIndex(items, product.id) == Some(i);
  }

  /** addToCart on a new product appends one line at the end. */
  lemma {:induction false} AddNew(items: seq<CartItem>, product: Product, quantity: int)
    requires !HasId(items, product.id)
    ensures AddLine(items, product, quantity) == items + [NewLine(product, quantity)]
    ensures AddLine(items, product, quantity)[|items|].quantity == quantity
  {
  }

  /** The price addToCart charges for a product: the existing line's price, else the product's. */
  function AddedPrice(items: seq<CartItem>, product: Product): int {
    match FindIndex(items, product.id)
    case Some(i) => items[i].priceCents
    case None => product.price.cents
  }

  /** addToCart raises the item count by the added quantity. */
  lemma {:induction false} AddLineItemCount(items: seq<CartItem>, product: Product, quantity: int)
    ensures TotalItems(AddLine(items, product, quantity)) == TotalItems(items) + quantity
  {
    match FindIndex(items, product.id)
    case Some(i) =>
      SumUpdate(items, i, items[i].(quantity := items[i].quantity + quantity), LineQuantity);
    case None =>
      var x := NewLine(product, quantity);
      SumAppend(items, [x], LineQuantity);
      SumSingle(x, LineQuantity);
  }

  /**
   * addToCart raises the subtotal by the line price times the added
   * quantity, where an existing line keeps the price it was added with.
   */
  lemma {:induction false} AddLineSubtotal(items: seq<CartItem>, product: Product, quantity: int)
    ensures Subtotal(AddLine(items, product, quantity)) == Subtotal(items) + AddedPrice(items, product) * quantity
  {
    match FindIndex(items, product.id)
    case Some(i) =>
      var x := items[i].(quantity := items[i].quantity + quantity);
      SumUpdate(items, i, x, LineTotal);
      assert LineTotal(x) == LineTotal(items[i]) + items[i].priceCents * quantity by {
        assert x.priceCents * (items[i].quantity + quantity)
            == x.priceCents * items[i].quantity + x.priceCents * quantity;
      }
    case None =>
      var x := NewLine(product, quantity);
      SumAppend(items, [x], LineTotal);
      SumSingle(x, LineTotal);
  }

  /** removeFromCart takes exactly the removed line out of both sums. */
  lemma {:induction false} RemoveLineTotals(items: seq<CartItem>, id: string)
    ensures Subtotal(RemoveLine(items, id)) == Subtotal(items) -
      (match FindIndex(items, id) case Some(i) => LineTotal(items[i]) case None => 0)
    ensures TotalItems(RemoveLine(items, id)) == TotalItems(items) -
      (match FindIndex(items, id) case Some(i) => items[i].quantity case None => 0)
  {
    match FindIndex(items, id)
    case Some(i) =>
      SumRemove(items, i, LineTotal);
      SumRemove(items, i, LineQuantity);
    case None =>
  }

  /** removeFromCart keeps ids distinct and leaves no line with the removed id. */
  lemma {:induction false} RemoveLineKeepsUnique(items: seq<CartItem>, id: string)
    requires UniqueIds(items)
    ensures UniqueIds(RemoveLine(items, id))
    ensures !HasId(RemoveLine(items, id), id)
  {
    match FindIndex(items, id)
    case Some(i) => UniqueWithout(items, i);
    case None =>
  }

  /**
   * updateQuantity: an absent id changes nothing; a quantity of 0 or less
   * removes the line; otherwise the line's quantity is set, its length and
   * every other line stay as they were.
   */
  lemma {:induction false} UpdateLineCases(items: seq<CartItem>, id: string, quantity: int)
    requires UniqueIds(items)
    ensures !HasId(items, id) ==> UpdateLine(items, id, quantity) == items
    ensures quantity <= 0 ==> UpdateLine(items, id, quantity) == WithoutId(items, id)
    ensures quantity > 0 ==> |UpdateLine(items, id, quantity)| == |items|
    ensures quantity > 0 ==> forall j :: 0 <= j < |items| ==>
      UpdateLine(items, id, quantity)[j] ==
        (if items[j].productId == id then items[j].(quantity := quantity) else items[j])
  {
    RemoveLineIsFilter(items, id);
    if !HasId(items, id) {
      WithoutAbsentId(items, id);
    }
  }

  /** updateQuantity keeps product ids distinct. */
  lemma {:induction false} UpdateLineKeepsUnique(items: seq<CartItem>, id: string, quantity: int)
    requires UniqueIds(items)
    ensures UniqueIds(UpdateLine(items, id, quantity))
  {
    RemoveLineKeepsUnique(items, id);
    var r := UpdateLine(items, id, quantity);
    match FindIndex(items, id)
    case None =>
    case Some(i) =>
      if quantity > 0 {
        assert forall j :: 0 <= j < |r| ==> r[j].productId == items[j].productId;
      }
  }

  /** updateQuantity replaces the line's share of the subtotal by price times the new quantity. */
  lemma {:induction false} UpdateLineSubtotal(items: seq<CartItem>, id: string, quantity: int)
    ensures Subtotal(UpdateLine(items, id, quantity)) == Subtotal(items) +
      (match FindIndex(items, id)
       case Some(i) => (if quantity <= 0 then 0 else items[i].priceCents * quantity) - LineTotal(items[i])
       case None => 0)
  {
    match FindIndex(items, id)
    case None =>
    case Some(i) =>
      if quantity <= 0 {
        RemoveLineTotals(items, id);
      } else {
        SumUpdate(items, i, items[i].(quantity := quantity), LineTotal);
      }
  }

  // ---------------------------------------------------------------------
  // The store

  class CartStore {
    var items: seq<CartItem>
    var customer: Option<Customer>
    var deliveryAddress: Option<Address>
    var paymentMethod: string
    var shippingMethod: string
    var isOnlineOrder: bool
    var voucherCode: string
    var voucherDiscount: int

    /** The line table holds each product at most once. */
    ghost predicate Valid()
      reads this
    {
      UniqueIds(items)
    }

    /** The state right after `clearCart` (and at creation). */
    ghost predicate Cleared()
      reads this
    {
      items == [] && customer == None && deliveryAddress == None
      && paymentMethod == "" && shippingMethod == "" && voucherCode == ""
      && voucherDiscount == 0 && isOnlineOrder
    }

    constructor ()
      ensures Valid() && Cleared()
    {
      items := [];
      customer := None;
      deliveryAddress := None;
      paymentMethod := "";
      shippingMethod := "";
      isOnlineOrder := true;
      voucherCode := "";
      voucherDiscount := 0;
    }

    function SubtotalCents(): int
      reads this
    {
      Subtotal(items)
    }

    function ShippingFeeCents(): int
      reads this
    {
      ShippingFee(isOnlineOrder, shippingMethod)
    }

    function ConvenienceFeeCents(): int
      reads this
    {
      ConvenienceFee(paymentMethod)
    }

    function TotalCents(): int
      reads this
    {
      Total(items, isOnlineOrder, shippingMethod, paymentMethod, voucherDiscount)
    }

    function ItemCount(): int
      reads this
    {
      TotalItems(items)
    }

    function IsEmpty(): bool
      reads this
    {
      |items| == 0
    }

    /** addToCart: the quantity defaults to 1 when the caller leaves it out (None). */
    method AddToCart(product: Product, quantity: Option<int>)
      requires Valid()
      modifies this
      ensures Valid()
      ensures items == AddLine(old(items), product, quantity.GetOr(1))
      ensures SubtotalCents() == old(SubtotalCents()) + AddedPrice(old(items), product) * quantity.GetOr(1)
      ensures ItemCount() == old(ItemCount()) + quantity.GetOr(1)
      ensures customer == old(customer) && deliveryAddress == old(deliveryAddress)
      ensures paymentMethod == old(paymentMethod) && shippingMethod == old(shippingMethod)
      ensures isOnlineOrder == old(isOnlineOrder)
      ensures voucherCode == old(voucherCode) && voucherDiscount == old(voucherDiscount)
    {
      var amount := quantity.GetOr(1);
      AddLineKeepsUnique(items, product, amount);
      AddLineSubtotal(items, product, amount);
      AddLineItemCount(items, product, amount);
      var existing := FindIndex(items, product.id);
      if existing.Some? {
        var i := existing.value;
        items := items[i := items[i].(quantity := items[i].quantity + amount)];
      } else {
        items := items + [NewLine(product, amount)];
      }
    }

    method RemoveFromCart(productId: string)
      requires Valid()
      modifies this
      ensures Valid()
      ensures items == WithoutId(old(items), productId)
      ensures !HasId(items, productId)
      ensures customer == old(customer) && deliveryAddress == old(deliveryAddress)
      ensures paymentMethod == old(paymentMethod) && shippingMethod == old(shippingMethod)
      ensures isOnlineOrder == old(isOnlineOrder)
      ensures voucherCode == old(voucherCode) && voucherDiscount == old(voucherDiscount)
    {
      RemoveLineIsFilter(items, productId);
      RemoveLineKeepsUnique(items, productId);
      var index := FindIndex(items, productId);
      if index.Some? {
        items := items[..index.value] + items[index.value + 1..];
      }
    }

    method UpdateQuantity(productId: string, quantity: int)
      requires Valid()
      modifies this
      ensures Valid()
      ensures items == UpdateLine(old(items), productId, quantity)
      ensures customer == old(customer) && deliveryAddress == old(deliveryAddress)
      ensures paymentMethod == old(paymentMethod) && shippingMethod == old(shippingMethod)
      ensures isOnlineOrder == old(isOnlineOrder)
      ensures voucherCode == old(voucherCode) && voucherDiscount == old(voucherDiscount)
    {
      UpdateLineKeepsUnique(items, productId, quantity);
      RemoveLineIsFilter(items, productId);
      var found := FindIndex(items, productId);
      if found.Some? {
        if quantity <= 0 {
          RemoveFromCart(productId);
        } else {
          items := items[found.value := items[found.value].(quantity := quantity)];
        }
      }
    }

    method SetCustomer(customerData: Customer)
      modifies this`customer
      ensures customer == Some(customerData)
    {
      customer := Some(customerData);
    }

    method SetDeliveryAddress(address: Option<Address>)
      modifies this`deliveryAddress
      ensures deliveryAddress == address
    {
      deliveryAddress := address;
    }

    method SetPaymentMethod(code: string)
      modifies this`paymentMethod
      ensures paymentMethod == code
    {
      paymentMethod := code;
    }

    method SetShippingMethod(code: string)
      modifies this`shippingMethod
      ensures shippingMethod == code
    {
      shippingMethod := code;
    }

    /** Switching to an in-store order drops the address and shipping method, so shipping is free. */
    method SetOrderType(online: bool)
      modifies this`isOnlineOrder, this`deliveryAddress, this`shippingMethod
      ensures isOnlineOrder == online
      ensures !online ==> deliveryAddress == None && shippingMethod == "" && ShippingFeeCents() == 0
      ensures online ==> deliveryAddress == old(deliveryAddress) && shippingMethod == old(shippingMethod)
    {
      isOnlineOrder := online;
      if !online {
        deliveryAddress := None;
        shippingMethod := "";
      }
    }

    method ApplyVoucher(code: string, discount: int)
      modifies this`voucherCode, this`voucherDiscount
      ensures voucherCode == code && voucherDiscount == discount
      ensures TotalCents() == SubtotalCents() + ShippingFeeCents() + ConvenienceFeeCents() - discount
    {
      voucherCode := code;
      voucherDiscount := discount;
    }

    /** clearCart, and `$reset` which calls it: back to the initial state. */
    method ClearCart()
      modifies this
      ensures Valid() && Cleared()
      ensures TotalCents() == 500 && IsEmpty()
    {
      items := [];
      customer := None;
      deliveryAddress := None;
      paymentMethod := "";
      shippingMethod := "";
      voucherCode := "";
      voucherDiscount := 0;
      isOnlineOrder := true;
    }

    method Reset()
      modifies this
      ensures Valid() && Cleared()
    {
      ClearCart();
    }
  }
}
