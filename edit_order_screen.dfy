/**
 * The screen where a customer edits a placed order: remove a product (with a
 * confirmation step), change a quantity with local repricing, and send the
 * update.
 */
module EditOrderScreen {
  import opened Wrappers
  import opened Domain
  import OrderController

  /** The order as fetched for this screen; each product carries its `OrderProducts` row. */
  datatype EditedOrder = EditedOrder(id: int, price: int, shippingCosts: int, products: seq<LineItem>)

  /** How the update request ended: accepted, or rejected with the backend's messages. */
  datatype UpdateReply = Accepted | Rejected(errors: seq<string>)

  /** The `update(route.params.id, { products, orderId, userId, address })` request. */
  datatype UpdateRequest = UpdateRequest(orderId: int, body: OrderBody, userId: int)

  /** `products.filter(p => p.OrderProducts.ProductId !== productId)`. */
  function WithoutProduct(products: seq<LineItem>, productId: int): (r: seq<LineItem>)
    ensures forall l {:trigger l in r} :: l in r <==> l in products && l.productId != productId
    ensures |r| <= |products|
    ensures (forall i :: 0 <= i < |products| ==> products[i].productId != productId) ==> r == products
  {
    if products == [] then []
    else (if products[0].productId != productId then [products[0]] else []) + WithoutProduct(products[1..], productId)
  }

  /** Filtering `[x] + s` keeps `x` exactly when it is not of `productId`, then filters `s`. */
  lemma WithoutProductCons(x: LineItem, s: seq<LineItem>, productId: int)
    ensures WithoutProduct([x] + s, productId) == (if x.productId != productId then [x] else []) + WithoutProduct(s, productId)
  {
    assert ([x] + s)[1..] == s;
  }

  /** An empty prefix contributes no rows to the filtered list. */
  lemma EmptyPrefixFiltered(a: seq<LineItem>, b: seq<LineItem>, productId: int)
    requires a == []
    ensures WithoutProduct(a + b, productId) == WithoutProduct(a, productId) + WithoutProduct(b, productId)
  {
    assert a + b == b;
    assert WithoutProduct(a, productId) == [];
  }

  /** Concatenating rows regroups freely. */
  lemma AppendRegroups(x: seq<LineItem>, y: seq<LineItem>, z: seq<LineItem>)
    ensures x + (y + z) == (x + y) + z
  {
  }

  /** A non-empty list is its first row followed by the rest, also in front of `b`. */
  lemma FirstThenRest(a: seq<LineItem>, b: seq<LineItem>)
    requires a != []
    ensures a == [a[0]] + a[1..] && a + b == [a[0]] + (a[1..] + b)
  {
  }

  /** One step of the split: what holds for the tail of `a` extends to `a`. */
  lemma WithoutProductSplitsStep(a: seq<LineItem>, b: seq<LineItem>, productId: int)
    requires a != []
    requires WithoutProduct(a[1..] + b, productId) == WithoutProduct(a[1..], productId) + WithoutProduct(b, productId)
    ensures WithoutProduct(a + b, productId) == WithoutProduct(a, productId) + WithoutProduct(b, productId)
  {
    var rest := a[1..];
    var head := if a[0].productId != productId then [a[0]] else [];
    FirstThenRest(a, b);
    WithoutProductCons(a[0], rest + b, productId);
    WithoutProductCons(a[0], rest, productId);
    AppendRegroups(head, WithoutProduct(rest, productId), WithoutProduct(b, productId));
  }

  /** Filtering works piece by piece, so the kept products stay in their order. */
  lemma {:induction false} WithoutProductSplits(a: seq<LineItem>, b: seq<LineItem>, productId: int)
    ensures WithoutProduct(a + b, productId) == WithoutProduct(a, productId) + WithoutProduct(b, productId)
  {
    if a == [] {
      EmptyPrefixFiltered(a, b, productId);
    } else {
      WithoutProductSplits(a[1..], b, productId);
      WithoutProductSplitsStep(a, b, productId);
    }
  }

  /** The `map` of `handleQuantityChange`: every row of `productId` gets `quantity`. */
  function SetQuantity(products: seq<LineItem>, productId: int, quantity: int): (r: seq<LineItem>)
    ensures |r| == |products|
    ensures forall i :: 0 <= i < |r| ==>
      r[i] == if products[i].productId == productId then products[i].(quantity := quantity) else products[i]
  {
    seq(|products|, i requires 0 <= i < |products| =>
      if products[i].productId == productId then products[i].(quantity := quantity) else products[i])
  }

  /** `quantity * unityPrice` per row, reduced left to right from 0; never negative when no quantity or price is. */
  function LinesSubtotal(products: seq<LineItem>): (r: int)
    ensures (forall i :: 0 <= i < |products| ==> products[i].quantity >= 0 && products[i].unityPrice >= 0) ==> r >= 0
  {
    if products == [] then 0
    else LinesSubtotal(products[..|products| - 1]) + products[|products| - 1].quantity * products[|products| - 1].unityPrice
  }

  /** `order.products.map(p => ({ productId: p.OrderProducts.ProductId, quantity: p.OrderProducts.quantity }))`. */
  function UpdatePayload(products: seq<LineItem>): (r: seq<ProductLine>)
    ensures |r| == |products|
    ensures forall i :: 0 <= i < |r| ==> r[i] == ProductLine(products[i].productId, products[i].quantity)
  {
    seq(|products|, i requires 0 <= i < |products| => ProductLine(products[i].productId, products[i].quantity))
  }

  /** Every row's unit price is still the catalogue's price for its product. */
  predicate PricesCurrent(catalogue: map<int, Product>, products: seq<LineItem>) {
    forall i :: 0 <= i < |products| ==> products[i].productId in catalogue && catalogue[products[i].productId].price == products[i].unityPrice
  }

  /** The backend's subtotal of a payload grows by the last row's amount. */
  lemma PayloadLastRow(catalogue: map<int, Product>, products: seq<LineItem>)
    requires PricesCurrent(catalogue, products) && products != []
    requires OrderController.AllFound(OrderController.Resolve(catalogue, UpdatePayload(products[..|products| - 1])))
    ensures OrderController.AllFound(OrderController.Resolve(catalogue, UpdatePayload(products)))
    ensures OrderController.Subtotal(OrderController.Resolve(catalogue, UpdatePayload(products)))
         == OrderController.Subtotal(OrderController.Resolve(catalogue, UpdatePayload(products[..|products| - 1])))
            + products[|products| - 1].quantity * products[|products| - 1].unityPrice
  {
    var n := |products|;
    var payload := UpdatePayload(products);
    assert payload[..n - 1] == UpdatePayload(products[..n - 1]);
    OrderController.SubtotalOfOneMore(catalogue, payload);
    var last := products[n - 1];
    assert last.quantity * last.unityPrice == last.unityPrice * last.quantity;
  }

  /**
   * When every row's unit price is still the catalogue's price, the backend
   * prices the payload exactly as this screen summed it.
   */
  lemma {:induction false} PayloadPricedAlike(catalogue: map<int, Product>, products: seq<LineItem>)
    requires PricesCurrent(catalogue, products)
    ensures OrderController.AllFound(OrderController.Resolve(catalogue, UpdatePayload(products)))
    ensures OrderController.Subtotal(OrderController.Resolve(catalogue, UpdatePayload(products))) == LinesSubtotal(products)
  {
    if products != [] {
      var prefix := products[..|products| - 1];
      assert PricesCurrent(catalogue, prefix);
      PayloadPricedAlike(catalogue, prefix);
      PayloadLastRow(catalogue, products);
    }
  }

  /** The price and shipping `handleQuantityChange` shows for a subtotal. */
  function Repriced(subtotal: int, currentShipping: int): (r: (int, int))
    ensures r.0 == subtotal + r.1
    ensures subtotal > FreeShippingAbove ==> r.1 == 0
    ensures subtotal <= FreeShippingAbove ==> r.1 == currentShipping
  {
    if subtotal > FreeShippingAbove then (subtotal, 0) else (subtotal + currentShipping, currentShipping)
  }

  /** Repricing agrees with the backend while the order still carries the restaurant's shipping costs. */
  lemma RepricedLikeBackend(subtotal: int, shipping: int)
    ensures Repriced(subtotal, shipping) == OrderController.PriceAndShippingCosts(subtotal, shipping)
  {
  }

  /**
   * Once a change has pushed the subtotal above the threshold, shipping is 0
   * and a later change back below it does not bring the restaurant's costs back.
   */
  lemma ShippingNotRestored(high: int, low: int, restaurantShipping: int)
    requires high > FreeShippingAbove && low <= FreeShippingAbove && restaurantShipping > 0
    ensures Repriced(low, Repriced(high, restaurantShipping).1) == (low, 0)
    ensures Repriced(low, Repriced(high, restaurantShipping).1) != OrderController.PriceAndShippingCosts(low, restaurantShipping)
  {
  }

  /**
   * An order repriced to 9.00 of products with 2.00 shipping costs 11.00,
   * and the total line announces free delivery for it although 2.00 of it
   * is shipping.
   */
  lemma EditedTotalHidesShipping()
    ensures var (price, shippingCosts) := Repriced(900, 200);
      && shippingCosts == 200
      && BreakdownAsWritten(price, shippingCosts) == FreeDelivery(1100)
  {
  }

  /**
   * With the threshold on the products part, the total line of a repriced
   * order announces free delivery exactly when no shipping is charged, and
   * otherwise shows the products subtotal and the shipping apart.
   */
  lemma EditedTotalMatchesCharge(subtotal: int, shipping: int)
    requires shipping > 0
    ensures var (price, shippingCosts) := Repriced(subtotal, shipping);
      var shown := Breakdown(price, shippingCosts);
      && (shown.FreeDelivery? <==> shippingCosts == 0)
      && (shown.Split? ==> shown.productsPart == subtotal && shown.shippingPart == shipping)
  {
  }

  class EditOrderScreen {
    var order: EditedOrder
    var backendErrors: seq<string>
    var address: Option<string>
    var loggedInUser: Option<User>
    var confirmingDeleteProduct: Option<LineItem>

    constructor (order: EditedOrder, loggedInUser: Option<User>)
      ensures this.order == order && this.loggedInUser == loggedInUser
      ensures backendErrors == [] && address.None? && confirmingDeleteProduct.None?
    {
      this.order := order;
      this.loggedInUser := loggedInUser;
      backendErrors := [];
      address := None;
      confirmingDeleteProduct := None;
    }

    /**
     * The total line under the product list: free delivery is announced
     * when the order's price, shipping included, is above the threshold;
     * otherwise the price is split into the products part and the shipping.
     */
    function TotalLine(): (r: TotalDisplay)
      reads this
      ensures r.total == order.price
      ensures r.FreeDelivery? <==> order.price > FreeShippingAbove
      ensures r.Split? ==> r.productsPart == order.price - order.shippingCosts && r.shippingPart == order.shippingCosts
    {
      BreakdownAsWritten(order.price, order.shippingCosts)
    }

    /** `handleRemoveProduct`: asks for confirmation, except for the order's last product. */
    method HandleRemoveProduct(product: LineItem)
      modifies this`confirmingDeleteProduct
      ensures |order.products| == 1 ==> confirmingDeleteProduct == old(confirmingDeleteProduct)
      ensures |order.products| != 1 ==> confirmingDeleteProduct == Some(product)
    {
      if |order.products| == 1 {
        return;
      }
      confirmingDeleteProduct := Some(product);
    }

    /** `confirmRemoveProduct`: drops every row of the pending product; price and shipping stay. */
    method ConfirmRemoveProduct()
      requires confirmingDeleteProduct.Some?
      modifies this`order, this`confirmingDeleteProduct
      ensures order == old(order).(products := WithoutProduct(old(order.products), old(confirmingDeleteProduct.value.productId)))
      ensures confirmingDeleteProduct.None?
    {
      var newProducts := WithoutProduct(order.products, confirmingDeleteProduct.value.productId);
      order := order.(products := newProducts);
      confirmingDeleteProduct := None;
    }

    /**
     * `handleQuantityChange` for the product `productId`; `parsed` is
     * `parseInt(text)`, `None` when the text is not a number.
     */
    method HandleQuantityChange(productId: int, parsed: Option<int>)
      modifies this`order
      ensures order.id == old(order.id)
      ensures order.products == SetQuantity(old(order.products), productId, parsed.GetOr(0))
      ensures (order.price, order.shippingCosts) == Repriced(LinesSubtotal(order.products), old(order.shippingCosts))
    {
      var newProducts := SetQuantity(order.products, productId, parsed.GetOr(0));
      var price := 0;
      for i := 0 to |newProducts|
        invariant price == LinesSubtotal(newProducts[..i])
      {
        assert newProducts[..i + 1][..i] == newProducts[..i];
        price := price + newProducts[i].quantity * newProducts[i].unityPrice;
      }
      assert newProducts[..|newProducts|] == newProducts;
      var repriced := if price > FreeShippingAbove then (price, 0) else (price + order.shippingCosts, order.shippingCosts);
      order := order.(products := newProducts, price := repriced.0, shippingCosts := repriced.1);
    }

    /**
     * `confirmOrder`.  `reply` is how the backend answers the update request,
     * when one is sent.
     */
    method ConfirmOrder(reply: UpdateReply) returns (request: Option<UpdateRequest>)
      modifies this`backendErrors
      ensures loggedInUser.None? ==> request.None?
      ensures request.Some? <==> loggedInUser.Some? && Truthy(FinalAddress(address, loggedInUser.value.address))
      ensures request.Some? ==> request.value == UpdateRequest(
        order.id,
        OrderBody(FinalAddress(address, loggedInUser.value.address), None, Some(UpdatePayload(order.products))),
        loggedInUser.value.id)
      ensures backendErrors == if request.Some? && reply.Rejected? then reply.errors else []
    {
      backendErrors := [];
      if loggedInUser.None? {
        return None;
      }
      var finalAddress := FinalAddress(address, loggedInUser.value.address);
      if finalAddress.None? || finalAddress.value == "" {
        return None;
      }
      request := Some(UpdateRequest(order.id, OrderBody(finalAddress, None, Some(UpdatePayload(order.products))), loggedInUser.value.id));
      if reply.Rejected? {
        backendErrors := reply.errors;
      }
    }
  }
}
