/**
 * The confirmation page opened by "Place order": it shows the total and its
 * split, and on "Confirm" sends the create request.
 */
module RestaurantPlaceOrderScreen {
  import opened Wrappers
  import opened Domain
  import opened Cart
  import OrderController

  /** How the create request ended: accepted, or rejected with the backend's messages. */
  datatype CreateReply = Accepted | Rejected(errors: seq<string>)

  /** The `create({ products, userId, restaurantId, address })` request. */
  datatype CreateRequest = CreateRequest(body: OrderBody, userId: int)

  /**
   * A 9.00 cart from a restaurant charging 2.00 shipping costs 11.00 and is
   * shown as free delivery, although 2.00 of the 11.00 is shipping.
   */
  lemma BreakdownAsWrittenHidesShipping()
    ensures var (totalCost, shippingCosts) := OrderController.PriceAndShippingCosts(900, 200);
      && shippingCosts == 200
      && BreakdownAsWritten(totalCost, shippingCosts) == FreeDelivery(1100)
  {
  }

  /**
   * For the figures the restaurant page passes on, free delivery is shown
   * exactly when no shipping is charged (for a restaurant that charges any),
   * and otherwise the products part is the cart's subtotal.
   */
  lemma BreakdownMatchesCharge(subtotal: int, restaurantShipping: int)
    requires restaurantShipping > 0
    ensures var (totalCost, shippingCosts) := OrderController.PriceAndShippingCosts(subtotal, restaurantShipping);
      var shown := Breakdown(totalCost, shippingCosts);
      && (shown.FreeDelivery? <==> shippingCosts == 0)
      && (shown.Split? ==> shown.productsPart == subtotal && shown.shippingPart == restaurantShipping)
  {
  }

  /**
   * A confirmed cart whose products are all in the catalogue is stored as
   * one line item per cart entry, at the product's current price.
   */
  lemma ConfirmedCartLines(catalogue: map<int, Product>, cart: CartMap)
    requires OrderController.CatalogueKeyed(catalogue)
    requires forall k :: k in cart ==> k in catalogue
    ensures var productsArray := OrderController.Resolve(catalogue, CartPayload(cart));
      && OrderController.AllFound(productsArray)
      && var lines := OrderController.LinesFor(productsArray);
      && |lines| == |cart|
      && forall k :: k in cart ==> LineItem(k, cart[k], catalogue[k].price) in lines
  {
    var payload := CartPayload(cart);
    var productsArray := OrderController.Resolve(catalogue, payload);
    assert OrderController.AllFound(productsArray) by {
      forall i | 0 <= i < |productsArray| ensures productsArray[i].product.Some? {
        assert payload[i] in payload;
      }
    }
    assert OrderController.DistinctProducts(payload);
    OrderController.DistinctRequestRowsPresent(catalogue, payload);
    forall k | k in cart ensures LineItem(k, cart[k], catalogue[k].price) in OrderController.LinesFor(productsArray) {
      assert ProductLine(k, cart[k]) in payload;
    }
  }

  class RestaurantPlaceOrderScreen {
    var restaurantId: int
    var cart: CartMap
    var totalCost: int
    var shippingCosts: int
    var backendErrors: seq<string>
    var address: Option<string>
    var loggedInUser: Option<User>

    constructor (restaurantId: int, cart: CartMap, totalCost: int, shippingCosts: int, loggedInUser: Option<User>)
      ensures this.restaurantId == restaurantId && this.cart == cart
      ensures this.totalCost == totalCost && this.shippingCosts == shippingCosts
      ensures this.loggedInUser == loggedInUser && backendErrors == [] && address.None?
    {
      this.restaurantId := restaurantId;
      this.cart := cart;
      this.totalCost := totalCost;
      this.shippingCosts := shippingCosts;
      this.loggedInUser := loggedInUser;
      backendErrors := [];
      address := None;
    }

    /**
     * The total line shown above "Confirm": free delivery is announced when
     * the total, shipping included, is above the threshold; otherwise the
     * total is split into the products part and the shipping part.
     */
    function TotalLine(): (r: TotalDisplay)
      reads this
      ensures r.total == totalCost
      ensures r.FreeDelivery? <==> totalCost > FreeShippingAbove
      ensures r.Split? ==> r.productsPart == totalCost - shippingCosts && r.shippingPart == shippingCosts
    {
      BreakdownAsWritten(totalCost, shippingCosts)
    }

    /**
     * `confirmOrder`.  `reply` is how the backend answers the create
     * request, when one is sent.
     */
    method ConfirmOrder(reply: CreateReply) returns (request: Option<CreateRequest>)
      modifies this`backendErrors
      ensures loggedInUser.None? ==> request.None?
      ensures request.Some? <==> loggedInUser.Some? && Truthy(FinalAddress(address, loggedInUser.value.address))
      ensures request.Some? ==> request.value == CreateRequest(
        OrderBody(FinalAddress(address, loggedInUser.value.address), Some(restaurantId), Some(CartPayload(cart))),
        loggedInUser.value.id)
      ensures backendErrors == if request.Some? && reply.Rejected? then reply.errors else []
    {
      backendErrors := [];
      if loggedInUser.None? {
        return None;
      }
      var finalAddress := FinalAddress(address, loggedInUser.value.address);
      if finalAddress.None? || finalAddress.value == "" {
        return None;
      }
      request := Some(CreateRequest(OrderBody(finalAddress, Some(restaurantId), Some(CartPayload(cart))), loggedInUser.value.id));
      if reply.Rejected? {
        backendErrors := reply.errors;
      }
    }
  }
}
