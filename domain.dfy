/**
 * The entities the order lifecycle works on, as the backend stores them
 * and as the customer app receives them.  Money is in integer cents and
 * time in integer milliseconds.
 */
module Domain {
  import opened Wrappers

  /** Shipping is free when the products subtotal is above 10 euros. */
  const FreeShippingAbove: int := 1000

  /** One day, in milliseconds. */
  const DayMillis: int := 86_400_000

  /** A row of the Products table: what the catalogue knows about a product. */
  datatype Product = Product(id: int, price: int, availability: bool, restaurantId: int)

  /** A row of the Restaurants table, reduced to what the order core reads. */
  datatype Restaurant = Restaurant(id: int, shippingCosts: int)

  /** A row of the Orders table.  The three lifecycle timestamps are nullable. */
  datatype Order = Order(
    id: int,
    userId: int,
    restaurantId: int,
    address: string,
    price: int,
    shippingCosts: int,
    createdAt: int,
    startedAt: Option<int>,
    sentAt: Option<int>,
    deliveredAt: Option<int>)

  /** A row of the OrderProducts join table, seen from its order. */
  datatype LineItem = LineItem(productId: int, quantity: int, unityPrice: int)

  /** One `{ productId, quantity }` entry of a request's `products` list. */
  datatype ProductLine = ProductLine(productId: int, quantity: int)

  /** The JSON body of a create or update request; every field may be absent. */
  datatype OrderBody = OrderBody(
    address: Option<string>,
    restaurantId: Option<int>,
    products: Option<seq<ProductLine>>)

  /** The logged-in user, as the customer app knows it. */
  datatype User = User(id: int, address: Option<string>)

  /** JavaScript truthiness of an optional string: present and non-empty. */
  predicate Truthy(s: Option<string>) {
    s.Some? && s.value != ""
  }

  /** A non-empty set has a member to pick. */
  lemma NonEmptyHasMember(s: set<int>)
    requires s != {}
    ensures exists x :: x in s
  {
    if forall x :: x !in s {
      assert false;
    }
  }

  /**
   * `address || loggedInUser.address`: the address typed on the screen when
   * it is a non-empty string, otherwise the one on the user's profile.
   */
  function FinalAddress(edited: Option<string>, profile: Option<string>): (r: Option<string>)
    ensures Truthy(edited) ==> r == edited
    ensures !Truthy(edited) ==> r == profile
  {
    if Truthy(edited) then edited else profile
  }

  /** The checkout guard passes exactly when one of the two addresses is usable. */
  lemma FinalAddressUsable(edited: Option<string>, profile: Option<string>)
    ensures Truthy(FinalAddress(edited, profile)) <==> Truthy(edited) || Truthy(profile)
  {
  }

  /** The total line: free delivery, or the products part plus the shipping part. */
  datatype TotalDisplay = FreeDelivery(total: int) | Split(total: int, productsPart: int, shippingPart: int)

  /** The total line as the order pages write it: the threshold is compared with the total including shipping. */
  function BreakdownAsWritten(totalCost: int, shippingCosts: int): (r: TotalDisplay)
    ensures r.total == totalCost
    ensures r.FreeDelivery? <==> totalCost > FreeShippingAbove
    ensures r.Split? ==> r.productsPart + r.shippingPart == totalCost && r.shippingPart == shippingCosts
  {
    if totalCost > FreeShippingAbove then FreeDelivery(totalCost)
    else Split(totalCost, totalCost - shippingCosts, shippingCosts)
  }

  /** The total line with the threshold compared with the products part, as the pricing rule does. */
  function Breakdown(totalCost: int, shippingCosts: int): (r: TotalDisplay)
    ensures r.total == totalCost
    ensures r.FreeDelivery? <==> totalCost - shippingCosts > FreeShippingAbove
    ensures r.Split? ==> r.productsPart + r.shippingPart == totalCost && r.shippingPart == shippingCosts
  {
    if totalCost - shippingCosts > FreeShippingAbove then FreeDelivery(totalCost)
    else Split(totalCost, totalCost - shippingCosts, shippingCosts)
  }
}
