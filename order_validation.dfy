/**
 * The validation layer that runs before the order controller: the custom
 * validators over a request's `products` list and the rule lists for
 * creating and updating an order.  The product catalogue is the map that
 * `Product.findByPk` reads.
 */
module OrderValidation {
  import opened Wrappers
  import opened Domain

  /** The reason a custom validator rejects the `products` list. */
  datatype ProductsError =
    | QuantityBelowOne(quantity: int)
    | ProductIdBelowOne(productId: int)
    /** `findByPk` found nothing, so reading a field of the result throws. */
    | ProductMissing(productId: int)
    | ProductUnavailable(productId: int)
    | WrongRestaurant(productId: int)
    /** `products[0]` is undefined, so reading its `productId` throws. */
    | NoFirstProduct

  /** One failed rule of a rule list. */
  datatype Violation =
    | AddressInvalid
    | RestaurantIdInvalid
    | RestaurantIdPresent
    | ProductsMissing
    | ProductsEmpty
    | ProductsRejected(error: ProductsError)

  // ---------------------------------------------------------------------
  // The shared shape of the custom validators: a for-loop over `products`
  // that returns the first rejection it meets.

  /** The rejection of the first item that `check` does not accept. */
  function FirstRejection(products: seq<ProductLine>, check: ProductLine -> Option<ProductsError>): (r: Option<ProductsError>)
    ensures r.None? <==> forall i :: 0 <= i < |products| ==> check(products[i]).None?
  {
    if |products| == 0 then None
    else if check(products[0]).Some? then check(products[0])
    else FirstRejection(products[1..], check)
  }

  /** What the scan reports is the rejection of the first rejected item. */
  lemma {:induction false} FirstRejectionIsFirst(products: seq<ProductLine>, check: ProductLine -> Option<ProductsError>)
    requires FirstRejection(products, check).Some?
    ensures exists i :: (0 <= i < |products|
      && (forall j :: 0 <= j < i ==> check(products[j]).None?)
      && check(products[i]) == FirstRejection(products, check))
  {
    if check(products[0]).Some? {
      assert check(products[0]) == FirstRejection(products, check);
    } else {
      FirstRejectionIsFirst(products[1..], check);
      var i :| 0 <= i < |products[1..]|
        && (forall j :: 0 <= j < i ==> check(products[1..][j]).None?)
        && check(products[1..][i]) == FirstRejection(products[1..], check);
      assert forall j :: 0 <= j < i + 1 ==> check(products[j]).None? by {
        forall j | 0 <= j < i + 1 ensures check(products[j]).None? {
          if j > 0 { assert products[j] == products[1..][j - 1]; }
        }
      }
      assert check(products[i + 1]) == FirstRejection(products, check);
    }
  }

  // ---------------------------------------------------------------------
  // productsNotZero

  predicate ItemNotZero(p: ProductLine) {
    p.quantity >= 1 && p.productId >= 1
  }

  /** The quantity is checked before the product id. */
  function NotZeroCheck(p: ProductLine): Option<ProductsError> {
    if p.quantity < 1 then Some(QuantityBelowOne(p.quantity))
    else if p.productId < 1 then Some(ProductIdBelowOne(p.productId))
    else None
  }

  function ProductsNotZero(products: seq<ProductLine>): (r: Option<ProductsError>)
    ensures r.None? <==> forall i :: 0 <= i < |products| ==> ItemNotZero(products[i])
  {
    FirstRejection(products, NotZeroCheck)
  }

  /** A rejection names the first offending item, reporting its quantity when both fields are bad. */
  lemma ProductsNotZeroReportsFirst(products: seq<ProductLine>)
    requires ProductsNotZero(products).Some?
    ensures exists i :: (0 <= i < |products|
      && (forall j :: 0 <= j < i ==> ItemNotZero(products[j]))
      && !ItemNotZero(products[i])
      && ProductsNotZero(products).value ==
           (if products[i].quantity < 1 then QuantityBelowOne(products[i].quantity)
            else ProductIdBelowOne(products[i].productId)))
  {
    FirstRejectionIsFirst(products, NotZeroCheck);
  }

  // ---------------------------------------------------------------------
  // productsAvailable

  predicate ItemAvailable(catalogue: map<int, Product>, p: ProductLine) {
    p.productId in catalogue && catalogue[p.productId].availability
  }

  function AvailableCheck(catalogue: map<int, Product>): ProductLine -> Option<ProductsError> {
    (p: ProductLine) =>
      if p.productId !in catalogue then Some(ProductMissing(p.productId))
      else if !catalogue[p.productId].availability then Some(ProductUnavailable(p.productId))
      else None
  }

  function ProductsAvailable(catalogue: map<int, Product>, products: seq<ProductLine>): (r: Option<ProductsError>)
    ensures r.None? <==> forall i :: 0 <= i < |products| ==> ItemAvailable(catalogue, products[i])
  {
    FirstRejection(products, AvailableCheck(catalogue))
  }

  /** A rejection names the first product, in list order, that is missing or not available. */
  lemma ProductsAvailableReportsFirst(catalogue: map<int, Product>, products: seq<ProductLine>)
    requires ProductsAvailable(catalogue, products).Some?
    ensures exists i :: (0 <= i < |products|
      && (forall j :: 0 <= j < i ==> ItemAvailable(catalogue, products[j]))
      && !ItemAvailable(catalogue, products[i])
      && ProductsAvailable(catalogue, products).value ==
           (if products[i].productId !in catalogue then ProductMissing(products[i].productId)
            else ProductUnavailable(products[i].productId)))
  {
    FirstRejectionIsFirst(products, AvailableCheck(catalogue));
  }

  // ---------------------------------------------------------------------
  // productsSameRestaurant and productsSameRestaurantOriginalOrder

  /** The product exists and its restaurant is `restaurantId` (strict equality, so an absent id never matches). */
  predicate ItemOfRestaurant(catalogue: map<int, Product>, restaurantId: Option<int>, p: ProductLine) {
    p.productId in catalogue && restaurantId == Some(catalogue[p.productId].restaurantId)
  }

  function SameRestaurantCheck(catalogue: map<int, Product>, restaurantId: Option<int>): ProductLine -> Option<ProductsError> {
    (p: ProductLine) =>
      if p.productId !in catalogue then Some(ProductMissing(p.productId))
      else if restaurantId != Some(catalogue[p.productId].restaurantId) then Some(WrongRestaurant(p.productId))
      else None
  }

  /** Every product belongs to the restaurant named in the body. */
  function ProductsSameRestaurant(catalogue: map<int, Product>, restaurantId: Option<int>, products: seq<ProductLine>): (r: Option<ProductsError>)
    ensures r.None? <==> forall i :: 0 <= i < |products| ==> ItemOfRestaurant(catalogue, restaurantId, products[i])
  {
    FirstRejection(products, SameRestaurantCheck(catalogue, restaurantId))
  }

  /**
   * Every product belongs to the restaurant of the FIRST listed product:
   * the stored order being edited is never consulted.
   */
  function ProductsSameRestaurantOriginalOrder(catalogue: map<int, Product>, products: seq<ProductLine>): (r: Option<ProductsError>)
    ensures r.None? <==>
      && |products| > 0
      && products[0].productId in catalogue
      && forall i :: 0 <= i < |products| ==>
           ItemOfRestaurant(catalogue, Some(catalogue[products[0].productId].restaurantId), products[i])
  {
    if |products| == 0 then Some(NoFirstProduct)
    else if products[0].productId !in catalogue then Some(ProductMissing(products[0].productId))
    else ProductsSameRestaurant(catalogue, Some(catalogue[products[0].productId].restaurantId), products)
  }

  // ---------------------------------------------------------------------
  // The rule lists

  /** `isString().isLength({ min: 1, max: 255 })`, checked before trimming. */
  predicate AddressValid(address: Option<string>) {
    address.Some? && 1 <= |address.value| <= 255
  }

  function AddressRule(body: OrderBody): seq<Violation> {
    if AddressValid(body.address) then [] else [AddressInvalid]
  }

  /** A custom products validator, run on the body's `products`; an absent list makes it throw. */
  function ProductsRule(body: OrderBody, validator: seq<ProductLine> -> Option<ProductsError>): seq<Violation> {
    if body.products.None? then [ProductsMissing]
    else
      match validator(body.products.value)
      case None => []
      case Some(e) => [ProductsRejected(e)]
  }

  /** The failed rules of the create rule list, in rule order; the request is accepted iff there are none. */
  function CreateViolations(catalogue: map<int, Product>, body: OrderBody): (r: seq<Violation>)
    ensures r == [] <==>
      && AddressValid(body.address)
      && body.restaurantId.Some? && body.restaurantId.value >= 1
      && body.products.Some? && |body.products.value| > 0
      && (forall i :: 0 <= i < |body.products.value| ==> ItemNotZero(body.products.value[i]))
      && (forall i :: 0 <= i < |body.products.value| ==> ItemAvailable(catalogue, body.products.value[i]))
      && (forall i :: 0 <= i < |body.products.value| ==> ItemOfRestaurant(catalogue, body.restaurantId, body.products.value[i]))
  {
    AddressRule(body)
    + (if body.restaurantId.Some? && body.restaurantId.value >= 1 then [] else [RestaurantIdInvalid])
    + (if body.products.None? then [ProductsMissing] else if |body.products.value| == 0 then [ProductsEmpty] else [])
    + ProductsRule(body, ProductsNotZero)
    + ProductsRule(body, ps => ProductsAvailable(catalogue, ps))
    + ProductsRule(body, ps => ProductsSameRestaurant(catalogue, body.restaurantId, ps))
  }

  /**
   * The failed rules of the update rule list, in rule order.  No rule looks
   * at the stored order: neither its status nor its restaurant is an input.
   */
  function UpdateViolations(catalogue: map<int, Product>, body: OrderBody): (r: seq<Violation>)
    ensures r == [] <==>
      && AddressValid(body.address)
      && body.restaurantId.None?
      && body.products.Some? && |body.products.value| > 0
      && (forall i :: 0 <= i < |body.products.value| ==> ItemNotZero(body.products.value[i]))
      && (forall i :: 0 <= i < |body.products.value| ==> ItemAvailable(catalogue, body.products.value[i]))
      && body.products.value[0].productId in catalogue
      && (forall i :: 0 <= i < |body.products.value| ==>
            ItemOfRestaurant(catalogue, Some(catalogue[body.products.value[0].productId].restaurantId), body.products.value[i]))
  {
    AddressRule(body)
    + (if body.restaurantId.None? then [] else [RestaurantIdPresent])
    + ProductsRule(body, ProductsNotZero)
    + ProductsRule(body, ps => ProductsAvailable(catalogue, ps))
    + ProductsRule(body, ps => ProductsSameRestaurantOriginalOrder(catalogue, ps))
  }

  /**
   * An update may switch every product of an order to another restaurant:
   * the products only have to agree with each other.
   */
  lemma UpdateAcceptsAnyOneRestaurant()
    ensures var catalogue := map[7 := Product(7, 250, true, 2)];
            UpdateViolations(catalogue, OrderBody(Some("Calle Real 1"), None, Some([ProductLine(7, 1)]))) == []
  {
  }
}
