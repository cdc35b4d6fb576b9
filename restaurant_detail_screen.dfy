/**
 * The restaurant page where the customer fills the cart: the running total,
 * the total with shipping, quantity edits and "Place order".
 */
module RestaurantDetailScreen {
  import opened Wrappers
  import opened Domain
  import opened Cart
  import OrderController

  /** The restaurant as fetched for this page: its id, shipping costs and product list. */
  datatype RestaurantDetail = RestaurantDetail(id: int, shippingCosts: int, products: seq<Product>)

  /** `restaurant.products.find(p => p.id === id)`: the first product with that id. */
  function FindById(products: seq<Product>, id: int): (r: Option<Product>)
    ensures r.Some? ==> r.value in products && r.value.id == id
    ensures r.None? <==> forall p :: p in products ==> p.id != id
  {
    if products == [] then None
    else if products[0].id == id then Some(products[0])
    else FindById(products[1..], id)
  }

  /** Every id in the cart names a product on the page (otherwise `find(...).price` throws). */
  predicate CartPriced(products: seq<Product>, cart: CartMap) {
    forall k :: k in cart ==> FindById(products, k).Some?
  }

  predicate EntriesPriced(products: seq<Product>, entries: seq<(int, int)>) {
    forall i :: 0 <= i < |entries| ==> FindById(products, entries[i].0).Some?
  }

  /** `price * quantity` per entry, reduced left to right from 0; never negative when no price or quantity is. */
  function EntriesTotal(products: seq<Product>, entries: seq<(int, int)>): (r: int)
    requires EntriesPriced(products, entries)
    ensures (forall i :: 0 <= i < |entries| ==> FindById(products, entries[i].0).value.price >= 0 && entries[i].1 >= 0) ==> r >= 0
  {
    if entries == [] then 0
    else
      var last := entries[|entries| - 1];
      EntriesTotal(products, entries[..|entries| - 1]) + FindById(products, last.0).value.price * last.1
  }

  /** Reducing from the first entry gives the same total. */
  lemma {:induction false} EntriesTotalFromFirst(products: seq<Product>, entries: seq<(int, int)>)
    requires entries != [] && EntriesPriced(products, entries)
    ensures EntriesPriced(products, entries[1..])
    ensures EntriesTotal(products, entries)
         == FindById(products, entries[0].0).value.price * entries[0].1 + EntriesTotal(products, entries[1..])
  {
    var n := |entries| - 1;
    assert EntriesPriced(products, entries[1..]) by {
      forall i | 0 <= i < |entries[1..]| ensures FindById(products, entries[1..][i].0).Some? {
        assert entries[1..][i] == entries[i + 1];
      }
    }
    if n > 0 {
      var init := entries[..n];
      assert EntriesPriced(products, init) by {
        forall i | 0 <= i < |init| ensures FindById(products, init[i].0).Some? {
          assert init[i] == entries[i];
        }
      }
      EntriesTotalFromFirst(products, init);
      var rest := entries[1..];
      assert rest[..n - 1] == init[1..] && rest[n - 1] == entries[n];
      var amount := FindById(products, entries[n].0).value.price * entries[n].1;
      assert EntriesTotal(products, entries) == EntriesTotal(products, init) + amount;
      assert EntriesTotal(products, rest) == EntriesTotal(products, init[1..]) + amount;
    } else {
      assert entries[1..] == [];
    }
  }

  /**
   * The cart's total as a sum over its entries taken in any order: the
   * page's price of each product times its quantity.
   */
  ghost function CartSum(products: seq<Product>, cart: CartMap): int
    requires CartPriced(products, cart)
    decreases cart.Keys
  {
    if cart == map[] then 0
    else
      assert cart.Keys != {};
      NonEmptyHasMember(cart.Keys);
      var k :| k in cart;
      assert (cart - {k}).Keys == cart.Keys - {k};
      FindById(products, k).value.price * cart[k] + CartSum(products, cart - {k})
  }

  /** The sum does not depend on which entry is taken out first. */
  lemma {:induction false} CartSumRemove(products: seq<Product>, cart: CartMap, id: int)
    requires CartPriced(products, cart) && id in cart
    ensures CartSum(products, cart) == FindById(products, id).value.price * cart[id] + CartSum(products, cart - {id})
    decreases cart.Keys
  {
    var chosen :| chosen in cart
      && CartSum(products, cart) == FindById(products, chosen).value.price * cart[chosen] + CartSum(products, cart - {chosen});
    if chosen != id {
      assert (cart - {chosen}).Keys == cart.Keys - {chosen};
      assert (cart - {id}).Keys == cart.Keys - {id};
      CartSumRemove(products, cart - {chosen}, id);
      CartSumRemove(products, cart - {id}, chosen);
      assert cart - {chosen} - {id} == cart - {id} - {chosen};
    }
  }

  /** `Object.entries` lists every entry once, so reducing it sums the cart. */
  lemma {:induction false} EntriesTotalIsCartSum(products: seq<Product>, cart: CartMap)
    requires CartPriced(products, cart)
    ensures EntriesPriced(products, Entries(cart))
    ensures EntriesTotal(products, Entries(cart)) == CartSum(products, cart)
    decreases cart.Keys
  {
    var entries := Entries(cart);
    assert EntriesPriced(products, entries) by {
      forall i | 0 <= i < |entries| ensures FindById(products, entries[i].0).Some? {
        assert entries[i] in entries;
      }
    }
    if cart != map[] {
      var k := LeastKey(cart);
      var rest := cart - {k};
      assert rest.Keys == cart.Keys - {k};
      EntriesTotalIsCartSum(products, rest);
      assert entries[1..] == Entries(rest);
      EntriesTotalFromFirst(products, entries);
      CartSumRemove(products, cart, k);
    }
  }

  /** `getOrderTotal`: the cart's total, whatever order the entries are listed in. */
  function GetOrderTotal(products: seq<Product>, cart: CartMap): (r: int)
    requires CartPriced(products, cart)
    ensures r == CartSum(products, cart)
  {
    EntriesTotalIsCartSum(products, cart);
    EntriesTotal(products, Entries(cart))
  }

  /** Removing an entry undoes setting it. */
  lemma UpdateThenRemove(cart: CartMap, id: int, quantity: int)
    ensures cart[id := quantity] - {id} == cart - {id}
  {
  }

  /**
   * Setting one product's quantity changes the total by exactly that
   * entry: the rest of the cart counts as before.
   */
  lemma TotalAfterQuantityChange(products: seq<Product>, cart: CartMap, id: int, quantity: int)
    requires CartPriced(products, cart) && FindById(products, id).Some?
    ensures CartPriced(products, cart[id := quantity]) && CartPriced(products, cart - {id})
    ensures GetOrderTotal(products, cart[id := quantity])
         == GetOrderTotal(products, cart - {id}) + FindById(products, id).value.price * quantity
  {
    var updated := cart[id := quantity];
    UpdateThenRemove(cart, id, quantity);
    CartSumRemove(products, updated, id);
  }

  /** `getOrderWithShipping`: the same total the backend charges for this subtotal. */
  function GetOrderWithShipping(restaurant: RestaurantDetail, cart: CartMap): (r: int)
    requires CartPriced(restaurant.products, cart)
    ensures r == OrderController.PriceAndShippingCosts(GetOrderTotal(restaurant.products, cart), restaurant.shippingCosts).0
  {
    var total := GetOrderTotal(restaurant.products, cart);
    if total > FreeShippingAbove then total else total + restaurant.shippingCosts
  }

  /** The page's prices for the cart's products are the catalogue's current prices. */
  predicate PricesAgree(products: seq<Product>, catalogue: map<int, Product>, entries: seq<(int, int)>)
    requires EntriesPriced(products, entries)
  {
    forall i :: 0 <= i < |entries| ==>
      entries[i].0 in catalogue && catalogue[entries[i].0].price == FindById(products, entries[i].0).value.price
  }

  /** The backend's subtotal of the sent lines grows by the last entry's amount. */
  lemma EntriesLastRow(products: seq<Product>, catalogue: map<int, Product>, entries: seq<(int, int)>)
    requires entries != [] && EntriesPriced(products, entries)
    requires PricesAgree(products, catalogue, entries)
    requires OrderController.AllFound(OrderController.Resolve(catalogue, EntryLines(entries[..|entries| - 1])))
    ensures OrderController.AllFound(OrderController.Resolve(catalogue, EntryLines(entries)))
    ensures OrderController.Subtotal(OrderController.Resolve(catalogue, EntryLines(entries)))
         == OrderController.Subtotal(OrderController.Resolve(catalogue, EntryLines(entries[..|entries| - 1])))
            + FindById(products, entries[|entries| - 1].0).value.price * entries[|entries| - 1].1
  {
    var n := |entries|;
    var lines := EntryLines(entries);
    assert lines[..n - 1] == EntryLines(entries[..n - 1]);
    OrderController.SubtotalOfOneMore(catalogue, lines);
  }

  lemma {:induction false} EntriesPricedByBackend(products: seq<Product>, catalogue: map<int, Product>, entries: seq<(int, int)>)
    requires EntriesPriced(products, entries)
    requires PricesAgree(products, catalogue, entries)
    ensures OrderController.AllFound(OrderController.Resolve(catalogue, EntryLines(entries)))
    ensures OrderController.Subtotal(OrderController.Resolve(catalogue, EntryLines(entries))) == EntriesTotal(products, entries)
  {
    if entries != [] {
      var prefix := entries[..|entries| - 1];
      EntriesPricedByBackend(products, catalogue, prefix);
      EntriesLastRow(products, catalogue, entries);
    }
  }

  /**
   * What the customer saw is what the backend charges: for a cart of
   * positive quantities whose page prices are the catalogue's, the products
   * "Place order" sends resolve in full and their subtotal is `getOrderTotal`.
   */
  lemma PlacedCartPricedAlike(products: seq<Product>, catalogue: map<int, Product>, cart: CartMap)
    requires CartPriced(products, cart)
    requires forall k :: k in cart ==> cart[k] > 0
    requires forall k :: k in cart ==> k in catalogue && catalogue[k].price == FindById(products, k).value.price
    ensures OrderController.AllFound(OrderController.Resolve(catalogue, SelectedProducts(cart)))
    ensures OrderController.Subtotal(OrderController.Resolve(catalogue, SelectedProducts(cart))) == GetOrderTotal(products, cart)
  {
    var entries := Entries(cart);
    assert PositiveEntries(entries) == entries;
    EntriesPricedByBackend(products, catalogue, entries);
  }

  /** Where "Place order" led. */
  datatype PlaceOrderOutcome =
    | LoginRequested
    | UpdateSent(orderId: int, body: OrderBody, userId: int)
    | ConfirmationOpened(cart: CartMap, totalCost: int, shippingCosts: int, restaurantId: int)

  class RestaurantDetailScreen {
    var restaurant: RestaurantDetail
    var order: CartMap
    var loggedInUser: Option<User>

    /** Every cart entry names a product of the page and holds a positive quantity. */
    ghost predicate Valid()
      reads this
    {
      && CartPriced(restaurant.products, order)
      && forall k :: k in order ==> order[k] > 0
    }

    constructor (restaurant: RestaurantDetail, loggedInUser: Option<User>)
      ensures Valid()
      ensures this.restaurant == restaurant && this.loggedInUser == loggedInUser && order == map[]
    {
      this.restaurant := restaurant;
      this.loggedInUser := loggedInUser;
      order := map[];
    }

    /**
     * `updatePriceQuantity`: `quantity` is the parsed text (`None` when it
     * is not a number); a missing or non-positive quantity drops the entry.
     */
    method UpdatePriceQuantity(quantity: Option<int>, item: Product)
      requires Valid() && item in restaurant.products
      modifies this`order
      ensures Valid()
      ensures quantity.None? || quantity.value <= 0 ==> order == old(order) - {item.id}
      ensures quantity.Some? && quantity.value > 0 ==> order == old(order)[item.id := quantity.value]
    {
      var newOrder := order;
      if quantity.None? || quantity.value <= 0 {
        newOrder := newOrder - {item.id};
      } else {
        newOrder := newOrder[item.id := quantity.value];
      }
      order := newOrder;
    }

    /**
     * `handlePlaceOrder`.  `editingOrderId` is the route's parameter;
     * `updateSucceeds` is the outcome of the update request.
     */
    method HandlePlaceOrder(editingOrderId: Option<int>, updateSucceeds: bool) returns (outcome: PlaceOrderOutcome)
      requires Valid()
      modifies this`order
      ensures Valid()
      ensures outcome.LoginRequested? <==> loggedInUser.None?
      ensures outcome.LoginRequested? ==> order == old(order)
      ensures outcome.UpdateSent? <==> loggedInUser.Some? && editingOrderId.Some? && editingOrderId.value != 0
      ensures outcome.UpdateSent? ==>
        && outcome == UpdateSent(editingOrderId.value,
                                 OrderBody(loggedInUser.value.address, None, Some(SelectedProducts(old(order)))),
                                 loggedInUser.value.id)
        && order == if updateSucceeds then map[] else old(order)
      ensures outcome.ConfirmationOpened? ==>
        && outcome.cart == old(order)
        && outcome.restaurantId == restaurant.id
        && (outcome.totalCost, outcome.shippingCosts)
           == OrderController.PriceAndShippingCosts(GetOrderTotal(restaurant.products, old(order)), restaurant.shippingCosts)
        && order == map[]
    {
      if loggedInUser.None? {
        return LoginRequested;
      }
      var selectedProducts := SelectedProducts(order);
      if editingOrderId.Some? && editingOrderId.value != 0 {
        outcome := UpdateSent(editingOrderId.value, OrderBody(loggedInUser.value.address, None, Some(selectedProducts)), loggedInUser.value.id);
        if updateSucceeds {
          order := map[];
        }
      } else {
        var total := GetOrderTotal(restaurant.products, order);
        outcome := ConfirmationOpened(order, GetOrderWithShipping(restaurant, order),
                                      if total <= FreeShippingAbove then restaurant.shippingCosts else 0, restaurant.id);
        order := map[];
      }
    }

    /** "Discard": empties the cart. */
    method Discard()
      requires Valid()
      modifies this`order
      ensures Valid() && order == map[]
    {
      order := map[];
    }
  }
}
