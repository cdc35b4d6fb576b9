/**
 * The backend order controller: pricing, the restaurant listing filter,
 * the analytics counters and the transactional create / update / destroy
 * and lifecycle operations over an in-memory database.
 */
module OrderController {
  import opened Wrappers
  import opened Domain
  import Sorting

  // =====================================================================
  // Pricing

  /**
   * `priceAndShippingCosts`: the order's (price, shippingCosts) for a
   * products subtotal, given the restaurant's default shipping costs.
   */
  function PriceAndShippingCosts(subtotal: int, restaurantShipping: int): (r: (int, int))
    ensures r.0 == subtotal + r.1
    ensures r.1 == (if subtotal > FreeShippingAbove then 0 else restaurantShipping)
  {
    var orderPrice := subtotal;
    var shippingCosts := restaurantShipping;
    if orderPrice > FreeShippingAbove then (orderPrice, 0)
    else (orderPrice + shippingCosts, shippingCosts)
  }

  /** A stored price and shipping pair always gives back the products subtotal. */
  lemma PricingRecoversSubtotal(s1: int, s2: int, d1: int, d2: int)
    requires PriceAndShippingCosts(s1, d1) == PriceAndShippingCosts(s2, d2)
    ensures s1 == s2
  {
  }

  /** `Product.findByPk`. */
  function FindProduct(catalogue: map<int, Product>, productId: int): Option<Product> {
    if productId in catalogue then Some(catalogue[productId]) else None
  }

  /** One `{ product, quantity }` entry built by `arrayProductsQuantity`; `product` is null when not found. */
  datatype ProductQuantity = ProductQuantity(product: Option<Product>, quantity: int)

  /** What `arrayProductsQuantity` builds for a request's products list. */
  function Resolve(catalogue: map<int, Product>, products: seq<ProductLine>): (r: seq<ProductQuantity>)
    ensures |r| == |products|
    ensures forall i :: 0 <= i < |products| ==>
      r[i] == ProductQuantity(FindProduct(catalogue, products[i].productId), products[i].quantity)
  {
    if products == [] then []
    else Resolve(catalogue, products[..|products| - 1])
         + [ProductQuantity(FindProduct(catalogue, products[|products| - 1].productId), products[|products| - 1].quantity)]
  }

  /** `arrayProductsQuantity`: looks every requested product up, in request order. */
  method ArrayProductsQuantity(catalogue: map<int, Product>, products: seq<ProductLine>) returns (productsArray: seq<ProductQuantity>)
    ensures productsArray == Resolve(catalogue, products)
    ensures |productsArray| == |products|
    ensures forall i :: 0 <= i < |products| ==>
      productsArray[i].quantity == products[i].quantity
      && (productsArray[i].product.Some? <==> products[i].productId in catalogue)
      && (productsArray[i].product.Some? ==> productsArray[i].product.value == catalogue[products[i].productId])
  {
    productsArray := [];
    for i := 0 to |products|
      invariant productsArray == Resolve(catalogue, products[..i])
    {
      assert products[..i + 1][..i] == products[..i];
      productsArray := productsArray + [ProductQuantity(FindProduct(catalogue, products[i].productId), products[i].quantity)];
    }
    assert products[..|products|] == products;
  }

  /** The prefix as long as the entries is all of them. */
  lemma WholePrefix(productsArray: seq<ProductQuantity>)
    ensures productsArray[..|productsArray|] == productsArray
  {
  }

  predicate AllFound(productsArray: seq<ProductQuantity>) {
    forall i :: 0 <= i < |productsArray| ==> productsArray[i].product.Some?
  }

  /** Price times quantity, summed left to right; never negative when no price or quantity is. */
  function Subtotal(productsArray: seq<ProductQuantity>): (r: int)
    requires AllFound(productsArray)
    ensures (forall i :: 0 <= i < |productsArray| ==>
              productsArray[i].product.value.price >= 0 && productsArray[i].quantity >= 0) ==> r >= 0
  {
    if productsArray == [] then 0
    else
      var last := productsArray[|productsArray| - 1];
      Subtotal(productsArray[..|productsArray| - 1]) + last.product.value.price * last.quantity
  }

  /**
   * Asking for one more product adds its current price times its quantity
   * to the subtotal, and keeps every product found.
   */
  lemma SubtotalOfOneMore(catalogue: map<int, Product>, products: seq<ProductLine>)
    requires products != [] && products[|products| - 1].productId in catalogue
    requires AllFound(Resolve(catalogue, products[..|products| - 1]))
    ensures AllFound(Resolve(catalogue, products))
    ensures Subtotal(Resolve(catalogue, products))
         == Subtotal(Resolve(catalogue, products[..|products| - 1]))
            + catalogue[products[|products| - 1].productId].price * products[|products| - 1].quantity
  {
    var n := |products| - 1;
    var resolved := Resolve(catalogue, products);
    assert resolved[..n] == Resolve(catalogue, products[..n]);
    assert resolved[n].product == Some(catalogue[products[n].productId]);
  }

  /**
   * `totalPrice`: the sum of price times quantity; reading the price of a
   * product that was not found throws.
   */
  method TotalPrice(productsArray: seq<ProductQuantity>) returns (finalPrice: Option<int>)
    ensures finalPrice.Some? <==> AllFound(productsArray)
    ensures finalPrice.Some? ==> finalPrice.value == Subtotal(productsArray)
  {
    var sum := 0;
    for i := 0 to |productsArray|
      invariant AllFound(productsArray[..i])
      invariant sum == Subtotal(productsArray[..i])
    {
      if productsArray[i].product.None? {
        return None;
      }
      assert productsArray[..i + 1][..i] == productsArray[..i];
      sum := sum + productsArray[i].product.value.price * productsArray[i].quantity;
    }
    assert productsArray[..|productsArray|] == productsArray;
    finalPrice := Some(sum);
  }

  // =====================================================================
  // Line items

  /** The line item `addProduct` writes for a resolved product: the quantity asked, at the product's current price. */
  function LineFor(product: Product, quantity: int): (r: LineItem)
    ensures r.productId == product.id && r.quantity == quantity && r.unityPrice == product.price
  {
    LineItem(product.id, quantity, product.price)
  }

  /**
   * No product has two rows.  The OrderProducts join table is keyed by
   * order and product, so the lines of one order always have this shape.
   */
  predicate DistinctLineIds(lines: seq<LineItem>) {
    forall i, j :: 0 <= i < j < |lines| ==> lines[i].productId != lines[j].productId
  }

  /**
   * `order.addProduct(product, { through })` as Sequelize's many-to-many
   * `add` does it: a product already linked to the order gets its join row's
   * quantity and unit price replaced in place, any other product a new row
   * at the end.
   */
  function AddLine(lines: seq<LineItem>, item: LineItem): (r: seq<LineItem>)
    ensures |lines| <= |r| <= |lines| + 1
    ensures (forall k :: 0 <= k < |lines| ==> lines[k].productId != item.productId) ==> r == lines + [item]
    ensures (exists k :: 0 <= k < |lines| && lines[k].productId == item.productId) ==> |r| == |lines|
    ensures item in r
    ensures forall x :: x in r ==> x == item || x in lines
  {
    if lines == [] then [item]
    else if lines[0].productId == item.productId then [item] + lines[1..]
    else [lines[0]] + AddLine(lines[1..], item)
  }

  /**
   * `addProduct` works in place: every row keeps its product, the rows of
   * other products are untouched, and lines without a repeated product stay
   * so, the matching row being the one replaced.
   */
  lemma {:induction false} AddLineInPlace(lines: seq<LineItem>, item: LineItem)
    ensures forall k :: 0 <= k < |lines| ==> AddLine(lines, item)[k].productId == lines[k].productId
    ensures forall k :: 0 <= k < |lines| && lines[k].productId != item.productId ==> AddLine(lines, item)[k] == lines[k]
    ensures DistinctLineIds(lines) ==> DistinctLineIds(AddLine(lines, item))
    ensures DistinctLineIds(lines) && (exists k :: 0 <= k < |lines| && lines[k].productId == item.productId) ==>
      forall k :: 0 <= k < |lines| ==>
        AddLine(lines, item)[k] == (if lines[k].productId == item.productId then item else lines[k])
  {
    if lines != [] && lines[0].productId != item.productId {
      var rest := AddLine(lines[1..], item);
      AddLineInPlace(lines[1..], item);
      assert AddLine(lines, item) == [lines[0]] + rest;
      forall k | 1 <= k < |lines| ensures AddLine(lines, item)[k] == rest[k - 1] && lines[k] == lines[1..][k - 1] {}
    }
  }

  /**
   * The line items of an order after `addProduct` was called for each
   * entry, in order: never two rows for one product, and never more rows
   * than entries.
   */
  function LinesFor(productsArray: seq<ProductQuantity>): (r: seq<LineItem>)
    requires AllFound(productsArray)
    ensures DistinctLineIds(r)
    ensures |r| <= |productsArray|
  {
    if productsArray == [] then []
    else
      var last := productsArray[|productsArray| - 1];
      var before := LinesFor(productsArray[..|productsArray| - 1]);
      AddLineInPlace(before, LineFor(last.product.value, last.quantity));
      AddLine(before, LineFor(last.product.value, last.quantity))
  }

  /** Adding the next entry's product to the lines of the entries before it. */
  lemma LinesForExtend(productsArray: seq<ProductQuantity>, i: int)
    requires AllFound(productsArray) && 0 <= i < |productsArray|
    ensures AllFound(productsArray[..i]) && AllFound(productsArray[..i + 1])
    ensures LinesFor(productsArray[..i + 1])
         == AddLine(LinesFor(productsArray[..i]), LineFor(productsArray[i].product.value, productsArray[i].quantity))
  {
    assert productsArray[..i + 1][..i] == productsArray[..i];
  }

  /** No product is listed twice. */
  predicate DistinctProducts(products: seq<ProductLine>) {
    forall i, j :: 0 <= i < j < |products| ==> products[i].productId != products[j].productId
  }

  /** A catalogue whose rows are stored under their own ids. */
  predicate CatalogueKeyed(catalogue: map<int, Product>) {
    forall k :: k in catalogue ==> catalogue[k].id == k
  }

  /**
   * When no product is listed twice, the stored line items are exactly one
   * per requested product, in request order, each with the product's
   * current price as unit price.
   */
  lemma {:induction false} LinesForDistinctRequest(catalogue: map<int, Product>, products: seq<ProductLine>)
    requires CatalogueKeyed(catalogue)
    requires AllFound(Resolve(catalogue, products))
    requires DistinctProducts(products)
    ensures var lines := LinesFor(Resolve(catalogue, products));
      && |lines| == |products|
      && forall i :: 0 <= i < |products| ==>
           lines[i] == LineItem(products[i].productId, products[i].quantity, catalogue[products[i].productId].price)
  {
    if products != [] {
      var n := |products| - 1;
      var pq := Resolve(catalogue, products);
      assert pq[..n] == Resolve(catalogue, products[..n]);
      LinesForDistinctRequest(catalogue, products[..n]);
      var id := products[n].productId;
      assert pq[n].product == Some(catalogue[id]);
      var before := LinesFor(pq[..n]);
      DistinctStep(catalogue, products, before);
      assert LinesFor(pq) == AddLine(before, LineItem(id, products[n].quantity, catalogue[id].price));
    }
  }

  /** The rows of a request without repeats after its last line's product is added. */
  lemma DistinctStep(catalogue: map<int, Product>, products: seq<ProductLine>, before: seq<LineItem>)
    requires products != [] && forall i :: 0 <= i < |products| ==> products[i].productId in catalogue
    requires DistinctProducts(products)
    requires var init := products[..|products| - 1];
      && |before| == |init|
      && forall i :: 0 <= i < |init| ==> before[i] == LineItem(init[i].productId, init[i].quantity, catalogue[init[i].productId].price)
    ensures var last := products[|products| - 1];
      var lines := AddLine(before, LineItem(last.productId, last.quantity, catalogue[last.productId].price));
      && |lines| == |products|
      && forall i :: 0 <= i < |products| ==>
           lines[i] == LineItem(products[i].productId, products[i].quantity, catalogue[products[i].productId].price)
  {
    var n := |products| - 1;
    var init := products[..n];
    var id := products[n].productId;
    var item := LineItem(id, products[n].quantity, catalogue[id].price);
    forall k | 0 <= k < |before| ensures before[k].productId != id {
      assert init[k] == products[k];
    }
    var lines := AddLine(before, item);
    assert lines == before + [item];
    forall i | 0 <= i < |products|
      ensures lines[i] == LineItem(products[i].productId, products[i].quantity, catalogue[products[i].productId].price)
    {
      if i < n {
        assert init[i] == products[i];
      }
    }
  }

  /** Every line of a request without repeated products has its row among the stored ones. */
  lemma DistinctRequestRowsPresent(catalogue: map<int, Product>, products: seq<ProductLine>)
    requires CatalogueKeyed(catalogue)
    requires AllFound(Resolve(catalogue, products))
    requires DistinctProducts(products)
    ensures |LinesFor(Resolve(catalogue, products))| == |products|
    ensures forall l :: l in products ==>
      l.productId in catalogue && LineItem(l.productId, l.quantity, catalogue[l.productId].price) in LinesFor(Resolve(catalogue, products))
  {
    LinesForDistinctRequest(catalogue, products);
    var pq := Resolve(catalogue, products);
    var lines := LinesFor(pq);
    forall l | l in products
      ensures l.productId in catalogue && LineItem(l.productId, l.quantity, catalogue[l.productId].price) in lines
    {
      var i :| 0 <= i < |products| && products[i] == l;
      assert pq[i].product.Some?;
      assert lines[i] == LineItem(l.productId, l.quantity, catalogue[l.productId].price);
    }
  }

  /** The position of the first request line for `productId`, or `|products|` when there is none. */
  function FirstIndex(products: seq<ProductLine>, productId: int): (r: int)
    ensures 0 <= r <= |products|
    ensures forall i :: 0 <= i < r ==> products[i].productId != productId
    ensures r < |products| ==> products[r].productId == productId
  {
    if products == [] then 0
    else
      var n := |products| - 1;
      var first := FirstIndex(products[..n], productId);
      if first < n then first
      else if products[n].productId == productId then n
      else n + 1
  }

  /** The position of the last request line for `productId`, or -1 when there is none. */
  function LastIndex(products: seq<ProductLine>, productId: int): (r: int)
    ensures -1 <= r < |products|
    ensures forall i :: r < i < |products| ==> products[i].productId != productId
    ensures r >= 0 ==> products[r].productId == productId
  {
    if products == [] then -1
    else if products[|products| - 1].productId == productId then |products| - 1
    else LastIndex(products[..|products| - 1], productId)
  }

  /** A stored row for a requested product: the last quantity asked for it, at its current price. */
  predicate RowOfRequest(catalogue: map<int, Product>, products: seq<ProductLine>, line: LineItem) {
    var last := LastIndex(products, line.productId);
    && last >= 0
    && line.productId in catalogue
    && line == LineItem(line.productId, products[last].quantity, catalogue[line.productId].price)
  }

  /** The position of the first row for `productId`, or `|lines|` when there is none. */
  function RowIndex(lines: seq<LineItem>, productId: int): (r: int)
    ensures 0 <= r <= |lines|
    ensures r < |lines| ==> lines[r].productId == productId
    ensures r == |lines| ==> forall k :: 0 <= k < |lines| ==> lines[k].productId != productId
  {
    if lines == [] then 0
    else if lines[0].productId == productId then 0
    else 1 + RowIndex(lines[1..], productId)
  }

  /** Every requested product has a row. */
  predicate CoversRequest(products: seq<ProductLine>, lines: seq<LineItem>) {
    forall i :: 0 <= i < |products| ==> RowIndex(lines, products[i].productId) < |lines|
  }

  /** Every row is one of a requested product: the last quantity asked for it, at its current price. */
  predicate RowsOfRequest(catalogue: map<int, Product>, products: seq<ProductLine>, lines: seq<LineItem>) {
    forall k :: 0 <= k < |lines| ==> RowOfRequest(catalogue, products, lines[k])
  }

  /** The rows are in the order their products were first asked for. */
  predicate InFirstAskedOrder(products: seq<ProductLine>, lines: seq<LineItem>) {
    forall k, j :: 0 <= k < j < |lines| ==>
      FirstIndex(products, lines[k].productId) < FirstIndex(products, lines[j].productId)
  }

  /**
   * The lines stored for a request: one row per distinct requested
   * product, each the last quantity asked at the current price, the rows
   * in the order the products were first asked for.
   */
  predicate StoredLinesOf(catalogue: map<int, Product>, products: seq<ProductLine>, lines: seq<LineItem>) {
    && DistinctLineIds(lines)
    && CoversRequest(products, lines)
    && RowsOfRequest(catalogue, products, lines)
    && InFirstAskedOrder(products, lines)
  }

  /**
   * Any request whose products are all found, repeated ids included, is
   * stored as one row per distinct product: a repeated product keeps the
   * row it got first, with the quantity of its last listing.
   */
  lemma {:induction false} LinesForRequest(catalogue: map<int, Product>, products: seq<ProductLine>)
    requires CatalogueKeyed(catalogue)
    requires AllFound(Resolve(catalogue, products))
    ensures StoredLinesOf(catalogue, products, LinesFor(Resolve(catalogue, products)))
  {
    if products != [] {
      var n := |products| - 1;
      var pq := Resolve(catalogue, products);
      assert pq[..n] == Resolve(catalogue, products[..n]);
      LinesForRequest(catalogue, products[..n]);
      var id := products[n].productId;
      assert pq[n].product == Some(catalogue[id]);
      var before := LinesFor(pq[..n]);
      var lines := AddLine(before, LineItem(id, products[n].quantity, catalogue[id].price));
      StepRows(catalogue, products, before);
      StepCovers(catalogue, products, before);
      StepOrder(catalogue, products, before);
      assert LinesFor(pq) == lines;
    }
  }

  /** The rows after the last request line's product is added. */
  lemma StepRows(catalogue: map<int, Product>, products: seq<ProductLine>, before: seq<LineItem>)
    requires products != [] && products[|products| - 1].productId in catalogue
    requires DistinctLineIds(before)
    requires RowsOfRequest(catalogue, products[..|products| - 1], before)
    ensures var id := products[|products| - 1].productId;
      RowsOfRequest(catalogue, products, AddLine(before, LineItem(id, products[|products| - 1].quantity, catalogue[id].price)))
  {
    var n := |products| - 1;
    var init := products[..n];
    var id := products[n].productId;
    var item := LineItem(id, products[n].quantity, catalogue[id].price);
    var lines := AddLine(before, item);
    AddLineInPlace(before, item);
    assert LastIndex(products, id) == n;
    forall k | 0 <= k < |lines|
      ensures RowOfRequest(catalogue, products, lines[k])
    {
      if k < |before| && before[k].productId != id {
        assert lines[k] == before[k];
        assert RowOfRequest(catalogue, init, before[k]);
        assert LastIndex(products, before[k].productId) == LastIndex(init, before[k].productId);
      } else {
        assert lines[k] == item;
      }
    }
  }

  /** Every product asked for still has a row after the last request line's product is added. */
  lemma StepCovers(catalogue: map<int, Product>, products: seq<ProductLine>, before: seq<LineItem>)
    requires products != [] && products[|products| - 1].productId in catalogue
    requires CoversRequest(products[..|products| - 1], before)
    ensures var id := products[|products| - 1].productId;
      CoversRequest(products, AddLine(before, LineItem(id, products[|products| - 1].quantity, catalogue[id].price)))
  {
    var n := |products| - 1;
    var init := products[..n];
    var id := products[n].productId;
    var item := LineItem(id, products[n].quantity, catalogue[id].price);
    var lines := AddLine(before, item);
    AddLineInPlace(before, item);
    forall i | 0 <= i < |products|
      ensures RowIndex(lines, products[i].productId) < |lines|
    {
      if i < n {
        assert init[i] == products[i];
        var k := RowIndex(before, init[i].productId);
        assert lines[k].productId == products[i].productId;
      } else {
        if RowIndex(before, id) < |before| {
          assert lines[RowIndex(before, id)].productId == id;
        } else {
          assert lines[|before|] == item;
        }
      }
    }
  }

  /** The rows stay in first-asked order after the last request line's product is added. */
  lemma StepOrder(catalogue: map<int, Product>, products: seq<ProductLine>, before: seq<LineItem>)
    requires products != [] && products[|products| - 1].productId in catalogue
    requires RowsOfRequest(catalogue, products[..|products| - 1], before)
    requires CoversRequest(products[..|products| - 1], before)
    requires InFirstAskedOrder(products[..|products| - 1], before)
    ensures var id := products[|products| - 1].productId;
      InFirstAskedOrder(products, AddLine(before, LineItem(id, products[|products| - 1].quantity, catalogue[id].price)))
  {
    var n := |products| - 1;
    var init := products[..n];
    var id := products[n].productId;
    var item := LineItem(id, products[n].quantity, catalogue[id].price);
    var lines := AddLine(before, item);
    AddLineInPlace(before, item);
    forall k | 0 <= k < |before|
      ensures FirstIndex(init, before[k].productId) < n
      ensures FirstIndex(products, before[k].productId) == FirstIndex(init, before[k].productId)
    {
      assert RowOfRequest(catalogue, init, before[k]);
    }
    if RowIndex(before, id) < |before| {
      forall k, j | 0 <= k < j < |lines|
        ensures FirstIndex(products, lines[k].productId) < FirstIndex(products, lines[j].productId)
      {
        assert FirstIndex(init, before[k].productId) < FirstIndex(init, before[j].productId);
      }
    } else {
      assert FirstIndex(init, id) == n;
      assert FirstIndex(products, id) == n;
      forall k, j | 0 <= k < j < |lines|
        ensures FirstIndex(products, lines[k].productId) < FirstIndex(products, lines[j].productId)
      {
        if j < |before| {
          assert FirstIndex(init, before[k].productId) < FirstIndex(init, before[j].productId);
        }
      }
    }
  }

  /**
   * A request listing one product twice is charged for both listings, but
   * only one row, with the second quantity, is stored for it.
   */
  lemma RepeatedProductChargedForBoth(catalogue: map<int, Product>, productId: int, first: int, second: int)
    requires CatalogueKeyed(catalogue) && productId in catalogue
    ensures var pq := Resolve(catalogue, [ProductLine(productId, first), ProductLine(productId, second)]);
      && AllFound(pq)
      && Subtotal(pq) == catalogue[productId].price * first + catalogue[productId].price * second
      && LinesFor(pq) == [LineItem(productId, second, catalogue[productId].price)]
  {
    var products := [ProductLine(productId, first), ProductLine(productId, second)];
    var pq := Resolve(catalogue, products);
    assert pq[..1] == Resolve(catalogue, products[..1]);
    assert pq[..1][..0] == [];
    assert LinesFor(pq[..1]) == [LineItem(productId, first, catalogue[productId].price)];
    assert Subtotal(pq[..1]) == catalogue[productId].price * first;
    assert pq[1] == ProductQuantity(Some(catalogue[productId]), second);
  }

  // =====================================================================
  // The restaurant listing filter

  /**
   * One condition of a query's `where` list.  A comparison with a null
   * timestamp is false, as in SQL.
   */
  datatype WhereClause =
    | StartedAtNull
    | InProcess         // startedAt not null, sentAt null, deliveredAt null
    | SentNotDelivered  // sentAt not null, deliveredAt null
    | SentAtNotNull
    | CreatedFrom(from: int)
    | CreatedUntil(until: int)
    | CreatedBefore(bound: int)
    | DeliveredFrom(from: int)
    | RestaurantIs(restaurantId: int)
    | UserIs(userId: int)

  predicate Satisfies(o: Order, clause: WhereClause) {
    match clause
    case StartedAtNull => o.startedAt.None?
    case InProcess => o.startedAt.Some? && o.sentAt.None? && o.deliveredAt.None?
    case SentNotDelivered => o.sentAt.Some? && o.deliveredAt.None?
    case SentAtNotNull => o.sentAt.Some?
    case CreatedFrom(from) => o.createdAt >= from
    case CreatedUntil(until) => o.createdAt <= until
    case CreatedBefore(bound) => o.createdAt < bound
    case DeliveredFrom(from) => o.deliveredAt.Some? && o.deliveredAt.value >= from
    case RestaurantIs(restaurantId) => o.restaurantId == restaurantId
    case UserIs(userId) => o.userId == userId
  }

  predicate SatisfiesAll(o: Order, clauses: seq<WhereClause>) {
    forall i :: 0 <= i < |clauses| ==> Satisfies(o, clauses[i])
  }

  lemma SatisfiesAllAppend(o: Order, clauses: seq<WhereClause>, clause: WhereClause)
    ensures SatisfiesAll(o, clauses + [clause]) <==> SatisfiesAll(o, clauses) && Satisfies(o, clause)
  {
    assert forall i :: 0 <= i < |clauses| ==> (clauses + [clause])[i] == clauses[i];
    assert (clauses + [clause])[|clauses|] == clause;
  }

  /** A `where` list of one, two or three clauses, spelled out. */
  lemma SatisfiesAllListed(a: WhereClause, b: WhereClause, c: WhereClause)
    ensures forall o :: SatisfiesAll(o, [a]) <==> Satisfies(o, a)
    ensures forall o :: SatisfiesAll(o, [a, b]) <==> Satisfies(o, a) && Satisfies(o, b)
    ensures forall o :: SatisfiesAll(o, [a, b, c]) <==> Satisfies(o, a) && Satisfies(o, b) && Satisfies(o, c)
  {
    assert [a, b][0] == a && [a, b][1] == b;
    assert [a, b, c][0] == a && [a, b, c][1] == b && [a, b, c][2] == c;
  }

  /** What a status query asks of an order: only the four known labels constrain it. */
  predicate StatusAdmits(status: Option<string>, o: Order)
    ensures status.None? || status.value !in {"pending", "in process", "sent", "delivered"} ==> StatusAdmits(status, o)
  {
    && (status == Some("pending") ==> o.startedAt.None?)
    && (status == Some("in process") ==> o.startedAt.Some? && o.sentAt.None? && o.deliveredAt.None?)
    && (status == Some("sent") ==> o.sentAt.Some? && o.deliveredAt.None?)
    && (status == Some("delivered") ==> o.sentAt.Some?)
  }

  /**
   * `generateFilterWhereClauses`.  `from` and `to` are the query's dates
   * already read as the timestamp of their 00:00; the `to` bound is moved
   * one day on and kept inclusive, so it also admits the next day's 00:00.
   */
  method GenerateFilterWhereClauses(status: Option<string>, from: Option<int>, to: Option<int>)
    returns (filterWhereClauses: seq<WhereClause>)
    ensures |filterWhereClauses| <= 3
    ensures forall o: Order :: SatisfiesAll(o, filterWhereClauses) <==>
      && StatusAdmits(status, o)
      && (from.Some? ==> o.createdAt >= from.value)
      && (to.Some? ==> o.createdAt <= to.value + DayMillis)
  {
    filterWhereClauses := [];
    if Truthy(status) {
      match status.value {
        case "pending" =>
          filterWhereClauses := filterWhereClauses + [StartedAtNull];
        case "in process" =>
          filterWhereClauses := filterWhereClauses + [InProcess];
        case "sent" =>
          filterWhereClauses := filterWhereClauses + [SentNotDelivered];
        case "delivered" =>
          filterWhereClauses := filterWhereClauses + [SentAtNotNull];
        case _ =>
      }
    }
    forall o: Order ensures SatisfiesAll(o, filterWhereClauses) <==> StatusAdmits(status, o) {
      if filterWhereClauses != [] { SatisfiesAllAppend(o, [], filterWhereClauses[0]); }
    }
    ghost var afterStatus := filterWhereClauses;
    if from.Some? {
      filterWhereClauses := filterWhereClauses + [CreatedFrom(from.value)];
    }
    ghost var afterFrom := filterWhereClauses;
    forall o: Order
      ensures SatisfiesAll(o, afterFrom) <==> SatisfiesAll(o, afterStatus) && (from.Some? ==> o.createdAt >= from.value)
    {
      if from.Some? { SatisfiesAllAppend(o, afterStatus, CreatedFrom(from.value)); }
    }
    if to.Some? {
      filterWhereClauses := filterWhereClauses + [CreatedUntil(to.value + DayMillis)];
    }
    forall o: Order
      ensures SatisfiesAll(o, filterWhereClauses) <==> SatisfiesAll(o, afterFrom) && (to.Some? ==> o.createdAt <= to.value + DayMillis)
    {
      if to.Some? { SatisfiesAllAppend(o, afterFrom, CreatedUntil(to.value + DayMillis)); }
    }
  }

  // =====================================================================
  // Lifecycle stages

  /** The stage an order has reached, read off the latest timestamp that is set. */
  datatype Stage = PendingStage | InProcessStage | SentStage | DeliveredStage

  function StageOf(o: Order): Stage {
    if o.deliveredAt.Some? then DeliveredStage
    else if o.sentAt.Some? then SentStage
    else if o.startedAt.Some? then InProcessStage
    else PendingStage
  }

  /** No timestamp is set unless the one of the stage before it is. */
  predicate InLifecycleOrder(o: Order) {
    (o.sentAt.Some? ==> o.startedAt.Some?) && (o.deliveredAt.Some? ==> o.sentAt.Some?)
  }

  /**
   * For an order taken through confirm, send and deliver in that order, the
   * first three status filters select exactly its stage, and 'delivered'
   * selects the sent orders as well as the delivered ones.
   */
  lemma StatusFilterSelectsStage(o: Order)
    requires InLifecycleOrder(o)
    ensures StatusAdmits(Some("pending"), o) <==> StageOf(o) == PendingStage
    ensures StatusAdmits(Some("in process"), o) <==> StageOf(o) == InProcessStage
    ensures StatusAdmits(Some("sent"), o) <==> StageOf(o) == SentStage
    ensures StatusAdmits(Some("delivered"), o) <==> StageOf(o) == SentStage || StageOf(o) == DeliveredStage
  {
  }

  /** The 'sent' and 'delivered' filters overlap: every sent order is also listed as delivered. */
  lemma SentOrdersAreListedAsDelivered(o: Order)
    requires StatusAdmits(Some("sent"), o)
    ensures StatusAdmits(Some("delivered"), o)
  {
  }

  /** An order delivered without being sent is selected by none of the four status filters. */
  lemma DeliveredUnsentMatchesNoStatus(o: Order)
    requires o.startedAt.Some? && o.sentAt.None? && o.deliveredAt.Some?
    ensures !StatusAdmits(Some("pending"), o) && !StatusAdmits(Some("in process"), o)
    ensures !StatusAdmits(Some("sent"), o) && !StatusAdmits(Some("delivered"), o)
  {
  }

  /** Confirming, sending and delivering a pending order, in that order, walks it through the stages. */
  lemma TransitionsWalkTheStages(o: Order, t1: int, t2: int, t3: int)
    requires StageOf(o) == PendingStage
    ensures var confirmed := o.(startedAt := Some(t1));
            var sent := confirmed.(sentAt := Some(t2));
            var delivered := sent.(deliveredAt := Some(t3));
            && StageOf(confirmed) == InProcessStage && InLifecycleOrder(confirmed)
            && StageOf(sent) == SentStage && InLifecycleOrder(sent)
            && StageOf(delivered) == DeliveredStage && InLifecycleOrder(delivered)
  {
  }

  /**
   * Confirming again is not refused: a sent order confirmed later gets a
   * start time after its send time.
   */
  lemma ReconfirmingOverwritesStart(o: Order, now: int)
    requires o.sentAt.Some? && now > o.sentAt.value
    ensures var again := o.(startedAt := Some(now));
            again.startedAt.value > again.sentAt.value && StageOf(again) == StageOf(o)
  {
  }

  // =====================================================================
  // The database

  /** Why an operation threw (the HTTP 500 branch). */
  datatype Failure =
    | OrderNotFound
    | ProductsAbsent
    | ProductNotFound
    | RestaurantNotFound
    | AddressAbsent
    | StorageFault

  /** An order with its line items, as `findByPk` / `findAll` with `include: products` return it. */
  datatype OrderWithProducts = OrderWithProducts(order: Order, products: seq<LineItem>)

  /** The restaurant-level figures `analytics` reports; `invoicedToday` is SQL's SUM, null over no rows. */
  datatype AnalyticsReport = AnalyticsReport(
    restaurantId: int,
    numYesterdayOrders: nat,
    numPendingOrders: nat,
    numDeliveredTodayOrders: nat,
    invoicedToday: Option<int>)

  /** The restaurant's orders created in `[from, to)`. */
  ghost function CreatedBetween(orders: map<int, Order>, restaurantId: int, from: int, to: int): set<int> {
    set id | id in orders && orders[id].restaurantId == restaurantId && from <= orders[id].createdAt < to
  }

  /** The restaurant's orders nobody has confirmed yet. */
  ghost function PendingOf(orders: map<int, Order>, restaurantId: int): set<int> {
    set id | id in orders && orders[id].restaurantId == restaurantId && orders[id].startedAt.None?
  }

  /** The restaurant's orders delivered at or after `since`. */
  ghost function DeliveredSince(orders: map<int, Order>, restaurantId: int, since: int): set<int> {
    set id | id in orders && orders[id].restaurantId == restaurantId
             && orders[id].deliveredAt.Some? && orders[id].deliveredAt.value >= since
  }

  /** The restaurant's orders created at or after `since`. */
  ghost function CreatedSince(orders: map<int, Order>, restaurantId: int, since: int): set<int> {
    set id | id in orders && orders[id].restaurantId == restaurantId && orders[id].createdAt >= since
  }

  /** `updatedOrderData.restaurantId || order.restaurantId`: a missing or zero id keeps the stored one. */
  function UpdatedRestaurantId(stored: Order, body: OrderBody): (r: int)
    ensures body.restaurantId.None? || body.restaurantId == Some(0) ==> r == stored.restaurantId
    ensures body.restaurantId.Some? && body.restaurantId.value != 0 ==> r == body.restaurantId.value
  {
    if body.restaurantId.Some? && body.restaurantId.value != 0 then body.restaurantId.value else stored.restaurantId
  }

  /** What `indexRestaurant` lists of one order. */
  predicate ListedForRestaurant(o: Order, restaurantId: int, status: Option<string>, from: Option<int>, to: Option<int>) {
    && o.restaurantId == restaurantId
    && StatusAdmits(status, o)
    && (from.Some? ==> o.createdAt >= from.value)
    && (to.Some? ==> o.createdAt <= to.value + DayMillis)
  }

  /** The newest-first sort key of the customer listing. */
  function CreatedAtOf(x: OrderWithProducts): int {
    x.order.createdAt
  }

  /** A second write to the same key replaces the first. */
  lemma MapUpdateTwice<K, V>(m: map<K, V>, k: K, a: V, b: V)
    ensures m[k := a][k := b] == m[k := b]
  {
  }

  /** The total price of the orders in `ids`. */
  ghost function SumPrice(orders: map<int, Order>, ids: set<int>): int
    requires ids <= orders.Keys
  {
    if ids == {} then 0
    else
      NonEmptyHasMember(ids);
      var id :| id in ids;
      orders[id].price + SumPrice(orders, ids - {id})
  }

  /** Adding an order to the set adds its price to the sum. */
  lemma SumPriceAdd(orders: map<int, Order>, ids: set<int>, id: int)
    requires ids <= orders.Keys && id in orders && id !in ids
    ensures SumPrice(orders, ids + {id}) == SumPrice(orders, ids) + orders[id].price
  {
    assert ids + {id} - {id} == ids;
    SumPriceRemove(orders, ids + {id}, id);
  }

  /** The sum does not depend on which order is taken out first. */
  lemma {:induction false} SumPriceRemove(orders: map<int, Order>, ids: set<int>, id: int)
    requires ids <= orders.Keys && id in ids
    ensures SumPrice(orders, ids) == orders[id].price + SumPrice(orders, ids - {id})
  {
    var chosen :| chosen in ids && SumPrice(orders, ids) == orders[chosen].price + SumPrice(orders, ids - {chosen});
    if chosen != id {
      SumPriceRemove(orders, ids - {chosen}, id);
      SumPriceRemove(orders, ids - {id}, chosen);
      assert ids - {chosen} - {id} == ids - {id} - {chosen};
    }
  }

  /**
   * The tables the order core reads and writes.  `orderProducts` is the
   * OrderProducts join table grouped by order: every order has an entry,
   * and no entry outlives its order (`ON DELETE CASCADE`).
   */
  class Database {
    var orders: map<int, Order>
    var orderProducts: map<int, seq<LineItem>>
    var products: map<int, Product>
    var restaurants: map<int, Restaurant>
    /** The next value of the orders' id sequence; a rollback does not give ids back. */
    var nextOrderId: int

    ghost predicate Valid()
      reads this
    {
      && (forall id :: id in orders ==> orders[id].id == id && id < nextOrderId)
      && orderProducts.Keys == orders.Keys
      && (forall id :: id in orderProducts ==> DistinctLineIds(orderProducts[id]))
      && CatalogueKeyed(products)
    }

    constructor (products: map<int, Product>, restaurants: map<int, Restaurant>)
      requires CatalogueKeyed(products)
      ensures Valid()
      ensures orders == map[] && orderProducts == map[]
      ensures this.products == products && this.restaurants == restaurants
    {
      this.orders := map[];
      this.orderProducts := map[];
      this.products := products;
      this.restaurants := restaurants;
      this.nextOrderId := 1;
    }

    /** `Order.findByPk(id, { include: products })`. */
    function Hydrated(id: int): OrderWithProducts
      reads this
      requires Valid() && id in orders
    {
      OrderWithProducts(orders[id], orderProducts[id])
    }

    /** The ids of the orders that satisfy every clause of `where`. */
    ghost function Selected(where: seq<WhereClause>): set<int>
      reads this
    {
      set id | id in orders && SatisfiesAll(orders[id], where)
    }

    // -------------------------------------------------------------------
    // Queries

    /** `Order.findAll({ where, include: products })`, in no particular order. */
    method FindAll(where: seq<WhereClause>) returns (found: seq<OrderWithProducts>)
      requires Valid()
      ensures |found| == |Selected(where)|
      ensures forall x :: x in found <==> x.order.id in Selected(where) && x == Hydrated(x.order.id)
    {
      found := [];
      ghost var ids: set<int> := {};
      var remaining := orders.Keys;
      while remaining != {}
        invariant remaining <= orders.Keys
        invariant ids == Selected(where) - remaining
        invariant |found| == |ids|
        invariant forall x :: x in found <==> x.order.id in ids && x == Hydrated(x.order.id)
        decreases remaining
      {
        NonEmptyHasMember(remaining);
        var id :| id in remaining;
        if SatisfiesAll(orders[id], where) {
          found := found + [Hydrated(id)];
          ids := ids + {id};
        }
        remaining := remaining - {id};
      }
    }

    /** `Order.count({ where })`. */
    method Count(where: seq<WhereClause>) returns (n: nat)
      requires Valid()
      ensures n == |Selected(where)|
    {
      n := 0;
      ghost var ids: set<int> := {};
      var remaining := orders.Keys;
      while remaining != {}
        invariant remaining <= orders.Keys
        invariant ids == Selected(where) - remaining
        invariant n == |ids|
        decreases remaining
      {
        NonEmptyHasMember(remaining);
        var id :| id in remaining;
        if SatisfiesAll(orders[id], where) {
          n := n + 1;
          ids := ids + {id};
        }
        remaining := remaining - {id};
      }
    }

    /** `Order.sum('price', { where })`: null when no order matches. */
    method Sum(where: seq<WhereClause>) returns (total: Option<int>)
      ensures total.None? <==> Selected(where) == {}
      ensures total.Some? ==> total.value == SumPrice(orders, Selected(where))
    {
      var table := orders;
      ghost var selected := Selected(where);
      var sum, matched := 0, false;
      ghost var ids: set<int> := {};
      var remaining := table.Keys;
      while remaining != {}
        invariant remaining <= table.Keys && ids <= table.Keys
        invariant ids == selected - remaining
        invariant sum == SumPrice(table, ids)
        invariant matched <==> ids != {}
        decreases remaining
      {
        NonEmptyHasMember(remaining);
        var id :| id in remaining;
        if SatisfiesAll(table[id], where) {
          assert id in selected && id !in ids;
          SumPriceAdd(table, ids, id);
          sum, matched := sum + table[id].price, true;
          ids := ids + {id};
        }
        remaining := remaining - {id};
      }
      assert ids == selected;
      total := if matched then Some(sum) else None;
    }

    // -------------------------------------------------------------------
    // Listings and analytics

    /** `indexRestaurant`: the restaurant's orders that pass the status and date filters. */
    method IndexRestaurant(restaurantId: int, status: Option<string>, from: Option<int>, to: Option<int>)
      returns (found: seq<OrderWithProducts>)
      requires Valid()
      ensures forall x :: x in found <==>
        x.order.id in orders && x == Hydrated(x.order.id) && ListedForRestaurant(x.order, restaurantId, status, from, to)
      ensures |found| == |set id | id in orders && ListedForRestaurant(orders[id], restaurantId, status, from, to)|
    {
      var whereClauses := GenerateFilterWhereClauses(status, from, to);
      forall o: Order
        ensures SatisfiesAll(o, whereClauses + [RestaurantIs(restaurantId)]) <==> ListedForRestaurant(o, restaurantId, status, from, to)
      {
        SatisfiesAllAppend(o, whereClauses, RestaurantIs(restaurantId));
      }
      whereClauses := whereClauses + [RestaurantIs(restaurantId)];
      assert Selected(whereClauses) == set id | id in orders && ListedForRestaurant(orders[id], restaurantId, status, from, to);
      found := FindAll(whereClauses);
    }

    /** `indexCustomer`: the user's orders, newest first. */
    method IndexCustomer(userId: int) returns (found: seq<OrderWithProducts>)
      requires Valid()
      ensures forall x :: x in found <==> x.order.id in orders && x == Hydrated(x.order.id) && x.order.userId == userId
      ensures |found| == |Selected([UserIs(userId)])|
      ensures Sorting.SortedDescending(found, CreatedAtOf)
    {
      SatisfiesAllListed(UserIs(userId), UserIs(userId), UserIs(userId));
      var unsorted := FindAll([UserIs(userId)]);
      var rows := new OrderWithProducts[|unsorted|](i requires 0 <= i < |unsorted| => unsorted[i]);
      assert rows[..] == unsorted;
      Sorting.SortDescending(rows, CreatedAtOf);
      found := rows[..];
      assert forall x :: x in found <==> x in multiset(unsorted);
    }

    /** `analytics`: today is `[todayZero, ...)`, yesterday `[yesterdayZero, todayZero)`. */
    method Analytics(restaurantId: int, yesterdayZero: int, todayZero: int) returns (report: AnalyticsReport)
      requires Valid()
      ensures report.restaurantId == restaurantId
      ensures report.numYesterdayOrders == |CreatedBetween(orders, restaurantId, yesterdayZero, todayZero)|
      ensures report.numPendingOrders == |PendingOf(orders, restaurantId)|
      ensures report.numDeliveredTodayOrders == |DeliveredSince(orders, restaurantId, todayZero)|
      ensures var today := CreatedSince(orders, restaurantId, todayZero);
        report.invoicedToday == if today == {} then None else Some(SumPrice(orders, today))
    {
      var numYesterdayOrders := Count([CreatedBefore(todayZero), CreatedFrom(yesterdayZero), RestaurantIs(restaurantId)]);
      var numPendingOrders := Count([StartedAtNull, RestaurantIs(restaurantId)]);
      var numDeliveredTodayOrders := Count([DeliveredFrom(todayZero), RestaurantIs(restaurantId)]);
      var invoicedToday := Sum([CreatedFrom(todayZero), RestaurantIs(restaurantId)]);
      report := AnalyticsReport(restaurantId, numYesterdayOrders, numPendingOrders, numDeliveredTodayOrders, invoicedToday);
      AnalyticsQueries(restaurantId, yesterdayZero, todayZero);
    }

    /** The four `where` objects of `analytics` select the four sets it reports on. */
    lemma AnalyticsQueries(restaurantId: int, yesterdayZero: int, todayZero: int)
      ensures Selected([CreatedBefore(todayZero), CreatedFrom(yesterdayZero), RestaurantIs(restaurantId)])
           == CreatedBetween(orders, restaurantId, yesterdayZero, todayZero)
      ensures Selected([StartedAtNull, RestaurantIs(restaurantId)]) == PendingOf(orders, restaurantId)
      ensures Selected([DeliveredFrom(todayZero), RestaurantIs(restaurantId)]) == DeliveredSince(orders, restaurantId, todayZero)
      ensures Selected([CreatedFrom(todayZero), RestaurantIs(restaurantId)]) == CreatedSince(orders, restaurantId, todayZero)
    {
      SatisfiesAllListed(CreatedBefore(todayZero), CreatedFrom(yesterdayZero), RestaurantIs(restaurantId));
      SatisfiesAllListed(StartedAtNull, RestaurantIs(restaurantId), StartedAtNull);
      SatisfiesAllListed(DeliveredFrom(todayZero), RestaurantIs(restaurantId), StartedAtNull);
      SatisfiesAllListed(CreatedFrom(todayZero), RestaurantIs(restaurantId), StartedAtNull);
    }

    // -------------------------------------------------------------------
    // Writes

    /** The conditions under which `create` commits. */
    ghost predicate CreateCommits(body: OrderBody, insertFault: Option<nat>)
      reads this
    {
      && body.products.Some?
      && AllFound(Resolve(products, body.products.value))
      && body.restaurantId.Some? && body.restaurantId.value in restaurants
      && body.address.Some?
      && (insertFault.None? || insertFault.value >= |body.products.value|)
    }

    /** The conditions under which `update` commits. */
    ghost predicate UpdateCommits(orderId: int, body: OrderBody, insertFault: Option<nat>)
      reads this
    {
      && orderId in orders
      && body.products.Some?
      && AllFound(Resolve(products, body.products.value))
      && UpdatedRestaurantId(orders[orderId], body) in restaurants
      && (insertFault.None? || insertFault.value >= |body.products.value|)
    }

    /** `order.addProduct(product, { through: { quantity, unityPrice: product.price } })`. */
    method AddProduct(orderId: int, product: Product, quantity: int)
      requires Valid() && orderId in orders
      modifies this`orderProducts
      ensures Valid()
      ensures orderProducts == old(orderProducts)[orderId := AddLine(old(orderProducts[orderId]), LineFor(product, quantity))]
    {
      AddLineInPlace(orderProducts[orderId], LineFor(product, quantity));
      orderProducts := orderProducts[orderId := AddLine(orderProducts[orderId], LineFor(product, quantity))];
    }

    /** Stores `order` under its id with its line items emptied, the first write of `create` and `update`. */
    method PutOrder(order: Order)
      requires Valid() && order.id < nextOrderId
      modifies this`orders, this`orderProducts
      ensures Valid()
      ensures orders == old(orders)[order.id := order]
      ensures orderProducts == old(orderProducts)[order.id := []]
    {
      orders := orders[order.id := order];
      orderProducts := orderProducts[order.id := []];
    }

    /**
     * The `addProduct` loop of `create` and `update`, on an order whose lines
     * were just emptied; it stops at the insert `insertFault` names.
     */
    method AddLines(orderId: int, productsArray: seq<ProductQuantity>, insertFault: Option<nat>) returns (added: bool)
      requires Valid() && orderId in orders && orderProducts[orderId] == []
      requires AllFound(productsArray)
      modifies this`orderProducts
      ensures Valid()
      ensures added <==> insertFault.None? || insertFault.value >= |productsArray|
      ensures added ==> orderProducts == old(orderProducts)[orderId := LinesFor(productsArray)]
    {
      ghost var savedLines := orderProducts;
      ghost var lines: seq<LineItem> := [];
      var i := 0;
      while i < |productsArray|
        invariant 0 <= i <= |productsArray|
        invariant Valid() && orderId in orders
        invariant AllFound(productsArray[..i]) && lines == LinesFor(productsArray[..i])
        invariant orderProducts == savedLines[orderId := lines]
        invariant insertFault.None? || insertFault.value >= i
      {
        if insertFault.Some? && insertFault.value == i {
          return false;
        }
        LinesForExtend(productsArray, i);
        AddProduct(orderId, productsArray[i].product.value, productsArray[i].quantity);
        ghost var next := LinesFor(productsArray[..i + 1]);
        MapUpdateTwice(savedLines, orderId, lines, next);
        lines := next;
        i := i + 1;
      }
      WholePrefix(productsArray);
      added := true;
    }

    /**
     * The transaction of `create` and `update`: save the order, empty its
     * line items and add one per entry; when an insert is rejected, roll
     * back both tables to their state before the transaction.
     */
    method SaveWithLines(order: Order, productsArray: seq<ProductQuantity>, insertFault: Option<nat>)
      returns (r: Result<OrderWithProducts, Failure>)
      requires Valid() && order.id < nextOrderId && AllFound(productsArray)
      modifies this`orders, this`orderProducts
      ensures Valid()
      ensures r.Success? <==> insertFault.None? || insertFault.value >= |productsArray|
      ensures r.Failure? ==> r.error == StorageFault && orders == old(orders) && orderProducts == old(orderProducts)
      ensures r.Success? ==>
        && r.value == OrderWithProducts(order, LinesFor(productsArray))
        && orders == old(orders)[order.id := order]
        && orderProducts == old(orderProducts)[order.id := LinesFor(productsArray)]
    {
      var savedOrders, savedLines := orders, orderProducts;
      PutOrder(order);
      var added := AddLines(order.id, productsArray, insertFault);
      if !added {
        orders, orderProducts := savedOrders, savedLines;
        return Failure(StorageFault);
      }
      r := Success(Hydrated(order.id));
    }

    /**
     * `create`, inside one transaction.  `insertFault`, when present, is the
     * index of the line-item insert that the storage rejects.
     */
    method Create(userId: int, body: OrderBody, now: int, insertFault: Option<nat>)
      returns (r: Result<OrderWithProducts, Failure>)
      requires Valid()
      modifies this`orders, this`orderProducts, this`nextOrderId
      ensures Valid()
      ensures r.Success? <==> old(CreateCommits(body, insertFault))
      ensures r.Failure? ==> orders == old(orders) && orderProducts == old(orderProducts)
      ensures r.Success? ==>
        var id := old(nextOrderId);
        var productsArray := Resolve(products, body.products.value);
        var pricing := PriceAndShippingCosts(Subtotal(productsArray), restaurants[body.restaurantId.value].shippingCosts);
        && id !in old(orders)
        && r.value.order == Order(id, userId, body.restaurantId.value, body.address.value,
                                  pricing.0, pricing.1, now, None, None, None)
        && r.value.products == LinesFor(productsArray)
        && orders == old(orders)[id := r.value.order]
        && orderProducts == old(orderProducts)[id := r.value.products]
    {
      var savedOrders, savedLines := orders, orderProducts;
      if body.products.None? {
        orders, orderProducts := savedOrders, savedLines;
        return Failure(ProductsAbsent);
      }
      var prodQuant := ArrayProductsQuantity(products, body.products.value);
      var price := TotalPrice(prodQuant);
      if price.None? {
        orders, orderProducts := savedOrders, savedLines;
        return Failure(ProductNotFound);
      }
      if body.restaurantId.None? || body.restaurantId.value !in restaurants {
        orders, orderProducts := savedOrders, savedLines;
        return Failure(RestaurantNotFound);
      }
      var pricing := PriceAndShippingCosts(price.value, restaurants[body.restaurantId.value].shippingCosts);
      if body.address.None? {
        orders, orderProducts := savedOrders, savedLines;
        return Failure(AddressAbsent);
      }
      var id := nextOrderId;
      nextOrderId := nextOrderId + 1;
      var order := Order(id, userId, body.restaurantId.value, body.address.value, pricing.0, pricing.1, now, None, None, None);
      r := SaveWithLines(order, prodQuant, insertFault);
    }

    /**
     * `update`, inside one transaction.  The body's address is not applied;
     * a missing products list throws before anything is written.
     */
    method Update(orderId: int, body: OrderBody, insertFault: Option<nat>)
      returns (r: Result<OrderWithProducts, Failure>)
      requires Valid()
      modifies this`orders, this`orderProducts
      ensures Valid()
      ensures r.Success? <==> old(UpdateCommits(orderId, body, insertFault))
      ensures r.Failure? ==> orders == old(orders) && orderProducts == old(orderProducts)
      ensures r.Success? ==>
        var before := old(orders[orderId]);
        var restaurantId := UpdatedRestaurantId(before, body);
        var productsArray := Resolve(products, body.products.value);
        var pricing := PriceAndShippingCosts(Subtotal(productsArray), restaurants[restaurantId].shippingCosts);
        && r.value.order == before.(restaurantId := restaurantId, price := pricing.0, shippingCosts := pricing.1)
        && r.value.products == LinesFor(productsArray)
        && orders == old(orders)[orderId := r.value.order]
        && orderProducts == old(orderProducts)[orderId := r.value.products]
    {
      var savedOrders, savedLines := orders, orderProducts;
      if orderId !in orders {
        orders, orderProducts := savedOrders, savedLines;
        return Failure(OrderNotFound);
      }
      var order := orders[orderId];
      order := order.(restaurantId := UpdatedRestaurantId(order, body));
      if body.products.None? {
        orders, orderProducts := savedOrders, savedLines;
        return Failure(ProductsAbsent);
      }
      var prodQuant := ArrayProductsQuantity(products, body.products.value);
      var price := TotalPrice(prodQuant);
      if price.None? {
        orders, orderProducts := savedOrders, savedLines;
        return Failure(ProductNotFound);
      }
      if order.restaurantId !in restaurants {
        orders, orderProducts := savedOrders, savedLines;
        return Failure(RestaurantNotFound);
      }
      var pricing := PriceAndShippingCosts(price.value, restaurants[order.restaurantId].shippingCosts);
      order := order.(price := pricing.0, shippingCosts := pricing.1);
      r := SaveWithLines(order, prodQuant, insertFault);
    }

    /** `destroy`: the order's line items go with it (`ON DELETE CASCADE`). */
    method Destroy(orderId: int) returns (destroyed: bool)
      requires Valid()
      modifies this`orders, this`orderProducts
      ensures Valid()
      ensures destroyed <==> orderId in old(orders)
      ensures orders == old(orders) - {orderId}
      ensures orderProducts == old(orderProducts) - {orderId}
    {
      var result := if orderId in orders then 1 else 0;
      orders := orders - {orderId};
      orderProducts := orderProducts - {orderId};
      destroyed := result == 1;
    }

    /** `confirm`: sets `startedAt` to now, whatever the order's stage. */
    method Confirm(orderId: int, now: int) returns (r: Result<Order, Failure>)
      requires Valid()
      modifies this`orders
      ensures Valid()
      ensures r.Success? <==> orderId in old(orders)
      ensures r.Success? ==> r.value == old(orders[orderId]).(startedAt := Some(now))
                             && orders == old(orders)[orderId := r.value]
      ensures r.Failure? ==> orders == old(orders)
    {
      if orderId !in orders {
        return Failure(OrderNotFound);
      }
      var order := orders[orderId].(startedAt := Some(now));
      orders := orders[orderId := order];
      r := Success(order);
    }

    /** `send`: sets `sentAt` to now, whatever the order's stage. */
    method Send(orderId: int, now: int) returns (r: Result<Order, Failure>)
      requires Valid()
      modifies this`orders
      ensures Valid()
      ensures r.Success? <==> orderId in old(orders)
      ensures r.Success? ==> r.value == old(orders[orderId]).(sentAt := Some(now))
                             && orders == old(orders)[orderId := r.value]
      ensures r.Failure? ==> orders == old(orders)
    {
      if orderId !in orders {
        return Failure(OrderNotFound);
      }
      var order := orders[orderId].(sentAt := Some(now));
      orders := orders[orderId := order];
      r := Success(order);
    }

    /** `deliver`: sets `deliveredAt` to now, whatever the order's stage. */
    method Deliver(orderId: int, now: int) returns (r: Result<Order, Failure>)
      requires Valid()
      modifies this`orders
      ensures Valid()
      ensures r.Success? <==> orderId in old(orders)
      ensures r.Success? ==> r.value == old(orders[orderId]).(deliveredAt := Some(now))
                             && orders == old(orders)[orderId := r.value]
      ensures r.Failure? ==> orders == old(orders)
    {
      if orderId !in orders {
        return Failure(OrderNotFound);
      }
      var order := orders[orderId].(deliveredAt := Some(now));
      orders := orders[orderId := order];
      r := Success(order);
    }
  }
}
