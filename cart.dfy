/**
 * The customer's cart as the screens keep it: an object from product id to
 * quantity.  `Object.entries` lists integer-like keys in ascending numeric
 * order, which is the order `Entries` gives.
 */
module Cart {
  import opened Wrappers
  import opened Domain

  type CartMap = map<int, int>

  /** The least element of a finite non-empty set of ids. */
  ghost function Least(keys: set<int>): (k: int)
    requires keys != {}
    ensures k in keys && forall j :: j in keys ==> k <= j
  {
    NonEmptyHasMember(keys);
    var x :| x in keys;
    if keys - {x} == {} then
      assert forall j :: j in keys ==> j in keys - {x} || j == x;
      x
    else
      var m := Least(keys - {x});
      assert forall j :: j in keys && j != x ==> j in keys - {x};
      if x < m then x else m
  }

  /** The smallest product id in a non-empty cart. */
  function LeastKey(cart: CartMap): (k: int)
    requires cart != map[]
    ensures k in cart && forall j :: j in cart ==> k <= j
  {
    ghost var least := Least(cart.Keys);
    assert least in cart && forall j :: j in cart ==> least <= j;
    var k :| k in cart && forall j :: j in cart ==> k <= j;
    k
  }

  /** Product ids strictly ascending, hence distinct. */
  predicate IdsAscending(entries: seq<(int, int)>) {
    forall i, j :: 0 <= i < j < |entries| ==> entries[i].0 < entries[j].0
  }

  /** Prepending an id below every listed one keeps ids ascending. */
  lemma PrependAscending(e: (int, int), entries: seq<(int, int)>)
    requires IdsAscending(entries)
    requires forall f :: f in entries ==> e.0 < f.0
    ensures IdsAscending([e] + entries)
  {
    var r := [e] + entries;
    forall i, j | 0 <= i < j < |r| ensures r[i].0 < r[j].0 {
      assert r[j] == entries[j - 1];
      if i > 0 {
        assert r[i] == entries[i - 1];
      }
    }
  }

  /** `Object.entries(cart)`: one `[id, quantity]` pair per key, ids ascending. */
  function Entries(cart: CartMap): (r: seq<(int, int)>)
    decreases cart.Keys
    ensures |r| == |cart|
    ensures forall e :: e in r <==> e.0 in cart && e.1 == cart[e.0]
    ensures IdsAscending(r)
  {
    if cart == map[] then []
    else
      var k := LeastKey(cart);
      var rest := cart - {k};
      assert rest.Keys == cart.Keys - {k};
      var tail := Entries(rest);
      PrependAscending((k, cart[k]), tail);
      [(k, cart[k])] + tail
  }

  /** `.map(([productId, quantity]) => ({ productId, quantity }))`. */
  function EntryLines(entries: seq<(int, int)>): (r: seq<ProductLine>)
    ensures |r| == |entries|
    ensures forall i :: 0 <= i < |r| ==> r[i] == ProductLine(entries[i].0, entries[i].1)
  {
    seq(|entries|, i requires 0 <= i < |entries| => ProductLine(entries[i].0, entries[i].1))
  }

  /** The ids of an ascending entry list, as request lines: membership and order carry over. */
  lemma EntryLinesOf(entries: seq<(int, int)>)
    requires IdsAscending(entries)
    ensures var r := EntryLines(entries);
      && (forall l :: l in r <==> (l.productId, l.quantity) in entries)
      && (forall i, j :: 0 <= i < j < |r| ==> r[i].productId < r[j].productId)
  {
    var r := EntryLines(entries);
    forall l ensures l in r <==> (l.productId, l.quantity) in entries {
      if (l.productId, l.quantity) in entries {
        var i :| 0 <= i < |entries| && entries[i] == (l.productId, l.quantity);
        assert r[i] == l;
      }
    }
  }

  /** `.filter(([_, qty]) => qty > 0)`, keeping the order. */
  function PositiveEntries(entries: seq<(int, int)>): (r: seq<(int, int)>)
    ensures forall e :: e in r <==> e in entries && e.1 > 0
    ensures (forall e :: e in entries ==> e.1 > 0) ==> r == entries
  {
    if entries == [] then []
    else (if entries[0].1 > 0 then [entries[0]] else []) + PositiveEntries(entries[1..])
  }

  /** Filtering keeps ascending ids ascending. */
  lemma {:induction false} PositiveEntriesAscending(entries: seq<(int, int)>)
    requires IdsAscending(entries)
    ensures IdsAscending(PositiveEntries(entries))
  {
    if entries != [] {
      var rest := entries[1..];
      assert IdsAscending(rest) by {
        forall i, j | 0 <= i < j < |rest| ensures rest[i].0 < rest[j].0 {
          assert rest[i] == entries[i + 1] && rest[j] == entries[j + 1];
        }
      }
      PositiveEntriesAscending(rest);
      var tail := PositiveEntries(rest);
      if entries[0].1 > 0 {
        forall f | f in tail ensures entries[0].0 < f.0 {
          var j :| 0 <= j < |rest| && rest[j] == f;
          assert entries[j + 1] == f;
        }
        PrependAscending(entries[0], tail);
      }
    }
  }

  /** The `{ productId, quantity }` list `handlePlaceOrder` sends: entries with a positive quantity. */
  function SelectedProducts(cart: CartMap): (r: seq<ProductLine>)
    ensures forall l :: l in r <==> l.productId in cart && cart[l.productId] > 0 && l.quantity == cart[l.productId]
    ensures forall i, j :: 0 <= i < j < |r| ==> r[i].productId < r[j].productId
  {
    var entries := Entries(cart);
    PositiveEntriesAscending(entries);
    EntryLinesOf(PositiveEntries(entries));
    EntryLines(PositiveEntries(entries))
  }

  /** The list `confirmOrder` on the confirmation screen sends: every entry, unfiltered. */
  function CartPayload(cart: CartMap): (r: seq<ProductLine>)
    ensures |r| == |cart|
    ensures forall l :: l in r <==> l.productId in cart && l.quantity == cart[l.productId]
    ensures forall i, j :: 0 <= i < j < |r| ==> r[i].productId < r[j].productId
  {
    EntryLinesOf(Entries(cart));
    EntryLines(Entries(cart))
  }

  /** A cart whose quantities are all positive sends the same list from both screens. */
  lemma PositiveCartPayloads(cart: CartMap)
    requires forall k :: k in cart ==> cart[k] > 0
    ensures SelectedProducts(cart) == CartPayload(cart)
  {
  }
}
