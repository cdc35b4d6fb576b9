/**
 * "My Orders": fetches all orders, sorts them newest first in place, keeps
 * the logged-in customer's and numbers them from the top.
 */
module OrdersScreen {
  import opened Wrappers
  import opened Domain
  import Sorting

  /** The sort key of `new Date(b.createdAt) - new Date(a.createdAt)`. */
  function CreatedAt(o: Order): int {
    o.createdAt
  }

  /** `fetchedOrders.filter(order => order.userId === userId)`. */
  function OwnOrders(fetched: seq<Order>, userId: int): (r: seq<Order>)
    ensures forall o :: o in r <==> o in fetched && o.userId == userId
    ensures |r| <= |fetched|
  {
    if fetched == [] then []
    else (if fetched[0].userId == userId then [fetched[0]] else []) + OwnOrders(fetched[1..], userId)
  }

  /** Filtering a newest-first list leaves it newest first. */
  lemma {:induction false} OwnOrdersKeepOrder(fetched: seq<Order>, userId: int)
    requires Sorting.SortedDescending(fetched, CreatedAt)
    ensures Sorting.SortedDescending(OwnOrders(fetched, userId), CreatedAt)
  {
    if fetched != [] {
      var rest := fetched[1..];
      assert Sorting.SortedDescending(rest, CreatedAt) by {
        forall i, j | 0 <= i < j < |rest| ensures CreatedAt(rest[i]) >= CreatedAt(rest[j]) {
          assert rest[i] == fetched[i + 1] && rest[j] == fetched[j + 1];
        }
      }
      OwnOrdersKeepOrder(rest, userId);
      if fetched[0].userId == userId {
        var tail := OwnOrders(rest, userId);
        forall x | x in rest ensures CreatedAt(fetched[0]) >= CreatedAt(x) {
          var k :| 0 <= k < |rest| && rest[k] == x;
          assert fetched[k + 1] == x;
        }
        PrependNewest(fetched[0], tail);
      }
    }
  }

  /** An order no older than any of a newest-first list can go in front of it. */
  lemma PrependNewest(o: Order, tail: seq<Order>)
    requires Sorting.SortedDescending(tail, CreatedAt)
    requires forall x :: x in tail ==> CreatedAt(o) >= CreatedAt(x)
    ensures Sorting.SortedDescending([o] + tail, CreatedAt)
  {
    var r := [o] + tail;
    forall i, j | 0 <= i < j < |r| ensures CreatedAt(r[i]) >= CreatedAt(r[j]) {
      assert r[j] == tail[j - 1];
      if i > 0 {
        assert r[i] == tail[i - 1];
      }
    }
  }

  /** `orders.length - index`: the number shown on the card at `index`. */
  function OrderNumber(count: nat, index: nat): (r: int)
    requires index < count
    ensures 1 <= r <= count
  {
    count - index
  }

  /** The numbers on the cards, top to bottom. */
  function NumbersShown(count: nat): (r: seq<int>)
    ensures |r| == count
    ensures forall i :: 0 <= i < count ==> r[i] == OrderNumber(count, i)
  {
    seq(count, i requires 0 <= i < count => OrderNumber(count, i))
  }

  /** The cards are numbered from the list's length down to 1, each number once. */
  lemma OrderNumbersDistinct(count: nat)
    ensures forall i, j :: 0 <= i < j < count ==> NumbersShown(count)[i] > NumbersShown(count)[j]
    ensures forall n :: 1 <= n <= count ==> n in NumbersShown(count)
  {
    var shown := NumbersShown(count);
    forall n | 1 <= n <= count ensures n in shown {
      assert shown[count - n] == n;
    }
  }

  class OrdersScreen {
    var orders: seq<Order>
    var loggedInUser: Option<User>

    constructor (loggedInUser: Option<User>)
      ensures this.loggedInUser == loggedInUser && orders == []
    {
      this.loggedInUser := loggedInUser;
      orders := [];
    }

    /**
     * The effect of `fetchOrders` with the orders `getAll` returned in
     * `fetched`; `fetchOk` is false when the request failed.
     */
    method FetchOrders(fetched: array<Order>, fetchOk: bool)
      modifies this`orders, fetched
      ensures loggedInUser.None? ==> orders == [] && fetched[..] == old(fetched[..])
      ensures loggedInUser.Some? && !fetchOk ==> orders == old(orders) && fetched[..] == old(fetched[..])
      ensures loggedInUser.Some? && fetchOk ==>
        && multiset(fetched[..]) == multiset(old(fetched[..]))
        && Sorting.SortedDescending(fetched[..], CreatedAt)
        && orders == OwnOrders(fetched[..], loggedInUser.value.id)
      ensures loggedInUser.Some? && fetchOk ==>
        && (forall o :: o in orders <==> o in old(fetched[..]) && o.userId == loggedInUser.value.id)
        && Sorting.SortedDescending(orders, CreatedAt)
    {
      if loggedInUser.None? {
        orders := [];
        return;
      }
      if !fetchOk {
        return;
      }
      Sorting.SortDescending(fetched, CreatedAt);
      orders := OwnOrders(fetched[..], loggedInUser.value.id);
      OwnOrdersKeepOrder(fetched[..], loggedInUser.value.id);
      assert forall o :: o in fetched[..] <==> o in multiset(fetched[..]);
      assert forall o :: o in old(fetched[..]) <==> o in multiset(old(fetched[..]));
    }
  }
}
