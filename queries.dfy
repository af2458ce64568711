/** GET /api/orders and the per-client listing: the join of orders with
    their client, their items and each item's product, filtered by the
    caller's account and sorted by order id, most recent first. */
module Queries {
  import opened Schema

  /** One row of the listing: `order_id`, `status`, `payment_status`,
      `client_id`, `client_name`, `product_id`, `product_name`, `price`,
      `quantity` and `total = quantity * price`. */
  datatype OrderRow = OrderRow(
    orderId: int, status: string, paymentStatus: string,
    clientId: int, clientName: string,
    productId: int, productName: string, price: int,
    quantity: int, total: int)

  /** The WHERE clause and the inner join with `clients`: order `oid` is the
      caller's, its client row exists and, in the per-client listing, it is
      that client's. */
  predicate Listed(db: Db, uid: int, client: Option<int>, oid: int) {
    && oid in db.orders
    && db.orders[oid].userId == uid
    && db.orders[oid].clientId in db.clients
    && (client.Some? ==> db.orders[oid].clientId == client.value)
  }

  /** The inner joins with `order_items` and `products`: item `k` belongs to
      order `oid` and its product row exists. */
  predicate Joined(db: Db, oid: int, k: int) {
    k in db.items && db.items[k].orderId == oid && db.items[k].productId in db.products
  }

  /** The ids in [lo, hi) of the items joined to order `oid`, ascending. */
  function ItemsOf(db: Db, oid: int, lo: int, hi: int): (ks: seq<int>)
    decreases hi - lo
    ensures forall i :: 0 <= i < |ks| ==> lo <= ks[i] < hi && Joined(db, oid, ks[i])
    ensures forall i, j :: 0 <= i < j < |ks| ==> ks[i] < ks[j]
  {
    if lo >= hi then []
    else (if Joined(db, oid, lo) then [lo] else []) + ItemsOf(db, oid, lo + 1, hi)
  }

  lemma {:induction false} ItemsOfComplete(db: Db, oid: int, lo: int, hi: int, k: int)
    requires lo <= k < hi && Joined(db, oid, k)
    ensures k in ItemsOf(db, oid, lo, hi)
    decreases hi - lo
  {
    if k != lo {
      ItemsOfComplete(db, oid, lo + 1, hi, k);
    }
  }

  /** The (order id, item id) pairs of the listing among orders with ids in
      [1, hi): order ids descending and, within one order, item ids
      ascending, so no pair occurs twice. */
  function ListingKeys(db: Db, uid: int, client: Option<int>, hi: int): (ks: seq<(int, int)>)
    decreases hi
    ensures forall i :: 0 <= i < |ks| ==>
      1 <= ks[i].0 < hi && Listed(db, uid, client, ks[i].0) && Joined(db, ks[i].0, ks[i].1)
    ensures forall i, j :: 0 <= i < j < |ks| ==>
      ks[i].0 > ks[j].0 || (ks[i].0 == ks[j].0 && ks[i].1 < ks[j].1)
  {
    if hi <= 1 then []
    else
      var oid := hi - 1;
      var here := if Listed(db, uid, client, oid) then
                    var items := ItemsOf(db, oid, 1, db.nextItemId);
                    seq(|items|, i requires 0 <= i < |items| => (oid, items[i]))
                  else [];
      here + ListingKeys(db, uid, client, hi - 1)
  }

  lemma {:induction false} ListingKeysComplete(db: Db, uid: int, client: Option<int>, hi: int, oid: int, k: int)
    requires 1 <= oid < hi && 1 <= k < db.nextItemId
    requires Listed(db, uid, client, oid) && Joined(db, oid, k)
    ensures (oid, k) in ListingKeys(db, uid, client, hi)
    decreases hi
  {
    if oid == hi - 1 {
      ItemsOfComplete(db, oid, 1, db.nextItemId, k);
      var items := ItemsOf(db, oid, 1, db.nextItemId);
      var i :| 0 <= i < |items| && items[i] == k;
      var ks := ListingKeys(db, uid, client, hi);
      assert ks[i] == (oid, k);
    } else {
      ListingKeysComplete(db, uid, client, hi - 1, oid, k);
    }
  }

  /** The row the join produces for order `oid` and its item `k`. */
  function JoinRow(db: Db, oid: int, k: int): OrderRow
    requires oid in db.orders && db.orders[oid].clientId in db.clients && Joined(db, oid, k)
  {
    var o := db.orders[oid];
    var c := db.clients[o.clientId];
    var it := db.items[k];
    var p := db.products[it.productId];
    OrderRow(oid, o.status, o.paymentStatus, o.clientId, c.name,
             it.productId, p.name, p.price, it.quantity, it.quantity * p.price)
  }

  /** GET /api/orders (`client` is None) and the query of the second handler
      registered for GET /api/orders/client/:client_id (`client` is that id),
      which the earlier handler for the same path shadows: only rows of the
      caller's orders, each a row of the join, most recent order first. */
  function OrderListing(db: Db, uid: int, client: Option<int>): (rows: seq<OrderRow>)
    ensures forall i :: 0 <= i < |rows| ==>
      rows[i].orderId in db.orders && db.orders[rows[i].orderId].userId == uid
    ensures client.Some? ==> forall i :: 0 <= i < |rows| ==> rows[i].clientId == client.value
    ensures forall i, j :: 0 <= i < j < |rows| ==> rows[i].orderId >= rows[j].orderId
  {
    var ks := ListingKeys(db, uid, client, db.nextOrderId);
    seq(|ks|, i requires 0 <= i < |ks| => JoinRow(db, ks[i].0, ks[i].1))
  }

  /** Every row of the listing is the join row of a listed order and one of its items. */
  lemma OrderListingSound(db: Db, uid: int, client: Option<int>, i: int)
    requires 0 <= i < |OrderListing(db, uid, client)|
    ensures var row := OrderListing(db, uid, client)[i];
      exists k :: Listed(db, uid, client, row.orderId) && Joined(db, row.orderId, k)
                  && row == JoinRow(db, row.orderId, k)
  {
    var ks := ListingKeys(db, uid, client, db.nextOrderId);
    var row := OrderListing(db, uid, client)[i];
    assert row == JoinRow(db, ks[i].0, ks[i].1);
  }

  /** Every row of the join for an order of the caller appears in the listing. */
  lemma OrderListingComplete(db: Db, uid: int, client: Option<int>, oid: int, k: int)
    requires WellFormed(db)
    requires Listed(db, uid, client, oid) && Joined(db, oid, k)
    ensures JoinRow(db, oid, k) in OrderListing(db, uid, client)
  {
    ListingKeysComplete(db, uid, client, db.nextOrderId, oid, k);
    var ks := ListingKeys(db, uid, client, db.nextOrderId);
    var i :| 0 <= i < |ks| && ks[i] == (oid, k);
    assert OrderListing(db, uid, client)[i] == JoinRow(db, oid, k);
  }

  /** The (order, item) pairs the joins of the listing relate. */
  function JoinPairs(db: Db, uid: int, client: Option<int>): set<(int, int)> {
    set oid, k | oid in db.orders && k in db.items && Listed(db, uid, client, oid) && Joined(db, oid, k) :: (oid, k)
  }

  /** A sequence without repeated elements has as many elements as its set. */
  lemma {:induction false} DistinctCount<T>(s: seq<T>)
    requires forall i, j :: 0 <= i < j < |s| ==> s[i] != s[j]
    ensures |(set x | x in s)| == |s|
    decreases |s|
  {
    if s != [] {
      var init := s[..|s| - 1];
      DistinctCount(init);
      assert (set x | x in s) == (set x | x in init) + {s[|s| - 1]};
    }
  }

  /** The listing has exactly one row per joined (order, item) pair: its
      rows are the join rows of a sequence of pairs that holds every such
      pair once. */
  lemma OrderListingOnePerPair(db: Db, uid: int, client: Option<int>)
    requires WellFormed(db)
    ensures var rows, ks := OrderListing(db, uid, client), ListingKeys(db, uid, client, db.nextOrderId);
      && |rows| == |ks| == |JoinPairs(db, uid, client)|
      && (forall i, j :: 0 <= i < j < |ks| ==> ks[i] != ks[j])
      && (set x | x in ks) == JoinPairs(db, uid, client)
      && (forall i :: 0 <= i < |rows| ==> rows[i] == JoinRow(db, ks[i].0, ks[i].1))
  {
    var ks := ListingKeys(db, uid, client, db.nextOrderId);
    var pairs := JoinPairs(db, uid, client);
    forall p | p in pairs ensures p in ks {
      ListingKeysComplete(db, uid, client, db.nextOrderId, p.0, p.1);
    }
    assert (set x | x in ks) == pairs;
    DistinctCount(ks);
  }
}
