/** Order placement: POST /api/orders/single, which checks ownership and
    stock before writing, and POST /api/orders/multi, which writes the order,
    then one item row and one stock decrement per entry with no stock check.
    Each handler is read as one sequential step on the store. */
module Ordering {
  import opened Schema

  /** The body of POST /api/orders/single. */
  datatype SingleOrderRequest = SingleOrderRequest(
    clientId: Option<int>, productId: Option<int>, quantity: Option<int>, status: string)

  /** One entry of `items` in the body of POST /api/orders/multi. */
  datatype LineItem = LineItem(productId: int, quantity: int)

  /** The body of POST /api/orders/multi. */
  datatype MultiOrderRequest = MultiOrderRequest(
    clientId: Option<int>, items: Option<seq<LineItem>>, status: string)

  /** The success reply of a single-item order: `orderId` and `estoque_restante`. */
  datatype Placement = Placement(orderId: int, remainingStock: int)

  // ----- the SQL statements the handlers issue -----

  /** The order insert: a row of the caller under the next order id, status
      defaulting to Pending, payment status Pending. */
  function InsertOrder(db: Db, uid: int, clientId: int, status: string): Db {
    var row := Order(uid, clientId, OrDefault(status, Pending), Pending);
    db.(orders := db.orders[db.nextOrderId := row], nextOrderId := db.nextOrderId + 1)
  }

  /** The item insert: a row under the next item id. */
  function InsertItem(db: Db, orderId: int, productId: int, quantity: int): Db {
    var row := OrderItem(orderId, productId, quantity);
    db.(items := db.items[db.nextItemId := row], nextItemId := db.nextItemId + 1)
  }

  /** The stock update: lowers the stock of the product with that id by the
      quantity, only when the caller owns it. */
  function DecrementStock(db: Db, uid: int, productId: int, quantity: int): Db {
    if OwnsProduct(db, uid, productId) then
      var p := db.products[productId];
      db.(products := db.products[productId := p.(stock := p.stock - quantity)])
    else db
  }

  // ----- single-item order -----

  /** True when one of the three required fields of a single-item order is falsy. */
  predicate MissingSingleField(req: SingleOrderRequest) {
    Falsy(req.clientId) || Falsy(req.productId) || Falsy(req.quantity)
  }

  /** The effect of an accepted single-item order `req` of `uid` that turned
      `db` into `db'` with reply `p`: one fresh order row of the caller, one
      fresh item row pointing at it, the product's stock lowered by the
      quantity, and nothing else changed. */
  predicate SinglePlaced(db: Db, db': Db, uid: int, req: SingleOrderRequest, p: Placement)
    requires !MissingSingleField(req) && OwnsProduct(db, uid, req.productId.value)
  {
    var pid, q := req.productId.value, req.quantity.value;
    && p.orderId == db.nextOrderId && p.orderId !in db.orders
    && db'.orders == db.orders[p.orderId := Order(uid, req.clientId.value, OrDefault(req.status, Pending), Pending)]
    && db.nextItemId !in db.items
    && db'.items == db.items[db.nextItemId := OrderItem(p.orderId, pid, q)]
    && db'.products.Keys == db.products.Keys
    && (forall id :: id in db.products && id != pid ==> db'.products[id] == db.products[id])
    && db'.products[pid] == db.products[pid].(stock := db.products[pid].stock - q)
    && p.remainingStock == db'.products[pid].stock
    && db'.clients == db.clients
    && db'.nextOrderId == db.nextOrderId + 1 && db'.nextItemId == db.nextItemId + 1
    && db'.nextClientId == db.nextClientId && db'.nextProductId == db.nextProductId
  }

  /** POST /api/orders/single, as one step: reject a falsy field, then a
      product the caller does not own, then a stock below the quantity;
      otherwise insert the order and its item and decrement the stock. */
  function PlaceSingle(db: Db, uid: int, req: SingleOrderRequest): (res: (Db, Result<Placement>))
    requires WellFormed(db)
    ensures WellFormed(res.0)
    ensures res.1.Err? ==> res.0 == db
    ensures res.1 == Err(MissingFields) <==> MissingSingleField(req)
    ensures res.1 == Err(ProductNotFound) <==>
      !MissingSingleField(req) && !OwnsProduct(db, uid, req.productId.value)
    ensures res.1 == Err(InsufficientStock) <==>
      !MissingSingleField(req) && OwnsProduct(db, uid, req.productId.value)
      && db.products[req.productId.value].stock < req.quantity.value
    ensures res.1.Ok? <==>
      !MissingSingleField(req) && OwnsProduct(db, uid, req.productId.value)
      && db.products[req.productId.value].stock >= req.quantity.value
    ensures res.1.Ok? ==>
      !MissingSingleField(req) && OwnsProduct(db, uid, req.productId.value)
      && SinglePlaced(db, res.0, uid, req, res.1.value)
    ensures res.1.Ok? && db.products[req.productId.value].stock >= 0 ==> res.1.value.remainingStock >= 0
    ensures StockNonNegative(db) ==> StockNonNegative(res.0)
    ensures OthersUntouched(db, res.0, uid)
  {
    if MissingSingleField(req) then (db, Err(MissingFields))
    else
      var pid, q := req.productId.value, req.quantity.value;
      if !OwnsProduct(db, uid, pid) then (db, Err(ProductNotFound))
      else if db.products[pid].stock < q then (db, Err(InsufficientStock))
      else
        var orderId := db.nextOrderId;
        var withOrder := InsertOrder(db, uid, req.clientId.value, req.status);
        var withItem := InsertItem(withOrder, orderId, pid, q);
        (DecrementStock(withItem, uid, pid, q), Ok(Placement(orderId, db.products[pid].stock - q)))
  }

  /** One POST /api/orders/single request of the account `uid`. */
  datatype SingleCall = SingleCall(uid: int, req: SingleOrderRequest)

  /** Single-item orders of any accounts run one after another, as a
      sequential reading of concurrent requests. */
  function RunSingles(db: Db, calls: seq<SingleCall>): Db
    requires WellFormed(db)
    decreases |calls|
  {
    if calls == [] then db
    else RunSingles(PlaceSingle(db, calls[0].uid, calls[0].req).0, calls[1..])
  }

  /** The quantity of product `pid` reserved by the accepted orders of such a run. */
  function ReservedFor(db: Db, calls: seq<SingleCall>, pid: int): int
    requires WellFormed(db)
    decreases |calls|
  {
    if calls == [] then 0
    else
      var c := calls[0];
      var step := PlaceSingle(db, c.uid, c.req);
      var here := if step.1.Ok? && c.req.productId == Some(pid) then c.req.quantity.value else 0;
      here + ReservedFor(step.0, calls[1..], pid)
  }

  /** Over any run of single-item orders, from any accounts, a product's
      stock drops by exactly what the accepted orders reserved. */
  lemma {:induction false} SinglesConserveStock(db: Db, calls: seq<SingleCall>, pid: int)
    requires WellFormed(db) && pid in db.products
    ensures pid in RunSingles(db, calls).products
    ensures RunSingles(db, calls).products[pid].stock
         == db.products[pid].stock - ReservedFor(db, calls, pid)
    decreases |calls|
  {
    if calls != [] {
      var step := PlaceSingle(db, calls[0].uid, calls[0].req);
      SinglesConserveStock(step.0, calls[1..], pid);
    }
  }

  /** Over any run of single-item orders, from any accounts, a product whose
      stock was not negative is never oversold: what is reserved never
      exceeds the initial stock and the stock never goes below zero. */
  lemma {:induction false} SinglesNeverOversell(db: Db, calls: seq<SingleCall>, pid: int)
    requires WellFormed(db) && pid in db.products && db.products[pid].stock >= 0
    ensures pid in RunSingles(db, calls).products
    ensures RunSingles(db, calls).products[pid].stock >= 0
    ensures ReservedFor(db, calls, pid) <= db.products[pid].stock
    decreases |calls|
  {
    SinglesConserveStock(db, calls, pid);
    if calls != [] {
      var step := PlaceSingle(db, calls[0].uid, calls[0].req);
      SinglesNeverOversell(step.0, calls[1..], pid);
    }
  }

  // ----- multi-item order -----

  /** The total quantity that the entries of `s` request of product `pid`. */
  function QuantityFor(s: seq<LineItem>, pid: int): int
    decreases |s|
  {
    if s == [] then 0
    else QuantityFor(s[..|s| - 1], pid) + (if s[|s| - 1].productId == pid then s[|s| - 1].quantity else 0)
  }

  /** The `items.forEach` loop of the multi-item order: for each entry in
      turn, an item row for order `orderId`, then the stock update. */
  function ApplyItems(db: Db, uid: int, orderId: int, s: seq<LineItem>): Db
    decreases |s|
  {
    if s == [] then db
    else
      var last := s[|s| - 1];
      var prev := ApplyItems(db, uid, orderId, s[..|s| - 1]);
      DecrementStock(InsertItem(prev, orderId, last.productId, last.quantity), uid, last.productId, last.quantity)
  }

  /** What the loop does to the store: entry `j` becomes item row
      `nextItemId + j` of order `orderId`, entries for a product the caller
      does not own still get their item row, every product of the caller
      loses the total its entries request with no check against the stock,
      and nothing outside `order_items` and `products` changes. */
  lemma {:induction false} ApplyItemsEffect(db: Db, uid: int, orderId: int, s: seq<LineItem>)
    ensures var r := ApplyItems(db, uid, orderId, s);
      && r == db.(items := r.items, products := r.products, nextItemId := r.nextItemId)
      && r.nextItemId == db.nextItemId + |s|
      && (forall j :: 0 <= j < |s| ==>
            db.nextItemId + j in r.items && r.items[db.nextItemId + j] == OrderItem(orderId, s[j].productId, s[j].quantity))
      && (forall k :: k in r.items <==> k in db.items || db.nextItemId <= k < db.nextItemId + |s|)
      && (forall k :: k in db.items && !(db.nextItemId <= k < db.nextItemId + |s|) ==> r.items[k] == db.items[k])
      && r.products.Keys == db.products.Keys
      && (forall p :: p in db.products ==>
            r.products[p] == db.products[p].(stock := db.products[p].stock
                                                     - (if db.products[p].userId == uid then QuantityFor(s, p) else 0)))
    decreases |s|
  {
    if s != [] {
      var init := s[..|s| - 1];
      ApplyItemsEffect(db, uid, orderId, init);
      assert forall j :: 0 <= j < |init| ==> init[j] == s[j];
    }
  }

  /** The effect of an accepted multi-item order of `uid` for client
      `clientId` with entries `s`, turning `db` into `db'` under order id
      `orderId`: one fresh order row of the caller; fresh item rows, one per
      entry, in the given order, all pointing at it; every product of the
      caller lowered by the total its entries request (with no floor), every
      other product unchanged; clients unchanged. */
  ghost predicate MultiPlaced(db: Db, db': Db, uid: int, clientId: int, s: seq<LineItem>, status: string, orderId: int) {
    && orderId == db.nextOrderId && orderId !in db.orders
    && db'.orders == db.orders[orderId := Order(uid, clientId, OrDefault(status, Pending), Pending)]
    && (forall j :: 0 <= j < |s| ==>
          db.nextItemId + j !in db.items
          && db.nextItemId + j in db'.items
          && db'.items[db.nextItemId + j] == OrderItem(orderId, s[j].productId, s[j].quantity))
    && (forall k :: k in db'.items <==> k in db.items || db.nextItemId <= k < db.nextItemId + |s|)
    && (forall k :: k in db.items ==> db'.items[k] == db.items[k])
    && db'.products.Keys == db.products.Keys
    && (forall p :: p in db.products ==>
          db'.products[p] == db.products[p].(stock := db.products[p].stock
                                                     - (if db.products[p].userId == uid then QuantityFor(s, p) else 0)))
    && db'.clients == db.clients
    && db'.nextOrderId == db.nextOrderId + 1 && db'.nextItemId == db.nextItemId + |s|
    && db'.nextClientId == db.nextClientId && db'.nextProductId == db.nextProductId
  }

  /** POST /api/orders/multi, as one step: reject a falsy client id or a
      missing or empty item list; otherwise insert the order, then run the
      per-entry loop. */
  function PlaceMulti(db: Db, uid: int, req: MultiOrderRequest): (res: (Db, Result<int>))
    requires WellFormed(db)
    ensures WellFormed(res.0)
    ensures res.1.Err? <==> Falsy(req.clientId) || req.items.None? || |req.items.value| == 0
    ensures res.1.Err? ==> res.0 == db && res.1.error == MissingClientOrItems
    ensures res.1.Ok? ==>
      req.clientId.Some? && req.items.Some?
      && MultiPlaced(db, res.0, uid, req.clientId.value, req.items.value, req.status, res.1.value)
    ensures OthersUntouched(db, res.0, uid)
  {
    if Falsy(req.clientId) || req.items.None? || |req.items.value| == 0 then (db, Err(MissingClientOrItems))
    else
      var orderId := db.nextOrderId;
      var placed := InsertOrder(db, uid, req.clientId.value, req.status);
      ApplyItemsEffect(placed, uid, orderId, req.items.value);
      (ApplyItems(placed, uid, orderId, req.items.value), Ok(orderId))
  }

  // ----- the two paths compared -----

  /** An accepted single-item order has exactly the effect of a multi-item
      order with that one entry: the two paths differ only in the checks. */
  lemma SingleIsCheckedOneEntryMulti(db: Db, uid: int, req: SingleOrderRequest)
    requires WellFormed(db)
    requires PlaceSingle(db, uid, req).1.Ok?
    ensures
      var single := PlaceSingle(db, uid, req);
      var multi := PlaceMulti(db, uid, MultiOrderRequest(req.clientId, Some([LineItem(req.productId.value, req.quantity.value)]), req.status));
      multi.0 == single.0 && multi.1 == Ok(single.1.value.orderId)
  {
    var line := LineItem(req.productId.value, req.quantity.value);
    var placed := InsertOrder(db, uid, req.clientId.value, req.status);
    assert [line][..0] == [];
    assert ApplyItems(placed, uid, db.nextOrderId, [line])
        == DecrementStock(InsertItem(placed, db.nextOrderId, line.productId, line.quantity), uid, line.productId, line.quantity);
  }

  /** Where the single-item path refuses for want of stock, the same order
      placed through the multi-item path is accepted and leaves the product
      with negative stock. */
  lemma MultiSkipsStockCheck(db: Db, uid: int, clientId: int, pid: int, q: int, status: string)
    requires WellFormed(db)
    requires clientId != 0 && pid != 0 && q != 0
    requires OwnsProduct(db, uid, pid) && db.products[pid].stock < q
    ensures PlaceSingle(db, uid, SingleOrderRequest(Some(clientId), Some(pid), Some(q), status)) == (db, Err(InsufficientStock))
    ensures
      var multi := PlaceMulti(db, uid, MultiOrderRequest(Some(clientId), Some([LineItem(pid, q)]), status));
      multi.1.Ok? && pid in multi.0.products && multi.0.products[pid].stock < 0
  {
    var multi := PlaceMulti(db, uid, MultiOrderRequest(Some(clientId), Some([LineItem(pid, q)]), status));
    assert QuantityFor([LineItem(pid, q)], pid) == q by {
      assert [LineItem(pid, q)][..0] == [];
    }
  }
}
