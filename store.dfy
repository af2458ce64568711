/** The database as server.js uses it: one object holding the four tables
    and their AUTOINCREMENT counters, changed in place by the request
    handlers. Each handler runs as one sequential step and is specified by
    the function of Catalog or Ordering that gives its effect on the whole
    store. */
module Server {
  import opened Schema
  import Catalog
  import Ordering

  class Store {
    var clients: map<int, Client>
    var products: map<int, Product>
    var orders: map<int, Order>
    var items: map<int, OrderItem>
    var nextClientId: int
    var nextProductId: int
    var nextOrderId: int
    var nextItemId: int

    /** The tables and counters as one value. */
    function Snapshot(): Db
      reads this
    {
      Db(clients, products, orders, items, nextClientId, nextProductId, nextOrderId, nextItemId)
    }

    ghost predicate Valid()
      reads this
    {
      WellFormed(Snapshot())
    }

    /** A freshly created database: empty tables, every counter at 1. */
    constructor ()
      ensures Valid() && Snapshot() == EmptyDb()
    {
      clients, products, orders, items := map[], map[], map[], map[];
      nextClientId, nextProductId, nextOrderId, nextItemId := 1, 1, 1, 1;
    }

    /** POST /api/clients. */
    method CreateClient(uid: int, name: string, email: string, status: string) returns (r: Result<int>)
      requires Valid() && SignedIn(uid)
      modifies this
      ensures Valid()
      ensures (Snapshot(), r) == Catalog.AddClient(old(Snapshot()), uid, name, email, status)
    {
      if name == "" || email == "" {
        return Err(MissingFields);
      }
      var id := nextClientId;
      clients := clients[id := Client(uid, name, email, OrDefault(status, NeedsImprovement))];
      nextClientId := id + 1;
      r := Ok(id);
    }

    /** PUT /api/clients/:id. */
    method UpdateClient(uid: int, id: int, name: string, email: string, status: string)
      requires Valid() && SignedIn(uid)
      modifies this
      ensures Valid()
      ensures Snapshot() == Catalog.UpdateClient(old(Snapshot()), uid, id, name, email, status)
    {
      if OwnsClient(Snapshot(), uid, id) {
        clients := clients[id := Client(uid, name, email, OrDefault(status, NeedsImprovement))];
      }
    }

    /** DELETE /api/clients/:id. */
    method DeleteClient(uid: int, id: int)
      requires Valid() && SignedIn(uid)
      modifies this
      ensures Valid()
      ensures Snapshot() == Catalog.DeleteClient(old(Snapshot()), uid, id)
    {
      if OwnsClient(Snapshot(), uid, id) {
        clients := clients - {id};
      }
    }

    /** GET /api/clients/status-summary: the caller's clients counted by
        status, with the three fixed statuses always present and a status
        spelled `__proto__` dropped by the reply object. */
    method StatusSummary(uid: int) returns (summary: map<string, int>)
      requires SignedIn(uid)
      ensures summary.Keys == Catalog.Buckets + (Catalog.StatusesOf(clients, uid) - {Catalog.ProtoKey})
      ensures forall s :: s in summary ==> summary[s] == Catalog.CountStatus(clients, uid, s)
    {
      var grouped := Catalog.GroupByStatus(clients, uid);
      summary := Catalog.Summarize(grouped);
      forall s | s in Catalog.Buckets && s !in grouped
        ensures Catalog.CountStatus(clients, uid, s) == 0
      {
        Catalog.CountAbsentStatus(clients, uid, s);
      }
    }

    /** POST /api/products. */
    method CreateProduct(uid: int, name: string, price: Option<int>, stock: Option<int>) returns (r: Result<int>)
      requires Valid() && SignedIn(uid)
      modifies this
      ensures Valid()
      ensures (Snapshot(), r) == Catalog.AddProduct(old(Snapshot()), uid, name, price, stock)
    {
      if name == "" || price.None? || stock.None? {
        return Err(MissingFields);
      }
      var id := nextProductId;
      products := products[id := Product(uid, name, price.value, stock.value)];
      nextProductId := id + 1;
      r := Ok(id);
    }

    /** PUT /api/products/:id. */
    method UpdateProduct(uid: int, id: int, name: string, price: int, stock: int)
      requires Valid() && SignedIn(uid)
      modifies this
      ensures Valid()
      ensures Snapshot() == Catalog.UpdateProduct(old(Snapshot()), uid, id, name, price, stock)
    {
      if OwnsProduct(Snapshot(), uid, id) {
        products := products[id := Product(uid, name, price, stock)];
      }
    }

    /** DELETE /api/products/:id. */
    method DeleteProduct(uid: int, id: int)
      requires Valid() && SignedIn(uid)
      modifies this
      ensures Valid()
      ensures Snapshot() == Catalog.DeleteProduct(old(Snapshot()), uid, id)
    {
      if OwnsProduct(Snapshot(), uid, id) {
        products := products - {id};
      }
    }

    /** The stock update both order handlers issue: only a product the caller owns is lowered. */
    method DecrementStock(uid: int, productId: int, quantity: int)
      modifies this`products
      ensures Snapshot() == Ordering.DecrementStock(old(Snapshot()), uid, productId, quantity)
    {
      if OwnsProduct(Snapshot(), uid, productId) {
        var p := products[productId];
        products := products[productId := p.(stock := p.stock - quantity)];
      }
    }

    /** POST /api/orders/single: the stock read, the two inserts and the
        stock update, in the handler's order. */
    method PlaceSingleOrder(uid: int, req: Ordering.SingleOrderRequest) returns (r: Result<Ordering.Placement>)
      requires Valid() && SignedIn(uid)
      modifies this
      ensures Valid()
      ensures (Snapshot(), r) == Ordering.PlaceSingle(old(Snapshot()), uid, req)
    {
      if Ordering.MissingSingleField(req) {
        return Err(MissingFields);
      }
      var productId, quantity := req.productId.value, req.quantity.value;
      if !OwnsProduct(Snapshot(), uid, productId) {
        return Err(ProductNotFound);
      }
      var stock := products[productId].stock;
      if stock < quantity {
        return Err(InsufficientStock);
      }
      var orderId := nextOrderId;
      orders := orders[orderId := Order(uid, req.clientId.value, OrDefault(req.status, Pending), Pending)];
      nextOrderId := orderId + 1;
      items := items[nextItemId := OrderItem(orderId, productId, quantity)];
      nextItemId := nextItemId + 1;
      DecrementStock(uid, productId, quantity);
      r := Ok(Ordering.Placement(orderId, stock - quantity));
    }

    /** POST /api/orders/multi: the order insert, then for each entry in
        turn its item insert and its stock update. */
    method PlaceMultiOrder(uid: int, req: Ordering.MultiOrderRequest) returns (r: Result<int>)
      requires Valid() && SignedIn(uid)
      modifies this
      ensures Valid()
      ensures (Snapshot(), r) == Ordering.PlaceMulti(old(Snapshot()), uid, req)
    {
      if Falsy(req.clientId) || req.items.None? || |req.items.value| == 0 {
        return Err(MissingClientOrItems);
      }
      var orderId := nextOrderId;
      orders := orders[orderId := Order(uid, req.clientId.value, OrDefault(req.status, Pending), Pending)];
      nextOrderId := orderId + 1;
      ghost var placed := Snapshot();
      var lines := req.items.value;
      for i := 0 to |lines|
        invariant Snapshot() == Ordering.ApplyItems(placed, uid, orderId, lines[..i])
      {
        var line := lines[i];
        items := items[nextItemId := OrderItem(orderId, line.productId, line.quantity)];
        nextItemId := nextItemId + 1;
        DecrementStock(uid, line.productId, line.quantity);
        assert lines[..i + 1][..i] == lines[..i];
      }
      assert lines[..|lines|] == lines;
      r := Ok(orderId);
      assert (Snapshot(), r) == Ordering.PlaceMulti(old(Snapshot()), uid, req);
    }
  }
}
