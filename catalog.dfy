/** Clients and products: the account-scoped create, update, delete and
    list handlers of server.js, and the client status summary. */
module Catalog {
  import opened Schema

  // ----- clients -----

  /** POST /api/clients: name and email are required; the status defaults to
      NeedsImprovement; the new row gets the next client id. */
  function AddClient(db: Db, uid: int, name: string, email: string, status: string): (res: (Db, Result<int>))
    requires WellFormed(db)
    ensures WellFormed(res.0)
    ensures res.1.Err? <==> name == "" || email == ""
    ensures res.1.Err? ==> res.0 == db && res.1.error == MissingFields
    ensures res.1.Ok? ==>
      var id := res.1.value;
      && id == db.nextClientId && id !in db.clients
      && res.0.clients == db.clients[id := Client(uid, name, email, OrDefault(status, NeedsImprovement))]
      && res.0 == db.(clients := res.0.clients, nextClientId := id + 1)
    ensures res.1.Ok? && status == "" ==> res.0.clients[res.1.value].status == NeedsImprovement
    ensures OthersUntouched(db, res.0, uid)
  {
    if name == "" || email == "" then (db, Err(MissingFields))
    else
      var id := db.nextClientId;
      var row := Client(uid, name, email, OrDefault(status, NeedsImprovement));
      (db.(clients := db.clients[id := row], nextClientId := id + 1), Ok(id))
  }

  /** PUT /api/clients/:id: rewrites name, email and status (defaulting to
      NeedsImprovement) of the row whose id and owner both match, if any. */
  function UpdateClient(db: Db, uid: int, id: int, name: string, email: string, status: string): (db': Db)
    requires WellFormed(db)
    ensures WellFormed(db')
    ensures db' == db.(clients := db'.clients)
    ensures db'.clients.Keys == db.clients.Keys
    ensures forall c :: c in db.clients && !(c == id && db.clients[c].userId == uid) ==>
      db'.clients[c] == db.clients[c]
    ensures OwnsClient(db, uid, id) ==>
      db'.clients[id] == Client(uid, name, email, OrDefault(status, NeedsImprovement))
    ensures OthersUntouched(db, db', uid)
  {
    if OwnsClient(db, uid, id) then
      db.(clients := db.clients[id := Client(uid, name, email, OrDefault(status, NeedsImprovement))])
    else db
  }

  /** DELETE /api/clients/:id: removes the row whose id and owner both match, if any. */
  function DeleteClient(db: Db, uid: int, id: int): (db': Db)
    requires WellFormed(db)
    ensures WellFormed(db')
    ensures db' == db.(clients := db'.clients)
    ensures forall c :: c in db'.clients <==> c in db.clients && !(c == id && db.clients[c].userId == uid)
    ensures forall c :: c in db'.clients ==> db'.clients[c] == db.clients[c]
    ensures OthersUntouched(db, db', uid)
  {
    if OwnsClient(db, uid, id) then db.(clients := db.clients - {id}) else db
  }

  /** GET /api/clients: exactly the caller's client rows. */
  function ClientsOf(db: Db, uid: int): (m: map<int, Client>)
    ensures forall id :: id in m <==> OwnsClient(db, uid, id)
    ensures forall id :: id in m ==> id in db.clients && m[id] == db.clients[id]
  {
    map id | id in db.clients && db.clients[id].userId == uid :: db.clients[id]
  }

  // ----- products -----

  /** POST /api/products: name, price and stock are required; a price or
      stock of 0 is accepted (the test is `== null`, not falsiness). */
  function AddProduct(db: Db, uid: int, name: string, price: Option<int>, stock: Option<int>): (res: (Db, Result<int>))
    requires WellFormed(db)
    ensures WellFormed(res.0)
    ensures res.1.Err? <==> name == "" || price.None? || stock.None?
    ensures res.1.Err? ==> res.0 == db && res.1.error == MissingFields
    ensures res.1.Ok? ==>
      var id := res.1.value;
      && id == db.nextProductId && id !in db.products
      && res.0.products == db.products[id := Product(uid, name, price.value, stock.value)]
      && res.0 == db.(products := res.0.products, nextProductId := id + 1)
    ensures OthersUntouched(db, res.0, uid)
  {
    if name == "" || price.None? || stock.None? then (db, Err(MissingFields))
    else
      var id := db.nextProductId;
      (db.(products := db.products[id := Product(uid, name, price.value, stock.value)], nextProductId := id + 1), Ok(id))
  }

  /** PUT /api/products/:id: rewrites name, price and stock of the row whose
      id and owner both match, if any; nothing bounds the new stock. */
  function UpdateProduct(db: Db, uid: int, id: int, name: string, price: int, stock: int): (db': Db)
    requires WellFormed(db)
    ensures WellFormed(db')
    ensures db' == db.(products := db'.products)
    ensures db'.products.Keys == db.products.Keys
    ensures forall p :: p in db.products && !(p == id && db.products[p].userId == uid) ==>
      db'.products[p] == db.products[p]
    ensures OwnsProduct(db, uid, id) ==> db'.products[id] == Product(uid, name, price, stock)
    ensures OthersUntouched(db, db', uid)
  {
    if OwnsProduct(db, uid, id) then db.(products := db.products[id := Product(uid, name, price, stock)])
    else db
  }

  /** DELETE /api/products/:id: removes the row whose id and owner both match, if any. */
  function DeleteProduct(db: Db, uid: int, id: int): (db': Db)
    requires WellFormed(db)
    ensures WellFormed(db')
    ensures db' == db.(products := db'.products)
    ensures forall p :: p in db'.products <==> p in db.products && !(p == id && db.products[p].userId == uid)
    ensures forall p :: p in db'.products ==> db'.products[p] == db.products[p]
    ensures OthersUntouched(db, db', uid)
  {
    if OwnsProduct(db, uid, id) then db.(products := db.products - {id}) else db
  }

  /** GET /api/products: exactly the caller's product rows. */
  function ProductsOf(db: Db, uid: int): (m: map<int, Product>)
    ensures forall id :: id in m <==> OwnsProduct(db, uid, id)
    ensures forall id :: id in m ==> id in db.products && m[id] == db.products[id]
  {
    map id | id in db.products && db.products[id].userId == uid :: db.products[id]
  }

  // ----- status summary -----

  /** The statuses that occur among the caller's clients. */
  function StatusesOf(clients: map<int, Client>, uid: int): set<string> {
    set id | id in clients && clients[id].userId == uid :: clients[id].status
  }

  /** The ids of the caller's clients with status `s`. */
  function WithStatus(clients: map<int, Client>, uid: int, s: string): set<int> {
    set id | id in clients && clients[id].userId == uid && clients[id].status == s
  }

  /** The number of the caller's clients with status `s`. */
  function CountStatus(clients: map<int, Client>, uid: int, s: string): nat {
    |WithStatus(clients, uid, s)|
  }

  /** A status that no client of the caller has is counted 0. */
  lemma CountAbsentStatus(clients: map<int, Client>, uid: int, s: string)
    requires s !in StatusesOf(clients, uid)
    ensures CountStatus(clients, uid, s) == 0
  {
    forall id | id in clients && clients[id].userId == uid
      ensures clients[id].status != s
    {
      assert clients[id].status in StatusesOf(clients, uid);
    }
    assert WithStatus(clients, uid, s) == {};
  }

  /** The grouped count the summary query returns: one entry per status
      present among the caller's clients, with its count. */
  function GroupByStatus(clients: map<int, Client>, uid: int): (g: map<string, int>)
    ensures g.Keys == StatusesOf(clients, uid)
    ensures forall s :: s in g ==> g[s] == CountStatus(clients, uid, s) && g[s] > 0
  {
    var g := map s | s in StatusesOf(clients, uid) :: CountStatus(clients, uid, s);
    forall s | s in g ensures g[s] > 0 {
      var id :| id in clients && clients[id].userId == uid && clients[id].status == s;
      assert id in WithStatus(clients, uid, s);
    }
    g
  }

  /** The three statuses the summary always carries. */
  const Buckets: set<string> := {Satisfied, Unsatisfied, NeedsImprovement}

  /** The one key a JavaScript object literal does not store on assignment:
      `obj["__proto__"] = n` runs the prototype setter, which ignores a number. */
  const ProtoKey := "__proto__"

  /** The summary object: the three buckets start at 0 and every grouped
      row then overwrites the entry of its status, except a status spelled
      like ProtoKey, whose assignment leaves the object unchanged. */
  method Summarize(grouped: map<string, int>) returns (summary: map<string, int>)
    ensures summary.Keys == Buckets + (grouped.Keys - {ProtoKey})
    ensures forall s :: s in grouped && s != ProtoKey ==> summary[s] == grouped[s]
    ensures forall s :: s in Buckets && s !in grouped ==> summary[s] == 0
  {
    summary := map[Satisfied := 0, Unsatisfied := 0, NeedsImprovement := 0];
    var rest := grouped.Keys;
    while rest != {}
      invariant rest <= grouped.Keys
      invariant summary.Keys == Buckets + (grouped.Keys - rest - {ProtoKey})
      invariant forall s :: s in grouped && s !in rest && s != ProtoKey ==> summary[s] == grouped[s]
      invariant forall s :: s in Buckets && (s !in grouped || s in rest) ==> summary[s] == 0
      decreases rest
    {
      var s :| s in rest;
      if s != ProtoKey {
        summary := summary[s := grouped[s]];
      }
      rest := rest - {s};
    }
  }
}
