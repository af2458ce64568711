/** The rows of the SQLite tables the order backend keeps (users are left
    out: only their ids appear, as `user_id`), the whole store as a value,
    and the shapes shared by the request handlers.

    Conventions for request bodies: a numeric field is an `Option<int>`,
    `None` standing for `undefined` or `null`; a text field is a `string`,
    the empty string standing also for a field that is absent, since the
    handlers only test text fields for truthiness or store them. */
module Schema {

  datatype Option<+T> = None | Some(value: T)

  /** The error replies of the handlers, with the HTTP status each is sent with. */
  datatype ApiError =
    | MissingFields          // 400, 'Preencha todos os campos!'
    | MissingClientOrItems   // 400, 'Informe cliente e itens.'
    | ProductNotFound        // 404, 'Produto não encontrado'
    | InsufficientStock      // 400, 'Estoque insuficiente!'

  datatype Result<+T> = Ok(value: T) | Err(error: ApiError)

  /** Default of `orders.status` and the only `payment_status` ever written. */
  const Pending := "Pendente"

  /** The three client statuses the summary always reports; new clients get NeedsImprovement. */
  const Satisfied := "Satisfeito"
  const Unsatisfied := "Insatisfeito"
  const NeedsImprovement := "A melhorar"

  /** A `clients` row: `user_id`, `name`, `email`, `status`. */
  datatype Client = Client(userId: int, name: string, email: string, status: string)

  /** A `products` row: `user_id`, `name`, `price` (in cents), `stock`. */
  datatype Product = Product(userId: int, name: string, price: int, stock: int)

  /** An `orders` row: `user_id`, `client_id`, `status`, `payment_status`. */
  datatype Order = Order(userId: int, clientId: int, status: string, paymentStatus: string)

  /** An `order_items` row: `order_id`, `product_id`, `quantity`. */
  datatype OrderItem = OrderItem(orderId: int, productId: int, quantity: int)

  /** The four tables the core touches, each a map from id to row, and for
      each the id its next INSERT receives (its AUTOINCREMENT counter). */
  datatype Db = Db(
    clients: map<int, Client>,
    products: map<int, Product>,
    orders: map<int, Order>,
    items: map<int, OrderItem>,
    nextClientId: int,
    nextProductId: int,
    nextOrderId: int,
    nextItemId: int)

  /** AUTOINCREMENT ids start at 1 and are never reused: every id in a table
      lies below that table's counter, so the counter is a fresh id. */
  predicate WellFormed(db: Db) {
    && 1 <= db.nextClientId && 1 <= db.nextProductId
    && 1 <= db.nextOrderId && 1 <= db.nextItemId
    && (forall id :: id in db.clients ==> 1 <= id < db.nextClientId)
    && (forall id :: id in db.products ==> 1 <= id < db.nextProductId)
    && (forall id :: id in db.orders ==> 1 <= id < db.nextOrderId)
    && (forall id :: id in db.items ==> 1 <= id < db.nextItemId)
  }

  /** The store of a freshly created database. */
  function EmptyDb(): (db: Db)
    ensures WellFormed(db)
    ensures db.clients == map[] && db.products == map[] && db.orders == map[] && db.items == map[]
  {
    Db(map[], map[], map[], map[], 1, 1, 1, 1)
  }

  /** `authMiddleware`: a session carries the id of a `users` row, which is positive. */
  predicate SignedIn(uid: int) {
    uid > 0
  }

  /** JavaScript's `!v` for a numeric body field: undefined, null or 0. */
  predicate Falsy(v: Option<int>) {
    v.None? || v.value == 0
  }

  /** JavaScript's `s || d` for a text body field. */
  function OrDefault(s: string, d: string): string {
    if s == "" then d else s
  }

  /** The scoping rule of client updates and deletes: id and owner both match. */
  predicate OwnsClient(db: Db, uid: int, id: int) {
    id in db.clients && db.clients[id].userId == uid
  }

  /** The scoping rule of product lookups, updates and deletes: id and owner both match. */
  predicate OwnsProduct(db: Db, uid: int, id: int) {
    id in db.products && db.products[id].userId == uid
  }

  /** Tenant isolation between two states: every client, product and order
      row of another account is still there and unchanged, and no order item
      row is changed or removed. */
  predicate OthersUntouched(db: Db, db': Db, uid: int) {
    && (forall id :: id in db.clients && db.clients[id].userId != uid ==>
          id in db'.clients && db'.clients[id] == db.clients[id])
    && (forall id :: id in db.products && db.products[id].userId != uid ==>
          id in db'.products && db'.products[id] == db.products[id])
    && (forall id :: id in db.orders && db.orders[id].userId != uid ==>
          id in db'.orders && db'.orders[id] == db.orders[id])
    && (forall id :: id in db.items ==> id in db'.items && db'.items[id] == db.items[id])
  }

  /** No product has negative stock. */
  predicate StockNonNegative(db: Db) {
    forall id :: id in db.products ==> db.products[id].stock >= 0
  }
}
