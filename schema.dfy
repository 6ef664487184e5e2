/** The five tables `init_db` creates, one record type per row. Every table
    has an AUTOINCREMENT integer primary key `id`; `code` columns are
    nullable text, and quantities are REAL (exact `real` here). */
module Schema {
  import opened Wrappers
  import opened Units

  /** `clienti(id, codice, nome UNIQUE NOT NULL)` */
  datatype Client = Client(id: int, code: Option<string>, name: string)

  /** `prodotti(id, codice, nome UNIQUE NOT NULL, kg_per_vaschetta,
      giacenza_iniziale_vaschette DEFAULT 0)` */
  datatype Product = Product(id: int, code: Option<string>, name: string,
                             kgPerTray: real, initialTrays: real)

  /** `ordini(id, data, cliente_id)`: an order header. */
  datatype Order = Order(id: int, date: string, clientId: int)

  /** `righe_ordine(id, ordine_id, prodotto_id, qta_inserita, tipo_qta)` */
  datatype OrderLine = OrderLine(id: int, orderId: int, productId: int, qty: real, tipo: Tipo)

  /** `produzione(id, data, prodotto_id, vaschette_prodotte)` */
  datatype ProductionEntry = ProductionEntry(id: int, date: string, productId: int, trays: real)

  /** Looking a row up by its primary key (the first match, which is the only
      one while ids are distinct). */
  function FindClient(clients: seq<Client>, id: int): (r: Option<Client>)
    ensures r.Some? ==> r.value in clients && r.value.id == id
    ensures r.None? ==> forall c :: c in clients ==> c.id != id
  {
    if clients == [] then None
    else if clients[0].id == id then Some(clients[0])
    else FindClient(clients[1..], id)
  }

  function FindProduct(products: seq<Product>, id: int): (r: Option<Product>)
    ensures r.Some? ==> r.value in products && r.value.id == id
    ensures r.None? ==> forall p :: p in products ==> p.id != id
  {
    if products == [] then None
    else if products[0].id == id then Some(products[0])
    else FindProduct(products[1..], id)
  }

  function FindOrder(orders: seq<Order>, id: int): (r: Option<Order>)
    ensures r.Some? ==> r.value in orders && r.value.id == id
    ensures r.None? ==> forall o :: o in orders ==> o.id != id
  {
    if orders == [] then None
    else if orders[0].id == id then Some(orders[0])
    else FindOrder(orders[1..], id)
  }
}
