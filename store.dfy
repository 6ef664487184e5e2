/** The database the request handlers share: five tables, updated in place.
    The write paths are the POST handlers (client, product, order and
    production intake, and the three deletes); the read paths are the loops
    that build the stock snapshot and the order views. */
module Inventory {
  import opened Wrappers
  import opened Forms
  import opened Units
  import opened Schema
  import opened Aggregates
  import opened Collation
  import opened StockLedger
  import opened OrderIntake
  import opened OrderViews

  /** Why an intake wrote nothing. */
  datatype IntakeError =
    | InvalidNumber    // `float()` raised ValueError
    | NotPositive      // a quantity that must be > 0 was not
    | NameRequired     // the stripped name was empty
    | DuplicateName    // the UNIQUE constraint on `nome` fired
    | ClientRequired   // no client chosen for an order
    | ProductRequired  // no product chosen: the NOT NULL constraint fired
    | NoValidLines     // no line slot survived its checks

  /** The outcome of a guarded delete. */
  datatype DeleteOutcome = Deleted | Refused

  /** The whole content of the database: the five tables in rowid order and
      the AUTOINCREMENT counter of each (the next id it hands out). */
  datatype Tables = Tables(
    clients: seq<Client>, products: seq<Product>, orders: seq<Order>,
    lines: seq<OrderLine>, production: seq<ProductionEntry>,
    nextClientId: int, nextProductId: int, nextOrderId: int,
    nextLineId: int, nextProductionId: int)

  /** `SELECT COUNT(*) FROM ordini WHERE cliente_id = ?` is positive. */
  predicate ClientInUse(orders: seq<Order>, id: int)
  {
    exists o :: o in orders && o.clientId == id
  }

  /** Order lines or production rows refer to the product. */
  predicate ProductInUse(lines: seq<OrderLine>, production: seq<ProductionEntry>, id: int)
  {
    (exists l :: l in lines && l.productId == id) || (exists e :: e in production && e.productId == id)
  }

  /** `DELETE FROM clienti WHERE id = ?` */
  function WithoutClient(clients: seq<Client>, id: int): seq<Client>
  {
    Filter(clients, (c: Client) => c.id != id)
  }

  /** `DELETE FROM prodotti WHERE id = ?` */
  function WithoutProduct(products: seq<Product>, id: int): seq<Product>
  {
    Filter(products, (p: Product) => p.id != id)
  }

  /** `DELETE FROM ordini WHERE id = ?` */
  function WithoutOrder(orders: seq<Order>, id: int): seq<Order>
  {
    Filter(orders, (o: Order) => o.id != id)
  }

  /** `DELETE FROM righe_ordine WHERE ordine_id = ?` */
  function WithoutLinesOf(lines: seq<OrderLine>, orderId: int): seq<OrderLine>
  {
    Filter(lines, (l: OrderLine) => l.orderId != orderId)
  }

  /** The constraints of each table: distinct primary keys, each positive
      and below the table's AUTOINCREMENT counter; unique names where the
      schema says UNIQUE; unit tags that read back as written. */
  ghost predicate ClientsOk(cs: seq<Client>, next: int)
  {
    && DistinctBy(cs, (c: Client) => c.id) && DistinctBy(cs, (c: Client) => c.name)
    && 0 < next && forall c :: c in cs ==> 0 < c.id < next
  }

  ghost predicate ProductsOk(ps: seq<Product>, next: int)
  {
    && DistinctBy(ps, (p: Product) => p.id) && DistinctBy(ps, (p: Product) => p.name)
    && 0 < next && forall p :: p in ps ==> 0 < p.id < next
  }

  ghost predicate OrdersOk(os: seq<Order>, next: int)
  {
    DistinctBy(os, (o: Order) => o.id) && 0 < next && forall o :: o in os ==> 0 < o.id < next
  }

  /** Order lines are only written by order intake, so each has a positive
      quantity and one of the two tags intake accepts. */
  ghost predicate LinesOk(ls: seq<OrderLine>, next: int)
  {
    && DistinctBy(ls, (l: OrderLine) => l.id) && 0 < next
    && forall l :: l in ls ==> 0 < l.id < next && l.qty > 0.0 && (l.tipo == Kg || l.tipo == V)
  }

  /** Production rows are only written by production intake, so each has a
      positive tray count. */
  ghost predicate ProductionOk(es: seq<ProductionEntry>, next: int)
  {
    DistinctBy(es, (e: ProductionEntry) => e.id) && 0 < next && forall e :: e in es ==> 0 < e.id < next && e.trays > 0.0
  }

  /** Headers and lines come and go together: order intake keeps a header
      only when at least one line was inserted for it, and deleting an order
      deletes its lines. So every order has a line and every line its order. */
  ghost predicate Linked(os: seq<Order>, ls: seq<OrderLine>)
  {
    && (forall o :: o in os ==> HasLine(ls, o.id))
    && (forall l :: l in ls ==> HasOrder(os, l.orderId))
  }

  /** Some line belongs to order `id`. */
  ghost predicate HasLine(ls: seq<OrderLine>, id: int)
  {
    exists l :: l in ls && l.orderId == id
  }

  /** Some order header has id `id`. */
  ghost predicate HasOrder(os: seq<Order>, id: int)
  {
    exists o :: o in os && o.id == id
  }

  /** Inserting a client with the next id and a new name keeps the table's
      constraints; so does deleting by id. */
  lemma ClientsInsert(cs: seq<Client>, next: int, row: Client)
    requires ClientsOk(cs, next) && row.id == next
    requires forall c :: c in cs ==> c.name != row.name
    ensures ClientsOk(cs + [row], next + 1)
  {
    DistinctAppend(cs, (c: Client) => c.id, row);
    DistinctAppend(cs, (c: Client) => c.name, row);
  }

  lemma ClientsDelete(cs: seq<Client>, next: int, id: int)
    requires ClientsOk(cs, next)
    ensures ClientsOk(WithoutClient(cs, id), next)
  {
    FilterDistinct(cs, (c: Client) => c.id != id, (c: Client) => c.id);
    FilterDistinct(cs, (c: Client) => c.id != id, (c: Client) => c.name);
  }

  /** Deleting a client by id removes exactly the row with that id, keeping
      the others in order, or nothing when no row has it. */
  lemma ClientRemoval(cs: seq<Client>, next: int, id: int)
    requires ClientsOk(cs, next)
    ensures forall k :: 0 <= k < |cs| && cs[k].id == id ==> WithoutClient(cs, id) == cs[..k] + cs[k + 1..]
    ensures (forall c :: c in cs ==> c.id != id) ==> WithoutClient(cs, id) == cs
  {
    DeleteByKey(cs, (c: Client) => c.id, id, (c: Client) => c.id != id);
  }

  lemma ProductsInsert(ps: seq<Product>, next: int, row: Product)
    requires ProductsOk(ps, next) && row.id == next
    requires forall p :: p in ps ==> p.name != row.name
    ensures ProductsOk(ps + [row], next + 1)
  {
    DistinctAppend(ps, (p: Product) => p.id, row);
    DistinctAppend(ps, (p: Product) => p.name, row);
  }

  lemma ProductsDelete(ps: seq<Product>, next: int, id: int)
    requires ProductsOk(ps, next)
    ensures ProductsOk(WithoutProduct(ps, id), next)
  {
    FilterDistinct(ps, (p: Product) => p.id != id, (p: Product) => p.id);
    FilterDistinct(ps, (p: Product) => p.id != id, (p: Product) => p.name);
  }

  /** Deleting a product by id removes exactly the row with that id, or
      nothing when no row has it. */
  lemma ProductRemoval(ps: seq<Product>, next: int, id: int)
    requires ProductsOk(ps, next)
    ensures forall k :: 0 <= k < |ps| && ps[k].id == id ==> WithoutProduct(ps, id) == ps[..k] + ps[k + 1..]
    ensures (forall p :: p in ps ==> p.id != id) ==> WithoutProduct(ps, id) == ps
  {
    DeleteByKey(ps, (p: Product) => p.id, id, (p: Product) => p.id != id);
  }

  lemma OrdersInsert(os: seq<Order>, next: int, row: Order)
    requires OrdersOk(os, next) && row.id == next
    ensures OrdersOk(os + [row], next + 1)
  {
    DistinctAppend(os, (o: Order) => o.id, row);
  }

  lemma OrdersDelete(os: seq<Order>, next: int, id: int)
    requires OrdersOk(os, next)
    ensures OrdersOk(WithoutOrder(os, id), next)
  {
    FilterDistinct(os, (o: Order) => o.id != id, (o: Order) => o.id);
  }

  /** Deleting an order header by id removes exactly the row with that id,
      or nothing when no row has it. */
  lemma OrderRemoval(os: seq<Order>, next: int, id: int)
    requires OrdersOk(os, next)
    ensures forall k :: 0 <= k < |os| && os[k].id == id ==> WithoutOrder(os, id) == os[..k] + os[k + 1..]
    ensures (forall o :: o in os ==> o.id != id) ==> WithoutOrder(os, id) == os
  {
    DeleteByKey(os, (o: Order) => o.id, id, (o: Order) => o.id != id);
  }

  /** An order header inserted with the next id and deleted again leaves the
      table as it was, and the consumed id keeps the table's constraints. */
  lemma HeaderWithdrawn(os: seq<Order>, next: int, row: Order)
    requires OrdersOk(os, next) && row.id == next
    ensures WithoutOrder(os + [row], next) == os
    ensures OrdersOk(os, next + 1)
  {
    OrdersInsert(os, next, row);
    OrderRemoval(os + [row], next + 1, next);
    assert (os + [row])[|os|].id == next;
    assert (os + [row])[..|os|] == os;
  }

  /** The cascade removes every line of the order and keeps every other line,
      in order; an order with no lines keeps them all. */
  lemma LinesOfOrderRemoved(ls: seq<OrderLine>, orderId: int)
    ensures forall l :: l in WithoutLinesOf(ls, orderId) ==> l in ls && l.orderId != orderId
    ensures forall l :: l in ls && l.orderId != orderId ==> l in WithoutLinesOf(ls, orderId)
    ensures (forall l :: l in ls ==> l.orderId != orderId) ==> WithoutLinesOf(ls, orderId) == ls
  {
    var r := WithoutLinesOf(ls, orderId);
    forall l | l in r ensures l in ls && l.orderId != orderId {
      var i :| 0 <= i < |r| && r[i] == l;
    }
    forall l | l in ls && l.orderId != orderId ensures l in r {
      var i :| 0 <= i < |ls| && ls[i] == l;
    }
    if forall l :: l in ls ==> l.orderId != orderId {
      FilterKeepsAll(ls, (l: OrderLine) => l.orderId != orderId);
    }
  }

  lemma LinesInsert(ls: seq<OrderLine>, next: int, row: OrderLine)
    requires LinesOk(ls, next) && row.id == next
    requires row.qty > 0.0 && (row.tipo == Kg || row.tipo == V)
    ensures LinesOk(ls + [row], next + 1)
  {
    DistinctAppend(ls, (l: OrderLine) => l.id, row);
  }

  lemma LinesDelete(ls: seq<OrderLine>, next: int, orderId: int)
    requires LinesOk(ls, next)
    ensures LinesOk(WithoutLinesOf(ls, orderId), next)
  {
    FilterDistinct(ls, (l: OrderLine) => l.orderId != orderId, (l: OrderLine) => l.id);
  }

  lemma ProductionInsert(es: seq<ProductionEntry>, next: int, row: ProductionEntry)
    requires ProductionOk(es, next) && row.id == next && row.trays > 0.0
    ensures ProductionOk(es + [row], next + 1)
  {
    DistinctAppend(es, (e: ProductionEntry) => e.id, row);
  }

  /** A new header together with at least one line of its own keeps headers
      and lines linked. */
  lemma LinkedAfterOrder(os: seq<Order>, ls: seq<OrderLine>, header: Order, added: seq<OrderLine>)
    requires Linked(os, ls)
    requires added != [] && forall l :: l in added ==> l.orderId == header.id
    ensures Linked(os + [header], ls + added)
  {
    var os', ls' := os + [header], ls + added;
    forall l | l in ls' ensures HasOrder(os', l.orderId) {
      if l in ls {
        assert HasOrder(os, l.orderId);
        var o :| o in os && o.id == l.orderId;
        assert o in os';
      } else {
        assert header in os';
      }
    }
    forall o | o in os' ensures HasLine(ls', o.id) {
      if o in os {
        assert HasLine(ls, o.id);
        var l :| l in ls && l.orderId == o.id;
        assert l in ls';
      } else {
        assert added[0] in ls';
      }
    }
  }

  /** Deleting an order with its lines keeps headers and lines linked. */
  lemma LinkedAfterDelete(os: seq<Order>, ls: seq<OrderLine>, id: int)
    requires Linked(os, ls)
    ensures Linked(WithoutOrder(os, id), WithoutLinesOf(ls, id))
  {
    var os', ls' := WithoutOrder(os, id), WithoutLinesOf(ls, id);
    LinesOfOrderRemoved(ls, id);
    forall o | o in os' ensures HasLine(ls', o.id) {
      var i :| 0 <= i < |os'| && os'[i] == o;
      assert HasLine(ls, o.id);
      var l :| l in ls && l.orderId == o.id;
      assert l in ls';
    }
    forall l | l in ls' ensures HasOrder(os', l.orderId) {
      assert HasOrder(os, l.orderId);
      var o :| o in os && o.id == l.orderId;
      var k :| 0 <= k < |os| && os[k] == o;
      assert o in os';
    }
  }

  /** Every stored line has an intake tag, so for any product whose factor is
      not negative the stock ledger and the order views count the same trays
      for the lines of that product. */
  lemma StoredLinesMatchViews(ls: seq<OrderLine>, next: int, p: Product)
    requires LinesOk(ls, next) && p.kgPerTray >= 0.0
    ensures OrderedTrays(ls, p)
            == SumBy(ls, (l: OrderLine) => if l.productId == p.id
                                             then ViewConvert(l.qty, l.tipo, p.kgPerTray).trays
                                             else 0.0)
  {
    LedgerMatchesViews(ls, p);
  }

  class Store {
    var clients: seq<Client>
    var products: seq<Product>
    var orders: seq<Order>
    var lines: seq<OrderLine>
    var production: seq<ProductionEntry>
    var nextClientId: int
    var nextProductId: int
    var nextOrderId: int
    var nextLineId: int
    var nextProductionId: int

    ghost function State(): Tables
      reads this
    {
      Tables(clients, products, orders, lines, production,
             nextClientId, nextProductId, nextOrderId, nextLineId, nextProductionId)
    }

    /** The schema's constraints: distinct primary keys, each below its
        table's AUTOINCREMENT counter and positive; unique client and product
        names; and what the handlers guarantee on top: positive line
        quantities with an intake tag, positive production, and headers and
        lines that come and go together. */
    ghost predicate Valid()
      reads this
    {
      && ClientsOk(clients, nextClientId) && ProductsOk(products, nextProductId)
      && OrdersOk(orders, nextOrderId) && LinesOk(lines, nextLineId)
      && ProductionOk(production, nextProductionId) && Linked(orders, lines)
    }

    /** A freshly initialised database: empty tables, counters at 1. */
    constructor ()
      ensures Valid()
      ensures State() == Tables([], [], [], [], [], 1, 1, 1, 1, 1)
    {
      clients, products, orders, lines, production := [], [], [], [], [];
      nextClientId, nextProductId, nextOrderId, nextLineId, nextProductionId := 1, 1, 1, 1, 1;
    }

    /** Client intake: the name is required after stripping and must be new;
        the code is optional. */
    method AddClient(codeField: string, nameField: string) returns (r: Result<int, IntakeError>)
      requires Valid()
      modifies this`clients, this`nextClientId
      ensures Valid()
      ensures Strip(nameField) == [] ==> r == Err(NameRequired)
      ensures Strip(nameField) != [] && (exists c :: c in old(clients) && c.name == Strip(nameField))
              ==> r == Err(DuplicateName)
      ensures r.Err? ==> State() == old(State())
      ensures r.Ok? <==> Strip(nameField) != [] && forall c :: c in old(clients) ==> c.name != Strip(nameField)
      ensures r.Ok? ==> r.value == old(nextClientId)
      ensures r.Ok? ==>
        State() == old(State()).(
          clients := old(clients) + [Client(r.value, OptionalText(codeField), Strip(nameField))],
          nextClientId := old(nextClientId) + 1)
    {
      var code := OptionalText(codeField);
      var name := Strip(nameField);
      if name == [] {
        return Err(NameRequired);
      }
      if exists c :: c in clients && c.name == name {
        return Err(DuplicateName);
      }
      var id := InsertClient(code, name);
      r := Ok(id);
    }

    /** `INSERT INTO clienti`: one row with the next id. */
    method InsertClient(code: Option<string>, name: string) returns (id: int)
      requires ClientsOk(clients, nextClientId)
      requires forall c :: c in clients ==> c.name != name
      modifies this`clients, this`nextClientId
      ensures id == old(nextClientId) && nextClientId == id + 1
      ensures clients == old(clients) + [Client(id, code, name)]
      ensures ClientsOk(clients, nextClientId)
    {
      id := nextClientId;
      ClientsInsert(clients, nextClientId, Client(id, code, name));
      clients := clients + [Client(id, code, name)];
      nextClientId := nextClientId + 1;
    }

    /** Product intake: both numbers must parse (a blank initial stock is 0,
        a blank factor is not a number), the name is required and must be
        new. The factor's sign is not checked. */
    method AddProduct(codeField: string, nameField: string, kgField: NumberField,
                      initialField: NumberField) returns (r: Result<int, IntakeError>)
      requires Valid()
      modifies this`products, this`nextProductId
      ensures Valid()
      ensures !kgField.Number? || initialField.Unparsable? ==> r == Err(InvalidNumber)
      ensures kgField.Number? && !initialField.Unparsable? && Strip(nameField) == [] ==> r == Err(NameRequired)
      ensures kgField.Number? && !initialField.Unparsable? && Strip(nameField) != []
              && (exists p :: p in old(products) && p.name == Strip(nameField))
              ==> r == Err(DuplicateName)
      ensures r.Err? ==> State() == old(State())
      ensures r.Ok? <==> kgField.Number? && !initialField.Unparsable? && Strip(nameField) != []
                         && forall p :: p in old(products) ==> p.name != Strip(nameField)
      ensures r.Ok? ==> r.value == old(nextProductId)
      ensures r.Ok? ==>
        State() == old(State()).(
          products := old(products) + [Product(r.value, OptionalText(codeField), Strip(nameField), kgField.value,
                                               if initialField.Blank? then 0.0 else initialField.value)],
          nextProductId := old(nextProductId) + 1)
    {
      var code := OptionalText(codeField);
      var name := Strip(nameField);
      var kg := Float(kgField);
      var initial := if initialField.Blank? then Some(0.0) else Float(initialField);
      if kg.None? || initial.None? {
        return Err(InvalidNumber);
      }
      if name == [] {
        return Err(NameRequired);
      }
      if exists p :: p in products && p.name == name {
        return Err(DuplicateName);
      }
      var id := InsertProduct(code, name, kg.value, initial.value);
      r := Ok(id);
    }

    /** `INSERT INTO prodotti`: one row with the next id. */
    method InsertProduct(code: Option<string>, name: string, kgPerTray: real, initialTrays: real)
      returns (id: int)
      requires ProductsOk(products, nextProductId)
      requires forall p :: p in products ==> p.name != name
      modifies this`products, this`nextProductId
      ensures id == old(nextProductId) && nextProductId == id + 1
      ensures products == old(products) + [Product(id, code, name, kgPerTray, initialTrays)]
      ensures ProductsOk(products, nextProductId)
    {
      id := nextProductId;
      ProductsInsert(products, nextProductId, Product(id, code, name, kgPerTray, initialTrays));
      products := products + [Product(id, code, name, kgPerTray, initialTrays)];
      nextProductId := nextProductId + 1;
    }

    /** Production intake: the tray count must parse and be positive, and a
        product must be given; then one row is appended. */
    method RecordProduction(dateField: string, today: string, productId: Option<int>,
                            traysField: NumberField) returns (r: Result<int, IntakeError>)
      requires Valid()
      modifies this`production, this`nextProductionId
      ensures Valid()
      ensures !traysField.Number? ==> r == Err(InvalidNumber)
      ensures traysField.Number? && traysField.value <= 0.0 ==> r == Err(NotPositive)
      ensures r.Err? ==> State() == old(State())
      ensures r.Ok? <==> traysField.Number? && traysField.value > 0.0 && productId.Some?
      ensures r.Ok? ==> r.value == old(nextProductionId)
      ensures r.Ok? ==>
        State() == old(State()).(
          production := old(production)
            + [ProductionEntry(r.value, DateOrToday(dateField, today), productId.value, traysField.value)],
          nextProductionId := old(nextProductionId) + 1)
    {
      var date := DateOrToday(dateField, today);
      var v := Float(traysField);
      if v.None? {
        return Err(InvalidNumber);
      }
      if v.value <= 0.0 {
        return Err(NotPositive);
      }
      if productId.None? {
        return Err(ProductRequired);
      }
      var row := ProductionEntry(nextProductionId, date, productId.value, v.value);
      ProductionInsert(production, nextProductionId, row);
      production := production + [row];
      nextProductionId := nextProductionId + 1;
      r := Ok(row.id);
    }

    /** Deleting a client is refused while an order refers to it; otherwise
        the client's row, and only it, is removed. */
    method DeleteClient(id: int) returns (r: DeleteOutcome)
      requires Valid()
      modifies this`clients
      ensures Valid()
      ensures r == Refused <==> ClientInUse(old(orders), id)
      ensures r == Refused ==> State() == old(State())
      ensures r == Deleted ==> State() == old(State()).(clients := WithoutClient(old(clients), id))
    {
      var n := CountBy(orders, (o: Order) => o.clientId == id);
      CountPositiveIff(orders, (o: Order) => o.clientId == id);
      if n > 0 {
        return Refused;
      }
      ClientsDelete(clients, nextClientId, id);
      clients := WithoutClient(clients, id);
      r := Deleted;
    }

    /** Deleting a product is refused while an order line or a production row
        refers to it; otherwise the product's row, and only it, is removed. */
    method DeleteProduct(id: int) returns (r: DeleteOutcome)
      requires Valid()
      modifies this`products
      ensures Valid()
      ensures r == Refused <==> ProductInUse(old(lines), old(production), id)
      ensures r == Refused ==> State() == old(State())
      ensures r == Deleted ==> State() == old(State()).(products := WithoutProduct(old(products), id))
    {
      var inLines := CountBy(lines, (l: OrderLine) => l.productId == id);
      var inProduction := CountBy(production, (e: ProductionEntry) => e.productId == id);
      CountPositiveIff(lines, (l: OrderLine) => l.productId == id);
      CountPositiveIff(production, (e: ProductionEntry) => e.productId == id);
      if inLines + inProduction > 0 {
        return Refused;
      }
      ProductsDelete(products, nextProductId, id);
      products := WithoutProduct(products, id);
      r := Deleted;
    }

    /** Deleting an order removes its lines first, then its header; nothing
        else changes, and an unknown id with no lines changes nothing. */
    method DeleteOrder(id: int)
      requires Valid()
      modifies this`lines, this`orders
      ensures Valid()
      ensures State() == old(State()).(lines := WithoutLinesOf(old(lines), id),
                                       orders := WithoutOrder(old(orders), id))
    {
      LinesDelete(lines, nextLineId, id);
      LinkedAfterDelete(orders, lines, id);
      lines := WithoutLinesOf(lines, id);
      OrdersDelete(orders, nextOrderId, id);
      orders := WithoutOrder(orders, id);
    }

    /** The line loop of order intake: every slot that passes its checks is
        inserted as a line of order `orderId`, with the next line id; the
        result is how many were inserted (`righe_ok`). */
    method InsertLines(orderId: int, examined: seq<CandidateLine>) returns (accepted: nat)
      requires LinesOk(lines, nextLineId)
      modifies this`lines, this`nextLineId
      ensures LinesOk(lines, nextLineId)
      ensures accepted == |Survivors(examined)|
      ensures lines == old(lines) + Materialise(Survivors(examined), orderId, old(nextLineId))
      ensures nextLineId == old(nextLineId) + accepted
    {
      accepted := 0;
      for i := 0 to |examined|
        invariant LinesOk(lines, nextLineId)
        invariant accepted == |Survivors(examined[..i])|
        invariant lines == old(lines) + Materialise(Survivors(examined[..i]), orderId, old(nextLineId))
        invariant nextLineId == old(nextLineId) + accepted
      {
        assert examined[..i + 1][..i] == examined[..i];
        match CheckLine(examined[i]) {
          case Some(d) =>
            var row := OrderLine(nextLineId, orderId, d.productId, d.qty, d.tipo);
            LinesInsert(lines, nextLineId, row);
            MaterialiseAppend(Survivors(examined[..i]), d, orderId, old(nextLineId));
            lines := lines + [row];
            nextLineId := nextLineId + 1;
            accepted := accepted + 1;
          case None =>
        }
      }
      assert examined[..|examined|] == examined;
    }

    /** The header insert of order intake: a new order with the next id. */
    method InsertHeader(date: string, clientId: int) returns (orderId: int)
      requires OrdersOk(orders, nextOrderId)
      modifies this`orders, this`nextOrderId
      ensures orderId == old(nextOrderId) && nextOrderId == orderId + 1
      ensures orders == old(orders) + [Order(orderId, date, clientId)]
      ensures OrdersOk(orders, nextOrderId) && OrdersOk(old(orders), nextOrderId)
      ensures WithoutOrder(orders, orderId) == old(orders)
    {
      orderId := nextOrderId;
      var header := Order(orderId, date, clientId);
      HeaderWithdrawn(orders, nextOrderId, header);
      OrdersInsert(orders, nextOrderId, header);
      orders := orders + [header];
      nextOrderId := nextOrderId + 1;
    }

    /** Order intake. Without a client nothing is written. Otherwise the
        header is inserted, then each of the first ten slots that passes its
        checks becomes a line of the new order; if none does, the header is
        deleted again, so no order persists (its id stays consumed). */
    method NewOrder(dateField: string, today: string, clientId: Option<int>,
                    slots: seq<CandidateLine>) returns (r: Result<int, IntakeError>)
      requires Valid()
      modifies this
      ensures Valid()
      ensures clientId.None? ==> r == Err(ClientRequired) && State() == old(State())
      ensures clientId.Some? && Accepted(slots) == [] ==>
        r == Err(NoValidLines) && State() == old(State()).(nextOrderId := old(nextOrderId) + 1)
      ensures clientId.Some? && Accepted(slots) != [] ==> r == Ok(old(nextOrderId))
      ensures clientId.Some? && Accepted(slots) != [] ==>
        State() == old(State()).(
          orders := old(orders) + [Order(old(nextOrderId), DateOrToday(dateField, today), clientId.value)],
          lines := old(lines) + Materialise(Accepted(slots), old(nextOrderId), old(nextLineId)),
          nextOrderId := old(nextOrderId) + 1,
          nextLineId := old(nextLineId) + |Accepted(slots)|)
    {
      var date := DateOrToday(dateField, today);
      if clientId.None? {
        return Err(ClientRequired);
      }
      var orderId := InsertHeader(date, clientId.value);

      var accepted := InsertLines(orderId, Examined(slots));

      if accepted == 0 {
        orders := WithoutOrder(orders, orderId);
        return Err(NoValidLines);
      }
      MaterialisedLines(Accepted(slots), orderId, old(nextLineId));
      LinkedAfterOrder(old(orders), old(lines), Order(orderId, date, clientId.value),
                       Materialise(Accepted(slots), orderId, old(nextLineId)));
      r := Ok(orderId);
    }

    /** The order-line pass of `calcola_magazzino` for one product: every line
        of the product, converted to trays by the ledger's rule, added up. */
    method OrderedOf(p: Product) returns (ordered: real)
      ensures ordered == OrderedTrays(lines, p)
    {
      ordered := 0.0;
      for j := 0 to |lines|
        invariant ordered == OrderedTrays(lines[..j], p)
      {
        assert lines[..j + 1][..j] == lines[..j];
        var l := lines[j];
        if l.productId == p.id {
          ordered := ordered + LedgerTrays(l.qty, l.tipo, p.kgPerTray);
        }
      }
      assert lines[..|lines|] == lines;
    }

    /** One entry of `calcola_magazzino`: the product's production total, its
        ordered trays, and the net stock in trays and in kilograms. */
    method StockEntry(p: Product) returns (row: StockRow)
      ensures row == StockOf(p, production, lines)
    {
      var produced := ProducedTrays(production, p.id);
      var ordered := OrderedOf(p);
      var net := p.initialTrays + produced - ordered;
      row := StockRow(p.id, p.code, p.name, p.kgPerTray, p.initialTrays,
                      produced, ordered, net, net * p.kgPerTray);
    }

    /** The stock snapshot (`calcola_magazzino`): the products in name order,
        each with its entry. */
    method StockSnapshot() returns (rows: seq<StockRow>)
      ensures rows == Snapshot(products, production, lines)
    {
      var sorted := SortBy(products, NameKey);
      rows := [];
      for i := 0 to |sorted|
        invariant rows == Snapshot(products, production, lines)[..i]
      {
        var row := StockEntry(sorted[i]);
        rows := rows + [row];
      }
    }

    /** The line loop shared by the order detail page, the checklist and the
        day sheet: each joined line converted by the views' rule, with running
        totals of kilograms and trays. */
    method Tally(q: seq<DetailLine>) returns (rows: seq<LineView>, totalKg: real, totalTrays: real)
      ensures rows == ViewsOf(q) && totalKg == SumBy(q, ViewKg) && totalTrays == SumBy(q, ViewTrays)
    {
      rows, totalKg, totalTrays := [], 0.0, 0.0;
      for i := 0 to |q|
        invariant rows == ViewsOf(q)[..i]
        invariant totalKg == SumBy(q[..i], ViewKg) && totalTrays == SumBy(q[..i], ViewTrays)
      {
        assert q[..i + 1][..i] == q[..i];
        var v := ViewOf(q[i]);
        totalKg := totalKg + v.kg;
        totalTrays := totalTrays + v.trays;
        rows := rows + [v];
      }
      assert q[..|q|] == q;
    }

    /** The lines of one order, in product-name order, as printed. */
    method SheetLines(orderId: int) returns (rows: seq<LineView>, totalKg: real, totalTrays: real)
      ensures var q := SheetQuery(lines, products, orderId);
        rows == ViewsOf(q) && totalKg == SumBy(q, ViewKg) && totalTrays == SumBy(q, ViewTrays)
    {
      var q := SheetQuery(lines, products, orderId);
      rows, totalKg, totalTrays := Tally(q);
    }

    /** The sheet of one order as the detail page, the checklist and the day
        sheet build it: the header, then the line loop. */
    method Sheet(h: Header) returns (sheet: OrderSheet)
      ensures sheet == SheetOf(lines, products, h)
    {
      var rows, totalKg, totalTrays := SheetLines(h.orderId);
      sheet := OrderSheet(h, rows, totalKg, totalTrays);
    }

    /** The order detail page: nothing when the order (or its client) is not
        found, otherwise its header, lines and totals. */
    method OrderDetail(orderId: int) returns (sheet: Option<OrderSheet>)
      ensures sheet.None? <==> HeaderOf(orders, clients, orderId).None?
      ensures sheet.Some? ==> sheet.value == SheetOf(lines, products, HeaderOf(orders, clients, orderId).value)
    {
      var h := HeaderOf(orders, clients, orderId);
      if h.None? {
        return None;
      }
      var s := Sheet(h.value);
      sheet := Some(s);
    }

    /** The loop of the day sheet: the sheet of each header, in turn. */
    method SheetsOf(hs: seq<Header>) returns (sheets: seq<OrderSheet>)
      ensures |sheets| == |hs|
      ensures forall k :: 0 <= k < |hs| ==> sheets[k] == SheetOf(lines, products, hs[k])
    {
      sheets := [];
      for i := 0 to |hs|
        invariant |sheets| == i
        invariant forall k :: 0 <= k < i ==> sheets[k] == SheetOf(lines, products, hs[k])
      {
        var sheet := Sheet(hs[i]);
        sheets := sheets + [sheet];
      }
    }

    /** The day sheet: one sheet per order of the date (today's when the
        field is empty), by client name, then order id; an empty result is
        the "no orders" case. */
    method DaySheets(dateField: string, today: string) returns (sheets: seq<OrderSheet>)
      ensures sheets == DaySheet(lines, orders, clients, products, DateOrToday(dateField, today))
    {
      var date := DateOrToday(dateField, today);
      var hs := DayHeaders(orders, clients, date);
      sheets := SheetsOf(hs);
    }

    /** The load list of a date (today's when the field is empty): one row
        per order line of that date's orders, by client then product name,
        converted by the views' rule. */
    method LoadList(dateField: string, today: string) returns (rows: seq<LoadRow>)
      ensures var q := LoadQuery(lines, orders, clients, products, DateOrToday(dateField, today));
        |rows| == |q| && forall i :: 0 <= i < |q| ==> rows[i] == LoadRowOf(q[i])
      ensures |rows| == |JoinLoad(lines, orders, clients, products, DateOrToday(dateField, today))|
    {
      var date := DateOrToday(dateField, today);
      var q := LoadQuery(lines, orders, clients, products, date);
      rows := [];
      for i := 0 to |q|
        invariant |rows| == i
        invariant forall k :: 0 <= k < i ==> rows[k] == LoadRowOf(q[k])
      {
        rows := rows + [LoadRowOf(q[i])];
      }
    }
  }
}
