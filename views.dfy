/** The queries behind the order views: the order detail page and the
    single-order checklist, the day's order sheets and the load list. Each is
    a join of the tables followed by an `ORDER BY`; every printed line is
    converted by the views' rule, `ViewConvert`. */
module OrderViews {
  import opened Wrappers
  import opened Units
  import opened Schema
  import opened Aggregates
  import opened Collation

  /** A header row: an order joined with its client. */
  datatype Header = Header(orderId: int, date: string, clientName: string, clientCode: Option<string>)

  /** An order line joined with its product. */
  datatype DetailLine = DetailLine(qty: real, tipo: Tipo, productName: string,
                                   productCode: Option<string>, factor: real)

  /** A printed line: product, kilograms and trays. */
  datatype LineView = LineView(productName: string, productCode: Option<string>, kg: real, trays: real)

  /** One order as the detail page, the checklist and the day sheet show it. */
  datatype OrderSheet = OrderSheet(header: Header, rows: seq<LineView>, totalKg: real, totalTrays: real)

  /** A load-list source row: a line joined with its order, client and product. */
  datatype LoadSource = LoadSource(date: string, clientName: string, clientCode: Option<string>,
                                   productName: string, productCode: Option<string>,
                                   factor: real, qty: real, tipo: Tipo)

  /** A load-list row as written to the CSV file (before number formatting). */
  datatype LoadRow = LoadRow(date: string, clientName: string, clientCode: Option<string>,
                             productName: string, productCode: Option<string>,
                             trays: real, kg: real)

  /** One order joined with its client, `JOIN clienti c ON c.id =
      o.cliente_id`: no header when the client is gone. */
  function Joined(o: Order, clients: seq<Client>): (h: Option<Header>)
    ensures h.Some? <==> exists c :: c in clients && c.id == o.clientId
    ensures h.Some? ==> h.value.orderId == o.id && h.value.date == o.date
                        && (exists c :: c in clients && c.id == o.clientId
                              && h.value.clientName == c.name && h.value.clientCode == c.code)
  {
    match FindClient(clients, o.clientId)
    case None => None
    case Some(c) => Some(Header(o.id, o.date, c.name, c.code))
  }

  /** `FROM ordini o JOIN clienti c ON c.id = o.cliente_id WHERE o.id = ?`:
      a header exactly when the order exists and so does its client. */
  function HeaderOf(orders: seq<Order>, clients: seq<Client>, orderId: int): (h: Option<Header>)
    ensures h.Some? ==> exists o, c :: o in orders && c in clients && o.id == orderId
                         && c.id == o.clientId && h.value == Header(o.id, o.date, c.name, c.code)
    ensures (forall o :: o in orders ==> o.id != orderId) ==> h.None?
    ensures (exists o :: o in orders && o.id == orderId)
            && (forall o :: o in orders && o.id == orderId ==> exists c :: c in clients && c.id == o.clientId)
            ==> h.Some?
  {
    match FindOrder(orders, orderId)
    case None => None
    case Some(o) => Joined(o, clients)
  }

  /** One line joined with its product: no detail line when the product is
      gone. */
  function Detailed(l: OrderLine, products: seq<Product>): (r: Option<DetailLine>)
    ensures r.Some? <==> exists p :: p in products && p.id == l.productId
    ensures r.Some? ==> r.value.qty == l.qty && r.value.tipo == l.tipo
                        && (exists p :: p in products && p.id == l.productId && r.value.productName == p.name
                              && r.value.productCode == p.code && r.value.factor == p.kgPerTray)
  {
    match FindProduct(products, l.productId)
    case None => None
    case Some(p) => Some(DetailLine(l.qty, l.tipo, p.name, p.code, p.kgPerTray))
  }

  /** `JOIN prodotti p ON p.id = ro.prodotto_id`: each line with its product's
      name, code and factor; a line whose product is gone drops out. */
  function JoinProducts(lines: seq<OrderLine>, products: seq<Product>): (r: seq<DetailLine>)
    ensures |r| <= |lines|
    ensures (forall l :: l in lines ==> FindProduct(products, l.productId).Some?) ==> |r| == |lines|
    ensures forall d :: d in r ==> exists l :: l in lines && Detailed(l, products) == Some(d)
    ensures forall l :: l in lines && Detailed(l, products).Some? ==> Detailed(l, products).value in r
  {
    if lines == [] then []
    else
      var rest := JoinProducts(lines[..|lines| - 1], products);
      var l := lines[|lines| - 1];
      assert forall l' :: l' in lines[..|lines| - 1] ==> l' in lines;
      assert forall l' :: l' in lines && l' != l ==> l' in lines[..|lines| - 1];
      match Detailed(l, products)
      case None => rest
      case Some(d) => rest + [d]
  }

  /** One line gives its detail line, or none when its product is gone. */
  lemma JoinProductsOne(l: OrderLine, products: seq<Product>)
    ensures JoinProducts([l], products)
            == (if Detailed(l, products).Some? then [Detailed(l, products).value] else [])
  {
    assert [l][..0] == [];
  }

  /** Joining two runs of lines joins each run and keeps them in order; with
      `JoinProductsOne`, this fixes that every line whose product exists
      gives exactly one detail line, in rowid order. */
  lemma {:induction false} JoinProductsAppend(a: seq<OrderLine>, b: seq<OrderLine>, products: seq<Product>)
    ensures JoinProducts(a + b, products) == JoinProducts(a, products) + JoinProducts(b, products)
  {
    if b == [] {
      assert a + b == a;
    } else {
      var b' := b[..|b| - 1];
      assert (a + b)[..|a + b| - 1] == a + b';
      assert (a + b)[|a + b| - 1] == b[|b| - 1];
      JoinProductsAppend(a, b', products);
      var left := JoinProducts(a, products);
      var right := JoinProducts(b', products);
      match Detailed(b[|b| - 1], products)
      case None =>
      case Some(x) =>
        assert left + (right + [x]) == (left + right) + [x];
    }
  }

  /** What one line prints, in kilograms and in trays, once joined with its
      product; a line whose product is gone prints nothing. */
  function LineKg(l: OrderLine, products: seq<Product>): real
  {
    match Detailed(l, products)
    case None => 0.0
    case Some(d) => ViewKg(d)
  }

  function LineTrays(l: OrderLine, products: seq<Product>): real
  {
    match Detailed(l, products)
    case None => 0.0
    case Some(d) => ViewTrays(d)
  }

  /** The sums over the joined lines are the sums over the lines themselves,
      each line counted once with what it prints. */
  lemma {:induction false} JoinProductsSums(lines: seq<OrderLine>, products: seq<Product>,
                                            kg: OrderLine -> real, trays: OrderLine -> real)
    requires forall l :: kg(l) == LineKg(l, products) && trays(l) == LineTrays(l, products)
    ensures SumBy(JoinProducts(lines, products), ViewKg) == SumBy(lines, kg)
    ensures SumBy(JoinProducts(lines, products), ViewTrays) == SumBy(lines, trays)
  {
    if lines != [] {
      var lines' := lines[..|lines| - 1];
      JoinProductsSums(lines', products, kg, trays);
      var rest := JoinProducts(lines', products);
      match Detailed(lines[|lines| - 1], products)
      case None =>
      case Some(d) =>
        assert (rest + [d])[..|rest + [d]| - 1] == rest;
    }
  }

  /** `ORDER BY p.nome` */
  function ProductKey(d: DetailLine): SortKey
  {
    SortKey(d.productName, "", 0)
  }

  /** The lines of one order, joined with their products, in product-name
      order: the second query of the detail page, the checklist and each
      order of the day sheet. */
  function SheetQuery(lines: seq<OrderLine>, products: seq<Product>, orderId: int): (r: seq<DetailLine>)
    ensures SortedBy(r, ProductKey)
    ensures |r| <= |Filter(lines, (l: OrderLine) => l.orderId == orderId)|
  {
    SortBy(JoinProducts(Filter(lines, (l: OrderLine) => l.orderId == orderId), products), ProductKey)
  }

  /** One printed line: the views' rule applied to the line's quantity, tag
      and its product's factor. */
  function ViewOf(d: DetailLine): (v: LineView)
    ensures v.productName == d.productName && v.productCode == d.productCode
    ensures d.tipo == Kg ==> v.kg == d.qty
    ensures d.tipo == Kg && d.factor != 0.0 ==> v.trays * d.factor == d.qty
    ensures d.tipo == Kg && d.factor == 0.0 ==> v.trays == 0.0
    ensures d.tipo != Kg ==> v.trays == d.qty && v.kg == d.qty * d.factor
  {
    var c := ViewConvert(d.qty, d.tipo, d.factor);
    LineView(d.productName, d.productCode, c.kg, c.trays)
  }

  function ViewKg(d: DetailLine): real
  {
    ViewOf(d).kg
  }

  function ViewTrays(d: DetailLine): real
  {
    ViewOf(d).trays
  }

  /** The printed lines of a sheet, one per joined line, in the same order. */
  function ViewsOf(ds: seq<DetailLine>): (vs: seq<LineView>)
  {
    seq(|ds|, i requires 0 <= i < |ds| => ViewOf(ds[i]))
  }

  /** The sheet of one order: its header, its printed lines and the running
      totals of their kilograms and trays. */
  function SheetOf(lines: seq<OrderLine>, products: seq<Product>, h: Header): (r: OrderSheet)
    ensures r.header == h
    ensures r.totalKg == SumBy(r.rows, RowKg) && r.totalTrays == SumBy(r.rows, RowTrays)
  {
    var q := SheetQuery(lines, products, h.orderId);
    TotalsAreRowSums(q);
    OrderSheet(h, ViewsOf(q), SumBy(q, ViewKg), SumBy(q, ViewTrays))
  }

  function RowKg(v: LineView): real
  {
    v.kg
  }

  function RowTrays(v: LineView): real
  {
    v.trays
  }

  /** The totals are the sums of the printed lines' kilograms and trays. */
  lemma {:induction false} TotalsAreRowSums(ds: seq<DetailLine>)
    ensures SumBy(ViewsOf(ds), RowKg) == SumBy(ds, ViewKg)
    ensures SumBy(ViewsOf(ds), RowTrays) == SumBy(ds, ViewTrays)
  {
    if ds != [] {
      var ds' := ds[..|ds| - 1];
      TotalsAreRowSums(ds');
      assert ViewsOf(ds)[..|ds| - 1] == ViewsOf(ds');
    }
  }

  /** An order's totals do not depend on the order its lines are printed in:
      they equal the sums over the lines in rowid order. */
  lemma SheetTotalsIgnoreOrder(lines: seq<OrderLine>, products: seq<Product>, orderId: int)
    ensures var joined := JoinProducts(Filter(lines, (l: OrderLine) => l.orderId == orderId), products);
      && SumBy(SheetQuery(lines, products, orderId), ViewKg) == SumBy(joined, ViewKg)
      && SumBy(SheetQuery(lines, products, orderId), ViewTrays) == SumBy(joined, ViewTrays)
  {
    var joined := JoinProducts(Filter(lines, (l: OrderLine) => l.orderId == orderId), products);
    SumByPermutation(SheetQuery(lines, products, orderId), joined, ViewKg);
    SumByPermutation(SheetQuery(lines, products, orderId), joined, ViewTrays);
  }

  /** An order's totals are the sums over all stored lines of what each line
      of that order prints, and 0 for every other line: each line of the
      order is counted exactly once, whatever the order it is printed in. */
  lemma OrderTotalsFromLines(lines: seq<OrderLine>, products: seq<Product>, h: Header,
                             kg: OrderLine -> real, trays: OrderLine -> real)
    requires forall l :: kg(l) == (if l.orderId == h.orderId then LineKg(l, products) else 0.0)
    requires forall l :: trays(l) == (if l.orderId == h.orderId then LineTrays(l, products) else 0.0)
    ensures SheetOf(lines, products, h).totalKg == SumBy(lines, kg)
    ensures SheetOf(lines, products, h).totalTrays == SumBy(lines, trays)
  {
    var keep := (l: OrderLine) => l.orderId == h.orderId;
    var lineKg := (l: OrderLine) => LineKg(l, products);
    var lineTrays := (l: OrderLine) => LineTrays(l, products);
    SheetTotalsIgnoreOrder(lines, products, h.orderId);
    JoinProductsSums(Filter(lines, keep), products, lineKg, lineTrays);
    SumByFilter(lines, keep, lineKg, kg);
    SumByFilter(lines, keep, lineTrays, trays);
  }

  /** `FROM ordini o JOIN clienti c ON o.cliente_id = c.id`: orders whose
      client is gone drop out; every other order gives its header. */
  function JoinClients(orders: seq<Order>, clients: seq<Client>): (r: seq<Header>)
    ensures |r| <= |orders|
    ensures forall h :: h in r ==> exists o :: o in orders && Joined(o, clients) == Some(h)
    ensures forall o :: o in orders && Joined(o, clients).Some? ==> Joined(o, clients).value in r
  {
    if orders == [] then []
    else
      var rest := JoinClients(orders[..|orders| - 1], clients);
      var o := orders[|orders| - 1];
      assert forall o' :: o' in orders[..|orders| - 1] ==> o' in orders;
      assert forall o' :: o' in orders && o' != o ==> o' in orders[..|orders| - 1];
      match Joined(o, clients)
      case None => rest
      case Some(h) => rest + [h]
  }

  /** One order gives its header, or none when its client is gone. */
  lemma JoinClientsOne(o: Order, clients: seq<Client>)
    ensures JoinClients([o], clients)
            == (if Joined(o, clients).Some? then [Joined(o, clients).value] else [])
  {
    assert [o][..0] == [];
  }

  /** Joining two runs of orders joins each run and keeps them in order; with
      `JoinClientsOne`, this fixes that every order whose client exists gives
      exactly one header. */
  lemma {:induction false} JoinClientsAppend(a: seq<Order>, b: seq<Order>, clients: seq<Client>)
    ensures JoinClients(a + b, clients) == JoinClients(a, clients) + JoinClients(b, clients)
  {
    if b == [] {
      assert a + b == a;
    } else {
      var b' := b[..|b| - 1];
      assert (a + b)[..|a + b| - 1] == a + b';
      assert (a + b)[|a + b| - 1] == b[|b| - 1];
      JoinClientsAppend(a, b', clients);
      var left := JoinClients(a, clients);
      var right := JoinClients(b', clients);
      match Joined(b[|b| - 1], clients)
      case None =>
      case Some(x) =>
        assert left + (right + [x]) == (left + right) + [x];
    }
  }

  /** `ORDER BY c.nome ASC, o.id ASC` */
  function DayKey(h: Header): SortKey
  {
    SortKey(h.clientName, "", h.orderId)
  }

  /** The orders of one day with their clients, by client name then order id. */
  function DayHeaders(orders: seq<Order>, clients: seq<Client>, date: string): (r: seq<Header>)
    ensures SortedBy(r, DayKey)
    ensures |r| <= |orders|
  {
    SortBy(JoinClients(Filter(orders, (o: Order) => o.date == date), clients), DayKey)
  }

  /** The day sheet (`stampa_giorno`): the sheet of every order of the day,
      in the order of its headers. */
  function DaySheet(lines: seq<OrderLine>, orders: seq<Order>, clients: seq<Client>,
                    products: seq<Product>, date: string): (r: seq<OrderSheet>)
    ensures |r| == |DayHeaders(orders, clients, date)|
    ensures forall i :: 0 <= i < |r| ==> r[i].header.date == date
  {
    DayHeadersSound(orders, clients, date);
    var hs := DayHeaders(orders, clients, date);
    assert forall i :: 0 <= i < |hs| ==> hs[i] in hs;
    seq(|hs|, i requires 0 <= i < |hs| => SheetOf(lines, products, hs[i]))
  }

  /** The day sheet has a header for exactly the orders of that date whose
      client exists, and the headers come by client name, then by order id
      within one client. */
  lemma DayHeadersOfDate(orders: seq<Order>, clients: seq<Client>, date: string)
    ensures var hs := DayHeaders(orders, clients, date);
      && (forall h :: h in hs ==>
            h.date == date && exists o :: o in orders && o.date == date && Joined(o, clients) == Some(h))
      && (forall o :: o in orders && o.date == date && Joined(o, clients).Some? ==>
            Joined(o, clients).value in hs)
      && (forall i :: 0 <= i < |hs| - 1 ==>
            NameLeq(hs[i].clientName, hs[i + 1].clientName)
            && (hs[i].clientName == hs[i + 1].clientName ==> hs[i].orderId <= hs[i + 1].orderId))
  {
    DayHeadersSound(orders, clients, date);
    DayHeadersComplete(orders, clients, date);
    var hs := DayHeaders(orders, clients, date);
    forall i | 0 <= i < |hs| - 1
      ensures NameLeq(hs[i].clientName, hs[i + 1].clientName)
      ensures hs[i].clientName == hs[i + 1].clientName ==> hs[i].orderId <= hs[i + 1].orderId
    {
      NameLeqTotal(hs[i].clientName, hs[i].clientName);
      assert KeyLeq(DayKey(hs[i]), DayKey(hs[i + 1]));
    }
  }

  lemma DayHeadersSound(orders: seq<Order>, clients: seq<Client>, date: string)
    ensures forall h :: h in DayHeaders(orders, clients, date) ==>
              h.date == date && exists o :: o in orders && o.date == date && Joined(o, clients) == Some(h)
  {
    var mine := Filter(orders, (o: Order) => o.date == date);
    var joined := JoinClients(mine, clients);
    forall h | h in DayHeaders(orders, clients, date)
      ensures h.date == date && exists o :: o in orders && o.date == date && Joined(o, clients) == Some(h)
    {
      assert h in multiset(joined);
      var o :| o in mine && Joined(o, clients) == Some(h);
      var k :| 0 <= k < |mine| && mine[k] == o;
    }
  }

  lemma DayHeadersComplete(orders: seq<Order>, clients: seq<Client>, date: string)
    ensures forall o :: o in orders && o.date == date && Joined(o, clients).Some? ==>
              Joined(o, clients).value in DayHeaders(orders, clients, date)
  {
    var mine := Filter(orders, (o: Order) => o.date == date);
    var joined := JoinClients(mine, clients);
    forall o | o in orders && o.date == date && Joined(o, clients).Some?
      ensures Joined(o, clients).value in DayHeaders(orders, clients, date)
    {
      var k :| 0 <= k < |orders| && orders[k] == o;
      assert o in mine;
      assert Joined(o, clients).value in multiset(joined);
    }
  }

  /** One line joined with its order, client and product, when its order is
      of the given date and none of the three is missing. */
  function LoadJoined(l: OrderLine, orders: seq<Order>, clients: seq<Client>,
                      products: seq<Product>, date: string): (r: Option<LoadSource>)
    ensures r.Some? <==>
              (exists o :: o in orders && o.id == l.orderId)
              && FindOrder(orders, l.orderId).value.date == date
              && (exists c :: c in clients && c.id == FindOrder(orders, l.orderId).value.clientId)
              && (exists p :: p in products && p.id == l.productId)
    ensures r.Some? ==> r.value.date == date && r.value.qty == l.qty && r.value.tipo == l.tipo
    ensures r.Some? ==>
              FindOrder(orders, l.orderId).Some?
              && exists c, p :: c in clients && c.id == FindOrder(orders, l.orderId).value.clientId
                   && p in products && p.id == l.productId
                   && r.value.clientName == c.name && r.value.clientCode == c.code
                   && r.value.productName == p.name && r.value.productCode == p.code
                   && r.value.factor == p.kgPerTray
  {
    match FindOrder(orders, l.orderId)
    case None => None
    case Some(o) =>
      if o.date != date then None
      else
        match FindClient(clients, o.clientId)
        case None => None
        case Some(c) =>
          match FindProduct(products, l.productId)
          case None => None
          case Some(p) => Some(LoadSource(o.date, c.name, c.code, p.name, p.code, p.kgPerTray, l.qty, l.tipo))
  }

  /** The load list's join: each line with its order, client and product,
      for orders of the given date; lines missing any of the three drop out. */
  function JoinLoad(lines: seq<OrderLine>, orders: seq<Order>, clients: seq<Client>,
                    products: seq<Product>, date: string): (r: seq<LoadSource>)
    ensures |r| <= |lines|
    ensures forall s :: s in r ==> s.date == date
    ensures forall s :: s in r ==> exists l :: l in lines && LoadJoined(l, orders, clients, products, date) == Some(s)
    ensures forall l :: l in lines && LoadJoined(l, orders, clients, products, date).Some? ==>
              LoadJoined(l, orders, clients, products, date).value in r
  {
    if lines == [] then []
    else
      var rest := JoinLoad(lines[..|lines| - 1], orders, clients, products, date);
      var l := lines[|lines| - 1];
      assert forall l' :: l' in lines[..|lines| - 1] ==> l' in lines;
      assert forall l' :: l' in lines && l' != l ==> l' in lines[..|lines| - 1];
      match LoadJoined(l, orders, clients, products, date)
      case None => rest
      case Some(s) => rest + [s]
  }

  /** One line gives its load-list row, or none when it does not join. */
  lemma JoinLoadOne(l: OrderLine, orders: seq<Order>, clients: seq<Client>,
                    products: seq<Product>, date: string)
    ensures JoinLoad([l], orders, clients, products, date)
            == (if LoadJoined(l, orders, clients, products, date).Some?
                then [LoadJoined(l, orders, clients, products, date).value] else [])
  {
    assert [l][..0] == [];
  }

  /** Joining two runs of lines joins each run and keeps them in order; with
      `JoinLoadOne`, this fixes that every line that joins gives exactly one
      load-list row. */
  lemma {:induction false} JoinLoadAppend(a: seq<OrderLine>, b: seq<OrderLine>, orders: seq<Order>,
                                          clients: seq<Client>, products: seq<Product>, date: string)
    ensures JoinLoad(a + b, orders, clients, products, date)
            == JoinLoad(a, orders, clients, products, date) + JoinLoad(b, orders, clients, products, date)
  {
    if b == [] {
      assert a + b == a;
    } else {
      var b' := b[..|b| - 1];
      assert (a + b)[..|a + b| - 1] == a + b';
      assert (a + b)[|a + b| - 1] == b[|b| - 1];
      JoinLoadAppend(a, b', orders, clients, products, date);
      var left := JoinLoad(a, orders, clients, products, date);
      var right := JoinLoad(b', orders, clients, products, date);
      match LoadJoined(b[|b| - 1], orders, clients, products, date)
      case None =>
      case Some(s) =>
        assert left + (right + [s]) == (left + right) + [s];
    }
  }

  /** The load list has as many rows as there are lines that join: one row
      per line of the date's orders whose order, client and product exist. */
  lemma {:induction false} LoadListOnePerLine(lines: seq<OrderLine>, orders: seq<Order>, clients: seq<Client>,
                                              products: seq<Product>, date: string, joins: OrderLine -> bool)
    requires forall l :: joins(l) == LoadJoined(l, orders, clients, products, date).Some?
    ensures |JoinLoad(lines, orders, clients, products, date)| == CountBy(lines, joins)
    ensures multiset(LoadQuery(lines, orders, clients, products, date))
            == multiset(JoinLoad(lines, orders, clients, products, date))
  {
    if lines != [] {
      LoadListOnePerLine(lines[..|lines| - 1], orders, clients, products, date, joins);
    }
  }

  /** `ORDER BY c.nome, p.nome` */
  function LoadKey(s: LoadSource): SortKey
  {
    SortKey(s.clientName, s.productName, 0)
  }

  /** The rows of the load list, by client name then product name. */
  function LoadQuery(lines: seq<OrderLine>, orders: seq<Order>, clients: seq<Client>,
                     products: seq<Product>, date: string): (r: seq<LoadSource>)
    ensures SortedBy(r, LoadKey)
    ensures |r| <= |lines| && |r| == |JoinLoad(lines, orders, clients, products, date)|
  {
    SortBy(JoinLoad(lines, orders, clients, products, date), LoadKey)
  }

  /** One CSV row: the views' rule again, trays before kilograms. */
  function LoadRowOf(s: LoadSource): (r: LoadRow)
    ensures r.date == s.date && r.clientName == s.clientName && r.productName == s.productName
    ensures r.clientCode == s.clientCode && r.productCode == s.productCode
    ensures s.tipo == Kg ==> r.kg == s.qty
    ensures s.tipo == Kg && s.factor != 0.0 ==> r.trays * s.factor == s.qty
    ensures s.tipo == Kg && s.factor == 0.0 ==> r.trays == 0.0
    ensures s.tipo != Kg ==> r.trays == s.qty && r.kg == s.qty * s.factor
  {
    var c := ViewConvert(s.qty, s.tipo, s.factor);
    LoadRow(s.date, s.clientName, s.clientCode, s.productName, s.productCode, c.trays, c.kg)
  }

  /** The load list has a row for exactly the lines of orders of the
      requested date whose order, client and product exist, and the rows come
      by client name, then by product name within one client. */
  lemma LoadListOrdered(lines: seq<OrderLine>, orders: seq<Order>, clients: seq<Client>,
                        products: seq<Product>, date: string)
    ensures var q := LoadQuery(lines, orders, clients, products, date);
      && (forall s :: s in q ==>
            s.date == date && exists l :: l in lines && LoadJoined(l, orders, clients, products, date) == Some(s))
      && (forall l :: l in lines && LoadJoined(l, orders, clients, products, date).Some? ==>
            LoadJoined(l, orders, clients, products, date).value in q)
      && (forall i :: 0 <= i < |q| - 1 ==>
            NameLeq(q[i].clientName, q[i + 1].clientName)
            && (q[i].clientName == q[i + 1].clientName ==> NameLeq(q[i].productName, q[i + 1].productName)))
  {
    var q := LoadQuery(lines, orders, clients, products, date);
    var joined := JoinLoad(lines, orders, clients, products, date);
    forall s | s in q
      ensures s.date == date && exists l :: l in lines && LoadJoined(l, orders, clients, products, date) == Some(s)
    {
      assert s in multiset(joined);
    }
    forall l | l in lines && LoadJoined(l, orders, clients, products, date).Some?
      ensures LoadJoined(l, orders, clients, products, date).value in q
    {
      assert LoadJoined(l, orders, clients, products, date).value in multiset(joined);
    }
    forall i | 0 <= i < |q| - 1
      ensures NameLeq(q[i].clientName, q[i + 1].clientName)
      ensures q[i].clientName == q[i + 1].clientName ==> NameLeq(q[i].productName, q[i + 1].productName)
    {
      NameLeqTotal(q[i].clientName, q[i].clientName);
      NameLeqTotal(q[i].productName, q[i].productName);
      assert KeyLeq(LoadKey(q[i]), LoadKey(q[i + 1]));
    }
  }
}
