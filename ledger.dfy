/** The stock ledger: for every product, the trays it started with, the trays
    produced, the trays ordered (every order line converted to trays by the
    ledger's rule) and what is left, in trays and in kilograms. The snapshot is
    a function of the three tables and nothing else; nothing is cached. */
module StockLedger {
  import opened Wrappers
  import opened Units
  import opened Schema
  import opened Aggregates
  import opened Collation

  /** One entry of the snapshot (a dict of `calcola_magazzino`). */
  datatype StockRow = StockRow(
    id: int, code: Option<string>, name: string, kgPerTray: real,
    initialTrays: real, producedTrays: real, orderedTrays: real,
    netTrays: real, netKg: real)

  /** `ORDER BY nome` */
  function NameKey(p: Product): SortKey
  {
    SortKey(p.name, "", 0)
  }

  /** `SELECT COALESCE(SUM(vaschette_prodotte), 0) FROM produzione
      WHERE prodotto_id = ?` */
  function ProducedTrays(production: seq<ProductionEntry>, pid: int): real
  {
    SumBy(Filter(production, (e: ProductionEntry) => e.productId == pid),
          (e: ProductionEntry) => e.trays)
  }

  /** The trays one order line takes from product `p`: the ledger's rule for
      lines of `p`, nothing for lines of other products. */
  function LineTrays(p: Product): OrderLine -> real
  {
    (l: OrderLine) => if l.productId == p.id then LedgerTrays(l.qty, l.tipo, p.kgPerTray) else 0.0
  }

  /** `ordinate_v`: every line of `p`, converted to trays and added up; lines
      of other products take nothing. */
  function OrderedTrays(lines: seq<OrderLine>, p: Product): real
  {
    SumBy(lines, LineTrays(p))
  }

  /** The snapshot entry of one product. */
  function StockOf(p: Product, production: seq<ProductionEntry>, lines: seq<OrderLine>): StockRow
  {
    var produced := ProducedTrays(production, p.id);
    var ordered := OrderedTrays(lines, p);
    var net := p.initialTrays + produced - ordered;
    StockRow(p.id, p.code, p.name, p.kgPerTray, p.initialTrays, produced, ordered,
             net, net * p.kgPerTray)
  }

  /** The two identities every snapshot entry satisfies. */
  predicate Balanced(row: StockRow)
  {
    row.netTrays == row.initialTrays + row.producedTrays - row.orderedTrays
    && row.netKg == row.netTrays * row.kgPerTray
  }

  /** The whole snapshot (`calcola_magazzino`): the products in name order,
      each with its entry. */
  function Snapshot(products: seq<Product>, production: seq<ProductionEntry>,
                    lines: seq<OrderLine>): (r: seq<StockRow>)
    ensures |r| == |products|
  {
    var sorted := SortBy(products, NameKey);
    seq(|sorted|, i requires 0 <= i < |sorted| => StockOf(sorted[i], production, lines))
  }

  /** Every snapshot entry is balanced: net = initial + produced - ordered
      trays, and net kilograms = net trays times the product's factor. */
  lemma {:induction false} SnapshotBalanced(products: seq<Product>, production: seq<ProductionEntry>,
                                            lines: seq<OrderLine>)
    ensures forall row :: row in Snapshot(products, production, lines) ==> Balanced(row)
  {
    var sorted := SortBy(products, NameKey);
    var rows := Snapshot(products, production, lines);
    forall i | 0 <= i < |rows|
      ensures Balanced(rows[i])
    {
      StockOfBalanced(sorted[i], production, lines);
    }
  }

  lemma StockOfBalanced(p: Product, production: seq<ProductionEntry>, lines: seq<OrderLine>)
    ensures Balanced(StockOf(p, production, lines))
  {
  }

  /** The snapshot lists the products in name order. */
  lemma {:induction false} SnapshotSorted(products: seq<Product>, production: seq<ProductionEntry>,
                                          lines: seq<OrderLine>)
    ensures var rows := Snapshot(products, production, lines);
      forall i :: 0 <= i < |rows| - 1 ==> NameLeq(rows[i].name, rows[i + 1].name)
  {
    var sorted := SortBy(products, NameKey);
    var rows := Snapshot(products, production, lines);
    forall i | 0 <= i < |rows| - 1 ensures NameLeq(rows[i].name, rows[i + 1].name) {
      NameLeqTotal(sorted[i].name, sorted[i].name);
      assert KeyLeq(NameKey(sorted[i]), NameKey(sorted[i + 1]));
    }
  }

  /** The snapshot has one entry per product row: as many entries as rows,
      every product's entry present, and every entry some product's. */
  lemma {:induction false} SnapshotCoversProducts(products: seq<Product>, production: seq<ProductionEntry>,
                                                  lines: seq<OrderLine>)
    ensures |Snapshot(products, production, lines)| == |products|
    ensures forall p :: p in products ==> StockOf(p, production, lines) in Snapshot(products, production, lines)
    ensures forall row :: row in Snapshot(products, production, lines) ==>
              exists p :: p in products && row == StockOf(p, production, lines)
  {
    var sorted := SortBy(products, NameKey);
    var rows := Snapshot(products, production, lines);
    forall p | p in products ensures StockOf(p, production, lines) in rows {
      assert p in multiset(sorted);
      var k :| 0 <= k < |sorted| && sorted[k] == p;
      assert rows[k] == StockOf(p, production, lines);
    }
    forall row | row in rows
      ensures exists p :: p in products && row == StockOf(p, production, lines)
    {
      var i :| 0 <= i < |rows| && rows[i] == row;
      assert sorted[i] in multiset(products);
      assert sorted[i] in products;
      assert rows[i] == StockOf(sorted[i], production, lines);
    }
  }

  /** A product with no production rows has produced nothing. */
  lemma {:induction false} NothingProduced(production: seq<ProductionEntry>, pid: int)
    requires forall e :: e in production ==> e.productId != pid
    ensures ProducedTrays(production, pid) == 0.0
  {
  }

  /** Production rows that are never negative add up to a total that is not
      negative. */
  lemma ProducedNonNegative(production: seq<ProductionEntry>, pid: int)
    requires forall e :: e in production ==> e.trays >= 0.0
    ensures ProducedTrays(production, pid) >= 0.0
  {
    var mine := Filter(production, (e: ProductionEntry) => e.productId == pid);
    SumByNonNegative(mine, (e: ProductionEntry) => e.trays);
  }

  /** Lines of other products take nothing from `p`. */
  lemma NothingOrdered(lines: seq<OrderLine>, p: Product)
    requires forall l :: l in lines ==> l.productId != p.id
    ensures OrderedTrays(lines, p) == 0.0
  {
    SumByZero(lines, LineTrays(p));
  }

  /** A product nothing was produced or ordered for still has its initial
      stock, in trays and in kilograms. */
  lemma StockOfUntouched(p: Product, production: seq<ProductionEntry>, lines: seq<OrderLine>)
    requires forall e :: e in production ==> e.productId != p.id
    requires forall l :: l in lines ==> l.productId != p.id
    ensures StockOf(p, production, lines).netTrays == p.initialTrays
    ensures StockOf(p, production, lines).netKg == p.initialTrays * p.kgPerTray
  {
    NothingProduced(production, p.id);
    NothingOrdered(lines, p);
  }

  /** The produced total is the production column summed over the rows of
      the product, with other products' rows counting zero; so it does not
      depend on the order of the production rows. */
  lemma {:induction false} ProducedIgnoresOrder(a: seq<ProductionEntry>, b: seq<ProductionEntry>, pid: int)
    requires multiset(a) == multiset(b)
    ensures ProducedTrays(a, pid) == ProducedTrays(b, pid)
  {
    var keep := (e: ProductionEntry) => e.productId == pid;
    var trays := (e: ProductionEntry) => e.trays;
    var masked := (e: ProductionEntry) => if e.productId == pid then e.trays else 0.0;
    SumByFilter(a, keep, trays, masked);
    SumByFilter(b, keep, trays, masked);
    SumByPermutation(a, b, masked);
  }

  /** The ordered total does not depend on the order of the order lines. */
  lemma {:induction false} OrderedIgnoresOrder(a: seq<OrderLine>, b: seq<OrderLine>, p: Product)
    requires multiset(a) == multiset(b)
    ensures OrderedTrays(a, p) == OrderedTrays(b, p)
  {
    SumByPermutation(a, b, LineTrays(p));
  }

  /** Appending a production row adds its trays to its product's total and
      leaves every other product's total alone. */
  lemma {:induction false} ProducedAfterAppend(production: seq<ProductionEntry>, e: ProductionEntry, pid: int)
    ensures ProducedTrays(production + [e], pid)
            == ProducedTrays(production, pid) + (if e.productId == pid then e.trays else 0.0)
  {
    var keep := (x: ProductionEntry) => x.productId == pid;
    var s := production + [e];
    assert s[..|s| - 1] == production;
    var r := Filter(production, keep);
    if e.productId == pid {
      assert Filter(s, keep) == r + [e];
      assert (r + [e])[..|r + [e]| - 1] == r;
    } else {
      assert Filter(s, keep) == r;
    }
  }

  /** Appending order lines adds what they take from each product. */
  lemma {:induction false} OrderedAfterAppend(lines: seq<OrderLine>, added: seq<OrderLine>, p: Product)
    ensures OrderedTrays(lines + added, p) == OrderedTrays(lines, p) + OrderedTrays(added, p)
  {
    SumByAppend(lines, added, LineTrays(p));
  }

  /** Recording production of `e.trays` trays raises the net stock of
      `e.productId` by exactly that much and leaves other products' entries
      as they were. */
  lemma {:induction false} StockAfterProduction(p: Product, production: seq<ProductionEntry>,
                                                lines: seq<OrderLine>, e: ProductionEntry)
    ensures var before := StockOf(p, production, lines);
            var after := StockOf(p, production + [e], lines);
            after.id == before.id && after.orderedTrays == before.orderedTrays
            && after.producedTrays == before.producedTrays + (if e.productId == p.id then e.trays else 0.0)
            && after.netTrays == before.netTrays + (if e.productId == p.id then e.trays else 0.0)
            && (e.productId != p.id ==> after == before)
  {
    ProducedAfterAppend(production, e, p.id);
  }

  /** The same, entry by entry over the whole snapshot. */
  lemma {:induction false} SnapshotAfterProduction(products: seq<Product>, production: seq<ProductionEntry>,
                                                   lines: seq<OrderLine>, e: ProductionEntry)
    ensures |Snapshot(products, production + [e], lines)| == |Snapshot(products, production, lines)|
    ensures forall i :: 0 <= i < |Snapshot(products, production, lines)| ==>
              var before := Snapshot(products, production, lines)[i];
              var after := Snapshot(products, production + [e], lines)[i];
              after.id == before.id && after.orderedTrays == before.orderedTrays
              && after.netTrays == before.netTrays + (if e.productId == before.id then e.trays else 0.0)
              && (e.productId != before.id ==> after == before)
  {
    var sorted := SortBy(products, NameKey);
    var rows := Snapshot(products, production, lines);
    var rows' := Snapshot(products, production + [e], lines);
    forall i | 0 <= i < |sorted|
      ensures rows'[i].id == rows[i].id && rows'[i].orderedTrays == rows[i].orderedTrays
              && rows'[i].netTrays == rows[i].netTrays + (if e.productId == rows[i].id then e.trays else 0.0)
              && (e.productId != rows[i].id ==> rows'[i] == rows[i])
    {
      assert rows[i] == StockOf(sorted[i], production, lines);
      assert rows'[i] == StockOf(sorted[i], production + [e], lines);
      StockAfterProduction(sorted[i], production, lines, e);
    }
  }

  /** Adding order lines lowers each product's net stock by the trays those
      lines take from it under the ledger's rule. */
  lemma {:induction false} SnapshotAfterOrder(products: seq<Product>, production: seq<ProductionEntry>,
                           lines: seq<OrderLine>, added: seq<OrderLine>)
    ensures |Snapshot(products, production, lines + added)| == |Snapshot(products, production, lines)|
    ensures forall i :: 0 <= i < |Snapshot(products, production, lines)| ==>
              var before := Snapshot(products, production, lines)[i];
              var after := Snapshot(products, production, lines + added)[i];
              after.id == before.id && after.producedTrays == before.producedTrays
              && exists p :: p in products && before == StockOf(p, production, lines)
                   && after == StockOf(p, production, lines + added)
                   && after.orderedTrays == before.orderedTrays + OrderedTrays(added, p)
                   && after.netTrays == before.netTrays - OrderedTrays(added, p)
  {
    var sorted := SortBy(products, NameKey);
    forall i | 0 <= i < |sorted|
      ensures OrderedTrays(lines + added, sorted[i]) == OrderedTrays(lines, sorted[i]) + OrderedTrays(added, sorted[i])
      ensures sorted[i] in products
    {
      OrderedAfterAppend(lines, added, sorted[i]);
      assert sorted[i] in multiset(products);
    }
  }

  /** On lines tagged "kg" or "v" and a product whose factor is not
      negative, the ledger takes exactly the trays the order views print for
      that product's lines. */
  lemma {:induction false} LedgerMatchesViews(lines: seq<OrderLine>, p: Product)
    requires p.kgPerTray >= 0.0
    requires forall l :: l in lines ==> l.tipo == Kg || l.tipo == V
    ensures OrderedTrays(lines, p)
            == SumBy(lines, (l: OrderLine) => if l.productId == p.id
                                                then ViewConvert(l.qty, l.tipo, p.kgPerTray).trays
                                                else 0.0)
  {
    var view := (l: OrderLine) => if l.productId == p.id
                                   then ViewConvert(l.qty, l.tipo, p.kgPerTray).trays
                                   else 0.0;
    forall l | l in lines ensures LineTrays(p)(l) == view(l) {
      RulesAgreeOnIntakeTags(l.qty, l.tipo, p.kgPerTray);
    }
    SumByCongruent(lines, LineTrays(p), view);
  }

  /** The worked example: factor 2.5, 10 trays initially, 20 produced, one
      line of 5 trays and one of 25 kg give 15 ordered, 15 left, 37.5 kg. */
  lemma {:induction false} WorkedExample()
    ensures var p := Product(1, None, "Tagliatelle", 2.5, 10.0);
            var production := [ProductionEntry(1, "2024-05-02", 1, 20.0)];
            var lines := [OrderLine(1, 1, 1, 5.0, V), OrderLine(2, 1, 1, 25.0, Kg)];
            Snapshot([p], production, lines)
              == [StockRow(1, None, "Tagliatelle", 2.5, 10.0, 20.0, 15.0, 15.0, 37.5)]
  {
    var p := Product(1, None, "Tagliatelle", 2.5, 10.0);
    var production := [ProductionEntry(1, "2024-05-02", 1, 20.0)];
    var lines := [OrderLine(1, 1, 1, 5.0, V), OrderLine(2, 1, 1, 25.0, Kg)];
    var keep := (e: ProductionEntry) => e.productId == 1;
    assert production[..0] == [];
    assert Filter(production, keep) == production;
    assert ProducedTrays(production, 1) == 20.0;
    assert lines[..1][..0] == [] && lines[..1] == [lines[0]];
    assert LineTrays(p)(lines[0]) == 5.0;
    assert LineTrays(p)(lines[1]) == 10.0;
    assert SumBy(lines[..1], LineTrays(p)) == 5.0;
    assert OrderedTrays(lines, p) == 15.0;
    assert SortBy([p], NameKey) == [p];
  }
}
