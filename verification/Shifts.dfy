/** The shift summary: what the loops over a session's sales accumulate, and what it must add up to. */
module Shifts {
  import opened Base
  import opened Schema
  import opened Sorting
  import opened Core
  import opened CoreFacts
  import opened Ledger

  const UNKNOWN_PRODUCT := "Unknown product"

  datatype ProductLine = ProductLine(product: Id, name: string, quantity: int)
  datatype Summary = Summary(count: nat, sales: int, cash: int, qris: int, edc: int, products: seq<ProductLine>)

  // ---------- the query ----------

  /** Completed sales explicitly linked to the session. */
  predicate OfSession(db: Store, tenant: Id, session: Id, id: Id) {
    && id in db.sales && db.sales[id].tenant == tenant && db.sales[id].session == Some(session)
    && db.sales[id].status == Completed
  }

  /** created_at ascending, then id ascending. */
  predicate Earlier(db: Store, a: Id, b: Id) {
    && a in db.sales && b in db.sales
    && (db.sales[a].createdAt < db.sales[b].createdAt || (db.sales[a].createdAt == db.sales[b].createdAt && LexLe(a, b)))
  }

  ghost predicate InOrder(db: Store, ids: seq<Id>) {
    Core.Distinct(ids) && forall i, j :: 0 <= i < j < |ids| ==> Earlier(db, ids[i], ids[j])
  }

  /** A result of the query: each matching sale once, in order. */
  ghost predicate IsResult(db: Store, tenant: Id, session: Id, ids: seq<Id>) {
    && (forall id :: id in ids <==> OfSession(db, tenant, session, id))
    && InOrder(db, ids)
  }

  function Rows(db: Store, ids: seq<Id>): (rows: seq<Sale>)
    requires forall id <- ids :: id in db.sales
    ensures |rows| == |ids| && forall i :: 0 <= i < |ids| ==> rows[i] == db.sales[ids[i]]
  {
    seq(|ids|, i requires 0 <= i < |ids| => db.sales[ids[i]])
  }

  lemma SomeMember(ids: seq<Id>)
    requires |ids| > 0
    ensures exists id :: id in ids
  {
    assert ids[0] in ids;
  }

  /** The order is total, so the query has one result. */
  lemma {:induction false} OneOrder(db: Store, a: seq<Id>, b: seq<Id>)
    requires InOrder(db, a) && InOrder(db, b) && forall id :: id in a <==> id in b
    ensures a == b
  {
    if a == [] {
      if |b| > 0 {
        SomeMember(b);
        assert false;
      }
    } else {
      assert a[0] in b && b[0] in a;
      var i, j :| 0 <= i < |a| && a[i] == b[0] && 0 <= j < |b| && b[j] == a[0];
      if i > 0 && j > 0 {
        LexAntisymmetric(a[0], b[0]);
      }
      forall id ensures id in a[1..] <==> id in b[1..] {
        assert id in a <==> id == a[0] || id in a[1..];
        assert id in b <==> id == b[0] || id in b[1..];
      }
      OneOrder(db, a[1..], b[1..]);
    }
  }

  function InsertById(db: Store, id: Id, ids: seq<Id>): seq<Id> {
    if ids == [] || Earlier(db, id, ids[0]) then [id] + ids else [ids[0]] + InsertById(db, id, ids[1..])
  }

  lemma EarlierChain(db: Store, a: Id, b: Id, c: Id)
    requires a in db.sales && b in db.sales && c in db.sales
    ensures Earlier(db, a, b) || Earlier(db, b, a)
    ensures Earlier(db, a, b) && Earlier(db, b, c) ==> Earlier(db, a, c)
  {
    LexTotal(a, b);
    if LexLe(a, b) && LexLe(b, c) {
      LexTransitive(a, b, c);
    }
  }

  lemma {:induction false} InsertKeepsOrder(db: Store, id: Id, ids: seq<Id>)
    requires InOrder(db, ids) && id !in ids && id in db.sales && forall x <- ids :: x in db.sales
    ensures InOrder(db, InsertById(db, id, ids))
    ensures forall x :: x in InsertById(db, id, ids) <==> x == id || x in ids
  {
    if ids != [] {
      EarlierChain(db, id, ids[0], ids[0]);
      if Earlier(db, id, ids[0]) {
        forall j | 0 <= j < |ids| ensures Earlier(db, id, ids[j]) {
          EarlierChain(db, id, ids[0], ids[j]);
        }
      } else {
        InsertKeepsOrder(db, id, ids[1..]);
        var rest := InsertById(db, id, ids[1..]);
        forall j | 0 <= j < |rest| ensures Earlier(db, ids[0], rest[j]) && rest[j] != ids[0] {
          assert rest[j] in rest;
          if rest[j] != id {
            var k :| 0 <= k < |ids| - 1 && ids[1..][k] == rest[j];
            assert ids[k + 1] == rest[j];
          }
        }
      }
    }
  }

  /** The matching sales, put in order one by one. */
  method QuerySales(db: Store, tenant: Id, session: Id) returns (ids: seq<Id>)
    ensures IsResult(db, tenant, session, ids)
    ensures forall id :: id in ids <==>
              && id in db.sales && db.sales[id].tenant == tenant && db.sales[id].session == Some(session)
              && db.sales[id].status == Completed
    ensures forall i, j :: 0 <= i < j < |ids| ==>
              && ids[i] in db.sales && ids[j] in db.sales && ids[i] != ids[j]
              && (db.sales[ids[i]].createdAt < db.sales[ids[j]].createdAt
                  || (db.sales[ids[i]].createdAt == db.sales[ids[j]].createdAt && LexLe(ids[i], ids[j])))
  {
    ids := [];
    var rest := set id | id in db.sales && OfSession(db, tenant, session, id) :: id;
    ghost var all := rest;
    while rest != {}
      invariant rest <= all && InOrder(db, ids)
      invariant forall id :: id in ids <==> id in all - rest
      decreases |rest|
    {
      var id :| id in rest;
      InsertKeepsOrder(db, id, ids);
      ids := InsertById(db, id, ids);
      rest := rest - {id};
    }
  }

  /** A sale as the query lists it: its item rows come by generated id, so in any order. */
  predicate Listed(sale: Sale, row: Sale) {
    row == sale.(items := row.items) && multiset(row.items) == multiset(sale.items)
  }

  ghost predicate Lists(db: Store, ids: seq<Id>, rows: seq<Sale>) {
    |rows| == |ids| && forall i :: 0 <= i < |ids| ==> ids[i] in db.sales && Listed(db.sales[ids[i]], rows[i])
  }

  /** The item rows in the order of their ids, whatever it is. */
  method ListItems(items: seq<SaleItem>) returns (listed: seq<SaleItem>)
    ensures multiset(listed) == multiset(items)
  {
    listed := [];
    var rest := items;
    while rest != []
      invariant multiset(listed) + multiset(rest) == multiset(items)
      decreases |rest|
    {
      var k :| 0 <= k < |rest|;
      WithoutMultiset(rest, k);
      listed := listed + [rest[k]];
      rest := Without(rest, k);
    }
  }

  /** The rows of the query with their items. */
  method ListSales(db: Store, ids: seq<Id>) returns (rows: seq<Sale>)
    requires forall id <- ids :: id in db.sales
    ensures Lists(db, ids, rows)
  {
    rows := [];
    var i := 0;
    while i < |ids|
      invariant 0 <= i <= |ids| && Lists(db, ids[..i], rows)
    {
      assert ids[i] in ids;
      var items := ListItems(db.sales[ids[i]].items);
      rows := rows + [db.sales[ids[i]].(items := items)];
      i := i + 1;
    }
    assert ids[..i] == ids;
  }

  // ---------- what the loops compute ----------

  /** PAID amounts tendered by one method. */
  function Received(payments: seq<Payment>, m: Method): int {
    if payments == [] then 0
    else
      var last := payments[|payments| - 1];
      Received(payments[..|payments| - 1], m) + (if last.status == Paid && last.paidBy == m then last.amount else 0)
  }

  function ReceivedFrom(sales: seq<Sale>, m: Method): int {
    if sales == [] then 0 else ReceivedFrom(sales[..|sales| - 1], m) + Received(sales[|sales| - 1].payments, m)
  }

  function TotalOf(sales: seq<Sale>): int {
    if sales == [] then 0 else TotalOf(sales[..|sales| - 1]) + sales[|sales| - 1].total
  }

  function ItemsOf(sales: seq<Sale>): seq<SaleItem> {
    if sales == [] then [] else ItemsOf(sales[..|sales| - 1]) + sales[|sales| - 1].items
  }

  /** The snapshot taken at the sale, else the product's present name, else the placeholder. */
  function NameOf(it: SaleItem, names: map<Id, string>): string {
    if it.name.Some? then it.name.value else if it.product in names then names[it.product] else UNKNOWN_PRODUCT
  }

  /** The first known name among the product's lines. */
  function KnownName(items: seq<SaleItem>, names: map<Id, string>, p: Id): string {
    if items == [] then UNKNOWN_PRODUCT
    else
      var n, last := |items| - 1, items[|items| - 1];
      var before := KnownName(items[..n], names, p);
      if before == UNKNOWN_PRODUCT && last.product == p then NameOf(last, names) else before
  }

  /** Products in order of first appearance. */
  function Appearing(items: seq<SaleItem>): seq<Id> {
    if items == [] then []
    else
      var before, p := Appearing(items[..|items| - 1]), items[|items| - 1].product;
      if p in before then before else before + [p]
  }

  function LineFor(items: seq<SaleItem>, names: map<Id, string>, p: Id): ProductLine {
    ProductLine(p, KnownName(items, names, p), QuantityOf(items, p))
  }

  function ProductLines(items: seq<SaleItem>, names: map<Id, string>): seq<ProductLine> {
    Map(p => LineFor(items, names, p), Appearing(items))
  }

  function SummaryOf(sales: seq<Sale>, names: map<Id, string>): Summary {
    Summary(|sales|, TotalOf(sales), ReceivedFrom(sales, Cash), ReceivedFrom(sales, Qris), ReceivedFrom(sales, Edc),
            ProductLines(ItemsOf(sales), names))
  }

  /** What the response can carry: each reported amount is a safe integer. */
  predicate Reportable(s: Summary) {
    && -MAX_SAFE <= s.sales <= MAX_SAFE && -MAX_SAFE <= s.cash <= MAX_SAFE
    && -MAX_SAFE <= s.qris <= MAX_SAFE && -MAX_SAFE <= s.edc <= MAX_SAFE
  }

  function Names(db: Store): map<Id, string> {
    map p | p in db.catalog.products :: db.catalog.products[p].name
  }

  /** Whether the summary of the session in this state can be reported. */
  ghost predicate SummaryFits(db: Store, tenant: Id, session: Id) {
    exists ids :: IsResult(db, tenant, session, ids) && Reportable(SummaryOf(Rows(db, ids), Names(db)))
  }

  // ---------- the loops ----------

  lemma Snoc<T>(xs: seq<T>, i: nat)
    requires i < |xs|
    ensures xs[..i + 1][..i] == xs[..i] && xs[..i + 1][i] == xs[i]
    ensures xs[..i + 1] == xs[..i] + [xs[i]]
  {
  }

  lemma {:induction false} AppearingFacts(items: seq<SaleItem>, names: map<Id, string>)
    ensures Core.Distinct(Appearing(items))
    ensures forall p :: p in Appearing(items) <==> exists i :: 0 <= i < |items| && items[i].product == p
    ensures forall p :: p !in Appearing(items) ==> KnownName(items, names, p) == UNKNOWN_PRODUCT && QuantityOf(items, p) == 0
  {
    if items != [] {
      var n := |items| - 1;
      AppearingFacts(items[..n], names);
      forall p ensures p in Appearing(items) <==> exists i :: 0 <= i < |items| && items[i].product == p {
        assert p in Appearing(items) <==> p in Appearing(items[..n]) || p == items[n].product;
        if i :| 0 <= i < |items| && items[i].product == p {
          if i < n { assert items[..n][i].product == p; }
        }
        if p in Appearing(items[..n]) {
          var i :| 0 <= i < n && items[..n][i].product == p;
          assert items[i].product == p;
        }
      }
    }
  }

  method AddPayments(payments: seq<Payment>, cash0: int, qris0: int, edc0: int) returns (cash: int, qris: int, edc: int)
    ensures cash == cash0 + Received(payments, Cash)
    ensures qris == qris0 + Received(payments, Qris)
    ensures edc == edc0 + Received(payments, Edc)
  {
    cash, qris, edc := cash0, qris0, edc0;
    var i := 0;
    while i < |payments|
      invariant 0 <= i <= |payments|
      invariant cash == cash0 + Received(payments[..i], Cash)
      invariant qris == qris0 + Received(payments[..i], Qris)
      invariant edc == edc0 + Received(payments[..i], Edc)
    {
      Snoc(payments, i);
      var p := payments[i];
      if p.status == Paid {
        if p.paidBy == Cash { cash := cash + p.amount; }
        if p.paidBy == Qris { qris := qris + p.amount; }
        if p.paidBy == Edc { edc := edc + p.amount; }
      }
      i := i + 1;
    }
    assert payments[..i] == payments;
  }

  /** The JavaScript Map, insertion order and entries. */
  datatype ProductMap = ProductMap(order: seq<Id>, entries: map<Id, ProductLine>)

  ghost predicate Holds(m: ProductMap, items: seq<SaleItem>, names: map<Id, string>) {
    && m.order == Appearing(items)
    && (forall p :: p in m.entries <==> p in m.order)
    && (forall p <- m.entries :: m.entries[p] == LineFor(items, names, p))
  }

  lemma AddedLine(done: seq<SaleItem>, it: SaleItem, names: map<Id, string>, p: Id)
    ensures var before, after := LineFor(done, names, p), LineFor(done + [it], names, p);
            after == if it.product != p then before
                     else ProductLine(p, if before.name == UNKNOWN_PRODUCT then NameOf(it, names) else before.name,
                                      before.quantity + it.quantity)
    ensures Appearing(done + [it]) == Appearing(done) + if it.product in Appearing(done) then [] else [it.product]
  {
    assert (done + [it])[..|done|] == done;
  }

  method AddItem(m: ProductMap, done: seq<SaleItem>, it: SaleItem, names: map<Id, string>) returns (m': ProductMap)
    requires Holds(m, done, names)
    ensures Holds(m', done + [it], names)
  {
    hide KnownName, QuantityOf, Appearing, NameOf;
    AppearingFacts(done, names);
    forall p ensures LineFor(done + [it], names, p) ==
      if it.product != p then LineFor(done, names, p)
      else ProductLine(p, if LineFor(done, names, p).name == UNKNOWN_PRODUCT then NameOf(it, names) else LineFor(done, names, p).name,
                       LineFor(done, names, p).quantity + it.quantity)
    {
      AddedLine(done, it, names, p);
    }
    AddedLine(done, it, names, it.product);
    var name := NameOf(it, names);
    if it.product in m.entries {
      var existing := m.entries[it.product];
      existing := existing.(quantity := existing.quantity + it.quantity);
      if existing.name == UNKNOWN_PRODUCT && name != UNKNOWN_PRODUCT {
        existing := existing.(name := name);
      }
      m' := m.(entries := m.entries[it.product := existing]);
    } else {
      m' := ProductMap(m.order + [it.product], m.entries[it.product := ProductLine(it.product, name, it.quantity)]);
    }
  }

  method AddItems(m: ProductMap, done: seq<SaleItem>, items: seq<SaleItem>, names: map<Id, string>) returns (m': ProductMap)
    requires Holds(m, done, names)
    ensures Holds(m', done + items, names)
  {
    m' := m;
    var i := 0;
    assert done + items[..0] == done;
    while i < |items|
      invariant 0 <= i <= |items|
      invariant Holds(m', done + items[..i], names)
    {
      m' := AddItem(m', done + items[..i], items[i], names);
      assert done + items[..i] + [items[i]] == done + items[..i + 1];
      i := i + 1;
    }
    assert items[..i] == items;
  }

  /** deriveSummary over the rows of the query, in its order. */
  method DeriveSummary(sales: seq<Sale>, names: map<Id, string>) returns (s: Summary)
    ensures s == SummaryOf(sales, names)
  {
    var cash, qris, edc := 0, 0, 0;
    var products := ProductMap([], map[]);
    var total := 0;
    var i := 0;
    while i < |sales|
      invariant 0 <= i <= |sales|
      invariant total == TotalOf(sales[..i])
      invariant cash == ReceivedFrom(sales[..i], Cash) && qris == ReceivedFrom(sales[..i], Qris) && edc == ReceivedFrom(sales[..i], Edc)
      invariant Holds(products, ItemsOf(sales[..i]), names)
    {
      Snoc(sales, i);
      total := total + sales[i].total;
      cash, qris, edc := AddPayments(sales[i].payments, cash, qris, edc);
      products := AddItems(products, ItemsOf(sales[..i]), sales[i].items, names);
      i := i + 1;
    }
    assert sales[..i] == sales;
    var lines: seq<ProductLine> := [];
    var k := 0;
    while k < |products.order|
      invariant 0 <= k <= |products.order| && |lines| == k
      invariant forall x :: 0 <= x < k ==> lines[x] == LineFor(ItemsOf(sales), names, products.order[x])
    {
      assert products.order[k] in products.entries;
      lines := lines + [products.entries[products.order[k]]];
      k := k + 1;
    }
    assert lines == ProductLines(ItemsOf(sales), names);
    s := Summary(|sales|, total, cash, qris, edc, lines);
  }

  // ---------- conservation ----------

  lemma OnePaymentIsTheTotal(s: Sale)
    requires MoneyInvariant(s)
    ensures Received(s.payments, Cash) + Received(s.payments, Qris) + Received(s.payments, Edc) == s.total
  {
    assert s.payments == [s.payments[0]];
    assert s.payments[..0] == [];
  }

  lemma {:induction false} TendersAddUp(sales: seq<Sale>)
    requires forall s <- sales :: MoneyInvariant(s)
    ensures ReceivedFrom(sales, Cash) + ReceivedFrom(sales, Qris) + ReceivedFrom(sales, Edc) == TotalOf(sales)
  {
    if sales != [] {
      var n := |sales| - 1;
      TendersAddUp(sales[..n]);
      OnePaymentIsTheTotal(sales[n]);
    }
  }

  /** In whatever order the items are listed, the amounts and the bag of items are the stored sales'. */
  lemma {:induction false} ListingIsFaithful(db: Store, ids: seq<Id>, rows: seq<Sale>)
    requires Lists(db, ids, rows)
    ensures var stored := Rows(db, ids);
            && TotalOf(rows) == TotalOf(stored)
            && (forall m :: ReceivedFrom(rows, m) == ReceivedFrom(stored, m))
            && multiset(ItemsOf(rows)) == multiset(ItemsOf(stored))
  {
    if rows != [] {
      var n := |rows| - 1;
      ListingIsFaithful(db, ids[..n], rows[..n]);
      assert Rows(db, ids)[..n] == Rows(db, ids[..n]);
      assert Listed(db.sales[ids[n]], rows[n]);
    }
  }

  lemma {:induction false} QuantityWithout(items: seq<SaleItem>, j: nat, p: Id)
    requires j < |items|
    ensures QuantityOf(items, p) == QuantityOf(Without(items, j), p) + (if items[j].product == p then items[j].quantity else 0)
  {
    var n := |items| - 1;
    if j < n {
      QuantityWithout(items[..n], j, p);
      var fewer := Without(items, j);
      assert fewer[..n - 1] == Without(items[..n], j) && fewer[n - 1] == items[n];
    } else {
      assert Without(items, j) == items[..n];
    }
  }

  /** Two arrangements of one bag have the last element of the first in common, and one bag beside it. */
  lemma LastElsewhere(a: seq<SaleItem>, b: seq<SaleItem>) returns (j: nat)
    requires multiset(a) == multiset(b) && a != []
    ensures j < |b| && b[j] == a[|a| - 1] && multiset(a[..|a| - 1]) == multiset(Without(b, j))
  {
    var n := |a| - 1;
    assert a[n] in multiset(b);
    j :| 0 <= j < |b| && b[j] == a[n];
    assert Without(a, n) == a[..n];
    WithoutMultiset(a, n);
    WithoutMultiset(b, j);
  }

  /** The quantity of a product does not depend on the order of the items. */
  lemma {:induction false} QuantityOfBag(a: seq<SaleItem>, b: seq<SaleItem>, p: Id)
    requires multiset(a) == multiset(b)
    ensures QuantityOf(a, p) == QuantityOf(b, p)
  {
    if a == [] {
      assert |multiset(b)| == |b|;
    } else {
      var j := LastElsewhere(a, b);
      QuantityWithout(b, j, p);
      QuantityOfBag(a[..|a| - 1], Without(b, j), p);
    }
  }

  lemma {:induction false} ItemsAreOk(sales: seq<Sale>)
    requires forall s <- sales :: MoneyInvariant(s)
    ensures forall it <- ItemsOf(sales) :: ItemOk(it)
  {
    if sales != [] {
      var n := |sales| - 1;
      ItemsAreOk(sales[..n]);
      assert sales[n] in sales;
    }
  }

  lemma {:induction false} QuantityNonNegative(items: seq<SaleItem>, p: Id)
    requires forall it <- items :: ItemOk(it)
    ensures QuantityOf(items, p) >= 0
  {
    if items != [] {
      QuantityNonNegative(items[..|items| - 1], p);
      assert ItemOk(items[|items| - 1]);
    }
  }

  lemma {:induction false} QuantityAtLeast(items: seq<SaleItem>, k: nat)
    requires k < |items| && forall it <- items :: ItemOk(it)
    ensures QuantityOf(items, items[k].product) >= items[k].quantity >= 1
    decreases |items|
  {
    var n := |items| - 1;
    assert ItemOk(items[k]) && ItemOk(items[n]);
    QuantityNonNegative(items[..n], items[k].product);
    if k < n {
      QuantityAtLeast(items[..n], k);
    }
  }

  /** One line per product of the bag, with its whole quantity. */
  lemma LinesConserve(listed: seq<SaleItem>, items: seq<SaleItem>, names: map<Id, string>)
    requires multiset(listed) == multiset(items) && forall it <- items :: ItemOk(it)
    ensures var lines := ProductLines(listed, names);
            && (forall i, j :: 0 <= i < j < |lines| ==> lines[i].product != lines[j].product)
            && (forall it <- items :: exists i :: 0 <= i < |lines| && lines[i].product == it.product)
            && (forall l <- lines :: l.quantity == QuantityOf(items, l.product) && l.quantity >= 1)
  {
    var lines := ProductLines(listed, names);
    AppearingFacts(listed, names);
    forall it <- listed ensures ItemOk(it) {
      assert it in multiset(items);
    }
    forall l <- lines ensures l.quantity == QuantityOf(items, l.product) && l.quantity >= 1 {
      var i :| 0 <= i < |lines| && lines[i] == l;
      assert Appearing(listed)[i] in Appearing(listed);
      var k :| 0 <= k < |listed| && listed[k].product == l.product;
      QuantityAtLeast(listed, k);
      QuantityOfBag(listed, items, l.product);
    }
    forall it <- items ensures exists i :: 0 <= i < |lines| && lines[i].product == it.product {
      assert it in multiset(listed);
      var k :| 0 <= k < |listed| && listed[k] == it;
      assert it.product in Appearing(listed);
      var i :| 0 <= i < |lines| && Appearing(listed)[i] == it.product;
      assert lines[i].product == it.product;
    }
  }

  /** The totals of the sales whose single payment is by this method. */
  function PaidBy(sales: seq<Sale>, m: Method): int {
    if sales == [] then 0
    else
      var last := sales[|sales| - 1];
      PaidBy(sales[..|sales| - 1], m) + (if |last.payments| == 1 && last.payments[0].paidBy == m then last.total else 0)
  }

  lemma SinglePaymentReceived(s: Sale, m: Method)
    requires MoneyInvariant(s)
    ensures Received(s.payments, m) == if s.payments[0].paidBy == m then s.total else 0
  {
    assert s.payments == [s.payments[0]];
    assert s.payments[..0] == [];
  }

  lemma {:induction false} ReceivedIsPaid(sales: seq<Sale>, m: Method)
    requires forall s <- sales :: MoneyInvariant(s)
    ensures ReceivedFrom(sales, m) == PaidBy(sales, m)
  {
    if sales != [] {
      var n := |sales| - 1;
      ReceivedIsPaid(sales[..n], m);
      SinglePaymentReceived(sales[n], m);
    }
  }

  /** The snapshot name of an item, else the name its product has now, else the placeholder. */
  function ItemName(db: Store, it: SaleItem): string {
    if it.name.Some? then it.name.value
    else if it.product in db.catalog.products then db.catalog.products[it.product].name
    else "Unknown product"
  }

  /** Item k is of the product and the first such item with a name. */
  predicate NamedBy(db: Store, items: seq<SaleItem>, p: Id, k: nat) {
    && k < |items| && items[k].product == p && ItemName(db, items[k]) != "Unknown product"
    && forall j :: 0 <= j < k && items[j].product == p ==> ItemName(db, items[j]) == "Unknown product"
  }

  /** The name of the product's first item that has one, the placeholder if none has. */
  ghost predicate Named(db: Store, items: seq<SaleItem>, p: Id, name: string) {
    || (exists k: nat :: NamedBy(db, items, p, k) && name == ItemName(db, items[k]))
    || (name == "Unknown product"
        && forall j :: 0 <= j < |items| && items[j].product == p ==> ItemName(db, items[j]) == "Unknown product")
  }

  lemma NamedStays(db: Store, items: seq<SaleItem>, n: nat, p: Id, k: nat)
    requires n <= |items| && NamedBy(db, items[..n], p, k)
    ensures NamedBy(db, items, p, k) && items[k] == items[..n][k]
  {
    assert forall j :: 0 <= j < n ==> items[j] == items[..n][j];
  }

  lemma {:induction false} KnownNameIsFirst(db: Store, items: seq<SaleItem>, p: Id)
    ensures var name := KnownName(items, Names(db), p);
            if name == UNKNOWN_PRODUCT
            then forall j :: 0 <= j < |items| && items[j].product == p ==> ItemName(db, items[j]) == UNKNOWN_PRODUCT
            else exists k: nat :: NamedBy(db, items, p, k) && name == ItemName(db, items[k])
  {
    if items != [] {
      var n := |items| - 1;
      KnownNameIsFirst(db, items[..n], p);
      assert NameOf(items[n], Names(db)) == ItemName(db, items[n]);
      if KnownName(items[..n], Names(db), p) != UNKNOWN_PRODUCT {
        var k: nat :| NamedBy(db, items[..n], p, k) && KnownName(items[..n], Names(db), p) == ItemName(db, items[..n][k]);
        NamedStays(db, items, n, p, k);
      } else {
        assert forall j :: 0 <= j < n ==> items[j] == items[..n][j];
        if items[n].product == p && ItemName(db, items[n]) != UNKNOWN_PRODUCT {
          assert NamedBy(db, items, p, n);
        }
      }
    }
  }

  lemma SessionSalesAreSound(db: Store, tenant: Id, session: Id, ids: seq<Id>)
    requires Inv(db) && IsResult(db, tenant, session, ids)
    ensures forall s <- Rows(db, ids) :: MoneyInvariant(s)
  {
    hide MoneyInvariant, CatalogOk, OrderOk;
    forall s <- Rows(db, ids) ensures MoneyInvariant(s) {
      var i :| 0 <= i < |ids| && s == Rows(db, ids)[i];
      assert ids[i] in ids;
    }
  }

  lemma LinesAreNamed(db: Store, items: seq<SaleItem>)
    ensures forall l <- ProductLines(items, Names(db)) :: Named(db, items, l.product, l.name)
  {
    forall l <- ProductLines(items, Names(db)) ensures Named(db, items, l.product, l.name) {
      KnownNameIsFirst(db, items, l.product);
    }
  }

  /**
   The summary of any session in any state that satisfies the invariant, in whatever order the items of each sale are
   listed: it counts the session's sales; cash, QRIS and EDC are each the totals of the sales paid that way, and together
   the total of all; every product sold appears exactly once, under the first name known for it, with the quantity of all
   the stored lines together.
   */
  lemma SummaryConserves(db: Store, tenant: Id, session: Id, ids: seq<Id>, rows: seq<Sale>)
    requires Inv(db) && IsResult(db, tenant, session, ids) && Lists(db, ids, rows)
    ensures var s, stored := SummaryOf(rows, Names(db)), Rows(db, ids);
            && (forall id :: id in ids <==>
                  && id in db.sales && db.sales[id].tenant == tenant && db.sales[id].session == Some(session)
                  && db.sales[id].status == Completed)
            && s.count == |ids| && s.sales == TotalOf(stored)
            && s.cash == PaidBy(stored, Cash) && s.qris == PaidBy(stored, Qris) && s.edc == PaidBy(stored, Edc)
            && s.cash + s.qris + s.edc == s.sales
            && (forall i, j :: 0 <= i < j < |s.products| ==> s.products[i].product != s.products[j].product)
            && (forall it <- ItemsOf(stored) :: exists i :: 0 <= i < |s.products| && s.products[i].product == it.product)
            && (forall l <- s.products ::
                  && l.quantity == QuantityOf(ItemsOf(stored), l.product) && l.quantity >= 1
                  && Named(db, ItemsOf(rows), l.product, l.name))
  {
    hide Inv, ProductLines, Named, QuantityOf;
    SessionSalesAreSound(db, tenant, session, ids);
    ListingIsFaithful(db, ids, rows);
    TendersAddUp(Rows(db, ids));
    ReceivedIsPaid(Rows(db, ids), Cash);
    ReceivedIsPaid(Rows(db, ids), Qris);
    ReceivedIsPaid(Rows(db, ids), Edc);
    ItemsAreOk(Rows(db, ids));
    LinesConserve(ItemsOf(rows), ItemsOf(Rows(db, ids)), Names(db));
    LinesAreNamed(db, ItemsOf(rows));
  }
}
