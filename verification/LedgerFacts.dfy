/** Every committed history, whatever its length: what each event keeps, and what whole histories satisfy. */
module LedgerFacts {
  import opened Base
  import opened Schema
  import opened Core
  import opened CoreFacts
  import opened HeldOrders
  import opened Ledger

  // ---------- one event ----------

  lemma {:induction false} TakenCovers(decs: seq<Dec>, p: Id)
    requires DistinctProducts(decs)
    ensures (forall d <- decs :: d.product != p) ==> Taken(decs, p) == 0
    ensures forall d <- decs :: d.product == p ==> Taken(decs, p) == d.quantity
  {
    if decs != [] {
      var n := |decs| - 1;
      TakenCovers(decs[..n], p);
      assert forall d :: d in decs <==> d in decs[..n] || d == decs[n];
      if decs[n].product == p {
        forall d <- decs[..n] ensures d.product != p {
          var k :| 0 <= k < n && decs[k] == d;
        }
      }
    }
  }

  lemma SoundCatalog(db: Store)
    requires Inv(db)
    ensures CatalogOk(db.catalog)
  {
  }

  /** A covered sale never drives a balance below zero. */
  lemma TakeStockNonNegative(db: Store, w: Written)
    requires MoneyInvariant(w.sale) && StockCovers(db.stock, w.sale.outlet, DecsOf(w))
    requires forall k <- db.stock :: db.stock[k] >= 0
    ensures var after := TakeStock(db.stock, w.sale.outlet, DecsOf(w)); forall k <- after :: after[k] >= 0
  {
    var decs := DecsOf(w);
    forall k <- db.stock | k.outlet == w.sale.outlet ensures db.stock[k] - Taken(decs, k.product) >= 0 {
      forall it <- w.sale.items ensures it.quantity >= 1 { assert ItemOk(it); }
      DecrementsExact(w.sale.items, w.tracked, k.product);
      TakenCovers(decs, k.product);
      if exists i :: 0 <= i < |decs| && decs[i].product == k.product {
        var i :| 0 <= i < |decs| && decs[i].product == k.product;
        assert k == StockKey(w.sale.outlet, decs[i].product);
      }
    }
  }

  /** Orders stay sound when sessions and sales only gain rows and no open order loses its session. */
  lemma OrdersStayOk(db: Store, after: Store)
    requires forall o <- db.orders :: OrderOk(db, db.orders[o])
    requires after.orders == db.orders
    requires forall s <- db.sales :: s in after.sales && after.sales[s] == db.sales[s]
    requires forall s <- db.sessions :: s in after.sessions && after.sessions[s].tenant == db.sessions[s].tenant
               && after.sessions[s].outlet == db.sessions[s].outlet && after.sessions[s].user == db.sessions[s].user
    requires forall s <- db.sessions :: db.sessions[s].open && !after.sessions[s].open ==> NoOpenOrders(db, s)
    ensures forall o <- after.orders :: OrderOk(after, after.orders[o])
  {
    forall o <- after.orders ensures OrderOk(after, after.orders[o]) {
      assert OrderOk(db, db.orders[o]);
    }
  }

  lemma WriteSaleKeeps(db: Store, id: Id, w: Written)
    requires Inv(db) && CanWrite(db, id, w)
    ensures Inv(WriteSale(db, id, w))
  {
    hide MoneyInvariant, CatalogOk, TaxRatesOk, OrderOk;
    var after := WriteSale(db, id, w);
    TakeStockNonNegative(db, w);
    OrdersStayOk(db, after);
    assert forall x, t, k :: x != id ==> (HasKey(after, t, k, x) <==> HasKey(db, t, k, x));
    assert KeysUnique(after);
    assert MovementsRefer(after);
    assert forall a, t, u :: OpenFor(after, t, u, a) <==> OpenFor(db, t, u, a);
  }

  lemma ReplaceOrderKeeps(db: Store, id: Id, order: HeldOrder)
    requires Inv(db) && OrderOk(db, order)
    ensures Inv(db.(orders := db.orders[id := order]))
  {
    var after := db.(orders := db.orders[id := order]);
    forall o <- after.orders ensures OrderOk(after, after.orders[o]) {
      assert o != id ==> OrderOk(db, db.orders[o]);
    }
    assert forall x, t, k :: HasKey(after, t, k, x) <==> HasKey(db, t, k, x);
    assert forall a, t, u :: OpenFor(after, t, u, a) <==> OpenFor(db, t, u, a);
  }

  lemma SessionsKeep(db: Store, after: Store)
    requires Inv(db) && after == db.(sessions := after.sessions)
    requires OneOpenShift(after) && OnlyClosedAreStamped(after)
    requires forall s <- after.sales :: SaleFits(after, after.sales[s])
    requires forall o <- after.orders :: OrderOk(after, after.orders[o])
    ensures Inv(after)
  {
    assert forall x, t, k :: HasKey(after, t, k, x) <==> HasKey(db, t, k, x);
  }

  lemma OpenShiftKeeps(db: Store, id: Id, session: Session)
    requires Inv(db) && Guard(db, ShiftOpened(id, session))
    ensures Inv(Effect(db, ShiftOpened(id, session)))
  {
    hide MoneyInvariant, CatalogOk, TaxRatesOk, OrderOk;
    var after := Effect(db, ShiftOpened(id, session));
    assert forall a, t, u :: a != id ==> (OpenFor(after, t, u, a) <==> OpenFor(db, t, u, a));
    OrdersStayOk(db, after);
    SessionsKeep(db, after);
  }

  lemma CloseShiftKeeps(db: Store, id: Id, at: int)
    requires Inv(db) && Guard(db, ShiftClosed(id, at))
    ensures Inv(Effect(db, ShiftClosed(id, at)))
  {
    hide MoneyInvariant, CatalogOk, TaxRatesOk;
    var after := Effect(db, ShiftClosed(id, at));
    assert forall a, t, u :: OpenFor(after, t, u, a) ==> OpenFor(db, t, u, a);
    OrdersStayOk(db, after);
    SessionsKeep(db, after);
  }

  lemma AdjustKeeps(db: Store, id: Id, a: Adjustment)
    requires Inv(db) && Guard(db, StockAdjusted(id, a))
    ensures Inv(Effect(db, StockAdjusted(id, a)))
  {
    var after := Effect(db, StockAdjusted(id, a));
    OrdersStayOk(db, after);
    assert forall x, t, k :: HasKey(after, t, k, x) <==> HasKey(db, t, k, x);
    assert forall s, t, u :: OpenFor(after, t, u, s) <==> OpenFor(db, t, u, s);
  }

  lemma AdministerKeeps(db: Store, ev: Event)
    requires ev.Administered? && Inv(db) && Guard(db, ev)
    ensures Inv(Effect(db, ev))
  {
    var after := Effect(db, ev);
    OrdersStayOk(db, after);
    assert forall x, t, k :: HasKey(after, t, k, x) <==> HasKey(db, t, k, x);
    assert forall s, t, u :: OpenFor(after, t, u, s) <==> OpenFor(db, t, u, s);
  }

  lemma ConvertOrderKeeps(db: Store, id: Id, sale: Id, at: int)
    requires Inv(db) && id in db.orders && db.orders[id].status == Open
    requires sale in db.sales && Links(db.orders[id], db.sales[sale])
    ensures Inv(ConvertOrder(db, id, sale, at))
  {
    assert OrderOk(db, db.orders[id]);
    ReplaceOrderKeeps(db, id, ConvertedOrder(db.orders[id], sale, at));
  }

  lemma ConvertKeeps(db: Store, ev: Event)
    requires ev.HeldConverted? && Inv(db) && Guard(db, ev)
    ensures Inv(Effect(db, ev))
  {
    if ev.written.Some? {
      WriteSaleKeeps(db, ev.sale, ev.written.value);
      ConvertOrderKeeps(WriteSale(db, ev.sale, ev.written.value), ev.id, ev.sale, ev.at);
    } else {
      ConvertOrderKeeps(db, ev.id, ev.sale, ev.at);
    }
  }

  /** Every event keeps the whole invariant. */
  lemma EventKeeps(db: Store, ev: Event)
    requires Inv(db) && Guard(db, ev)
    ensures Inv(Effect(db, ev))
  {
    hide MoneyInvariant, CatalogOk, KeysUnique, OneOpenShift, MovementsRefer;
    match ev {
      case SaleWritten(id, w) => WriteSaleKeeps(db, id, w);
      case SaleReplayed(tenant, key, id) =>
      case HeldCreated(id, order) => ReplaceOrderKeeps(db, id, order);
      case HeldUpdated(id, expected, order) =>
        assert OrderOk(db, db.orders[id]);
        ReplaceOrderKeeps(db, id, order);
      case HeldCancelled(id, expected, at) =>
        assert OrderOk(db, db.orders[id]);
        ReplaceOrderKeeps(db, id, CancelledOrder(db.orders[id], at));
      case HeldConverted(id, expected, key, sale, written, submitted, at) => ConvertKeeps(db, ev);
      case HeldReplayed(id, tenant, key, sale) =>
      case ShiftOpened(id, session) => OpenShiftKeeps(db, id, session);
      case ShiftClosed(id, at) => CloseShiftKeeps(db, id, at);
      case StockAdjusted(id, a) => AdjustKeeps(db, id, a);
      case Administered(tenants, users, outlets, customers, catalog) => AdministerKeeps(db, ev);
    }
  }
}
