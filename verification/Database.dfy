/**
 The services as the statements they are, over tables that are updated in place. Each call is a database transaction: it
 commits all its writes or, rolled back, none. The machine of module Transactions interleaves the same statements.
 */
module Database {
  import opened Base
  import opened Schema
  import opened Pricing
  import opened PricingAgreement
  import opened PricingLoops
  import opened SameRequest
  import opened Core
  import opened CoreFacts
  import opened HeldOrders
  import opened Ledger
  import opened LedgerFacts
  import opened Shifts
  import opened Transactions
  import opened Frames
  import opened Solo

  // ---------- what a call may do ----------

  /** A call commits one event of the ledger, or leaves every table as it was. */
  ghost predicate Atomic(before: Store, r: Answer, after: Store) {
    match r
    case Ok(ev) => Guard(before, ev) && after == Effect(before, ev)
    case Err(_) => after == before
  }

  /** Every call keeps the invariant. */
  lemma AtomicKeeps(before: Store, r: Answer, after: Store)
    requires Inv(before) && Atomic(before, r, after)
    ensures Inv(after)
  {
    if r.Ok? {
      EventKeeps(before, r.value);
    }
  }

  /** The core never looks at held orders. */
  lemma ClaimChangesNothingElse(a: Store, b: Store, actor: Actor, req: SaleReq, id: Id, now: int)
    requires KeysUnique(a) && b == a.(orders := b.orders)
    ensures KeysUnique(b)
    ensures SaleAnswer(a, actor, req, V1, id, now) == SaleAnswer(b, actor, req, V1, id, now)
  {
    assert forall x, t, k :: HasKey(a, t, k, x) <==> HasKey(b, t, k, x);
    assert FindSale(a, actor.tenant, req.key) == FindSale(b, actor.tenant, req.key);
    assert ReadAll(a, actor, req) == ReadAll(b, actor, req);
  }

  lemma DoneIgnoresOrders(a: Store, b: Store, core: Answer, after: Store)
    requires b == a.(orders := b.orders) && CoreDone(b, core, after)
    ensures CoreDone(a, core, after.(orders := a.orders))
  {
    assert forall x, t, k :: HasKey(a, t, k, x) <==> HasKey(b, t, k, x);
  }

  lemma ConvertedEffect(begun: Store, after: Store, oid: Id, req: ConvertReq, ev: Event, now: int)
    requires oid in begun.orders && (ev.SaleWritten? || ev.SaleReplayed?)
    requires CoreDone(begun, Ok(ev), after.(orders := begun.orders))
    requires Guard(begun, ConversionEvent(oid, begun.orders[oid], req, ev, now))
    requires after.orders == begun.orders[oid := ConvertedOrder(begun.orders[oid], ev.id, now)]
    ensures after == Effect(begun, ConversionEvent(oid, begun.orders[oid], req, ev, now))
  {
  }

  lemma EditedEffect(begun: Store, after: Store, id: Id, req: EditReq, priced: Option<Priced>)
    requires id in begun.orders
    requires Guard(begun, HeldUpdated(id, req.expected, Edited(begun.orders[id], req, priced)))
    requires after == begun.(orders := begun.orders[id := Edited(begun.orders[id], req, priced)])
    ensures Atomic(begun, Ok(HeldUpdated(id, req.expected, after.orders[id])), after)
  {
  }

  lemma AdjustedEffect(begun: Store, r: Answer, after: Store, id: Id, a: Adjustment)
    requires Unused(begun, id) && a.quantity >= 1 && r == BalanceAnswer(begun.stock, a, id)
    requires after == if r.Ok? then AdjustStock(begun, id, a) else begun
    ensures Atomic(begun, r, after)
  {
  }

  lemma ClosedEffect(begun: Store, after: Store, id: Id, now: int)
    requires id in begun.sessions && begun.sessions[id].open && NoOpenOrders(begun, id)
    requires after == CloseSession(begun, id, now)
    ensures Atomic(begun, Ok(ShiftClosed(id, now)), after)
  {
  }

  lemma OneSummary(db: Store, tenant: Id, session: Id, ids: seq<Id>, rows: seq<Sale>)
    requires IsResult(db, tenant, session, ids) && Lists(db, ids, rows)
    ensures SummaryFits(db, tenant, session) <==> Reportable(SummaryOf(rows, Names(db)))
  {
    ListingIsFaithful(db, ids, rows);
    forall other | IsResult(db, tenant, session, other) ensures other == ids {
      OneOrder(db, other, ids);
    }
  }

  // ---------- facts about the writes ----------

  function BareItem(l: PricedLine): SaleItem {
    SaleItemOf(l).(modifiers := [])
  }

  lemma WritesWhatItPriced(db: Store, actor: Actor, req: SaleReq, mode: Mode, now: int, sale: Sale, tracked: set<Id>)
    requires CorePlan(actor, req, mode, ReadAll(db, actor, req), now) == Write(sale, tracked)
    ensures sale.status == Completed && sale.payments == [PaymentOf(req.payment, sale.total)]
  {
    var p := WriteCameFrom(actor, req, mode, ReadAll(db, actor, req), now, sale, tracked);
  }

  /** The lines of a cart, against the products whose stock is tracked. */
  ghost predicate CartOk(lines: seq<PricedLine>, tracked: set<Id>) {
    forall l <- lines :: l.quantity >= 1 && (l.row.trackStock <==> l.product in tracked)
  }

  lemma CartIsOk(db: Store, actor: Actor, req: SaleReq, mode: Mode, tax: TaxConfig, p: Priced)
    requires CatalogOk(db.catalog) && InputOk(req, mode)
    requires var rd := ReadAll(db, actor, req);
             PriceSaleFrom(rd.products, rd.rows, rd.options, req.items, req.discount, tax) == Ok(p)
    ensures CartOk(p.lines, TrackedOf(ReadProducts(db.catalog, actor.tenant, ProductIds(req.items))))
  {
    var rd := ReadAll(db, actor, req);
    ReadAllOk(db, actor, req);
    PricedLinesMatch(rd, req.items, req.discount, tax, p);
    forall l <- p.lines ensures l.quantity >= 1 && (l.row.trackStock <==> l.product in TrackedOf(rd.products)) {
      var i :| 0 <= i < |p.lines| && p.lines[i] == l;
      assert LineMatches(rd.products, p.lines[i], req.items[i]) && LineInputOk(req.items[i], mode);
    }
  }

  lemma DistinctLines(lines: seq<PricedLine>, tracked: set<Id>)
    requires forall l <- lines :: l.quantity >= 1
    ensures DistinctProducts(Decrements(Map(SaleItemOf, lines), tracked))
  {
    var items := Map(SaleItemOf, lines);
    forall it <- items ensures it.quantity >= 1 {
      var i :| 0 <= i < |items| && items[i] == it;
      assert lines[i] in lines;
    }
    DecrementsExact(items, tracked, "");
  }

  /** The balance a decrement sees is the one the sale started from. */
  lemma NotYetTaken(before: map<StockKey, int>, outlet: Id, decs: seq<Dec>, i: nat)
    requires DistinctProducts(decs) && i < |decs|
    ensures StockKey(outlet, decs[i].product) !in StockWrites(before, outlet, decs[..i])
  {
    StockWritesKeys(before, outlet, decs[..i]);
  }

  lemma TakenNext(before: map<StockKey, int>, outlet: Id, decs: seq<Dec>, i: nat)
    requires i < |decs| && StockKey(outlet, decs[i].product) in before
    requires StockCovers(before, outlet, decs[..i]) && before[StockKey(outlet, decs[i].product)] >= decs[i].quantity
    ensures var k := StockKey(outlet, decs[i].product);
            before + StockWrites(before, outlet, decs[..i + 1]) ==
            (before + StockWrites(before, outlet, decs[..i]))[k := before[k] - decs[i].quantity]
    ensures StockCovers(before, outlet, decs[..i + 1])
  {
    var next := decs[..i + 1];
    assert next[..i] == decs[..i] && next[i] == decs[i];
    forall n | 0 <= n < |next|
      ensures StockKey(outlet, next[n].product) in before && before[StockKey(outlet, next[n].product)] >= next[n].quantity
    {
      if n < i {
        assert next[n] == decs[..i][n];
      }
    }
  }

  class Database {
    var tenants: map<Id, Tenant>
    var users: map<Id, User>
    var outlets: map<Id, Outlet>
    var customers: map<Id, Id>
    var catalog: Catalog
    var sessions: map<Id, Session>
    var sales: map<Id, Sale>
    var stock: map<StockKey, int>
    var movements: seq<Movement>
    var adjustments: map<Id, Adjustment>
    var orders: map<Id, HeldOrder>

    /** What a statement issued now sees. */
    function Snapshot(): Store
      reads this
    {
      Store(tenants, users, outlets, customers, catalog, sessions, sales, stock, movements, adjustments, orders)
    }

    constructor (db: Store)
      ensures Snapshot() == db
    {
      tenants, users, outlets, customers := db.tenants, db.users, db.outlets, db.customers;
      catalog, sessions, sales, stock := db.catalog, db.sessions, db.sales, db.stock;
      movements, adjustments, orders := db.movements, db.adjustments, db.orders;
    }

    /** ROLLBACK: the write path only ever writes these six tables. */
    method Rollback(begun: Store)
      modifies `sessions, `sales, `stock, `movements, `adjustments, `orders
      ensures sessions == begun.sessions && sales == begun.sales && stock == begun.stock
      ensures movements == begun.movements && adjustments == begun.adjustments && orders == begun.orders
    {
      sessions, sales, stock := begun.sessions, begun.sales, begun.stock;
      movements, adjustments, orders := begun.movements, begun.adjustments, begun.orders;
    }

    // ---------- the sale core: reads ----------

    /** The lookup by tenant and client key, which the unique index makes a single row. */
    method FindByKey(tenant: Id, key: Id) returns (r: Option<Id>)
      requires KeysUnique(Snapshot())
      ensures r == FindSale(Snapshot(), tenant, key)
    {
      if id :| id in sales && sales[id].tenant == tenant && sales[id].key == key {
        assert HasKey(Snapshot(), tenant, key, id);
        r := Some(id);
      } else {
        r := None;
      }
    }

    /** Products, assignments and options of the cart, then its lines and totals. */
    method PriceRequest(actor: Actor, req: SaleReq, mode: Mode, tax: TaxConfig) returns (r: Result<Priced, Reason>)
      requires CatalogOk(catalog) && InputOk(req, mode)
      ensures var rd := ReadAll(Snapshot(), actor, req);
              r == PriceSaleFrom(rd.products, rd.rows, rd.options, req.items, req.discount, tax)
    {
      var ids := ProductIds(req.items);
      var products := ReadProducts(catalog, actor.tenant, ids);
      var rows := ReadAssignments(catalog, actor.tenant, ids, catalog.assignments);
      var options := ReadOptionsOfGroups(catalog, actor.tenant, GroupsOf(rows));
      r := PriceSaleCart(products, rows, options, req.items, req.discount, tax);
    }

    /** Everything the core decides before its first write. */
    method Decide(actor: Actor, req: SaleReq, mode: Mode, now: int) returns (plan: Plan, lines: seq<PricedLine>)
      requires CatalogOk(catalog) && KeysUnique(Snapshot())
      ensures plan == CorePlan(actor, req, mode, ReadAll(Snapshot(), actor, req), now)
      ensures plan.Write? ==> plan.sale.items == Map(SaleItemOf, lines) && CartOk(lines, plan.tracked)
    {
      lines := [];
      var problem := InputProblem(req, mode);
      if problem.Some? {
        return Reject(problem.value), lines;
      }
      var db := Snapshot();
      var user := ReadUser(db, actor);
      var tenant := ReadTenant(db, actor.tenant);
      if user.None? || tenant.None? {
        return Reject(Unauthorized), lines;
      }
      if user.value.role == OtherRole {
        return Reject(RoleForbidden), lines;
      }
      var existing := FindByKey(actor.tenant, req.key);
      if existing.Some? {
        plan := if AssertSameRequest(sales[existing.value], actor, req) then Replay(existing.value)
                else Reject(IdempotencyPayloadMismatch);
        return;
      }
      plan, lines := DecideNew(actor, req, mode, user.value, tenant.value, now);
    }

    method DecideNew(actor: Actor, req: SaleReq, mode: Mode, user: User, tax: TaxConfig, now: int)
      returns (plan: Plan, lines: seq<PricedLine>)
      requires CatalogOk(catalog) && InputOk(req, mode)
      requires ReadUser(Snapshot(), actor) == Some(user) && ReadTenant(Snapshot(), actor.tenant) == Some(tax)
      ensures plan == NewSalePlan(actor, req, mode, ReadAll(Snapshot(), actor, req), now)
      ensures plan.Write? ==> plan.sale.items == Map(SaleItemOf, lines) && CartOk(lines, plan.tracked)
    {
      hide PriceSaleFrom, CartOk, CatalogOk, InputOk, SaleItemOf, PaymentOf;
      lines := [];
      var db := Snapshot();
      if mode == V1 {
        var session := ReadSession(db, actor, req.session);
        if session.None? {
          return Reject(InvalidCashierSession), lines;
        }
        if session.value.outlet != req.outlet {
          return Reject(SessionOutletMismatch), lines;
        }
      }
      if !ReadOutlet(db, actor.tenant, req.outlet) {
        return Reject(OutletNotFound), lines;
      }
      if !ReadCustomer(db, actor.tenant, req.customer) {
        return Reject(CustomerNotFound), lines;
      }
      if req.discount > 0 && user.role == Cashier {
        return Reject(DiscountForbidden), lines;
      }
      var priced := PriceRequest(actor, req, mode, tax);
      if priced.Err? {
        return Reject(priced.error), lines;
      }
      var p := priced.value;
      var tracked := TrackedOf(ReadProducts(catalog, actor.tenant, ProductIds(req.items)));
      plan := TenderPlan(actor, req, mode, p, tracked, now);
      lines := p.lines;
      CartIsOk(db, actor, req, mode, tax, p);
    }

    // ---------- the sale core: writes ----------

    /** One item row per line, in request order. */
    method InsertItems(id: Id, lines: seq<PricedLine>)
      requires id in sales && sales[id].items == []
      modifies `sales
      ensures sales == old(sales)[id := old(sales[id]).(items := Map(BareItem, lines))]
    {
      var n := 0;
      assert Map(BareItem, lines[..0]) == [];
      while n < |lines|
        invariant 0 <= n <= |lines| && id in sales
        invariant sales == old(sales)[id := old(sales[id]).(items := Map(BareItem, lines[..n]))]
      {
        var l := lines[n];
        var row := SaleItem(l.product, l.quantity, l.effectivePrice, l.row.cost, l.effectivePrice * l.quantity,
                            Some(l.row.name), Some(l.row.sku), Some(l.row.price), Some(l.effectivePrice), l.note, []);
        assert Map(BareItem, lines[..n + 1]) == Map(BareItem, lines[..n]) + [row];
        sales := sales[id := sales[id].(items := sales[id].items + [row])];
        n := n + 1;
      }
      assert lines[..n] == lines;
    }

    /** Modifier snapshots, each paired with the item row of its own line. */
    method InsertModifiers(id: Id, lines: seq<PricedLine>)
      requires id in sales && sales[id].items == Map(BareItem, lines)
      modifies `sales
      ensures sales == old(sales)[id := old(sales[id]).(items := Map(SaleItemOf, lines))]
    {
      var i := 0;
      while i < |lines|
        invariant 0 <= i <= |lines|
        invariant id in sales && |sales[id].items| == |lines|
        invariant sales == old(sales)[id := old(sales[id]).(items := sales[id].items)]
        invariant forall n :: 0 <= n < |lines| ==> sales[id].items[n] == if n < i then SaleItemOf(lines[n]) else BareItem(lines[n])
      {
        var modifiers: seq<Modifier> := [];
        var k := 0;
        while k < |lines[i].options|
          invariant 0 <= k <= |lines[i].options|
          invariant modifiers == Map(ModifierOf, lines[i].options[..k])
        {
          var o := lines[i].options[k];
          modifiers := modifiers + [Modifier(o.group, Some(o.id), o.groupName, o.optionName, o.delta)];
          k := k + 1;
        }
        assert lines[i].options[..k] == lines[i].options;
        var row := sales[id].items[i].(modifiers := modifiers);
        sales := sales[id := sales[id].(items := sales[id].items[i := row])];
        i := i + 1;
      }
      assert sales[id].items == Map(SaleItemOf, lines);
    }

    /** stockByProduct: one entry per tracked product, in order of first appearance. */
    static method AggregateStock(lines: seq<PricedLine>, ghost tracked: set<Id>) returns (stockByProduct: seq<Dec>)
      requires forall l <- lines :: l.row.trackStock <==> l.product in tracked
      ensures stockByProduct == Decrements(Map(SaleItemOf, lines), tracked)
    {
      stockByProduct := [];
      var items := Map(SaleItemOf, lines);
      var n := 0;
      while n < |lines|
        invariant 0 <= n <= |lines|
        invariant stockByProduct == Decrements(items[..n], tracked)
      {
        var l := lines[n];
        assert l in lines;
        assert items[..n + 1][..n] == items[..n];
        if l.row.trackStock {
          stockByProduct := AddDec(stockByProduct, l.product, l.quantity);
        }
        n := n + 1;
      }
      assert items[..n] == items;
    }

    /** The conditional decrements, product by product; the first that does not apply stops the sale. */
    method TakeAll(outlet: Id, stockByProduct: seq<Dec>) returns (ok: bool)
      requires DistinctProducts(stockByProduct)
      modifies `stock
      ensures ok <==> StockCovers(old(stock), outlet, stockByProduct)
      ensures ok ==> stock == TakeStock(old(stock), outlet, stockByProduct)
    {
      var i := 0;
      ghost var before := stock;
      assert before + StockWrites(before, outlet, stockByProduct[..0]) == before;
      while i < |stockByProduct|
        invariant 0 <= i <= |stockByProduct|
        invariant StockCovers(before, outlet, stockByProduct[..i])
        invariant stock == before + StockWrites(before, outlet, stockByProduct[..i])
      {
        var d := stockByProduct[i];
        var k := StockKey(outlet, d.product);
        NotYetTaken(before, outlet, stockByProduct, i);
        if k !in stock || stock[k] < d.quantity {
          assert !StockCovers(before, outlet, stockByProduct);
          return false;
        }
        TakenNext(before, outlet, stockByProduct, i);
        stock := stock[k := stock[k] - d.quantity];
        i := i + 1;
      }
      assert stockByProduct[..i] == stockByProduct;
      StockWritesAreTaken(before, outlet, stockByProduct);
      ok := true;
    }

    method AppendMovements(id: Id, sale: Sale, stockByProduct: seq<Dec>)
      modifies `movements
      ensures movements == old(movements) + SaleMovements(id, sale, stockByProduct)
    {
      var entries: seq<Movement> := [];
      var i := 0;
      while i < |stockByProduct|
        invariant 0 <= i <= |stockByProduct|
        invariant entries == SaleMovements(id, sale, stockByProduct)[..i]
      {
        var d := stockByProduct[i];
        entries := entries + [Movement(sale.tenant, StockKey(sale.outlet, d.product), sale.user, SaleMovement, -d.quantity, id)];
        i := i + 1;
      }
      movements := movements + entries;
    }

    /** The PAID payment row, then the status. */
    method Complete(id: Id, payment: PaymentReq)
      requires id in sales && sales[id].payments == []
      modifies `sales
      ensures sales == old(sales)[id := old(sales[id]).(payments := [PaymentOf(payment, old(sales[id]).total)], status := Completed)]
    {
      var total := sales[id].total;
      var tender := ResolveTender(payment);
      var paid := Payment(payment.paidBy, Paid, total, tender, if tender.Some? then Some(tender.value - total) else None);
      assert [] + [paid] == [paid];
      sales := sales[id := sales[id].(payments := sales[id].payments + [paid])];
      sales := sales[id := sales[id].(status := Completed)];
    }

    /** The PENDING row and everything under it. */
    method InsertPending(id: Id, sale: Sale, lines: seq<PricedLine>)
      requires id !in sales && sale.items == Map(SaleItemOf, lines)
      modifies `sales
      ensures sales == old(sales)[id := sale.(status := Pending, payments := [])]
    {
      sales := sales[id := sale.(status := Pending, items := [], payments := [])];
      InsertItems(id, lines);
      InsertModifiers(id, lines);
    }

    /** From the PENDING row to the COMPLETED one; false leaves the rollback to the caller. */
    method Persist(id: Id, sale: Sale, lines: seq<PricedLine>, payment: PaymentReq, ghost tracked: set<Id>) returns (ok: bool)
      requires id !in sales
      requires sale.status == Completed && sale.items == Map(SaleItemOf, lines)
      requires sale.payments == [PaymentOf(payment, sale.total)]
      requires CartOk(lines, tracked)
      modifies `sales, `stock, `movements
      ensures var decs := DecsOf(Written(sale, tracked));
              && (ok <==> StockCovers(old(stock), sale.outlet, decs))
              && (ok ==>
                    && sales == old(sales)[id := sale]
                    && stock == TakeStock(old(stock), sale.outlet, decs)
                    && movements == old(movements) + SaleMovements(id, sale, decs))
    {
      DistinctLines(lines, tracked);
      InsertPending(id, sale, lines);
      var stockByProduct := AggregateStock(lines, tracked);
      ok := TakeAll(sale.outlet, stockByProduct);
      if ok {
        AppendMovements(id, sale, stockByProduct);
        Complete(id, payment);
        assert sales[id] == sale;
      }
    }

    /** Carries out what was decided. */
    method CarryOut(plan: Plan, lines: seq<PricedLine>, actor: Actor, req: SaleReq, id: Id) returns (r: Answer)
      requires id !in sales
      requires plan.Write? ==>
                 && plan.sale.status == Completed && plan.sale.items == Map(SaleItemOf, lines)
                 && plan.sale.payments == [PaymentOf(req.payment, plan.sale.total)] && CartOk(lines, plan.tracked)
      requires var a := PlanAnswer(Snapshot(), actor, req, plan, id); a.Ok? ==> Guard(Snapshot(), a.value)
      modifies `sales, `stock, `movements
      ensures r == PlanAnswer(old(Snapshot()), actor, req, plan, id)
      ensures CoreDone(old(Snapshot()), r, Snapshot())
    {
      match plan {
        case Reject(e) => r := Err(e);
        case Replay(s) => r := Ok(SaleReplayed(actor.tenant, req.key, s));
        case Write(sale, tracked) =>
          var ok := Persist(id, sale, lines, req.payment, tracked);
          r := if ok then Ok(SaleWritten(id, Written(sale, tracked))) else Err(InsufficientStock);
      }
    }

    /** executeTransactionCore: runs inside the caller's transaction. */
    method ExecuteCore(actor: Actor, req: SaleReq, mode: Mode, id: Id, now: int) returns (r: Answer)
      requires CatalogOk(catalog) && KeysUnique(Snapshot()) && Unused(Snapshot(), id)
      modifies `sales, `stock, `movements
      ensures r == SaleAnswer(old(Snapshot()), actor, req, mode, id, now)
      ensures CoreDone(old(Snapshot()), r, Snapshot())
    {
      SaleAllowed(Snapshot(), actor, req, mode, id, now);
      var plan, lines := Decide(actor, req, mode, now);
      if plan.Write? {
        WritesWhatItPriced(Snapshot(), actor, req, mode, now, plan.sale, plan.tracked);
      }
      r := CarryOut(plan, lines, actor, req, id);
    }

    /** One attempt of createInternal: the core inside its own transaction. */
    method CreateSale(actor: Actor, req: SaleReq, mode: Mode, id: Id, now: int) returns (r: Answer)
      requires Inv(Snapshot()) && Unused(Snapshot(), id)
      modifies `sessions, `sales, `stock, `movements, `adjustments, `orders
      ensures r == SaleAnswer(old(Snapshot()), actor, req, mode, id, now)
      ensures Atomic(old(Snapshot()), r, Snapshot())
    {
      var begun := Snapshot();
      r := ExecuteCore(actor, req, mode, id, now);
      if r.Err? {
        Rollback(begun);
      }
    }

    /** createInternal's retry loop: a conflicting attempt is rolled back, and only the third gives up. */
    method CreateInternal(actor: Actor, req: SaleReq, mode: Mode, tries: Tries, now: int) returns (r: Answer)
      requires Inv(Snapshot()) && forall id <- tries.ids :: Unused(Snapshot(), id)
      modifies `sessions, `sales, `stock, `movements, `adjustments, `orders
      ensures r == RetriedAnswer(old(Snapshot()), actor, req, mode, tries, now)
      ensures Atomic(old(Snapshot()), r, Snapshot())
    {
      var begun := Snapshot();
      var attempt := 0;
      while attempt < ATTEMPTS
        invariant attempt <= ATTEMPTS && Snapshot() == begun
        invariant forall i :: 0 <= i < attempt ==> tries.conflicts[i]
      {
        assert tries.ids[attempt] in tries.ids;
        r := CreateSale(actor, req, mode, tries.ids[attempt], now);
        if !tries.conflicts[attempt] {
          assert FirstClear(tries.conflicts) == attempt;
          return;
        }
        Rollback(begun);
        attempt := attempt + 1;
      }
      r := Err(TransactionRetryRequired);
    }

    // ---------- held orders ----------

    /** persistItems: rows numbered from 0, each with its modifier snapshots. */
    method PersistItems(id: Id, lines: seq<PricedLine>)
      requires id in orders && orders[id].items == []
      modifies `orders
      ensures orders == old(orders)[id := old(orders[id]).(items := HeldItems(lines))]
    {
      var displayOrder := 0;
      while displayOrder < |lines|
        invariant 0 <= displayOrder <= |lines| && id in orders
        invariant orders == old(orders)[id := old(orders[id]).(items := HeldItems(lines)[..displayOrder])]
      {
        var l := lines[displayOrder];
        var lineTotal := l.effectivePrice * l.quantity;
        var row := HeldItem(l.product, l.quantity, l.row.name, l.row.sku, l.row.price, l.effectivePrice,
                            lineTotal, 0, lineTotal, l.note, displayOrder, []);
        if l.options != [] {
          row := row.(modifiers := Map(ModifierOf, l.options));
        }
        assert row == HeldItems(lines)[displayOrder];
        assert HeldItems(lines)[..displayOrder + 1] == HeldItems(lines)[..displayOrder] + [row];
        orders := orders[id := orders[id].(items := orders[id].items + [row])];
        displayOrder := displayOrder + 1;
      }
      assert HeldItems(lines)[..displayOrder] == HeldItems(lines);
    }

    /** resolveItems and totals. */
    method ResolveItems(actor: Actor, items: seq<LineReq>, tax: TaxConfig) returns (r: Result<Priced, Reason>)
      requires CatalogOk(catalog) && LinesInputOk(items)
      ensures r == PriceHeld(catalog, actor.tenant, items, tax)
    {
      var ids := ProductIds(items);
      var products := ReadProducts(catalog, actor.tenant, ids);
      var rows := ReadAssignments(catalog, actor.tenant, ids, catalog.assignments);
      var options := ReadOptionsById(catalog, actor.tenant, RequestedOptions(items));
      r := PriceHeldCart(products, rows, options, items, tax);
    }

    /** authorizeWrite; the session row is locked before it is read. */
    method Authorize(actor: Actor, outlet: Id, session: Id) returns (r: Result<TaxConfig, Reason>)
      ensures var db := Snapshot();
              r == AuthorizeWrite(outlet, ReadPrincipal(db, actor), ReadTenant(db, actor.tenant),
                                  ReadOutlet(db, actor.tenant, outlet), ReadSession(db, actor, Some(session)))
    {
      var db := Snapshot();
      var principal := ReadPrincipal(db, actor);
      if principal.None? {
        return Err(Unauthorized);
      }
      if principal.value.role == OtherRole {
        return Err(RoleForbidden);
      }
      if principal.value.role == Cashier && principal.value.outlet != Some(outlet) {
        return Err(OutletAccessDenied);
      }
      var tenant := ReadTenant(db, actor.tenant);
      if tenant.None? {
        return Err(Unauthorized);
      }
      if !ReadOutlet(db, actor.tenant, outlet) {
        return Err(OutletNotFound);
      }
      var own := ReadSession(db, actor, Some(session));
      if own.None? {
        return Err(InvalidCashierSession);
      }
      if own.value.outlet != outlet {
        return Err(SessionOutletMismatch);
      }
      r := Ok(tenant.value);
    }

    method DecideHold(actor: Actor, req: HoldReq) returns (r: Result<Priced, Reason>)
      requires CatalogOk(catalog)
      ensures CreatePlan(actor, req, HoldReadAll(Snapshot(), actor, req)) ==
              match r case Err(e) => Err(e) case Ok(p) => Ok(NewOrder(actor, req, p))
    {
      if !LinesInputOk(req.items) || !TitleInputOk(req.title) {
        return Err(InvalidInput);
      }
      var tax := Authorize(actor, req.outlet, req.session);
      if tax.Err? {
        return Err(tax.error);
      }
      r := ResolveItems(actor, req.items, tax.value);
    }

    /** INSERT of the order and its rows. */
    method InsertOrder(actor: Actor, req: HoldReq, id: Id, p: Priced)
      modifies `orders
      ensures orders == old(orders)[id := NewOrder(actor, req, p)]
    {
      orders := orders[id := HeldOrder(actor.tenant, req.outlet, req.session, actor.sub, Title(req.title), Open, 1,
                                       p.totals.subtotal, p.totals.tax, p.totals.total, None, None, None, [])];
      PersistItems(id, p.lines);
    }

    method CreateHeldOrder(actor: Actor, req: HoldReq, id: Id) returns (r: Answer)
      requires Unused(Snapshot(), id) && CatalogOk(catalog)
      modifies `orders
      ensures r == HoldAnswer(old(Snapshot()), actor, req, id)
      ensures Atomic(old(Snapshot()), r, Snapshot())
    {
      HoldAllowed(Snapshot(), actor, req, id);
      var priced := DecideHold(actor, req);
      if priced.Err? {
        return Err(priced.error);
      }
      InsertOrder(actor, req, id, priced.value);
      r := Ok(HeldCreated(id, orders[id]));
    }

    /** readScope and the row in that scope. */
    method FindInScope(actor: Actor, id: Id) returns (r: Result<HeldOrder, Reason>)
      ensures var rd := EditReadAll(Snapshot(), actor, id, []);
              r == if ScopeProblem(rd.user, rd.outlet).Some? then Err(ScopeProblem(rd.user, rd.outlet).value)
                   else if rd.order.None? then Err(HeldOrderNotFound) else Ok(rd.order.value)
    {
      var db := Snapshot();
      var principal := ReadPrincipal(db, actor);
      if principal.None? {
        return Err(Unauthorized);
      }
      if principal.value.role == OtherRole {
        return Err(RoleForbidden);
      }
      if principal.value.role == Cashier {
        if principal.value.outlet.None? {
          return Err(OutletAccessDenied);
        }
        if !ReadOutlet(db, actor.tenant, principal.value.outlet.value) {
          return Err(OutletNotFound);
        }
      }
      var order := ReadOrder(db, actor, principal, id);
      r := if order.None? then Err(HeldOrderNotFound) else Ok(order.value);
    }

    /** Up to the conditional update. */
    method DecideEdit(actor: Actor, id: Id, req: EditReq) returns (r: Result<Option<Priced>, Reason>)
      requires CatalogOk(catalog)
      ensures r == UpdatePlan(actor, req, EditReadAll(Snapshot(), actor, id, if req.items.Some? then req.items.value else []))
    {
      if !EditInputOk(req) {
        return Err(InvalidInput);
      }
      var current := FindInScope(actor, id);
      if current.Err? {
        return Err(current.error);
      }
      if current.value.status != Open {
        return Err(HeldOrderNotOpen);
      }
      if current.value.version != req.expected {
        return Err(HeldOrderVersionConflict);
      }
      if req.items.None? {
        return Ok(None);
      }
      var tenant := ReadTenant(Snapshot(), actor.tenant);
      if tenant.None? {
        return Err(Unauthorized);
      }
      var priced := ResolveItems(actor, req.items.value, tenant.value);
      r := if priced.Err? then Err(priced.error) else Ok(Some(priced.value));
    }

    /** The conditional UPDATE, and the replacement of the item rows when items were sent. */
    method WriteEdit(id: Id, req: EditReq, priced: Option<Priced>)
      requires id in orders
      modifies `orders
      ensures orders == old(orders)[id := Edited(old(orders[id]), req, priced)]
    {
      var row := orders[id];
      if req.title.Some? {
        row := row.(title := Title(req.title.value));
      }
      row := row.(version := row.version + 1);
      if priced.Some? {
        var p := priced.value;
        row := row.(subtotal := p.totals.subtotal, tax := p.totals.tax, total := p.totals.total);
        orders := orders[id := row.(items := [])];
        PersistItems(id, p.lines);
      } else {
        orders := orders[id := row];
      }
    }

    method ApplyEdit(id: Id, req: EditReq, priced: Option<Priced>) returns (r: Answer)
      requires id in orders && Guard(Snapshot(), HeldUpdated(id, req.expected, Edited(orders[id], req, priced)))
      modifies `orders
      ensures r == Ok(HeldUpdated(id, req.expected, Edited(old(orders[id]), req, priced)))
      ensures Atomic(old(Snapshot()), r, Snapshot())
    {
      ghost var begun := Snapshot();
      WriteEdit(id, req, priced);
      r := Ok(HeldUpdated(id, req.expected, orders[id]));
      EditedEffect(begun, Snapshot(), id, req, priced);
    }

    method UpdateHeldOrder(actor: Actor, id: Id, req: EditReq) returns (r: Answer)
      requires Inv(Snapshot())
      modifies `orders
      ensures r == EditAnswer(old(Snapshot()), actor, id, req)
      ensures Atomic(old(Snapshot()), r, Snapshot())
    {
      EditAllowed(Snapshot(), actor, id, req);
      var priced := DecideEdit(actor, id, req);
      if priced.Err? {
        return Err(priced.error);
      }
      if id !in orders {
        return Err(HeldOrderNotFound);
      }
      r := ApplyEdit(id, req, priced.value);
    }

    method CancelHeldOrder(actor: Actor, id: Id, expected: nat, now: int) returns (r: Answer)
      requires Inv(Snapshot())
      modifies `orders
      ensures r == CancelAnswer(old(Snapshot()), actor, id, expected, now)
      ensures Atomic(old(Snapshot()), r, Snapshot())
    {
      ghost var begun := Snapshot();
      CancelAllowed(begun, actor, id, expected, now);
      var current := FindInScope(actor, id);
      if current.Err? {
        return Err(current.error);
      }
      if current.value.status != Open {
        return Err(HeldOrderNotOpen);
      }
      if current.value.version != expected {
        return Err(HeldOrderVersionConflict);
      }
      var row := orders[id];
      orders := orders[id := row.(status := Cancelled, cancelledAt := Some(now), version := row.version + 1)];
      r := Ok(HeldCancelled(id, expected, now));
    }

    // ---------- conversion ----------

    /** The replay branch. A key that is already stored never reaches the core's writes. */
    method DecideAgain(actor: Actor, order: HeldOrder, req: ConvertReq, now: int) returns (d: Decision)
      requires CatalogOk(catalog) && KeysUnique(Snapshot())
      ensures d == AgainPlan(Snapshot(), actor, order, req, now)
    {
      var existing := FindByKey(actor.tenant, req.key);
      if existing.None? {
        return Refuse(HeldOrderConvertedNoLink);
      }
      if order.sale != existing {
        return Refuse(HeldOrderLinkMismatch);
      }
      var plan, _ := Decide(actor, ReplayRequest(order, sales[existing.value], req), V1, now);
      match plan {
        case Replay(s) => d := Again(s);
        case Reject(e) => d := Refuse(e);
        case Write(_, _) => d := Refuse(HeldOrderResourceConflict);
      }
    }

    /** convertHeldOrder up to its first write. */
    method DecideConversion(actor: Actor, id: Id, req: ConvertReq, now: int) returns (d: Decision)
      requires CatalogOk(catalog) && KeysUnique(Snapshot())
      ensures d == ConvertPlan(Snapshot(), actor, id, req, now)
    {
      if !ConvertInputOk(req) {
        return Refuse(InvalidInput);
      }
      var found := FindInScope(actor, id);
      if found.Err? {
        return Refuse(found.error);
      }
      var order := found.value;
      if order.status == Converted {
        d := DecideAgain(actor, order, req, now);
        return;
      }
      if order.status != Open {
        return Refuse(HeldOrderNotOpen);
      }
      if order.version != req.expected {
        return Refuse(HeldOrderVersionConflict);
      }
      if !CashierOutletOk(Snapshot(), actor, order) {
        return Refuse(OutletAccessDenied);
      }
      var problem := SessionProblem(Snapshot(), actor, order);
      if problem.Some? {
        return Refuse(problem.value);
      }
      d := Claim(order);
    }

    /** The claim, then the core in the same transaction. */
    method ClaimAndSell(actor: Actor, oid: Id, order: HeldOrder, sale: SaleReq, id: Id, now: int) returns (core: Answer)
      requires CatalogOk(catalog) && KeysUnique(Snapshot()) && Unused(Snapshot(), id) && oid in orders
      modifies `sales, `stock, `movements, `orders
      ensures core == SaleAnswer(old(Snapshot()), actor, sale, V1, id, now)
      ensures CoreDone(old(Snapshot()), core, Snapshot().(orders := old(orders)))
      ensures orders == old(orders)[oid := ClaimedOrder(order)]
    {
      ghost var begun := Snapshot();
      orders := orders[oid := order.(version := order.version + 1)];
      ghost var claimed := Snapshot();
      ClaimChangesNothingElse(begun, claimed, actor, sale, id, now);
      core := ExecuteCore(actor, sale, V1, id, now);
      DoneIgnoresOrders(begun, claimed, core, Snapshot());
    }

    /** CONVERTED, linked and stamped; begun is the database before the claim. */
    method MarkConverted(ghost begun: Store, oid: Id, order: HeldOrder, core: Event, now: int)
      requires core.SaleWritten? || core.SaleReplayed?
      requires CoreDone(begun, Ok(core), Snapshot().(orders := begun.orders))
      requires orders == begun.orders[oid := ClaimedOrder(order)]
      modifies `orders
      ensures CoreDone(begun, Ok(core), Snapshot().(orders := begun.orders))
      ensures orders == begun.orders[oid := ConvertedOrder(order, core.id, now)]
    {
      orders := orders[oid := orders[oid].(status := Converted, sale := Some(core.id), convertedAt := Some(now))];
    }

    method ConvertOpenOrder(actor: Actor, oid: Id, order: HeldOrder, req: ConvertReq, id: Id, now: int) returns (r: Answer)
      requires CatalogOk(catalog) && KeysUnique(Snapshot()) && Unused(Snapshot(), id)
      requires oid in orders && orders[oid] == order
      requires var a := DecisionAnswer(Snapshot(), actor, oid, req, Claim(order), id, now); a.Ok? ==> Guard(Snapshot(), a.value)
      modifies `sales, `stock, `movements, `orders
      ensures r == DecisionAnswer(old(Snapshot()), actor, oid, req, Claim(order), id, now)
      ensures r.Ok? ==> Guard(old(Snapshot()), r.value) && Snapshot() == Effect(old(Snapshot()), r.value)
    {
      ghost var begun := Snapshot();
      var core := ClaimAndSell(actor, oid, order, ConversionRequest(order, req), id, now);
      r := ConversionAnswer(oid, order, req, core, now);
      if core.Ok? {
        MarkConverted(begun, oid, order, core.value, now);
        ConvertedEffect(begun, Snapshot(), oid, req, core.value, now);
      }
    }

    /** Carries out what was decided: claim, sale and terminal update. */
    method CarryOutConversion(d: Decision, actor: Actor, oid: Id, req: ConvertReq, id: Id, now: int) returns (r: Answer)
      requires CatalogOk(catalog) && KeysUnique(Snapshot()) && Unused(Snapshot(), id)
      requires d.Claim? ==> oid in orders && orders[oid] == d.order
      requires var a := DecisionAnswer(Snapshot(), actor, oid, req, d, id, now); a.Ok? ==> Guard(Snapshot(), a.value)
      modifies `sales, `stock, `movements, `orders
      ensures r == DecisionAnswer(old(Snapshot()), actor, oid, req, d, id, now)
      ensures r.Ok? ==> Guard(old(Snapshot()), r.value) && Snapshot() == Effect(old(Snapshot()), r.value)
    {
      match d {
        case Refuse(e) => r := Err(e);
        case Again(s) => r := Ok(HeldReplayed(oid, actor.tenant, req.key, s));
        case Claim(order) => r := ConvertOpenOrder(actor, oid, order, req, id, now);
      }
    }

    /** One attempt of a held-order checkout. */
    method ConvertHeldOrder(actor: Actor, oid: Id, req: ConvertReq, id: Id, now: int) returns (r: Answer)
      requires Inv(Snapshot()) && Unused(Snapshot(), id)
      modifies `sessions, `sales, `stock, `movements, `adjustments, `orders
      ensures r == ConvertAnswer(old(Snapshot()), actor, oid, req, id, now)
      ensures Atomic(old(Snapshot()), r, Snapshot())
    {
      var begun := Snapshot();
      ClaimFound(begun, actor, oid, req, now);
      ConvertAllowed(begun, actor, oid, req, id, now);
      var d := DecideConversion(actor, oid, req, now);
      r := CarryOutConversion(d, actor, oid, req, id, now);
      if r.Err? {
        Rollback(begun);
      }
    }

    // ---------- shifts ----------

    method OpenShift(actor: Actor, outlet: Id, id: Id) returns (r: Answer)
      requires Inv(Snapshot()) && Unused(Snapshot(), id)
      modifies `sessions
      ensures r == OpenAnswer(old(Snapshot()), actor, outlet, id)
      ensures Atomic(old(Snapshot()), r, Snapshot())
    {
      ghost var begun := Snapshot();
      OpenAllowed(begun, actor, outlet, id);
      var problem := OpenShiftProblem(Snapshot(), actor, outlet);
      if problem.Some? {
        return Err(problem.value);
      }
      if exists s :: s in sessions && sessions[s].tenant == actor.tenant && sessions[s].user == actor.sub && sessions[s].open {
        return Err(ShiftAlreadyOpen);
      }
      sessions := sessions[id := Session(actor.tenant, outlet, actor.sub, true, None)];
      r := Ok(ShiftOpened(id, sessions[id]));
    }

    /** The summary is derived before the session closes, and an amount it cannot report stops the close. */
    method SummaryProblem(tenant: Id, id: Id) returns (r: Option<Reason>)
      ensures r == if SummaryFits(Snapshot(), tenant, id) then None else Some(InternalError)
    {
      hide SummaryFits, SummaryOf, Reportable, IsResult, Lists;
      var db := Snapshot();
      var ids := QuerySales(db, tenant, id);
      var rows := ListSales(db, ids);
      var summary := DeriveSummary(rows, Names(db));
      OneSummary(db, tenant, id, ids, rows);
      r := if Reportable(summary) then None else Some(InternalError);
    }

    /** Actor and shift; then, the session row locked, its open orders are counted. */
    method CheckClose(actor: Actor, id: Id) returns (r: Option<Reason>)
      ensures r == ClosePlan(actor, CloseReadAll(Snapshot(), actor, id).(reportable := true))
    {
      var db := Snapshot();
      var principal := ReadPrincipal(db, actor);
      if principal.None? {
        return Some(Unauthorized);
      }
      if principal.value.role == OtherRole {
        return Some(RoleForbidden);
      }
      var shift := ReadShift(db, actor, id);
      if shift.None? {
        return Some(ShiftNotFound);
      }
      if principal.value.role == Cashier && shift.value.user != actor.sub {
        return Some(ShiftAccessDenied);
      }
      if !shift.value.open {
        return Some(ShiftAlreadyClosed);
      }
      var blocked := exists o :: o in orders && IsOpenOrderOf(db, actor.tenant, id, o);
      assert blocked == exists o :: IsOpenOrderOf(db, actor.tenant, id, o);
      r := if blocked then Some(OpenHeldOrdersExist) else None;
    }

    /** CLOSED, if it is still open. */
    method MarkClosed(id: Id, now: int)
      requires id in sessions
      modifies `sessions
      ensures sessions == old(sessions)[id := old(sessions[id]).(open := false, closedAt := Some(now))]
    {
      sessions := sessions[id := sessions[id].(open := false, closedAt := Some(now))];
    }

    /** Everything that can stop a close. */
    method DecideClose(actor: Actor, id: Id) returns (r: Option<Reason>)
      ensures r == ClosePlan(actor, CloseReadAll(Snapshot(), actor, id))
    {
      r := CheckClose(actor, id);
      if r.None? {
        r := SummaryProblem(actor.tenant, id);
      }
    }

    method CloseShift(actor: Actor, id: Id, now: int) returns (r: Answer)
      requires Inv(Snapshot())
      modifies `sessions
      ensures r == CloseAnswer(old(Snapshot()), actor, id, now)
      ensures Atomic(old(Snapshot()), r, Snapshot())
    {
      CloseAllowed(Snapshot(), actor, id, now);
      var problem := DecideClose(actor, id);
      if problem.Some? {
        return Err(problem.value);
      }
      ghost var begun := Snapshot();
      MarkClosed(id, now);
      r := Ok(ShiftClosed(id, now));
      ClosedEffect(begun, Snapshot(), id, now);
    }

    // ---------- stock adjustments ----------

    /** The balance row, created at zero by an ADD that finds none, changed under its own condition. */
    method ChangeBalance(a: Adjustment) returns (problem: Option<Reason>)
      requires a.quantity >= 1
      modifies `stock
      ensures problem == BalanceProblem(old(stock), a)
      ensures problem.None? ==> stock == old(stock)[a.at := StockAt(old(stock), a.at) + SignedQuantity(a)]
    {
      var delta := if a.add then a.quantity else -a.quantity;
      if a.add && a.at !in stock {
        stock := stock[a.at := 0];
      }
      if a.at !in stock || (!a.add && stock[a.at] < a.quantity) {
        return Some(InsufficientStock);
      }
      if stock[a.at] + delta > INT4_MAX {
        return Some(InternalError);
      }
      stock := stock[a.at := stock[a.at] + delta];
      problem := None;
    }

    /** The adjustment row and its signed movement. */
    method RecordAdjustment(a: Adjustment, id: Id)
      modifies `adjustments, `movements
      ensures adjustments == old(adjustments)[id := a]
      ensures movements == old(movements) + [AdjustmentMovementOf(id, a)]
    {
      adjustments := adjustments[id := a];
      var delta := if a.add then a.quantity else -a.quantity;
      movements := movements + [Movement(a.tenant, a.at, a.user, AdjustmentMovement, delta, id)];
    }

    /** The balance changed, or the rollback. */
    method TryBalance(a: Adjustment) returns (problem: Option<Reason>)
      requires a.quantity >= 1
      modifies `sessions, `sales, `stock, `movements, `adjustments, `orders
      ensures problem == BalanceProblem(old(stock), a)
      ensures Snapshot() == if problem.Some? then old(Snapshot())
                            else old(Snapshot()).(stock := old(stock)[a.at := StockAt(old(stock), a.at) + SignedQuantity(a)])
    {
      hide BalanceProblem, StockAt, SignedQuantity;
      var begun := Snapshot();
      problem := ChangeBalance(a);
      if problem.Some? {
        Rollback(begun);
      }
    }

    method ApplyAdjustment(a: Adjustment, id: Id) returns (r: Answer)
      requires a.quantity >= 1
      modifies `sessions, `sales, `stock, `movements, `adjustments, `orders
      ensures r == BalanceAnswer(old(stock), a, id)
      ensures Snapshot() == if r.Ok? then AdjustStock(old(Snapshot()), id, a) else old(Snapshot())
    {
      hide AdjustmentMovementOf, BalanceProblem, StockAt, SignedQuantity;
      var problem := TryBalance(a);
      if problem.Some? {
        return Err(problem.value);
      }
      RecordAdjustment(a, id);
      r := Ok(StockAdjusted(id, a));
    }

    method CreateAdjustment(actor: Actor, at: StockKey, add: bool, quantity: int, id: Id) returns (r: Answer)
      requires Unused(Snapshot(), id)
      modifies `sessions, `sales, `stock, `movements, `adjustments, `orders
      ensures r == AdjustAnswer(old(Snapshot()), actor, at, add, quantity, id)
      ensures Atomic(old(Snapshot()), r, Snapshot())
    {
      var problem := AdjustPlan(AdjustReadAll(Snapshot(), actor, at), quantity);
      if problem.Some? {
        return Err(problem.value);
      }
      ghost var begun := Snapshot();
      var a := Adjustment(actor.tenant, at, actor.sub, add, quantity);
      r := ApplyAdjustment(a, id);
      AdjustedEffect(begun, r, Snapshot(), id, a);
    }
  }
}
