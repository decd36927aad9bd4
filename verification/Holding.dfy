/**
 Held orders from the requests and the rows alone: when one is created, changed, cancelled or converted, what the row then
 holds, and why a call is refused. Nothing here names a decision or a read of the program.
 */
module Holding {
  import opened Base
  import opened Schema
  import opened Access
  import opened Pricing
  import opened PricingAgreement
  import opened Core
  import opened HeldOrders
  import opened HeldOrderFacts
  import opened Cart
  import opened CatalogSnapshots
  import opened Ledger
  import opened LedgerFacts
  import opened Frames
  import opened Replays
  import opened Solo
  import opened Checkout

  // ---------- the input contracts ----------

  predicate LinesFit(items: seq<LineReq>) {
    |items| >= 1 && forall i :: 0 <= i < |items| ==> LineFits(items[i])
  }

  predicate LabelFits(t: Option<string>) {
    t.Some? ==> |t.value| <= 100
  }

  predicate VersionFits(expected: nat) {
    1 <= expected <= 2147483647
  }

  predicate HoldFits(req: HoldReq) {
    LinesFit(req.items) && LabelFits(req.title)
  }

  predicate EditFits(req: EditReq) {
    && VersionFits(req.expected)
    && (req.items.Some? ==> LinesFit(req.items.value)) && (req.title.Some? ==> LabelFits(req.title.value))
  }

  predicate ConvertFits(req: ConvertReq) {
    VersionFits(req.expected) && Shaped(req.payment) && Amount(req.payment.amount) && Amount(req.payment.received)
  }

  lemma LinesFitExact(items: seq<LineReq>)
    ensures LinesInputOk(items) <==> LinesFit(items)
    ensures LinesFit(items) ==> AllOrderable(items)
  {
    if LinesFit(items) {
      forall i | 0 <= i < |items| ensures LineInputOk(items[i], V1) && Orderable(items[i]) {
        assert LineFits(items[i]);
      }
    }
    if LinesInputOk(items) {
      forall i | 0 <= i < |items| ensures LineFits(items[i]) {
        assert LineInputOk(items[i], V1);
      }
    }
  }

  // ---------- the rows of an order ----------

  /** An empty label or note is none. */
  function Text(t: Option<string>): Option<string> {
    if t == Some("") then None else t
  }

  /** Row i of the order is line i of the request as the catalog has its product and options now. */
  ghost predicate ItemHeld(c: Catalog, tenant: Id, it: HeldItem, item: LineReq, i: nat) {
    && Offered(c, tenant, item.product)
    && it.product == item.product && it.quantity == item.quantity && it.note == Text(item.note) && it.displayOrder == i
    && it.name == c.products[item.product].name && it.sku == c.products[item.product].sku
    && it.basePrice == c.products[item.product].price && it.effectivePrice == UnitPrice(c, item)
    && it.lineSubtotal == UnitPrice(c, item) * item.quantity && it.lineDiscount == 0 && it.lineTotal == it.lineSubtotal
    && |it.modifiers| == |item.options|
    && forall k :: 0 <= k < |item.options| ==> Copies(c, tenant, it.modifiers[k], item.options[k])
  }

  ghost predicate ItemsHeld(c: Catalog, tenant: Id, rows: seq<HeldItem>, items: seq<LineReq>) {
    |rows| == |items| && forall i :: 0 <= i < |items| ==> ItemHeld(c, tenant, rows[i], items[i], i)
  }

  /** The estimates of a cart: its worth, the tenant's tax on it, and both together. */
  ghost predicate Estimated(db: Store, order: HeldOrder, items: seq<LineReq>) {
    var worth := Worth(db.catalog, items);
    && worth >= 0 && order.subtotal == worth
    && order.tax == TenantTax(db, order.tenant, worth) && order.total == worth + order.tax
  }

  lemma LinesAreHeld(c: Catalog, tenant: Id, items: seq<LineReq>, sale: seq<PricedLine>, held: seq<PricedLine>)
    requires |sale| == |held| == |items| && SamePrices(sale, held)
    requires forall i :: 0 <= i < |items| ==> PricedFromCatalog(c, tenant, sale[i], items[i]) && HeldLineMatches(held[i], items[i])
    requires PricedAt(c, items, held)
    ensures ItemsHeld(c, tenant, HeldItems(held), items)
  {
    hide Copies, UnitPrice;
    forall i | 0 <= i < |items| ensures ItemHeld(c, tenant, HeldItems(held)[i], items[i], i) {
      assert SamePrice(sale[i], held[i]) && PricedFromCatalog(c, tenant, sale[i], items[i]) && HeldLineMatches(held[i], items[i]);
    }
  }

  lemma FitQuantities(items: seq<LineReq>)
    requires LinesFit(items)
    ensures forall i :: 0 <= i < |items| ==> items[i].quantity >= 1
  {
    forall i | 0 <= i < |items| ensures items[i].quantity >= 1 {
      assert LineFits(items[i]);
    }
  }

  lemma PricedByLines(c: Catalog, tenant: Id, items: seq<LineReq>, tax: TaxConfig)
    requires PriceSale(c, tenant, items, 0, tax).Ok?
    ensures var rows := ReadAssignments(c, tenant, ProductIds(items), c.assignments);
            SaleLines(ReadProducts(c, tenant, ProductIds(items)), rows, ReadOptionsOfGroups(c, tenant, GroupsOf(rows)), items) ==
            Ok(PriceSale(c, tenant, items, 0, tax).value.lines)
  {
    hide SaleLines, SaleTotals;
  }

  /** What the pricing gives an order of these lines. */
  lemma HeldRowsExact(c: Catalog, tenant: Id, items: seq<LineReq>, enabled: bool, rate: nat)
    requires CatalogOk(c) && LinesFit(items)
    requires PriceHeld(c, tenant, items, TaxConfig(enabled, rate)).Ok?
    ensures ItemsHeld(c, tenant, HeldItems(PriceHeld(c, tenant, items, TaxConfig(enabled, rate)).value.lines), items)
  {
    hide CatalogOk, PriceHeldFrom, PriceSaleFrom, PricedFromCatalog, HeldLineMatches, NoneBare, InReach, Worth;
    var tax := TaxConfig(enabled, rate);
    LinesFitExact(items);
    FitQuantities(items);
    HoldExact(c, tenant, items, enabled, rate);
    PricingAgrees(c, tenant, items, tax);
    LinesFromCatalog(c, tenant, ProductIds(items), items);
    PricedHeld(ReadProducts(c, tenant, ProductIds(items)), ReadAssignments(c, tenant, ProductIds(items), c.assignments),
               ReadOptionsById(c, tenant, RequestedOptions(items)), items, tax, PriceHeld(c, tenant, items, tax).value);
    PricedByLines(c, tenant, items, tax);
    LinesAreHeld(c, tenant, items, PriceSale(c, tenant, items, 0, tax).value.lines, PriceHeld(c, tenant, items, tax).value.lines);
  }

  // ---------- creation ----------

  ghost predicate CartHolds(db: Store, tenant: Id, items: seq<LineReq>) {
    AllHold(db.catalog, tenant, items) && Affordable(db, tenant, items, 0)
  }

  ghost predicate MayHold(db: Store, actor: Actor, req: HoldReq) {
    && HoldFits(req)
    && MaySell(db, actor) && WorksAt(db, actor, req.outlet)
    && OpenOutlet(db, actor.tenant, req.outlet)
    && OwnOpenSession(db, actor, req.session) && SessionAt(db, req.session, req.outlet)
    && CartHolds(db, actor.tenant, req.items)
  }

  ghost predicate HoldRefused(db: Store, actor: Actor, req: HoldReq, e: Reason) {
    if !HoldFits(req) then e == InvalidInput
    else if !Member(db, actor) then e == Unauthorized
    else if !MaySell(db, actor) then e == RoleForbidden
    else if !WorksAt(db, actor, req.outlet) then e == OutletAccessDenied
    else if !OpenOutlet(db, actor.tenant, req.outlet) then e == OutletNotFound
    else if !OwnOpenSession(db, actor, req.session) then e == InvalidCashierSession
    else if !SessionAt(db, req.session, req.outlet) then e == SessionOutletMismatch
    else HeldCartFault(db.catalog, actor.tenant, req.items, e) && !CartHolds(db, actor.tenant, req.items)
  }

  /** The created row: the caller's, on the session and outlet of the request, OPEN at version 1, with its estimates. */
  ghost predicate HeldAs(db: Store, actor: Actor, req: HoldReq, order: HeldOrder) {
    && order.tenant == actor.tenant && order.outlet == req.outlet && order.session == req.session
    && order.cashier == actor.sub && order.title == Text(req.title)
    && order.status == Open && order.version == 1
    && order.sale == None && order.cancelledAt == None && order.convertedAt == None
    && Estimated(db, order, req.items) && ItemsHeld(db.catalog, actor.tenant, order.items, req.items)
  }

  lemma PrincipalIsRead(db: Store, actor: Actor)
    ensures ReadPrincipal(db, actor).None? <==> !Member(db, actor)
    ensures Member(db, actor) ==> ReadPrincipal(db, actor) == Some(db.users[actor.sub])
    ensures Member(db, actor) ==> (MaySell(db, actor) <==> db.users[actor.sub].role != OtherRole)
    ensures Member(db, actor) ==> (Cashes(db, actor) <==> db.users[actor.sub].role == Cashier)
    ensures Member(db, actor) ==> forall o :: AssignedTo(db, actor, o) <==> db.users[actor.sub].outlet == Some(o)
  {
  }

  /** The priced lines of a call, in the terms of the cart. */
  lemma PricedHold(db: Store, tenant: Id, items: seq<LineReq>)
    requires CatalogOk(db.catalog) && LinesFit(items) && tenant in db.tenants
    ensures var r := PriceHeld(db.catalog, tenant, items, TaxConfig(db.tenants[tenant].taxEnabled, db.tenants[tenant].taxRate));
            && (r.Ok? <==> CartHolds(db, tenant, items))
            && (r.Err? ==> HeldCartFault(db.catalog, tenant, items, r.error))
            && (r.Ok? ==>
                  && ItemsHeld(db.catalog, tenant, HeldItems(r.value.lines), items)
                  && Worth(db.catalog, items) >= 0 && r.value.totals.subtotal == Worth(db.catalog, items)
                  && r.value.totals.tax == TenantTax(db, tenant, Worth(db.catalog, items))
                  && r.value.totals.total == r.value.totals.subtotal + r.value.totals.tax)
  {
    hide CatalogOk, PriceHeld, HeldCartFault, ItemsHeld, AllHold, Worth;
    LinesFitExact(items);
    HoldExact(db.catalog, tenant, items, db.tenants[tenant].taxEnabled, db.tenants[tenant].taxRate);
    if PriceHeld(db.catalog, tenant, items, TaxConfig(db.tenants[tenant].taxEnabled, db.tenants[tenant].taxRate)).Ok? {
      HeldRowsExact(db.catalog, tenant, items, db.tenants[tenant].taxEnabled, db.tenants[tenant].taxRate);
    }
  }

  /**
   Creating a held order, exactly: it succeeds when the request fits, the caller may sell and works at the open outlet, the
   session is the caller's own, open and at that outlet, and the lines can be held; the row then is the request's, and a
   refusal names the first of these that does not hold.
   */
  lemma CreateExact(db: Store, actor: Actor, req: HoldReq, id: Id)
    requires CatalogOk(db.catalog) && Unused(db, id)
    ensures var r := HoldAnswer(db, actor, req, id);
            && (r.Ok? <==> MayHold(db, actor, req))
            && (r.Ok? ==>
                  && r.value.HeldCreated? && HeldAs(db, actor, req, r.value.order)
                  && Guard(db, r.value) && Effect(db, r.value) == db.(orders := db.orders[id := r.value.order]))
            && (r.Err? ==> HoldRefused(db, actor, req, r.error))
  {
    hide CatalogOk, PriceHeldFrom, HeldCartFault, ItemsHeld, CartHolds, Worth, LinesFit, LinesInputOk, ReadProducts,
      ReadAssignments, ReadOptionsById, RequestedOptions, ProductIds, TenantTax, Guard;
    HoldAllowed(db, actor, req, id);
    LinesFitExact(req.items);
    PrincipalIsRead(db, actor);
    if MaySell(db, actor) && HoldFits(req) {
      TenantIsRead(db, actor);
      PricedHold(db, actor.tenant, req.items);
    }
  }

  // ---------- updates and cancellations ----------

  predicate OpenAtVersion(db: Store, id: Id, expected: nat) {
    id in db.orders && db.orders[id].status == Open && db.orders[id].version == expected
  }

  ghost predicate MayEdit(db: Store, actor: Actor, id: Id, req: EditReq) {
    && EditFits(req) && InScope(db, actor, id) && OpenAtVersion(db, id, req.expected)
    && (req.items.Some? ==> CartHolds(db, actor.tenant, req.items.value))
  }

  /** Why the caller does not reach the order. */
  ghost predicate OutOfScope(db: Store, actor: Actor, id: Id, e: Reason) {
    if !Member(db, actor) then e == Unauthorized
    else if !MaySell(db, actor) then e == RoleForbidden
    else if !HasOutlet(db, actor) then e == OutletAccessDenied
    else if !OutletOpen(db, actor) then e == OutletNotFound
    else e == HeldOrderNotFound && !Sees(db, actor, id)
  }

  /** Why an order in scope is not open at the version. */
  ghost predicate NotOpenAt(db: Store, id: Id, expected: nat, e: Reason)
    requires id in db.orders
  {
    if db.orders[id].status != Open then e == HeldOrderNotOpen
    else e == HeldOrderVersionConflict && db.orders[id].version != expected
  }

  ghost predicate EditRefused(db: Store, actor: Actor, id: Id, req: EditReq, e: Reason) {
    if !EditFits(req) then e == InvalidInput
    else if !InScope(db, actor, id) then OutOfScope(db, actor, id, e)
    else if !OpenAtVersion(db, id, req.expected) then NotOpenAt(db, id, req.expected, e)
    else req.items.Some? && HeldCartFault(db.catalog, actor.tenant, req.items.value, e) && !CartHolds(db, actor.tenant, req.items.value)
  }

  /** The next version: the label as sent or as it was, rows and estimates of the items sent or as they were. */
  ghost predicate EditedAs(db: Store, before: HeldOrder, req: EditReq, order: HeldOrder) {
    && order == before.(version := before.version + 1, title := order.title, items := order.items,
                        subtotal := order.subtotal, tax := order.tax, total := order.total)
    && order.title == (match req.title case None => before.title case Some(t) => Text(t))
    && (match req.items
        case None => order.items == before.items && order.subtotal == before.subtotal && order.tax == before.tax && order.total == before.total
        case Some(items) => Estimated(db, order, items) && ItemsHeld(db.catalog, order.tenant, order.items, items))
  }

  lemma ScopeExact(db: Store, actor: Actor, id: Id)
    ensures var user := ReadPrincipal(db, actor);
            var problem := ScopeProblem(user, ReadScopeOutlet(db, actor, user));
            && (InScope(db, actor, id) <==> problem.None? && ReadOrder(db, actor, user, id).Some?)
            && (InScope(db, actor, id) ==> id in db.orders && ReadOrder(db, actor, user, id) == Some(db.orders[id])
                                           && db.orders[id].tenant == actor.tenant && MaySell(db, actor))
            && (problem.Some? ==> OutOfScope(db, actor, id, problem.value))
            && (problem.None? && ReadOrder(db, actor, user, id).None? ==> OutOfScope(db, actor, id, HeldOrderNotFound))
  {
    ScopeReads(db, actor, id);
    PrincipalIsRead(db, actor);
    if Cashes(db, actor) && db.users[actor.sub].outlet.Some? {
      assert AssignedTo(db, actor, db.users[actor.sub].outlet.value);
    }
  }

  lemma EditInputExact(req: EditReq)
    ensures EditInputOk(req) <==> EditFits(req)
  {
    if req.items.Some? {
      LinesFitExact(req.items.value);
    }
  }

  lemma EditLines(req: EditReq)
    requires EditFits(req) && req.items.Some?
    ensures LinesFit(req.items.value)
  {
  }

  /** What an update of these items is planned to do. */
  lemma PlannedEdit(db: Store, actor: Actor, id: Id, req: EditReq)
    requires CatalogOk(db.catalog)
    ensures var r := UpdatePlan(actor, req, EditReadAll(db, actor, id, if req.items.Some? then req.items.value else []));
            && (r.Ok? <==> MayEdit(db, actor, id, req))
            && (r.Err? ==> EditRefused(db, actor, id, req, r.error))
            && (r.Ok? ==> (r.value.Some? <==> req.items.Some?))
            && (r.Ok? && req.items.Some? ==>
                  var tenant := actor.tenant;
                  tenant in db.tenants
                  && PriceHeld(db.catalog, tenant, req.items.value,
                               TaxConfig(db.tenants[tenant].taxEnabled, db.tenants[tenant].taxRate)) == Ok(r.value.value))
  {
    hide CatalogOk, PriceHeldFrom, HeldCartFault, CartHolds, InScope, OutOfScope, ScopeProblem, ReadOrder, EditInputOk, EditFits,
      ReadPrincipal, ReadScopeOutlet, ReadProducts, ReadAssignments, ReadOptionsById, RequestedOptions, ProductIds, Worth, ItemsHeld,
      LinesFit;
    EditInputExact(req);
    ScopeExact(db, actor, id);
    if req.items.Some? && EditFits(req) && InScope(db, actor, id) {
      TenantIsRead(db, actor);
      EditLines(req);
      PricedHold(db, actor.tenant, req.items.value);
    }
  }

  lemma EditedRow(db: Store, before: HeldOrder, req: EditReq, priced: Option<Priced>)
    requires CatalogOk(db.catalog) && (priced.Some? <==> req.items.Some?) && EditFits(req)
    requires priced.Some? ==>
               && before.tenant in db.tenants
               && PriceHeld(db.catalog, before.tenant, req.items.value,
                            TaxConfig(db.tenants[before.tenant].taxEnabled, db.tenants[before.tenant].taxRate)) == Ok(priced.value)
    ensures EditedAs(db, before, req, Edited(before, req, priced))
  {
    hide CatalogOk, PriceHeld, ItemsHeld, HeldItems, Worth, TenantTax, CartHolds, HeldCartFault, LinesFit;
    if priced.Some? {
      EditLines(req);
      PricedHold(db, before.tenant, req.items.value);
    }
  }

  lemma InScopeIsThere(db: Store, actor: Actor, id: Id)
    requires InScope(db, actor, id)
    ensures id in db.orders && db.orders[id].tenant == actor.tenant
  {
  }

  /** Updating a held order, exactly. */
  lemma UpdateExact(db: Store, actor: Actor, id: Id, req: EditReq)
    requires Inv(db)
    ensures var r := EditAnswer(db, actor, id, req);
            && (r.Ok? <==> MayEdit(db, actor, id, req))
            && (r.Ok? ==>
                  && id in db.orders && r.value.HeldUpdated? && EditedAs(db, db.orders[id], req, r.value.order)
                  && Guard(db, r.value) && Effect(db, r.value) == db.(orders := db.orders[id := r.value.order]))
            && (r.Err? ==> EditRefused(db, actor, id, req, r.error))
  {
    hide CatalogOk, UpdatePlan, EditedAs, EditFits, CartHolds, PriceHeld, Edited, EditRefused, EditReadAll, Guard, Inv;
    SoundCatalog(db);
    EditAllowed(db, actor, id, req);
    PlannedEdit(db, actor, id, req);
    var plan := UpdatePlan(actor, req, EditReadAll(db, actor, id, if req.items.Some? then req.items.value else []));
    if plan.Ok? {
      InScopeIsThere(db, actor, id);
      EditedRow(db, db.orders[id], req, plan.value);
    }
  }

  ghost predicate CancelRefused(db: Store, actor: Actor, id: Id, expected: nat, e: Reason) {
    if !InScope(db, actor, id) then OutOfScope(db, actor, id, e) else NotOpenAt(db, id, expected, e)
  }

  /** Cancelling a held order, exactly: the row is stamped and nothing else of it changes but status and version. */
  lemma CancelExact(db: Store, actor: Actor, id: Id, expected: nat, now: int)
    ensures var r := CancelAnswer(db, actor, id, expected, now);
            && (r.Ok? <==> InScope(db, actor, id) && OpenAtVersion(db, id, expected))
            && (r.Ok? ==>
                  && r.value == HeldCancelled(id, expected, now) && Guard(db, r.value)
                  && Effect(db, r.value) ==
                     db.(orders := db.orders[id := db.orders[id].(status := Cancelled, cancelledAt := Some(now), version := expected + 1)]))
            && (r.Err? ==> CancelRefused(db, actor, id, expected, r.error))
  {
    hide InScope, OutOfScope, ScopeProblem, ReadOrder, ReadPrincipal, ReadScopeOutlet, ReadProducts, ReadAssignments,
      ReadOptionsById, RequestedOptions, ProductIds;
    ScopeExact(db, actor, id);
  }

  // ---------- tax ----------

  lemma EstimatedTax(db: Store, order: HeldOrder, items: seq<LineReq>)
    requires Estimated(db, order, items) && order.tenant in db.tenants
    ensures TaxedBy(db.tenants[order.tenant], order.subtotal, order.tax)
  {
    hide TaxDue, TaxedBy, Worth;
    TaxDueIsNearest(db.tenants[order.tenant], Worth(db.catalog, items));
  }

  /** The tax estimate of an order is that of its own active tenant, as its row has it, whenever the order is priced. */
  lemma HeldTax(db: Store, actor: Actor, hold: HoldReq, newId: Id, edit: EditReq, id: Id)
    requires Inv(db) && Unused(db, newId)
    ensures HoldAnswer(db, actor, hold, newId).Ok? ==>
              && HoldAnswer(db, actor, hold, newId).value.HeldCreated?
              && var order := HoldAnswer(db, actor, hold, newId).value.order;
              order.tenant in db.tenants && db.tenants[order.tenant].active && TaxedBy(db.tenants[order.tenant], order.subtotal, order.tax)
    ensures EditAnswer(db, actor, id, edit).Ok? && edit.items.Some? ==>
              && EditAnswer(db, actor, id, edit).value.HeldUpdated?
              && var order := EditAnswer(db, actor, id, edit).value.order;
              order.tenant in db.tenants && db.tenants[order.tenant].active && TaxedBy(db.tenants[order.tenant], order.subtotal, order.tax)
  {
    hide CatalogOk, Inv, Guard, HoldAnswer, EditAnswer, Estimated, TaxedBy, ItemsHeld, HoldFits, EditFits, CartHolds;
    SoundCatalog(db);
    CreateExact(db, actor, hold, newId);
    UpdateExact(db, actor, id, edit);
    if HoldAnswer(db, actor, hold, newId).Ok? {
      EstimatedTax(db, HoldAnswer(db, actor, hold, newId).value.order, hold.items);
    }
    if EditAnswer(db, actor, id, edit).Ok? && edit.items.Some? {
      EstimatedTax(db, EditAnswer(db, actor, id, edit).value.order, edit.items.value);
    }
  }
}
