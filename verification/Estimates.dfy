/** What a held order shows is what its conversion charges, as long as catalog and tax stay what it was priced against. */
module Estimates {
  import opened Base
  import opened Schema
  import opened Pricing
  import opened Core
  import opened CoreFacts
  import opened HeldOrders
  import opened HeldOrderFacts
  import opened Ledger
  import opened History
  import opened Solo

  ghost predicate PricedFrom(c: Catalog, tax: TaxConfig, order: HeldOrder, items: seq<LineReq>) {
    && LinesInputOk(items) && PriceHeld(c, order.tenant, items, tax).Ok?
    && order == Repriced(order, PriceHeld(c, order.tenant, items, tax).value)
  }

  /** The order's rows and estimates are those of pricing some request against this catalog and tax. */
  ghost predicate PricedAgainst(c: Catalog, tax: TaxConfig, order: HeldOrder) {
    exists items :: PricedFrom(c, tax, order, items)
  }

  predicate SameEstimate(a: HeldOrder, b: HeldOrder) {
    a.tenant == b.tenant && a.items == b.items && a.subtotal == b.subtotal && a.tax == b.tax && a.total == b.total
  }

  lemma SameEstimateSamePrice(c: Catalog, tax: TaxConfig, a: HeldOrder, b: HeldOrder)
    requires SameEstimate(a, b) && PricedAgainst(c, tax, a)
    ensures PricedAgainst(c, tax, b)
  {
    var items :| PricedFrom(c, tax, a, items);
    assert PricedFrom(c, tax, b, items);
  }

  // ---------- one call ----------

  lemma CreatedIsPriced(db: Store, actor: Actor, req: HoldReq, id: Id)
    requires HoldAnswer(db, actor, req, id).Ok?
    ensures HoldAnswer(db, actor, req, id).value.HeldCreated? && ReadTenant(db, actor.tenant).Some?
    ensures HoldAnswer(db, actor, req, id).value.order.tenant == actor.tenant
    ensures PricedAgainst(db.catalog, ReadTenant(db, actor.tenant).value, HoldAnswer(db, actor, req, id).value.order)
  {
    var rd := HoldReadAll(db, actor, req);
    var order := HoldAnswer(db, actor, req, id).value.order;
    var p := PriceHeldFrom(rd.products, rd.rows, rd.options, req.items, rd.tenant.value).value;
    assert order == NewOrder(actor, req, p);
    assert PricedFrom(db.catalog, rd.tenant.value, order, req.items);
  }

  /** An update that replaces the items prices the order anew; one that does not leaves the estimate as it was. */
  lemma EditedIsPriced(db: Store, actor: Actor, id: Id, req: EditReq)
    requires EditAnswer(db, actor, id, req).Ok?
    ensures EditAnswer(db, actor, id, req).value.HeldUpdated? && id in db.orders && db.orders[id].tenant == actor.tenant
    ensures var order := EditAnswer(db, actor, id, req).value.order;
            && order.tenant == actor.tenant
            && (req.items.None? ==> SameEstimate(order, db.orders[id]))
            && (req.items.Some? ==>
                  ReadTenant(db, actor.tenant).Some?
                  && PricedAgainst(db.catalog, ReadTenant(db, actor.tenant).value, order))
  {
    var order := EditAnswer(db, actor, id, req).value.order;
    if req.items.Some? {
      var rd := EditReadAll(db, actor, id, req.items.value);
      assert PricedFrom(db.catalog, rd.tenant.value, order, req.items.value);
    }
  }

  lemma PlannedAtEstimate(db: Store, actor: Actor, order: HeldOrder, req: ConvertReq, now: int, tax: TaxConfig,
                          sale: Sale, tracked: set<Id>)
    requires CatalogOk(db.catalog) && order.tenant == actor.tenant
    requires ReadTenant(db, actor.tenant) == Some(tax) && PricedAgainst(db.catalog, tax, order)
    requires var r := ConversionRequest(order, req); CorePlan(actor, r, V1, ReadAll(db, actor, r), now) == Write(sale, tracked)
    ensures sale.subtotal == order.subtotal && sale.discount == 0 && sale.tax == order.tax && sale.total == order.total
  {
    hide CorePlan, PriceSaleFrom, PriceHeldFrom;
    var r := ConversionRequest(order, req);
    var p := WriteCameFrom(actor, r, V1, ReadAll(db, actor, r), now, sale, tracked);
    var items :| PricedFrom(db.catalog, tax, order, items);
    EstimateIsTheSale(db.catalog, actor.tenant, items, tax, order);
  }

  /** A conversion that writes charges exactly what an order priced against the present catalog and tax shows. */
  lemma ConversionChargesTheEstimate(db: Store, actor: Actor, oid: Id, req: ConvertReq, id: Id, now: int, tax: TaxConfig)
    requires CatalogOk(db.catalog) && ConvertAnswer(db, actor, oid, req, id, now).Ok?
    requires ReadTenant(db, actor.tenant) == Some(tax)
    requires oid in db.orders && PricedAgainst(db.catalog, tax, db.orders[oid])
    ensures var ev, order := ConvertAnswer(db, actor, oid, req, id, now).value, db.orders[oid];
            ev.HeldConverted? && ev.written.Some? ==>
              var sale := ev.written.value.sale;
              sale.subtotal == order.subtotal && sale.discount == 0 && sale.tax == order.tax && sale.total == order.total
  {
    hide CorePlan, ReadAll, ConvertPlan, PricedAgainst;
    ClaimFound(db, actor, oid, req, now);
    var d := ConvertPlan(db, actor, oid, req, now);
    if d.Claim? {
      var r := ConversionRequest(d.order, req);
      var plan := CorePlan(actor, r, V1, ReadAll(db, actor, r), now);
      if plan.Write? {
        PlannedAtEstimate(db, actor, d.order, req, now, tax, plan.sale, plan.tracked);
      }
    }
  }

  // ---------- over histories ----------

  /** The event is the creation of the order, or an update that replaces its items. */
  ghost predicate Prices(db: Store, ev: Event, id: Id, actor: Actor) {
    || (exists req :: HoldAnswer(db, actor, req, id) == Ok(ev))
    || (exists req: EditReq :: req.items.Some? && EditAnswer(db, actor, id, req) == Ok(ev))
  }

  /** No update from event i up to event j replaces the order's items. */
  ghost predicate NotRepriced(db0: Store, tr: seq<Event>, i: nat, j: nat, id: Id)
    requires Valid(db0, tr) && i <= j <= |tr|
  {
    forall k :: i <= k < j && tr[k].HeldUpdated? && tr[k].id == id ==>
      id in At(db0, tr, k).orders && SameEstimate(tr[k].order, At(db0, tr, k).orders[id])
  }

  lemma EventKeepsEstimate(db: Store, ev: Event, id: Id)
    requires Guard(db, ev) && id in db.orders
    requires ev.HeldUpdated? && ev.id == id ==> SameEstimate(ev.order, db.orders[id])
    ensures id in Effect(db, ev).orders && SameEstimate(Effect(db, ev).orders[id], db.orders[id])
  {
    hide CanWrite, HeaderOk, SessionFits, NoOpenOrders, NoOpenSession, Links;
  }

  lemma {:induction false} EstimateStays(db0: Store, tr: seq<Event>, i: nat, j: nat, id: Id)
    requires Valid(db0, tr) && i <= j <= |tr| && id in At(db0, tr, i).orders && NotRepriced(db0, tr, i, j, id)
    ensures id in At(db0, tr, j).orders && SameEstimate(At(db0, tr, j).orders[id], At(db0, tr, i).orders[id])
    decreases j
  {
    hide Guard, Effect;
    if i < j {
      EstimateStays(db0, tr, i, j - 1, id);
      Step(db0, tr, j - 1);
      EventKeepsEstimate(At(db0, tr, j - 1), tr[j - 1], id);
    }
  }

  lemma PricedByEvent(db: Store, ev: Event, id: Id, actor: Actor, tax: TaxConfig)
    requires Guard(db, ev) && Prices(db, ev, id, actor) && ReadTenant(db, actor.tenant) == Some(tax)
    ensures id in Effect(db, ev).orders && Effect(db, ev).orders[id].tenant == actor.tenant
    ensures PricedAgainst(db.catalog, tax, Effect(db, ev).orders[id])
  {
    hide HoldReadAll, EditReadAll, CreatePlan, UpdatePlan, PricedAgainst;
    if req :| HoldAnswer(db, actor, req, id) == Ok(ev) {
      CreatedIsPriced(db, actor, req, id);
    } else {
      var req: EditReq :| req.items.Some? && EditAnswer(db, actor, id, req) == Ok(ev);
      EditedIsPriced(db, actor, id, req);
    }
  }

  lemma CatalogAt(db0: Store, tr: seq<Event>, j: nat)
    requires Inv(db0) && Valid(db0, tr) && j <= |tr|
    ensures CatalogOk(At(db0, tr, j).catalog)
  {
    InvariantAt(db0, tr, j);
  }

  lemma ConvertsOwnTenants(db: Store, actor: Actor, oid: Id, req: ConvertReq, id: Id, now: int)
    requires ConvertAnswer(db, actor, oid, req, id, now).Ok?
    ensures oid in db.orders && db.orders[oid].tenant == actor.tenant
  {
    ClaimFound(db, actor, oid, req, now);
  }

  /**
   The estimate is the sale, end to end: an order last priced by event i, and converted by event j against the catalog and
   tax it was priced against, is charged exactly the subtotal, tax and total it showed, whatever was committed in between.
   */
  lemma EstimateIsCharged(db0: Store, tr: seq<Event>, i: nat, j: nat, id: Id, creator: Actor, tax: TaxConfig,
                          actor: Actor, req: ConvertReq, newId: Id, now: int)
    requires Inv(db0) && Valid(db0, tr) && i < j < |tr|
    requires Prices(At(db0, tr, i), tr[i], id, creator) && NotRepriced(db0, tr, i + 1, j, id)
    requires ReadTenant(At(db0, tr, i), creator.tenant) == Some(tax) == ReadTenant(At(db0, tr, j), creator.tenant)
    requires At(db0, tr, j).catalog == At(db0, tr, i).catalog
    requires ConvertAnswer(At(db0, tr, j), actor, id, req, newId, now) == Ok(tr[j])
    requires tr[j].HeldConverted? && tr[j].written.Some?
    ensures id in At(db0, tr, i + 1).orders
    ensures var shown, sale := At(db0, tr, i + 1).orders[id], tr[j].written.value.sale;
            sale.subtotal == shown.subtotal && sale.discount == 0 && sale.tax == shown.tax && sale.total == shown.total
  {
    hide ConvertAnswer, PricedAgainst, ReadTenant, Prices, NotRepriced, Inv, Guard, Effect;
    Step(db0, tr, i);
    PricedByEvent(At(db0, tr, i), tr[i], id, creator, tax);
    EstimateStays(db0, tr, i + 1, j, id);
    SameEstimateSamePrice(At(db0, tr, i).catalog, tax, At(db0, tr, i + 1).orders[id], At(db0, tr, j).orders[id]);
    CatalogAt(db0, tr, j);
    ConvertsOwnTenants(At(db0, tr, j), actor, id, req, newId, now);
    ConversionChargesTheEstimate(At(db0, tr, j), actor, id, req, newId, now, tax);
  }
}
