/**
 Checking out a held order from the request and the rows alone: when it converts, what that stores, when it only links or
 replays a stored sale, and why it is refused.
 */
module Converting {
  import opened Base
  import opened Schema
  import opened Access
  import opened Core
  import opened CoreFacts
  import opened HeldOrders
  import opened Ledger
  import opened Frames
  import opened Replays
  import opened Solo
  import opened Checkout
  import opened Holding

  // ---------- the claim ----------

  /** A caller whose token says cashier converts orders of the outlet the user row names. */
  predicate TokenReaches(db: Store, actor: Actor, outlet: Id) {
    actor.role == Cashier ==> actor.sub in db.users && db.users[actor.sub].tenant == actor.tenant && AssignedTo(db, actor, outlet)
  }

  /** The session the order originated from is open and not stamped as closed. */
  predicate OriginIsOpen(db: Store, tenant: Id, session: Id) {
    && session in db.sessions && db.sessions[session].tenant == tenant
    && db.sessions[session].open && db.sessions[session].closedAt == None
  }

  ghost predicate MayClaim(db: Store, actor: Actor, oid: Id, req: ConvertReq) {
    && ConvertFits(req) && InScope(db, actor, oid) && OpenAtVersion(db, oid, req.expected)
    && var order := db.orders[oid];
    && TokenReaches(db, actor, order.outlet) && OriginIsOpen(db, actor.tenant, order.session)
    && db.sessions[order.session].outlet == order.outlet && db.sessions[order.session].user == order.cashier
  }

  ghost predicate ClaimRefused(db: Store, actor: Actor, oid: Id, req: ConvertReq, e: Reason) {
    if !ConvertFits(req) then e == InvalidInput
    else if !InScope(db, actor, oid) then OutOfScope(db, actor, oid, e)
    else if !OpenAtVersion(db, oid, req.expected) then NotOpenAt(db, oid, req.expected, e)
    else
      var order := db.orders[oid];
      if !TokenReaches(db, actor, order.outlet) then e == OutletAccessDenied
      else if !OriginIsOpen(db, actor.tenant, order.session) then e == InvalidCashierSession
      else if db.sessions[order.session].outlet != order.outlet then e == SessionOutletMismatch
      else e == SessionUserMismatch && db.sessions[order.session].user != order.cashier
  }

  lemma ConvertInputExact(req: ConvertReq)
    ensures ConvertInputOk(req) <==> ConvertFits(req)
  {
  }

  /** An order that is not converted is claimed exactly when it may be. */
  lemma ClaimExact(db: Store, actor: Actor, oid: Id, req: ConvertReq, now: int)
    requires oid in db.orders ==> db.orders[oid].status != Converted
    ensures var d := ConvertPlan(db, actor, oid, req, now);
            && (d.Claim? <==> MayClaim(db, actor, oid, req))
            && (d.Claim? ==> oid in db.orders && d.order == db.orders[oid] && d.order.tenant == actor.tenant)
            && (d.Refuse? ==> ClaimRefused(db, actor, oid, req, d.reason))
            && !d.Again?
  {
    hide InScope, OutOfScope, ScopeProblem, ReadOrder, ReadPrincipal, ReadScopeOutlet, ConvertFits, ConvertInputOk, AgainPlan;
    ConvertInputExact(req);
    ScopeExact(db, actor, oid);
  }

  /** In a sound database the order's own session is always there, open and the cashier's as long as the order is open. */
  lemma OpenOrdersAreClaimed(db: Store, actor: Actor, oid: Id, req: ConvertReq, now: int)
    requires Inv(db) && ConvertFits(req) && InScope(db, actor, oid) && OpenAtVersion(db, oid, req.expected)
    requires TokenReaches(db, actor, db.orders[oid].outlet)
    ensures ConvertPlan(db, actor, oid, req, now) == Claim(db.orders[oid])
  {
    hide ConvertPlan, InScope;
    assert OrderOk(db, db.orders[oid]);
    InScopeIsThere(db, actor, oid);
    ClaimExact(db, actor, oid, req, now);
  }

  // ---------- the conversion ----------

  /** The sale an order asks for: its rows as lines, on its own outlet and session, without customer or discount. */
  function CartOf(order: HeldOrder, req: ConvertReq): SaleReq {
    SaleReq(req.key, order.outlet, Some(order.session), None, 0, RequestLines(order.items), req.payment)
  }

  ghost predicate MayConvert(db: Store, actor: Actor, oid: Id, req: ConvertReq) {
    MayClaim(db, actor, oid, req) && MayCheckOut(db, actor, CartOf(db.orders[oid], req), V1)
  }

  function ConvertedRow(order: HeldOrder, sale: Id, now: int): HeldOrder {
    order.(status := Converted, sale := Some(sale), convertedAt := Some(now), version := order.version + 1)
  }

  lemma CheckoutSells(db: Store, actor: Actor, cart: SaleReq, id: Id, now: int)
    requires Inv(db) && Unused(db, id) && NewKey(db, actor.tenant, cart.key)
    ensures var r := SaleAnswer(db, actor, cart, V1, id, now);
            && (r.Ok? <==> MayCheckOut(db, actor, cart, V1))
            && (r.Err? ==> Refused(db, actor, cart, V1, r.error))
            && (r.Ok? ==>
                  && r.value.SaleWritten? && r.value.id == id
                  && var after := WriteSale(db, id, r.value.w);
                  && after.sales == db.sales[id := r.value.w.sale] && SoldAs(db, actor, cart, now, r.value.w.sale)
                  && TookStock(db, actor, cart, id, after)
                  && after == db.(sales := after.sales, stock := after.stock, movements := after.movements))
  {
    hide SaleAnswer, MayCheckOut, Refused, SoldAs, TookStock;
    CheckoutExact(db, actor, cart, V1, id, now);
    if MayCheckOut(db, actor, cart, V1) {
      CheckoutTakesStock(db, actor, cart, V1, id, now);
    }
  }

  lemma TookOnlyStock(db: Store, actor: Actor, req: SaleReq, id: Id, a: Store, b: Store)
    requires TookStock(db, actor, req, id, a) && a.stock == b.stock && a.movements == b.movements
    ensures TookStock(db, actor, req, id, b)
  {
  }

  lemma KeysAreUnique(db: Store)
    requires Inv(db)
    ensures KeysUnique(db)
  {
  }

  lemma ClaimersSell(db: Store, actor: Actor, oid: Id, req: ConvertReq)
    requires MayClaim(db, actor, oid, req)
    ensures MaySell(db, actor)
  {
  }

  lemma LinkedSaleIsPaid(db: Store, oid: Id)
    requires Inv(db) && oid in db.orders && db.orders[oid].status == Converted
    ensures db.orders[oid].sale.Some? && db.orders[oid].sale.value in db.sales
    ensures |db.sales[db.orders[oid].sale.value].payments| == 1
  {
    assert OrderOk(db, db.orders[oid]) && MoneyInvariant(db.sales[db.orders[oid].sale.value]);
  }

  lemma FoundKey(db: Store, tenant: Id, key: Id)
    requires KeysUnique(db)
    ensures FindSale(db, tenant, key).None? <==> NewKey(db, tenant, key)
    ensures forall s :: HasKey(db, tenant, key, s) ==> FindSale(db, tenant, key) == Some(s)
  {
    if !NewKey(db, tenant, key) {
      var s :| s in db.sales && db.sales[s].tenant == tenant && db.sales[s].key == key;
      assert HasKey(db, tenant, key, s);
    }
  }

  lemma LinksToItsSale(db: Store, oid: Id)
    requires Inv(db) && oid in db.orders && db.orders[oid].status == Converted
    ensures db.orders[oid].sale.Some? && db.orders[oid].sale.value in db.sales
    ensures Links(db.orders[oid], db.sales[db.orders[oid].sale.value])
  {
    assert OrderOk(db, db.orders[oid]);
  }

  /** Why a converted order in scope is not replayed. */
  lemma AgainCodes(db: Store, actor: Actor, oid: Id, req: ConvertReq, now: int)
    requires Inv(db) && oid in db.orders && db.orders[oid].status == Converted
    requires ConvertFits(req) && InScope(db, actor, oid)
    ensures db.orders[oid].sale.Some? && db.orders[oid].sale.value in db.sales
    ensures var d, sale := ConvertPlan(db, actor, oid, req, now), db.sales[db.orders[oid].sale.value];
            d.Refuse? ==>
              d.reason == if NewKey(db, actor.tenant, req.key) then HeldOrderConvertedNoLink
                          else if !(sale.tenant == actor.tenant && sale.key == req.key) then HeldOrderLinkMismatch
                          else IdempotencyPayloadMismatch
  {
    hide InScope, OutOfScope, ConvertInputOk, ScopeProblem, ReadOrder, ReadPrincipal, ReadScopeOutlet, CorePlan, ReadAll, Inv;
    ConvertInputExact(req);
    ScopeExact(db, actor, oid);
    LinkedSaleIsPaid(db, oid);
    KeysAreUnique(db);
    FoundKey(db, actor.tenant, req.key);
    var link := db.orders[oid].sale.value;
    if HasKey(db, actor.tenant, req.key, link) {
      LinksToItsSale(db, oid);
      RebuiltRequest(db, actor, db.orders[oid], link, req, now);
    }
  }

  /** A converted order is never claimed, and replays no sale but its own. */
  lemma AgainIsTheLink(db: Store, actor: Actor, oid: Id, req: ConvertReq, now: int)
    requires oid in db.orders && db.orders[oid].status == Converted
    ensures var d := ConvertPlan(db, actor, oid, req, now);
            (d.Again? ==> db.orders[oid].sale == Some(d.id)) && !d.Claim?
  {
    ClaimFound(db, actor, oid, req, now);
  }

  /**
   Checking out an open order under a new key, exactly: it converts when the order may be claimed and its cart sells; claim,
   sale, stock and link are then stored together, and it is otherwise refused as the claim or the checkout is.
   */
  lemma ConvertExact(db: Store, actor: Actor, oid: Id, req: ConvertReq, id: Id, now: int)
    requires Inv(db) && Unused(db, id) && NewKey(db, actor.tenant, req.key)
    requires oid in db.orders ==> db.orders[oid].status != Converted
    ensures var r := ConvertAnswer(db, actor, oid, req, id, now);
            && (r.Ok? <==> MayConvert(db, actor, oid, req))
            && (r.Ok? ==>
                  && r.value.HeldConverted? && r.value.sale == id && Guard(db, r.value)
                  && var after, cart := Effect(db, r.value), CartOf(db.orders[oid], req);
                  && after.orders == db.orders[oid := ConvertedRow(db.orders[oid], id, now)]
                  && id in after.sales && after.sales == db.sales[id := after.sales[id]]
                  && SoldAs(db, actor, cart, now, after.sales[id]) && TookStock(db, actor, cart, id, after)
                  && after == db.(orders := after.orders, sales := after.sales, stock := after.stock, movements := after.movements))
            && (r.Err? ==>
                  if MayClaim(db, actor, oid, req) then Refused(db, actor, CartOf(db.orders[oid], req), V1, r.error)
                  else ClaimRefused(db, actor, oid, req, r.error))
  {
    hide ConvertPlan, MayClaim, ClaimRefused, SaleAnswer, MayCheckOut, Refused, SoldAs, TookStock, Inv, Guard, WriteSale;
    ClaimExact(db, actor, oid, req, now);
    ConvertAllowed(db, actor, oid, req, id, now);
    var d := ConvertPlan(db, actor, oid, req, now);
    if d.Claim? {
      var cart := CartOf(d.order, req);
      assert ConversionRequest(d.order, req) == cart;
      CheckoutSells(db, actor, cart, id, now);
      var sold := SaleAnswer(db, actor, cart, V1, id, now);
      if sold.Ok? {
        TookOnlyStock(db, actor, cart, id, WriteSale(db, id, sold.value.w),
                      Effect(db, ConvertAnswer(db, actor, oid, req, id, now).value));
      }
    }
  }

  /** Under a key that is already stored the order is linked to that sale when it is the order's own, and nothing is sold. */
  lemma ConvertTakenKeyExact(db: Store, actor: Actor, oid: Id, req: ConvertReq, id: Id, now: int, stored: Id)
    requires Inv(db) && Unused(db, id) && HasKey(db, actor.tenant, req.key, stored)
    requires oid in db.orders ==> db.orders[oid].status != Converted
    ensures var r := ConvertAnswer(db, actor, oid, req, id, now);
            && (r.Ok? <==>
                  && MayClaim(db, actor, oid, req) && Fits(CartOf(db.orders[oid], req), V1)
                  && Answers(db.sales[stored], actor, CartOf(db.orders[oid], req)))
            && (r.Ok? ==>
                  && r.value.HeldConverted? && r.value.sale == stored && Guard(db, r.value)
                  && Effect(db, r.value) == db.(orders := db.orders[oid := ConvertedRow(db.orders[oid], stored, now)]))
            && (r.Err? && MayClaim(db, actor, oid, req) && Fits(CartOf(db.orders[oid], req), V1) ==>
                  r.error == IdempotencyPayloadMismatch)
  {
    hide ConvertPlan, MayClaim, ClaimRefused, SaleAnswer, Inv, Guard, Fits, Answers, InputFault;
    ClaimExact(db, actor, oid, req, now);
    ConvertAllowed(db, actor, oid, req, id, now);
    KeysAreUnique(db);
    var d := ConvertPlan(db, actor, oid, req, now);
    if d.Claim? {
      var cart := CartOf(d.order, req);
      assert ConversionRequest(d.order, req) == cart;
      ClaimersSell(db, actor, oid, req);
      TakenKeyExact(db, actor, cart, V1, id, now, stored);
    }
  }

  // ---------- an order that is already converted ----------

  /**
   Checking out a converted order, exactly: it is answered with the linked sale when the request fits, the caller reaches
   the order and is its cashier, the key is the sale's and the payment is the one it was sold for; nothing is written.
   */
  lemma ConvertedExact(db: Store, actor: Actor, oid: Id, req: ConvertReq, id: Id, now: int)
    requires Inv(db) && oid in db.orders && db.orders[oid].status == Converted
    ensures var r, order := ConvertAnswer(db, actor, oid, req, id, now), db.orders[oid];
            && order.sale.Some? && order.sale.value in db.sales
            && var sale := db.sales[order.sale.value];
            && |sale.payments| == 1
            && (r.Ok? <==>
                  && ConvertFits(req) && InScope(db, actor, oid) && actor.sub == order.cashier
                  && sale.tenant == actor.tenant && sale.key == req.key && Settles(sale.payments[0], req.payment))
            && (r.Ok? ==> r == Ok(HeldReplayed(oid, actor.tenant, req.key, order.sale.value)))
            && (r.Err? ==>
                  if !ConvertFits(req) then r.error == InvalidInput
                  else if !InScope(db, actor, oid) then OutOfScope(db, actor, oid, r.error)
                  else if NewKey(db, actor.tenant, req.key) then r.error == HeldOrderConvertedNoLink
                  else if !(sale.tenant == actor.tenant && sale.key == req.key) then r.error == HeldOrderLinkMismatch
                  else r.error == IdempotencyPayloadMismatch)
  {
    hide InScope, OutOfScope, ConvertFits, ConvertInputOk, AgainPlan, ScopeProblem, ReadOrder, ReadPrincipal, ReadScopeOutlet, Settles;
    ConvertInputExact(req);
    ScopeExact(db, actor, oid);
    LinkedSaleIsTheCashiers(db, oid);
    LinkedSaleIsPaid(db, oid);
    AgainIsTheLink(db, actor, oid, req, now);
    if ConvertFits(req) && InScope(db, actor, oid) {
      ConvertedReplaysExactly(db, actor, oid, req, now);
      AgainCodes(db, actor, oid, req, now);
    }
  }

  /** The tax of a sale that a conversion writes is that of the caller's own active tenant, as its row has it. */
  lemma ConvertTax(db: Store, actor: Actor, oid: Id, req: ConvertReq, id: Id, now: int)
    requires CatalogOk(db.catalog) && ConvertAnswer(db, actor, oid, req, id, now).Ok?
    ensures var ev := ConvertAnswer(db, actor, oid, req, id, now).value;
            ev.HeldConverted? && ev.written.Some? ==>
              && actor.tenant in db.tenants && db.tenants[actor.tenant].active
              && var sale := ev.written.value.sale;
              TaxedBy(db.tenants[actor.tenant], sale.subtotal - sale.discount, sale.tax)
  {
    hide CatalogOk, SaleAnswer, ConvertPlan, TaxedBy;
    var d := ConvertPlan(db, actor, oid, req, now);
    if d.Claim? {
      var cart := ConversionRequest(d.order, req);
      var sold := SaleAnswer(db, actor, cart, V1, id, now);
      if sold.Ok? && sold.value.SaleWritten? {
        CheckoutTax(db, actor, cart, V1, id, now);
      }
    }
  }
}
