/**
 A checkout, from the request and the rows alone: when it sells, what it then stores and takes from the stock, and why it
 is refused when it does not. Nothing here names a decision or a read of the program.
 */
module Checkout {
  import opened Base
  import opened Schema
  import opened Access
  import opened Pricing
  import opened SameRequest
  import opened Core
  import opened CoreFacts
  import opened Cart
  import opened CatalogSnapshots
  import opened Ledger
  import opened LedgerFacts
  import opened Frames
  import opened Replays
  import opened Solo

  // ---------- the input contract ----------

  predicate Amount(v: Option<int>) {
    v.Some? ==> 0 <= v.value <= 9007199254740991
  }

  /** Cash brings exactly one of its two fields, every other method none. */
  predicate Shaped(p: PaymentReq) {
    if p.paidBy == Cash then p.amount.Some? != p.received.Some? else p.amount.None? && p.received.None?
  }

  predicate LineFits(l: LineReq) {
    && 1 <= l.quantity <= 2147483647
    && |l.options| <= 50 && (forall i, j :: 0 <= i < j < |l.options| ==> l.options[i] != l.options[j])
    && (l.note.Some? ==> |l.note.value| <= 255)
  }

  predicate Fits(req: SaleReq, mode: Mode) {
    && |req.items| >= 1 && (forall i :: 0 <= i < |req.items| ==> LineFits(req.items[i]))
    && 0 <= req.discount <= 9007199254740991
    && Amount(req.payment.amount) && Amount(req.payment.received) && Shaped(req.payment)
    && match mode
       case V1 => req.session.Some?
       case LegacySync =>
         && req.session.None? && req.discount == 0 && req.payment.paidBy == Cash && req.payment.received.None?
         && forall i :: 0 <= i < |req.items| ==> req.items[i].options == [] && req.items[i].note.None?
  }

  /** The code of input that does not fit. */
  ghost predicate InputFault(req: SaleReq, mode: Mode, e: Reason) {
    if mode == V1 && !Shaped(req.payment)
    then e == if req.payment.paidBy == Cash && req.payment.received.None? then CashAmountReceivedRequired
              else PaymentFieldNotAllowed
    else e == InvalidInput
  }

  lemma InputExact(req: SaleReq, mode: Mode)
    ensures InputOk(req, mode) <==> Fits(req, mode)
    ensures !Fits(req, mode) ==> InputProblem(req, mode).Some? && InputFault(req, mode, InputProblem(req, mode).value)
  {
    if Fits(req, mode) {
      forall i | 0 <= i < |req.items| ensures LineInputOk(req.items[i], mode) {
        assert LineFits(req.items[i]);
      }
    }
    if InputOk(req, mode) {
      forall i | 0 <= i < |req.items| ensures LineFits(req.items[i]) {
        assert LineInputOk(req.items[i], mode);
      }
    }
  }

  // ---------- the money ----------

  /** What the customer hands over in cash. */
  function Given(p: PaymentReq): int {
    if p.received.Some? then p.received.value else if p.amount.Some? then p.amount.value else 0
  }

  /** The tax the tenant's own row levies on an amount. */
  function TenantTax(db: Store, tenant: Id, amount: nat): nat {
    if tenant in db.tenants then TaxDue(db.tenants[tenant].taxEnabled, db.tenants[tenant].taxRate, amount) else 0
  }

  /** The total of a cart after the discount. */
  function TotalOf(db: Store, tenant: Id, items: seq<LineReq>, discount: int): int {
    var worth := Worth(db.catalog, items);
    if 0 <= discount <= worth then worth - discount + TenantTax(db, tenant, worth - discount) else 0
  }

  predicate Affordable(db: Store, tenant: Id, items: seq<LineReq>, discount: int) {
    tenant in db.tenants
    && InReach(Worth(db.catalog, items), discount, db.tenants[tenant].taxEnabled, db.tenants[tenant].taxRate)
  }

  // ---------- the stock ----------

  function QuantityIn(items: seq<LineReq>, product: Id): int {
    if items == [] then 0
    else QuantityIn(items[..|items| - 1], product)
         + if items[|items| - 1].product == product then items[|items| - 1].quantity else 0
  }

  /** The cart orders the product, and its stock is tracked. */
  predicate Draws(db: Store, items: seq<LineReq>, product: Id) {
    && product in db.catalog.products && db.catalog.products[product].trackStock
    && exists i :: 0 <= i < |items| && items[i].product == product
  }

  ghost predicate InStock(db: Store, outlet: Id, items: seq<LineReq>) {
    forall p :: Draws(db, items, p) ==>
      StockKey(outlet, p) in db.stock && db.stock[StockKey(outlet, p)] >= QuantityIn(items, p)
  }

  // ---------- when it sells ----------

  predicate InSession(db: Store, actor: Actor, req: SaleReq, mode: Mode) {
    mode == V1 ==> req.session.Some? && OwnOpenSession(db, actor, req.session.value)
  }

  predicate AtSession(db: Store, req: SaleReq, mode: Mode) {
    mode == V1 ==> req.session.Some? && SessionAt(db, req.session.value, req.outlet)
  }

  predicate KnowsCustomer(db: Store, actor: Actor, req: SaleReq) {
    req.customer.Some? ==> req.customer.value in db.customers && db.customers[req.customer.value] == actor.tenant
  }

  /** Only owners and admins give discounts. */
  predicate MayDiscount(db: Store, actor: Actor, req: SaleReq) {
    req.discount > 0 ==> !Cashes(db, actor)
  }

  predicate Pays(p: PaymentReq, total: int) {
    p.paidBy == Cash ==> Given(p) >= total
  }

  ghost predicate Prices(db: Store, actor: Actor, req: SaleReq) {
    AllSell(db.catalog, actor.tenant, req.items) && Affordable(db, actor.tenant, req.items, req.discount)
  }

  /** Everything but the stock, for a request that fits and a caller who may sell. */
  ghost predicate Sold(db: Store, actor: Actor, req: SaleReq, mode: Mode) {
    && InSession(db, actor, req, mode) && AtSession(db, req, mode)
    && OpenOutlet(db, actor.tenant, req.outlet)
    && KnowsCustomer(db, actor, req)
    && MayDiscount(db, actor, req)
    && Prices(db, actor, req)
    && TotalOf(db, actor.tenant, req.items, req.discount) > 0
    && Pays(req.payment, TotalOf(db, actor.tenant, req.items, req.discount))
  }

  ghost predicate MayCheckOut(db: Store, actor: Actor, req: SaleReq, mode: Mode) {
    Fits(req, mode) && MaySell(db, actor) && Sold(db, actor, req, mode) && InStock(db, req.outlet, req.items)
  }

  /** The code of a refusal: the first condition that is not met. */
  ghost predicate Refused(db: Store, actor: Actor, req: SaleReq, mode: Mode, e: Reason) {
    if !Fits(req, mode) then InputFault(req, mode, e)
    else if !Member(db, actor) then e == Unauthorized
    else if !MaySell(db, actor) then e == RoleForbidden
    else if !InSession(db, actor, req, mode) then e == InvalidCashierSession
    else if !AtSession(db, req, mode) then e == SessionOutletMismatch
    else if !OpenOutlet(db, actor.tenant, req.outlet) then e == OutletNotFound
    else if !KnowsCustomer(db, actor, req) then e == CustomerNotFound
    else if !MayDiscount(db, actor, req) then e == DiscountForbidden
    else if !Prices(db, actor, req) then CartFault(db.catalog, actor.tenant, req.items, req.discount, e)
    else if TotalOf(db, actor.tenant, req.items, req.discount) <= 0 then e == TotalNotPositive
    else if !Pays(req.payment, TotalOf(db, actor.tenant, req.items, req.discount)) then e == CashUnderpayment
    else e == InsufficientStock && !InStock(db, req.outlet, req.items)
  }

  // ---------- what it stores ----------

  function PaymentFor(p: PaymentReq, total: int): Payment {
    Payment(p.paidBy, Paid, total, if p.paidBy == Cash then Some(Given(p)) else None,
            if p.paidBy == Cash then Some(Given(p) - total) else None)
  }

  ghost predicate ItemSold(db: Store, tenant: Id, it: SaleItem, item: LineReq) {
    && ItemCopies(db.catalog, tenant, it, item)
    && it.unitPrice == UnitPrice(db.catalog, item) && it.effectivePrice == Some(it.unitPrice)
    && it.subtotal == it.unitPrice * item.quantity
  }

  ghost predicate MoneyStored(db: Store, actor: Actor, req: SaleReq, sale: Sale) {
    var worth := Worth(db.catalog, req.items);
    && sale.subtotal == worth && sale.discount == req.discount
    && 0 <= req.discount <= worth && sale.tax == TenantTax(db, actor.tenant, worth - req.discount)
    && sale.total == TotalOf(db, actor.tenant, req.items, req.discount)
    && sale.payments == [PaymentFor(req.payment, sale.total)]
  }

  ghost predicate SoldAs(db: Store, actor: Actor, req: SaleReq, now: int, sale: Sale) {
    && sale.tenant == actor.tenant && sale.user == actor.sub && sale.outlet == req.outlet && sale.session == req.session
    && sale.customer == req.customer && sale.key == req.key && sale.status == Completed && sale.createdAt == now
    && MoneyStored(db, actor, req, sale)
    && |sale.items| == |req.items| && forall i :: 0 <= i < |req.items| ==> ItemSold(db, actor.tenant, sale.items[i], req.items[i])
  }

  // ---------- the plan ----------

  lemma OrderableItems(req: SaleReq, mode: Mode)
    requires Fits(req, mode)
    ensures AllOrderable(req.items)
  {
    forall i | 0 <= i < |req.items| ensures Orderable(req.items[i]) {
      assert LineFits(req.items[i]);
    }
  }

  lemma TenantIsRead(db: Store, actor: Actor)
    requires MaySell(db, actor)
    ensures ReadTenant(db, actor.tenant) == Some(TaxConfig(db.tenants[actor.tenant].taxEnabled, db.tenants[actor.tenant].taxRate))
    ensures ReadUser(db, actor) == Some(db.users[actor.sub]) && db.users[actor.sub].role != OtherRole
  {
  }

  lemma FitsMoney(req: SaleReq, mode: Mode)
    requires Fits(req, mode)
    ensures req.discount >= 0 && Shaped(req.payment)
  {
  }

  lemma ReachIsTotal(db: Store, actor: Actor, req: SaleReq)
    requires Affordable(db, actor.tenant, req.items, req.discount)
    ensures var worth := Worth(db.catalog, req.items);
            && 0 <= req.discount <= worth
            && TotalOf(db, actor.tenant, req.items, req.discount) == worth - req.discount + TenantTax(db, actor.tenant, worth - req.discount)
  {
  }

  /** The plan of an authorised, well-formed request for new stock: refused, or the sale as it will be stored. */
  lemma NewPlanExact(db: Store, actor: Actor, req: SaleReq, mode: Mode, now: int)
    requires CatalogOk(db.catalog) && Fits(req, mode) && MaySell(db, actor)
    ensures var plan := NewSalePlan(actor, req, mode, ReadAll(db, actor, req), now);
            && (plan.Reject? <==> !Sold(db, actor, req, mode))
            && (plan.Reject? ==> Refused(db, actor, req, mode, plan.reason))
            && !plan.Replay?
  {
    hide CatalogOk, Fits, AllOrderable, AllSell, InReach, CartFault, Worth, PriceSaleFrom, InStock, InputFault, ReadProducts,
      ReadAssignments, ReadOptionsOfGroups, GroupsOf, ProductIds, SaleOf, TaxDue;
    TenantIsRead(db, actor);
    OrderableItems(req, mode);
    assert req.discount >= 0 && Shaped(req.payment) by {
      FitsMoney(req, mode);
    }
    SaleExact(db.catalog, actor.tenant, req.items, req.discount, db.tenants[actor.tenant].taxEnabled, db.tenants[actor.tenant].taxRate);
    if Affordable(db, actor.tenant, req.items, req.discount) {
      ReachIsTotal(db, actor, req);
    }
  }

  // ---------- the stored sale ----------

  lemma ItemsSold(db: Store, actor: Actor, req: SaleReq, lines: seq<PricedLine>)
    requires PricedAt(db.catalog, req.items, lines)
    requires forall i :: 0 <= i < |req.items| ==> ItemCopies(db.catalog, actor.tenant, Map(SaleItemOf, lines)[i], req.items[i])
    ensures forall i :: 0 <= i < |req.items| ==> ItemSold(db, actor.tenant, Map(SaleItemOf, lines)[i], req.items[i])
  {
    hide ItemCopies, UnitPrice;
  }

  lemma PaymentStored(p: PaymentReq, total: int)
    requires Shaped(p)
    ensures PaymentOf(p, total) == PaymentFor(p, total)
  {
  }

  lemma SessionAsked(req: SaleReq, mode: Mode)
    requires Fits(req, mode)
    ensures (if mode == V1 then req.session else None) == req.session
  {
  }

  lemma DrawnProducts(db: Store, items: seq<LineReq>)
    ensures forall p :: (p in ProductIds(items) && p in db.catalog.products && db.catalog.products[p].trackStock) <==> Draws(db, items, p)
  {
  }

  /** A written plan is the sale the rows describe. */
  lemma WrittenAsSold(db: Store, actor: Actor, req: SaleReq, mode: Mode, now: int, sale: Sale, tracked: set<Id>)
    requires CatalogOk(db.catalog) && Fits(req, mode) && MaySell(db, actor)
    requires CorePlan(actor, req, mode, ReadAll(db, actor, req), now) == Write(sale, tracked)
    ensures SoldAs(db, actor, req, now, sale)
    ensures forall p :: p in tracked <==> Draws(db, req.items, p)
  {
    hide CatalogOk, CorePlan, Worth, InReach, AllSell, Fits, ItemCopies, ItemSold, PriceSaleFrom, PaymentOf, PaymentFor, UnitPrice;
    var rd := ReadAll(db, actor, req);
    var p := WriteCameFrom(actor, req, mode, rd, now, sale, tracked);
    TenantIsRead(db, actor);
    OrderableItems(req, mode);
    FitsMoney(req, mode);
    SaleExact(db.catalog, actor.tenant, req.items, req.discount, db.tenants[actor.tenant].taxEnabled, db.tenants[actor.tenant].taxRate);
    ReachIsTotal(db, actor, req);
    WrittenSaleCopiesCatalog(db, actor, req, mode, now, sale, tracked);
    ItemsSold(db, actor, req, p.lines);
    PaymentStored(req.payment, p.totals.total);
    SessionAsked(req, mode);
    DrawnProducts(db, req.items);
  }

  // ---------- the stock it draws on ----------

  lemma ItemFollowsLine(db: Store, tenant: Id, it: SaleItem, item: LineReq)
    requires ItemSold(db, tenant, it, item)
    ensures it.product == item.product && it.quantity == item.quantity
  {
  }

  lemma {:induction false} StoredQuantity(db: Store, tenant: Id, stored: seq<SaleItem>, items: seq<LineReq>, p: Id)
    requires |stored| == |items| && forall i :: 0 <= i < |items| ==> ItemSold(db, tenant, stored[i], items[i])
    ensures QuantityOf(stored, p) == QuantityIn(items, p)
  {
    hide ItemSold;
    if items != [] {
      var n := |items| - 1;
      StoredQuantity(db, tenant, stored[..n], items[..n], p);
      assert stored[n].product == items[n].product && stored[n].quantity == items[n].quantity by {
        ItemFollowsLine(db, tenant, stored[n], items[n]);
      }
    }
  }

  lemma {:induction false} OrderedIsCounted(items: seq<LineReq>, p: Id)
    requires forall i :: 0 <= i < |items| ==> items[i].quantity >= 1
    ensures if exists i :: 0 <= i < |items| && items[i].product == p then QuantityIn(items, p) >= 1 else QuantityIn(items, p) == 0
  {
    if items != [] {
      var n := |items| - 1;
      OrderedIsCounted(items[..n], p);
      if i :| 0 <= i < |items| && items[i].product == p {
        assert i < n ==> items[..n][i].product == p;
      }
      if i :| 0 <= i < n && items[..n][i].product == p {
        assert items[i].product == p;
      }
    }
  }

  lemma {:induction false} TakenIsListed(decs: seq<Dec>, p: Id)
    requires Taken(decs, p) != 0
    ensures exists i :: 0 <= i < |decs| && decs[i].product == p
  {
    if decs[|decs| - 1].product != p {
      TakenIsListed(decs[..|decs| - 1], p);
      var i :| 0 <= i < |decs| - 1 && decs[..|decs| - 1][i].product == p;
      assert decs[i].product == p;
    }
  }

  /** The decrements of the stored sale are the drawn products, each with the quantity of all its lines. */
  lemma DecrementsAreDrawn(db: Store, actor: Actor, req: SaleReq, now: int, w: Written, p: Id)
    requires SoldAs(db, actor, req, now, w.sale) && (forall i :: 0 <= i < |req.items| ==> req.items[i].quantity >= 1)
    requires forall x :: x in w.tracked <==> Draws(db, req.items, x)
    ensures DistinctProducts(DecsOf(w))
    ensures Taken(DecsOf(w), p) == if Draws(db, req.items, p) then QuantityIn(req.items, p) else 0
    ensures Draws(db, req.items, p) <==> exists i :: 0 <= i < |DecsOf(w)| && DecsOf(w)[i].product == p
    ensures forall i :: 0 <= i < |DecsOf(w)| && DecsOf(w)[i].product == p ==> DecsOf(w)[i].quantity == QuantityIn(req.items, p)
  {
    hide MoneyStored, ItemSold, UnitPrice, Decrements;
    var decs := DecsOf(w);
    forall it <- w.sale.items ensures it.quantity >= 1 {
      var i :| 0 <= i < |w.sale.items| && w.sale.items[i] == it;
      ItemFollowsLine(db, actor.tenant, it, req.items[i]);
    }
    DecrementsExact(w.sale.items, w.tracked, p);
    StoredQuantity(db, actor.tenant, w.sale.items, req.items, p);
    OrderedIsCounted(req.items, p);
    TakenCovers(decs, p);
    if Draws(db, req.items, p) {
      TakenIsListed(decs, p);
    }
    if i :| 0 <= i < |decs| && decs[i].product == p {
      assert decs[i] in decs;
    }
  }

  lemma CoverExact(db: Store, actor: Actor, req: SaleReq, now: int, w: Written)
    requires SoldAs(db, actor, req, now, w.sale) && (forall i :: 0 <= i < |req.items| ==> req.items[i].quantity >= 1)
    requires forall x :: x in w.tracked <==> Draws(db, req.items, x)
    ensures StockCovers(db.stock, req.outlet, DecsOf(w)) <==> InStock(db, req.outlet, req.items)
  {
    hide SoldAs, Decrements;
    var decs := DecsOf(w);
    if StockCovers(db.stock, req.outlet, decs) {
      forall p | Draws(db, req.items, p)
        ensures StockKey(req.outlet, p) in db.stock && db.stock[StockKey(req.outlet, p)] >= QuantityIn(req.items, p)
      {
        DecrementsAreDrawn(db, actor, req, now, w, p);
        var i :| 0 <= i < |decs| && decs[i].product == p;
      }
    }
    if InStock(db, req.outlet, req.items) {
      forall i | 0 <= i < |decs|
        ensures StockKey(req.outlet, decs[i].product) in db.stock && db.stock[StockKey(req.outlet, decs[i].product)] >= decs[i].quantity
      {
        DecrementsAreDrawn(db, actor, req, now, w, decs[i].product);
        assert Draws(db, req.items, decs[i].product);
      }
    }
  }

  // ---------- the checkout ----------

  ghost predicate NewKey(db: Store, tenant: Id, key: Id) {
    forall s <- db.sales :: !(db.sales[s].tenant == tenant && db.sales[s].key == key)
  }

  lemma NewKeyPlan(db: Store, actor: Actor, req: SaleReq, mode: Mode, now: int)
    requires NewKey(db, actor.tenant, req.key)
    ensures var plan := CorePlan(actor, req, mode, ReadAll(db, actor, req), now);
            if !InputOk(req, mode) then plan == Reject(InputProblem(req, mode).value)
            else if !Member(db, actor) then plan == Reject(Unauthorized)
            else if !MaySell(db, actor) then plan == Reject(RoleForbidden)
            else plan == NewSalePlan(actor, req, mode, ReadAll(db, actor, req), now)
  {
    hide InputOk, NewSalePlan;
    assert ReadExisting(db, actor.tenant, req.key).None?;
  }

  lemma FitsQuantities(req: SaleReq, mode: Mode)
    requires Fits(req, mode)
    ensures forall i :: 0 <= i < |req.items| ==> req.items[i].quantity >= 1
  {
    forall i | 0 <= i < |req.items| ensures req.items[i].quantity >= 1 {
      assert LineFits(req.items[i]);
    }
  }

  lemma SoldThere(db: Store, actor: Actor, req: SaleReq, now: int, sale: Sale)
    requires SoldAs(db, actor, req, now, sale)
    ensures sale.outlet == req.outlet
  {
  }

  /** Out of stock is the refusal of everything else that is met. */
  lemma SoldIsNotRefused(db: Store, actor: Actor, req: SaleReq, mode: Mode)
    requires Fits(req, mode) && MaySell(db, actor) && Sold(db, actor, req, mode)
    ensures forall e :: Refused(db, actor, req, mode, e) <==> e == InsufficientStock && !InStock(db, req.outlet, req.items)
  {
    hide InStock, Fits, Prices;
  }

  /**
   A checkout under a new key, exactly: it sells when the request fits, the caller may sell, session, outlet, customer and
   discount are allowed, every line sells, the amounts are in reach, the total is positive and paid, and the tracked
   products are in stock; it then stores the sale the rows describe, and is otherwise refused for the first of these that
   does not hold.
   */
  lemma CheckoutExact(db: Store, actor: Actor, req: SaleReq, mode: Mode, id: Id, now: int)
    requires CatalogOk(db.catalog) && NewKey(db, actor.tenant, req.key)
    ensures var r := SaleAnswer(db, actor, req, mode, id, now);
            && (r.Ok? <==> MayCheckOut(db, actor, req, mode))
            && (r.Ok? ==>
                  && r.value.SaleWritten? && r.value.id == id && SoldAs(db, actor, req, now, r.value.w.sale)
                  && forall p :: p in r.value.w.tracked <==> Draws(db, req.items, p))
            && (r.Err? ==> Refused(db, actor, req, mode, r.error))
  {
    hide CatalogOk, Fits, CorePlan, NewSalePlan, SoldAs, InStock, Sold, StockCovers, Draws, InputFault, InputOk, ReadAll;
    InputExact(req, mode);
    NewKeyPlan(db, actor, req, mode, now);
    if Fits(req, mode) && MaySell(db, actor) {
      NewPlanExact(db, actor, req, mode, now);
      var plan := CorePlan(actor, req, mode, ReadAll(db, actor, req), now);
      if plan.Write? {
        WrittenAsSold(db, actor, req, mode, now, plan.sale, plan.tracked);
        FitsQuantities(req, mode);
        CoverExact(db, actor, req, now, Written(plan.sale, plan.tracked));
        SoldThere(db, actor, req, now, plan.sale);
        SoldIsNotRefused(db, actor, req, mode);
      }
    }
  }

  /** The nearest integer to the percentage of an amount, a half rounded up; nothing when the tenant charges no tax. */
  predicate TaxedBy(t: Tenant, amount: int, tax: int) {
    if t.taxEnabled then -5000 < 10000 * tax - amount * t.taxRate <= 5000 else tax == 0
  }

  lemma TaxDueIsNearest(t: Tenant, amount: nat)
    ensures TaxedBy(t, amount, TaxDue(t.taxEnabled, t.taxRate, amount))
  {
    var x := amount * t.taxRate + 5000;
    assert x == x / 10000 * 10000 + x % 10000;
  }

  lemma TakenKeyIsNotWritten(db: Store, actor: Actor, req: SaleReq, mode: Mode, now: int, s: Id)
    requires HasKey(db, actor.tenant, req.key, s)
    ensures !CorePlan(actor, req, mode, ReadAll(db, actor, req), now).Write?
  {
    hide NewSalePlan, AssertSameRequest, InputOk;
  }

  lemma WrittenPlanIsNew(db: Store, actor: Actor, req: SaleReq, mode: Mode, now: int)
    ensures CorePlan(actor, req, mode, ReadAll(db, actor, req), now).Write? ==> NewKey(db, actor.tenant, req.key)
  {
    hide CorePlan, ReadAll;
    if !NewKey(db, actor.tenant, req.key) {
      var s :| s in db.sales && db.sales[s].tenant == actor.tenant && db.sales[s].key == req.key;
      TakenKeyIsNotWritten(db, actor, req, mode, now, s);
    }
  }

  lemma WrittenIsNew(db: Store, actor: Actor, req: SaleReq, mode: Mode, id: Id, now: int)
    requires SaleAnswer(db, actor, req, mode, id, now).Ok? && SaleAnswer(db, actor, req, mode, id, now).value.SaleWritten?
    ensures NewKey(db, actor.tenant, req.key)
  {
    hide CorePlan, ReadAll, NewKey;
    WrittenPlanIsNew(db, actor, req, mode, now);
  }

  /** The tax of a sale that a checkout writes is that of the caller's own active tenant, as its row has it. */
  lemma CheckoutTax(db: Store, actor: Actor, req: SaleReq, mode: Mode, id: Id, now: int)
    requires CatalogOk(db.catalog) && SaleAnswer(db, actor, req, mode, id, now).Ok?
    requires SaleAnswer(db, actor, req, mode, id, now).value.SaleWritten?
    ensures actor.tenant in db.tenants && db.tenants[actor.tenant].active
    ensures var sale := SaleAnswer(db, actor, req, mode, id, now).value.w.sale;
            TaxedBy(db.tenants[actor.tenant], sale.subtotal - sale.discount, sale.tax)
  {
    hide CatalogOk, SaleAnswer, ItemSold, Worth, TaxDue, TaxedBy, Sold, InStock, Fits;
    WrittenIsNew(db, actor, req, mode, id, now);
    CheckoutExact(db, actor, req, mode, id, now);
    var sale := SaleAnswer(db, actor, req, mode, id, now).value.w.sale;
    TaxDueIsNearest(db.tenants[actor.tenant], sale.subtotal - sale.discount);
  }

  // ---------- the stock it takes ----------

  /** The movement row of one drawn product. */
  function Outflow(actor: Actor, req: SaleReq, id: Id, product: Id): Movement {
    Movement(actor.tenant, StockKey(req.outlet, product), actor.sub, SaleMovement, -QuantityIn(req.items, product), id)
  }

  lemma SoldBy(db: Store, actor: Actor, req: SaleReq, now: int, sale: Sale)
    requires SoldAs(db, actor, req, now, sale)
    ensures sale.outlet == req.outlet && sale.tenant == actor.tenant && sale.user == actor.sub
  {
  }

  /** Each drawn product once, with the quantity of all its lines. */
  ghost predicate Drawn(db: Store, items: seq<LineReq>, decs: seq<Dec>) {
    && DistinctProducts(decs)
    && (forall p :: Taken(decs, p) == if Draws(db, items, p) then QuantityIn(items, p) else 0)
    && (forall p :: Draws(db, items, p) ==> exists i :: 0 <= i < |decs| && decs[i].product == p)
    && (forall i :: 0 <= i < |decs| ==> Draws(db, items, decs[i].product) && decs[i].quantity == QuantityIn(items, decs[i].product))
  }

  lemma AllDrawn(db: Store, actor: Actor, req: SaleReq, now: int, w: Written)
    requires SoldAs(db, actor, req, now, w.sale) && (forall i :: 0 <= i < |req.items| ==> req.items[i].quantity >= 1)
    requires forall x :: x in w.tracked <==> Draws(db, req.items, x)
    ensures Drawn(db, req.items, DecsOf(w))
  {
    hide SoldAs, Decrements, Draws;
    var decs := DecsOf(w);
    DecrementsAreDrawn(db, actor, req, now, w, "");
    forall p
      ensures Taken(decs, p) == if Draws(db, req.items, p) then QuantityIn(req.items, p) else 0
      ensures Draws(db, req.items, p) ==> exists i :: 0 <= i < |decs| && decs[i].product == p
    {
      DecrementsAreDrawn(db, actor, req, now, w, p);
    }
    forall i | 0 <= i < |decs| ensures Draws(db, req.items, decs[i].product) && decs[i].quantity == QuantityIn(req.items, decs[i].product) {
      DecrementsAreDrawn(db, actor, req, now, w, decs[i].product);
    }
  }

  /** What the cart takes from one balance. */
  function Takes(db: Store, req: SaleReq, k: StockKey): int {
    if k.outlet == req.outlet && Draws(db, req.items, k.product) then QuantityIn(req.items, k.product) else 0
  }

  /** The balances after the cart, and one movement row per drawn product appended. */
  ghost predicate TookStock(db: Store, actor: Actor, req: SaleReq, id: Id, after: Store) {
    && after.stock.Keys == db.stock.Keys && (forall k <- db.stock :: after.stock[k] == db.stock[k] - Takes(db, req, k))
    && |after.movements| >= |db.movements| && after.movements[..|db.movements|] == db.movements
    && (forall i :: |db.movements| <= i < |after.movements| ==>
          Draws(db, req.items, after.movements[i].at.product)
          && after.movements[i] == Outflow(actor, req, id, after.movements[i].at.product))
    && (forall i, j :: |db.movements| <= i < j < |after.movements| ==> after.movements[i].at != after.movements[j].at)
    && (forall p :: Draws(db, req.items, p) ==> Outflow(actor, req, id, p) in after.movements)
  }

  lemma WriteTakes(db: Store, actor: Actor, req: SaleReq, id: Id, w: Written)
    requires w.sale.outlet == req.outlet && w.sale.tenant == actor.tenant && w.sale.user == actor.sub
    requires Drawn(db, req.items, DecsOf(w))
    ensures TookStock(db, actor, req, id, WriteSale(db, id, w))
  {
    hide Draws, DecsOf, Taken, QuantityIn;
    var decs, after := DecsOf(w), WriteSale(db, id, w);
    forall p | Draws(db, req.items, p) ensures Outflow(actor, req, id, p) in after.movements {
      var i :| 0 <= i < |decs| && decs[i].product == p;
      assert after.movements[|db.movements| + i] == Outflow(actor, req, id, p);
    }
  }

  /**
   A checkout that sells stores its sale, takes from the outlet's stock each drawn product's quantity, appends one movement
   row for each, and changes nothing else.
   */
  lemma CheckoutTakesStock(db: Store, actor: Actor, req: SaleReq, mode: Mode, id: Id, now: int)
    requires Inv(db) && Unused(db, id) && NewKey(db, actor.tenant, req.key) && MayCheckOut(db, actor, req, mode)
    ensures var r := SaleAnswer(db, actor, req, mode, id, now);
            && r.Ok? && Guard(db, r.value)
            && var after := Effect(db, r.value);
            && id in after.sales && after.sales == db.sales[id := after.sales[id]] && SoldAs(db, actor, req, now, after.sales[id])
            && TookStock(db, actor, req, id, after)
            && after == db.(sales := after.sales, stock := after.stock, movements := after.movements)
  {
    hide CatalogOk, Fits, SaleAnswer, SoldAs, InStock, Sold, Draws, Drawn, TookStock, MoneyInvariant, StockCovers, TakeStock;
    SaleAllowed(db, actor, req, mode, id, now);
    CheckoutExact(db, actor, req, mode, id, now);
    FitsQuantities(req, mode);
    var w := SaleAnswer(db, actor, req, mode, id, now).value.w;
    SoldBy(db, actor, req, now, w.sale);
    AllDrawn(db, actor, req, now, w);
    WriteTakes(db, actor, req, id, w);
  }

  // ---------- a key that is taken ----------

  /** The stored sale is what this request would have been answered with. */
  ghost predicate Answers(sale: Sale, actor: Actor, req: SaleReq) {
    && sale.user == actor.sub && sale.outlet == req.outlet && sale.session == req.session
    && sale.customer == req.customer && sale.discount == req.discount
    && |sale.payments| == 1 && PaidAs(sale.payments[0], req.payment)
    && Rearranged(Map(PersistedLine, sale.items), req.items)
  }

  /**
   A checkout under a taken key, exactly: it is answered with the stored sale when the request fits, the caller may sell
   and the sale answers it, and refused otherwise; nothing else of the database matters.
   */
  lemma TakenKeyExact(db: Store, actor: Actor, req: SaleReq, mode: Mode, id: Id, now: int, stored: Id)
    requires KeysUnique(db) && HasKey(db, actor.tenant, req.key, stored)
    ensures var r := SaleAnswer(db, actor, req, mode, id, now);
            && (r.Ok? <==> Fits(req, mode) && MaySell(db, actor) && Answers(db.sales[stored], actor, req))
            && (r.Ok? ==> r == Ok(SaleReplayed(actor.tenant, req.key, stored)))
            && (r.Err? ==>
                  if !Fits(req, mode) then InputFault(req, mode, r.error)
                  else if !Member(db, actor) then r == Err(Unauthorized)
                  else if !MaySell(db, actor) then r == Err(RoleForbidden)
                  else r == Err(IdempotencyPayloadMismatch))
  {
    hide Fits, InputFault, InputOk, Rearranged, PaidAs, NewSalePlan, AssertSameRequest;
    InputExact(req, mode);
    if Fits(req, mode) && MaySell(db, actor) {
      StoredKeyDecides(db, actor, req, mode, now, stored);
    }
  }
}
