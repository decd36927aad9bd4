/**
 The sale core as a decision: one attempt's reads determine whether it is rejected, answered from a stored sale, or
 writes a new one. The order of the checks is the program's.
 */
module Core {
  import opened Base
  import opened Schema
  import opened Pricing
  import opened SameRequest

  // ---------- input contract ----------

  function PaymentProblem(p: PaymentReq): Option<Reason> {
    if p.paidBy == Cash then
      if p.amount.None? && p.received.None? then Some(CashAmountReceivedRequired)
      else if p.amount.Some? && p.received.Some? then Some(PaymentFieldNotAllowed)
      else None
    else if p.amount.Some? || p.received.Some? then Some(PaymentFieldNotAllowed)
    else None
  }

  predicate InMoneyRange(v: Option<int>) {
    v.Some? ==> 0 <= v.value <= MAX_SAFE
  }

  predicate Distinct(ids: seq<Id>) {
    forall i, j :: 0 <= i < j < |ids| ==> ids[i] != ids[j]
  }

  predicate LineInputOk(l: LineReq, mode: Mode) {
    && 1 <= l.quantity <= INT4_MAX
    && |l.options| <= 50 && Distinct(l.options)
    && (l.note.Some? ==> |l.note.value| <= 255)
    && (mode == LegacySync ==> l.options == [] && l.note.None?)
  }

  /** The class-validator rules of the two input shapes, payment shape included, UUID syntax apart. */
  predicate InputOk(req: SaleReq, mode: Mode) {
    && |req.items| >= 1
    && (forall i :: 0 <= i < |req.items| ==> LineInputOk(req.items[i], mode))
    && 0 <= req.discount <= MAX_SAFE
    && InMoneyRange(req.payment.amount) && InMoneyRange(req.payment.received)
    && PaymentProblem(req.payment).None?
    && (mode == V1 ==> req.session.Some?)
    && (mode == LegacySync ==>
          req.session.None? && req.discount == 0 && req.payment.paidBy == Cash && req.payment.received.None?)
  }

  /** A badly shaped payment has codes of its own, except in a legacy row, whose input class has one rule for all. */
  function InputProblem(req: SaleReq, mode: Mode): Option<Reason> {
    if InputOk(req, mode) then None
    else if mode == V1 && PaymentProblem(req.payment).Some? then PaymentProblem(req.payment)
    else Some(InvalidInput)
  }

  // ---------- reads ----------

  function ReadUser(db: Store, actor: Actor): Option<User> {
    if actor.sub in db.users && db.users[actor.sub].tenant == actor.tenant && db.users[actor.sub].active
    then Some(db.users[actor.sub]) else None
  }

  function ReadTenant(db: Store, tenant: Id): Option<TaxConfig> {
    if tenant in db.tenants && db.tenants[tenant].active
    then Some(TaxConfig(db.tenants[tenant].taxEnabled, db.tenants[tenant].taxRate)) else None
  }

  ghost predicate HasKey(db: Store, tenant: Id, key: Id, id: Id) {
    id in db.sales && db.sales[id].tenant == tenant && db.sales[id].key == key
  }

  /** The sale stored under (tenant, client_transaction_id), if any; the unique index makes it the only one. */
  ghost function FindSale(db: Store, tenant: Id, key: Id): (r: Option<Id>)
    ensures r.Some? ==> HasKey(db, tenant, key, r.value)
    ensures r.None? ==> forall id :: !HasKey(db, tenant, key, id)
  {
    if exists id :: HasKey(db, tenant, key, id) then
      var id :| HasKey(db, tenant, key, id);
      Some(id)
    else None
  }

  ghost function ReadExisting(db: Store, tenant: Id, key: Id): Option<(Id, Sale)> {
    match FindSale(db, tenant, key)
    case None => None
    case Some(id) => Some((id, db.sales[id]))
  }

  /** The caller's own OPEN session. */
  function ReadSession(db: Store, actor: Actor, session: Option<Id>): Option<Session> {
    if session.Some? && session.value in db.sessions
       && var s := db.sessions[session.value]; s.tenant == actor.tenant && s.user == actor.sub && s.open
    then Some(db.sessions[session.value]) else None
  }

  function ReadOutlet(db: Store, tenant: Id, outlet: Id): bool {
    outlet in db.outlets && db.outlets[outlet].tenant == tenant && db.outlets[outlet].active
  }

  function ReadCustomer(db: Store, tenant: Id, customer: Option<Id>): bool {
    customer.Some? ==> customer.value in db.customers && db.customers[customer.value] == tenant
  }

  datatype Reads = Reads(
    user: Option<User>, tenant: Option<TaxConfig>, existing: Option<(Id, Sale)>, session: Option<Session>,
    outlet: bool, customer: bool, products: map<Id, Product>, rows: seq<AssignRow>, options: map<Id, ModOption>)

  const NO_READS := Reads(None, None, None, None, false, false, map[], [], map[])

  /** The core issues nine reads in this order; each sees whatever its statement's view of the database is. */
  const READS: nat := 9

  ghost function ReadStep(n: nat, db: Store, actor: Actor, req: SaleReq, rd: Reads): Reads {
    if n == 0 then rd.(user := ReadUser(db, actor))
    else if n == 1 then rd.(tenant := ReadTenant(db, actor.tenant))
    else if n == 2 then rd.(existing := ReadExisting(db, actor.tenant, req.key))
    else if n == 3 then rd.(session := ReadSession(db, actor, req.session))
    else if n == 4 then rd.(outlet := ReadOutlet(db, actor.tenant, req.outlet))
    else if n == 5 then rd.(customer := ReadCustomer(db, actor.tenant, req.customer))
    else if n == 6 then rd.(products := ReadProducts(db.catalog, actor.tenant, ProductIds(req.items)))
    else if n == 7 then
      rd.(rows := ReadAssignments(db.catalog, actor.tenant, ProductIds(req.items), db.catalog.assignments))
    else rd.(options := ReadOptionsOfGroups(db.catalog, actor.tenant, GroupsOf(rd.rows)))
  }

  /** All reads against one unchanging view. */
  ghost function ReadAll(db: Store, actor: Actor, req: SaleReq): Reads {
    var rows := ReadAssignments(db.catalog, actor.tenant, ProductIds(req.items), db.catalog.assignments);
    Reads(ReadUser(db, actor), ReadTenant(db, actor.tenant), ReadExisting(db, actor.tenant, req.key),
          ReadSession(db, actor, req.session), ReadOutlet(db, actor.tenant, req.outlet),
          ReadCustomer(db, actor.tenant, req.customer),
          ReadProducts(db.catalog, actor.tenant, ProductIds(req.items)), rows,
          ReadOptionsOfGroups(db.catalog, actor.tenant, GroupsOf(rows)))
  }

  // ---------- the sale that would be written ----------

  function ModifierOf(o: ResolvedOption): Modifier {
    Modifier(o.group, Some(o.id), o.groupName, o.optionName, o.delta)
  }

  function SaleItemOf(l: PricedLine): SaleItem {
    SaleItem(l.product, l.quantity, l.effectivePrice, l.row.cost, l.effectivePrice * l.quantity,
             Some(l.row.name), Some(l.row.sku), Some(l.row.price), Some(l.effectivePrice),
             l.note, Map(ModifierOf, l.options))
  }

  function PaymentOf(req: PaymentReq, total: int): Payment {
    var tender := ResolveTender(req);
    Payment(req.paidBy, Paid, total, tender, match tender case None => None case Some(t) => Some(t - total))
  }

  function SaleOf(actor: Actor, req: SaleReq, mode: Mode, p: Priced, now: int): Sale {
    Sale(actor.tenant, req.outlet, actor.sub, req.customer, if mode == V1 then req.session else None, req.key, Completed,
         p.totals.subtotal, p.totals.discount, p.totals.tax, p.totals.total, now,
         Map(SaleItemOf, p.lines), [PaymentOf(req.payment, p.totals.total)])
  }

  /** Products of the request whose stock is tracked, as read. */
  function TrackedOf(products: map<Id, Product>): set<Id> {
    set p | p in products && products[p].trackStock :: p
  }

  datatype Plan = Reject(reason: Reason) | Replay(id: Id) | Write(sale: Sale, tracked: set<Id>)

  function TenderPlan(actor: Actor, req: SaleReq, mode: Mode, p: Priced, tracked: set<Id>, now: int): Plan {
    if p.totals.total <= 0 then Reject(TotalNotPositive)
    else
      var tender := ResolveTender(req.payment);
      if tender.Some? && tender.value < p.totals.total then Reject(CashUnderpayment)
      else Write(SaleOf(actor, req, mode, p, now), tracked)
  }

  function NewSalePlan(actor: Actor, req: SaleReq, mode: Mode, rd: Reads, now: int): Plan
    requires rd.user.Some? && rd.tenant.Some?
  {
    if mode == V1 && rd.session.None? then Reject(InvalidCashierSession)
    else if mode == V1 && rd.session.value.outlet != req.outlet then Reject(SessionOutletMismatch)
    else if !rd.outlet then Reject(OutletNotFound)
    else if !rd.customer then Reject(CustomerNotFound)
    else if req.discount > 0 && rd.user.value.role == Cashier then Reject(DiscountForbidden)
    else match PriceSaleFrom(rd.products, rd.rows, rd.options, req.items, req.discount, rd.tenant.value)
      case Err(e) => Reject(e)
      case Ok(p) => TenderPlan(actor, req, mode, p, TrackedOf(rd.products), now)
  }

  function CorePlan(actor: Actor, req: SaleReq, mode: Mode, rd: Reads, now: int): Plan {
    if InputProblem(req, mode).Some? then Reject(InputProblem(req, mode).value)
    else if rd.user.None? || rd.tenant.None? then Reject(Unauthorized)
    else if rd.user.value.role == OtherRole then Reject(RoleForbidden)
    else match rd.existing
      case Some((id, sale)) =>
        if AssertSameRequest(sale, actor, req) then Replay(id) else Reject(IdempotencyPayloadMismatch)
      case None => NewSalePlan(actor, req, mode, rd, now)
  }

  // ---------- stock to take ----------

  datatype Dec = Dec(product: Id, quantity: int)

  /** One more line of a product: its entry grows in place, or is appended. */
  function AddDec(decs: seq<Dec>, p: Id, q: int): seq<Dec> {
    if decs == [] then [Dec(p, q)]
    else if decs[0].product == p then [Dec(p, decs[0].quantity + q)] + decs[1..]
    else [decs[0]] + AddDec(decs[1..], p, q)
  }

  /** Quantities per tracked product, in order of first appearance. */
  function Decrements(items: seq<SaleItem>, tracked: set<Id>): seq<Dec> {
    if items == [] then []
    else
      var last := items[|items| - 1];
      var before := Decrements(items[..|items| - 1], tracked);
      if last.product in tracked then AddDec(before, last.product, last.quantity) else before
  }

  function QuantityOf(items: seq<SaleItem>, p: Id): int {
    if items == [] then 0
    else QuantityOf(items[..|items| - 1], p) + (if items[|items| - 1].product == p then items[|items| - 1].quantity else 0)
  }

  function Taken(decs: seq<Dec>, p: Id): int {
    if decs == [] then 0
    else Taken(decs[..|decs| - 1], p) + (if decs[|decs| - 1].product == p then decs[|decs| - 1].quantity else 0)
  }
}
