/** Held orders: what create, update, cancel and convert decide from what they read, and what they would write. */
module HeldOrders {
  import opened Base
  import opened Schema
  import opened Pricing
  import opened SameRequest
  import opened Core

  // ---------- rows ----------

  function HeldItemOf(l: PricedLine, displayOrder: nat): HeldItem {
    var lineTotal := l.effectivePrice * l.quantity;
    HeldItem(l.product, l.quantity, l.row.name, l.row.sku, l.row.price, l.effectivePrice,
             lineTotal, 0, lineTotal, l.note, displayOrder, Map(ModifierOf, l.options))
  }

  /** Item rows in request order, numbered from 0. */
  function HeldItems(lines: seq<PricedLine>): (items: seq<HeldItem>)
    ensures |items| == |lines|
    ensures forall i :: 0 <= i < |lines| ==> items[i] == HeldItemOf(lines[i], i)
  {
    seq(|lines|, i requires 0 <= i < |lines| => HeldItemOf(lines[i], i))
  }

  function InsertByOrder(it: HeldItem, items: seq<HeldItem>): seq<HeldItem> {
    if items == [] || it.displayOrder <= items[0].displayOrder then [it] + items
    else [items[0]] + InsertByOrder(it, items[1..])
  }

  /** By display order, ascending. */
  function InDisplayOrder(items: seq<HeldItem>): seq<HeldItem> {
    if items == [] then [] else InsertByOrder(items[0], InDisplayOrder(items[1..]))
  }

  /** A held-order item as a sale line request; prices are not carried over. */
  function RequestLine(it: HeldItem): LineReq {
    LineReq(it.product, it.quantity, OptionIds(it.modifiers), it.note)
  }

  function RequestLines(items: seq<HeldItem>): seq<LineReq> {
    Map(RequestLine, InDisplayOrder(items))
  }

  // ---------- create ----------

  datatype HoldReq = HoldReq(outlet: Id, session: Id, title: Option<string>, items: seq<LineReq>)

  function Title(t: Option<string>): Option<string> {
    if t == Some("") then None else t
  }

  predicate LinesInputOk(items: seq<LineReq>) {
    |items| >= 1 && forall i :: 0 <= i < |items| ==> LineInputOk(items[i], V1)
  }

  predicate TitleInputOk(t: Option<string>) {
    t.Some? ==> |t.value| <= 100
  }

  /** The active user of an active tenant. */
  function ReadPrincipal(db: Store, actor: Actor): Option<User> {
    if ReadTenant(db, actor.tenant).Some? then ReadUser(db, actor) else None
  }

  datatype HoldReads = HoldReads(
    user: Option<User>, tenant: Option<TaxConfig>, outlet: bool, session: Option<Session>,
    products: map<Id, Product>, rows: seq<AssignRow>, options: map<Id, ModOption>)

  const NO_HOLD_READS := HoldReads(None, None, false, None, map[], [], map[])

  function NewOrder(actor: Actor, req: HoldReq, p: Priced): HeldOrder {
    HeldOrder(actor.tenant, req.outlet, req.session, actor.sub, Title(req.title), Open, 1,
              p.totals.subtotal, p.totals.tax, p.totals.total, None, None, None, HeldItems(p.lines))
  }

  /** authorizeWrite: actor, tenant, outlet, then the locked session. */
  function AuthorizeWrite(outlet: Id, user: Option<User>, tenant: Option<TaxConfig>, outletActive: bool, session: Option<Session>)
    : Result<TaxConfig, Reason>
  {
    if user.None? then Err(Unauthorized)
    else if user.value.role == OtherRole then Err(RoleForbidden)
    else if user.value.role == Cashier && user.value.outlet != Some(outlet) then Err(OutletAccessDenied)
    else if tenant.None? then Err(Unauthorized)
    else if !outletActive then Err(OutletNotFound)
    else if session.None? then Err(InvalidCashierSession)
    else if session.value.outlet != outlet then Err(SessionOutletMismatch)
    else Ok(tenant.value)
  }

  function CreatePlan(actor: Actor, req: HoldReq, rd: HoldReads): Result<HeldOrder, Reason> {
    if !LinesInputOk(req.items) || !TitleInputOk(req.title) then Err(InvalidInput)
    else match AuthorizeWrite(req.outlet, rd.user, rd.tenant, rd.outlet, rd.session)
      case Err(e) => Err(e)
      case Ok(tax) =>
        match PriceHeldFrom(rd.products, rd.rows, rd.options, req.items, tax)
        case Err(e) => Err(e)
        case Ok(p) => Ok(NewOrder(actor, req, p))
  }

  // ---------- scope shared by update, cancel and convert ----------

  /** readScope without a requested outlet: a cashier sees the assigned outlet only. */
  function ScopeProblem(user: Option<User>, outletActive: bool): Option<Reason> {
    if user.None? then Some(Unauthorized)
    else if user.value.role == OtherRole then Some(RoleForbidden)
    else if user.value.role == Cashier && user.value.outlet.None? then Some(OutletAccessDenied)
    else if user.value.role == Cashier && !outletActive then Some(OutletNotFound)
    else None
  }

  function ReadScopeOutlet(db: Store, actor: Actor, user: Option<User>): bool {
    user.Some? && user.value.outlet.Some? && ReadOutlet(db, actor.tenant, user.value.outlet.value)
  }

  function ReadOrder(db: Store, actor: Actor, user: Option<User>, id: Id): Option<HeldOrder> {
    if id in db.orders && db.orders[id].tenant == actor.tenant
       && (user.Some? && user.value.role == Cashier ==> Some(db.orders[id].outlet) == user.value.outlet)
    then Some(db.orders[id]) else None
  }

  function OpenVersionProblem(order: Option<HeldOrder>, expected: nat): Option<Reason> {
    if order.None? then Some(HeldOrderNotFound)
    else if order.value.status != Open then Some(HeldOrderNotOpen)
    else if order.value.version != expected then Some(HeldOrderVersionConflict)
    else None
  }

  // ---------- update ----------

  /** title: None keeps the label, Some(None) clears it. */
  datatype EditReq = EditReq(expected: nat, title: Option<Option<string>>, items: Option<seq<LineReq>>)

  datatype EditReads = EditReads(
    user: Option<User>, outlet: bool, order: Option<HeldOrder>, tenant: Option<TaxConfig>,
    products: map<Id, Product>, rows: seq<AssignRow>, options: map<Id, ModOption>)

  const NO_EDIT_READS := EditReads(None, false, None, None, map[], [], map[])

  function Retitled(order: HeldOrder, title: Option<Option<string>>): HeldOrder {
    match title case None => order case Some(t) => order.(title := Title(t))
  }

  function Repriced(order: HeldOrder, p: Priced): HeldOrder {
    order.(subtotal := p.totals.subtotal, tax := p.totals.tax, total := p.totals.total, items := HeldItems(p.lines))
  }

  predicate EditInputOk(req: EditReq) {
    && 1 <= req.expected <= INT4_MAX
    && (req.items.Some? ==> LinesInputOk(req.items.value))
    && (req.title.Some? ==> TitleInputOk(req.title.value))
  }

  /** What an update decided to do to the row it finds: keep the items, or replace them with priced ones. */
  function UpdatePlan(actor: Actor, req: EditReq, rd: EditReads): Result<Option<Priced>, Reason> {
    if !EditInputOk(req) then Err(InvalidInput)
    else if ScopeProblem(rd.user, rd.outlet).Some? then Err(ScopeProblem(rd.user, rd.outlet).value)
    else if OpenVersionProblem(rd.order, req.expected).Some? then Err(OpenVersionProblem(rd.order, req.expected).value)
    else if req.items.None? then Ok(None)
    else if rd.tenant.None? then Err(Unauthorized)
    else match PriceHeldFrom(rd.products, rd.rows, rd.options, req.items.value, rd.tenant.value)
      case Err(e) => Err(e)
      case Ok(p) => Ok(Some(p))
  }

  /** The conditional UPDATE, then the replacement of the item rows. */
  function Edited(order: HeldOrder, req: EditReq, priced: Option<Priced>): HeldOrder {
    var renamed := Retitled(order, req.title).(version := order.version + 1);
    match priced case None => renamed case Some(p) => Repriced(renamed, p)
  }

  // ---------- cancel ----------

  function CancelPlan(rd: EditReads, expected: nat): Option<Reason> {
    if ScopeProblem(rd.user, rd.outlet).Some? then ScopeProblem(rd.user, rd.outlet)
    else OpenVersionProblem(rd.order, expected)
  }

  function CancelledOrder(order: HeldOrder, now: int): HeldOrder {
    order.(status := Cancelled, cancelledAt := Some(now), version := order.version + 1)
  }

  // ---------- convert ----------

  datatype ConvertReq = ConvertReq(expected: nat, key: Id, payment: PaymentReq)

  predicate ConvertInputOk(req: ConvertReq) {
    && 1 <= req.expected <= INT4_MAX
    && PaymentProblem(req.payment).None? && InMoneyRange(req.payment.amount) && InMoneyRange(req.payment.received)
  }

  function ConversionRequest(order: HeldOrder, req: ConvertReq): SaleReq {
    SaleReq(req.key, order.outlet, Some(order.session), None, 0, RequestLines(order.items), req.payment)
  }

  /** The request rebuilt from the stored sale when an already converted order is checked out again. */
  function ReplayRequest(order: HeldOrder, sale: Sale, req: ConvertReq): SaleReq {
    SaleReq(req.key, order.outlet, Some(order.session), None, sale.discount, Map(PersistedLine, sale.items), req.payment)
  }

  function SessionProblem(db: Store, actor: Actor, order: HeldOrder): Option<Reason> {
    if order.session !in db.sessions then Some(InvalidCashierSession)
    else
      var s := db.sessions[order.session];
      if s.tenant != actor.tenant || !s.open || s.closedAt.Some? then Some(InvalidCashierSession)
      else if s.outlet != order.outlet then Some(SessionOutletMismatch)
      else if s.user != order.cashier then Some(SessionUserMismatch)
      else None
  }

  /** The token's role decides; the row's outlet is compared. */
  predicate CashierOutletOk(db: Store, actor: Actor, order: HeldOrder) {
    actor.role == Cashier ==>
      actor.sub in db.users && db.users[actor.sub].tenant == actor.tenant && db.users[actor.sub].outlet == Some(order.outlet)
  }

  datatype Decision = Refuse(reason: Reason) | Again(id: Id) | Claim(order: HeldOrder)

  ghost function AgainPlan(db: Store, actor: Actor, order: HeldOrder, req: ConvertReq, now: int): Decision {
    match ReadExisting(db, actor.tenant, req.key)
    case None => Refuse(HeldOrderConvertedNoLink)
    case Some((saleId, sale)) =>
      if order.sale != Some(saleId) then Refuse(HeldOrderLinkMismatch)
      else
        var again := ReplayRequest(order, sale, req);
        match CorePlan(actor, again, V1, ReadAll(db, actor, again), now)
        case Replay(r) => Again(r)
        case Reject(e) => Refuse(e)
        case Write(_, _) => Refuse(HeldOrderResourceConflict)
  }

  /** Everything conversion decides before its first write, from one snapshot. */
  ghost function ConvertPlan(db: Store, actor: Actor, id: Id, req: ConvertReq, now: int): Decision {
    var user := ReadPrincipal(db, actor);
    var outlet := ReadScopeOutlet(db, actor, user);
    var found := ReadOrder(db, actor, user, id);
    if !ConvertInputOk(req) then Refuse(InvalidInput)
    else if ScopeProblem(user, outlet).Some? then Refuse(ScopeProblem(user, outlet).value)
    else if found.None? then Refuse(HeldOrderNotFound)
    else if found.value.status == Converted then AgainPlan(db, actor, found.value, req, now)
    else if found.value.status != Open then Refuse(HeldOrderNotOpen)
    else if found.value.version != req.expected then Refuse(HeldOrderVersionConflict)
    else if !CashierOutletOk(db, actor, found.value) then Refuse(OutletAccessDenied)
    else if SessionProblem(db, actor, found.value).Some? then Refuse(SessionProblem(db, actor, found.value).value)
    else Claim(found.value)
  }

  function ClaimedOrder(order: HeldOrder): HeldOrder {
    order.(version := order.version + 1)
  }

  function ConvertedOrder(order: HeldOrder, sale: Id, now: int): HeldOrder {
    ClaimedOrder(order).(status := Converted, sale := Some(sale), convertedAt := Some(now))
  }
}
