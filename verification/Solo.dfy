/**
 What one call does when no other transaction runs beside it: a rejection that leaves the database as it was, or one
 event of the ledger. Module Database has the calls as the statements they are.
 */
module Solo {
  import opened Base
  import opened Schema
  import opened Pricing
  import opened SameRequest
  import opened Core
  import opened CoreFacts
  import opened HeldOrders
  import opened HeldOrderFacts
  import opened Ledger
  import opened Shifts
  import opened Transactions
  import opened Frames
  import opened Replays

  type Answer = Result<Event, Reason>

  // ---------- the calls ----------

  /** What carrying out a plan of the core answers. */
  ghost function PlanAnswer(db: Store, actor: Actor, req: SaleReq, plan: Plan, id: Id): Answer {
    match plan
    case Reject(e) => Err(e)
    case Replay(s) => Ok(SaleReplayed(actor.tenant, req.key, s))
    case Write(sale, tracked) =>
      var w := Written(sale, tracked);
      if StockCovers(db.stock, sale.outlet, DecsOf(w)) then Ok(SaleWritten(id, w)) else Err(InsufficientStock)
  }

  ghost function SaleAnswer(db: Store, actor: Actor, req: SaleReq, mode: Mode, id: Id, now: int): Answer {
    PlanAnswer(db, actor, req, CorePlan(actor, req, mode, ReadAll(db, actor, req), now), id)
  }

  /** What the core has done to the database when it answers. */
  ghost predicate CoreDone(before: Store, core: Answer, after: Store) {
    core.Ok? ==>
      match core.value
      case SaleWritten(id, w) => CanWrite(before, id, w) && after == WriteSale(before, id, w)
      case SaleReplayed(tenant, key, id) => HasKey(before, tenant, key, id) && after == before
      case _ => false
  }

  datatype Attempts = Attempts(ids: seq<Id>, conflicts: seq<bool>)

  /** A request's attempts: the id each would generate, and whether it meets a conflict and is rolled back. */
  type Tries = t: Attempts | |t.ids| == |t.conflicts| == ATTEMPTS
    witness Attempts(["", "", ""], [false, false, false])

  /** The first attempt without a conflict. */
  function FirstClear(conflicts: seq<bool>): (n: nat)
    ensures n <= |conflicts| && (n < |conflicts| ==> !conflicts[n]) && forall i :: 0 <= i < n ==> conflicts[i]
  {
    if conflicts == [] || !conflicts[0] then 0 else 1 + FirstClear(conflicts[1..])
  }

  /** Some attempt meets no conflict. */
  predicate GetsThrough(tries: Tries) {
    FirstClear(tries.conflicts) < ATTEMPTS
  }

  /** The id of the attempt that answers, and of no other. */
  function IdUsed(tries: Tries): Option<Id> {
    if GetsThrough(tries) then Some(tries.ids[FirstClear(tries.conflicts)]) else None
  }

  /** What the retry loop answers. */
  ghost function RetriedAnswer(db: Store, actor: Actor, req: SaleReq, mode: Mode, tries: Tries, now: int): Answer {
    match IdUsed(tries)
    case Some(id) => SaleAnswer(db, actor, req, mode, id, now)
    case None => Err(TransactionRetryRequired)
  }

  function HoldReadAll(db: Store, actor: Actor, req: HoldReq): HoldReads {
    HoldReads(ReadPrincipal(db, actor), ReadTenant(db, actor.tenant), ReadOutlet(db, actor.tenant, req.outlet),
              ReadSession(db, actor, Some(req.session)),
              ReadProducts(db.catalog, actor.tenant, ProductIds(req.items)),
              ReadAssignments(db.catalog, actor.tenant, ProductIds(req.items), db.catalog.assignments),
              ReadOptionsById(db.catalog, actor.tenant, RequestedOptions(req.items)))
  }

  function HoldAnswer(db: Store, actor: Actor, req: HoldReq, id: Id): Answer {
    match CreatePlan(actor, req, HoldReadAll(db, actor, req))
    case Err(e) => Err(e)
    case Ok(order) => Ok(HeldCreated(id, order))
  }

  function EditReadAll(db: Store, actor: Actor, id: Id, items: seq<LineReq>): EditReads {
    var user := ReadPrincipal(db, actor);
    EditReads(user, ReadScopeOutlet(db, actor, user), ReadOrder(db, actor, user, id), ReadTenant(db, actor.tenant),
              ReadProducts(db.catalog, actor.tenant, ProductIds(items)),
              ReadAssignments(db.catalog, actor.tenant, ProductIds(items), db.catalog.assignments),
              ReadOptionsById(db.catalog, actor.tenant, RequestedOptions(items)))
  }

  function EditAnswer(db: Store, actor: Actor, id: Id, req: EditReq): Answer {
    var items := if req.items.Some? then req.items.value else [];
    match UpdatePlan(actor, req, EditReadAll(db, actor, id, items))
    case Err(e) => Err(e)
    case Ok(priced) =>
      if id in db.orders then Ok(HeldUpdated(id, req.expected, Edited(db.orders[id], req, priced)))
      else Err(HeldOrderNotFound)
  }

  function CancelAnswer(db: Store, actor: Actor, id: Id, expected: nat, now: int): Answer {
    match CancelPlan(EditReadAll(db, actor, id, []), expected)
    case Some(e) => Err(e)
    case None => Ok(HeldCancelled(id, expected, now))
  }

  function ConversionEvent(oid: Id, order: HeldOrder, req: ConvertReq, ev: Event, now: int): Event
    requires ev.SaleWritten? || ev.SaleReplayed?
  {
    HeldConverted(oid, req.expected, req.key, ev.id, if ev.SaleWritten? then Some(ev.w) else None,
                  RequestLines(order.items), now)
  }

  /** A conversion, given what the core answered. */
  function ConversionAnswer(oid: Id, order: HeldOrder, req: ConvertReq, core: Answer, now: int): Answer {
    match core
    case Err(e) => Err(e)
    case Ok(ev) =>
      if ev.SaleWritten? || ev.SaleReplayed? then Ok(ConversionEvent(oid, order, req, ev, now)) else Err(InternalError)
  }

  ghost function DecisionAnswer(db: Store, actor: Actor, oid: Id, req: ConvertReq, d: Decision, id: Id, now: int): Answer {
    match d
    case Refuse(e) => Err(e)
    case Again(s) => Ok(HeldReplayed(oid, actor.tenant, req.key, s))
    case Claim(order) =>
      ConversionAnswer(oid, order, req, SaleAnswer(db, actor, ConversionRequest(order, req), V1, id, now), now)
  }

  ghost function ConvertAnswer(db: Store, actor: Actor, oid: Id, req: ConvertReq, id: Id, now: int): Answer {
    DecisionAnswer(db, actor, oid, req, ConvertPlan(db, actor, oid, req, now), id, now)
  }

  ghost function OpenAnswer(db: Store, actor: Actor, outlet: Id, id: Id): Answer {
    match OpenShiftProblem(db, actor, outlet)
    case Some(e) => Err(e)
    case None =>
      if NoOpenSession(db, actor.tenant, actor.sub)
      then Ok(ShiftOpened(id, Session(actor.tenant, outlet, actor.sub, true, None)))
      else Err(ShiftAlreadyOpen)
  }

  ghost function CloseReadAll(db: Store, actor: Actor, session: Id): CloseReads {
    CloseReads(ReadPrincipal(db, actor), ReadShift(db, actor, session),
               exists o :: IsOpenOrderOf(db, actor.tenant, session, o), SummaryFits(db, actor.tenant, session))
  }

  ghost function CloseAnswer(db: Store, actor: Actor, session: Id, now: int): Answer {
    match ClosePlan(actor, CloseReadAll(db, actor, session))
    case Some(e) => Err(e)
    case None => Ok(ShiftClosed(session, now))
  }

  function AdjustReadAll(db: Store, actor: Actor, at: StockKey): AdjustReads {
    AdjustReads(at.outlet in db.outlets && db.outlets[at.outlet].tenant == actor.tenant,
                if at.product in db.catalog.products && db.catalog.products[at.product].tenant == actor.tenant
                then Some(db.catalog.products[at.product]) else None,
                actor.sub in db.users && db.users[actor.sub].tenant == actor.tenant)
  }

  function BalanceProblem(stock: map<StockKey, int>, a: Adjustment): Option<Reason> {
    if !a.add && (a.at !in stock || stock[a.at] < a.quantity) then Some(InsufficientStock)
    else if StockAt(stock, a.at) + SignedQuantity(a) > INT4_MAX then Some(InternalError)
    else None
  }

  function BalanceAnswer(stock: map<StockKey, int>, a: Adjustment, id: Id): Answer {
    match BalanceProblem(stock, a)
    case Some(e) => Err(e)
    case None => Ok(StockAdjusted(id, a))
  }

  function AdjustAnswer(db: Store, actor: Actor, at: StockKey, add: bool, quantity: int, id: Id): Answer {
    match AdjustPlan(AdjustReadAll(db, actor, at), quantity)
    case Some(e) => Err(e)
    case None => BalanceAnswer(db.stock, Adjustment(actor.tenant, at, actor.sub, add, quantity), id)
  }

  // ---------- each answer is an event the ledger allows ----------

  lemma ReadAllOk(db: Store, actor: Actor, req: SaleReq)
    requires CatalogOk(db.catalog)
    ensures ReadsOk(ReadAll(db, actor, req))
  {
  }

  lemma WriteFits(db: Store, actor: Actor, req: SaleReq, mode: Mode, now: int, sale: Sale, tracked: set<Id>)
    requires CatalogOk(db.catalog)
    requires CorePlan(actor, req, mode, ReadAll(db, actor, req), now) == Write(sale, tracked)
    ensures MoneyInvariant(sale) && SaleFits(db, sale)
    ensures sale.tenant == actor.tenant && sale.key == req.key
    ensures forall x :: !HasKey(db, sale.tenant, sale.key, x)
  {
    var rd := ReadAll(db, actor, req);
    ReadAllOk(db, actor, req);
    WrittenSaleIsSound(actor, req, mode, rd, now, sale, tracked);
    var p := WriteCameFrom(actor, req, mode, rd, now, sale, tracked);
  }

  lemma PlanAllowed(db: Store, actor: Actor, req: SaleReq, plan: Plan, id: Id)
    requires Unused(db, id)
    requires plan.Replay? ==> HasKey(db, actor.tenant, req.key, plan.id)
    requires plan.Write? ==>
               MoneyInvariant(plan.sale) && SaleFits(db, plan.sale) && forall x :: !HasKey(db, plan.sale.tenant, plan.sale.key, x)
    ensures var r := PlanAnswer(db, actor, req, plan, id);
            r.Ok? ==> (r.value.SaleWritten? || r.value.SaleReplayed?) && Guard(db, r.value)
  {
  }

  lemma ReplayFound(db: Store, actor: Actor, req: SaleReq, mode: Mode, now: int, s: Id)
    requires CorePlan(actor, req, mode, ReadAll(db, actor, req), now) == Replay(s)
    ensures HasKey(db, actor.tenant, req.key, s) && AssertSameRequest(db.sales[s], actor, req)
  {
  }

  lemma SaleAllowed(db: Store, actor: Actor, req: SaleReq, mode: Mode, id: Id, now: int)
    requires CatalogOk(db.catalog) && Unused(db, id)
    ensures var r := SaleAnswer(db, actor, req, mode, id, now);
            r.Ok? ==> (r.value.SaleWritten? || r.value.SaleReplayed?) && Guard(db, r.value)
  {
    var plan := CorePlan(actor, req, mode, ReadAll(db, actor, req), now);
    if plan.Write? {
      WriteFits(db, actor, req, mode, now, plan.sale, plan.tracked);
    } else if plan.Replay? {
      ReplayFound(db, actor, req, mode, now, plan.id);
    }
    PlanAllowed(db, actor, req, plan, id);
  }

  lemma HoldAllowed(db: Store, actor: Actor, req: HoldReq, id: Id)
    requires Unused(db, id)
    ensures var r := HoldAnswer(db, actor, req, id); r.Ok? ==> Guard(db, r.value)
  {
    var rd := HoldReadAll(db, actor, req);
    var plan := CreatePlan(actor, req, rd);
    if plan.Ok? {
      CreatedHeaderOk(actor, req, rd, plan.value);
    }
  }

  lemma EditedAllowed(db: Store, id: Id, req: EditReq, priced: Option<Priced>)
    requires OpenAt(db, id, req.expected) && db.orders[id].sale == None && HeaderOk(Edited(db.orders[id], req, priced))
    ensures Guard(db, HeldUpdated(id, req.expected, Edited(db.orders[id], req, priced)))
  {
    hide HeaderOk;
  }

  lemma OrderHeader(db: Store, id: Id)
    requires Inv(db) && id in db.orders
    ensures HeaderOk(db.orders[id]) && (db.orders[id].status == Open ==> db.orders[id].sale == None)
  {
    assert OrderOk(db, db.orders[id]);
  }

  lemma EditAllowed(db: Store, actor: Actor, id: Id, req: EditReq)
    requires Inv(db)
    ensures var r := EditAnswer(db, actor, id, req); r.Ok? ==> Guard(db, r.value)
  {
    hide Inv, Guard, HeaderOk, Edited, EditInputOk;
    var rd := EditReadAll(db, actor, id, if req.items.Some? then req.items.value else []);
    var plan := UpdatePlan(actor, req, rd);
    if plan.Ok? && id in db.orders {
      OrderHeader(db, id);
      EditedHeaderOk(actor, req, rd, plan.value, db.orders[id]);
      EditedAllowed(db, id, req, plan.value);
    }
  }

  lemma CancelAllowed(db: Store, actor: Actor, id: Id, expected: nat, now: int)
    ensures var r := CancelAnswer(db, actor, id, expected, now); r.Ok? ==> Guard(db, r.value)
  {
  }

  lemma WrittenLinks(db: Store, actor: Actor, order: HeldOrder, req: ConvertReq, now: int, sale: Sale, tracked: set<Id>)
    requires CatalogOk(db.catalog) && SessionFits(db, order) && order.tenant == actor.tenant
    requires var r := ConversionRequest(order, req);
             CorePlan(actor, r, V1, ReadAll(db, actor, r), now) == Write(sale, tracked)
    ensures sale.key == req.key && Links(order, sale) && SoldTo(sale, actor, req.payment)
    ensures Map(PersistedLine, sale.items) == RequestLines(order.items)
  {
    var r := ConversionRequest(order, req);
    var rd := ReadAll(db, actor, r);
    ReadAllOk(db, actor, r);
    WrittenSaleIsSound(actor, r, V1, rd, now, sale, tracked);
    WrittenSaleAnswersItsRequest(actor, r, V1, rd, now, sale, tracked);
    var p := WriteCameFrom(actor, r, V1, rd, now, sale, tracked);
  }

  lemma ReplayedLinks(db: Store, actor: Actor, order: HeldOrder, req: ConvertReq, s: Id)
    requires SessionFits(db, order) && order.tenant == actor.tenant
    requires HasKey(db, actor.tenant, req.key, s) && MoneyInvariant(db.sales[s]) && SaleFits(db, db.sales[s])
    requires AssertSameRequest(db.sales[s], actor, ConversionRequest(order, req))
    ensures Links(order, db.sales[s]) && SoldTo(db.sales[s], actor, req.payment)
  {
    SameRequestBags(db.sales[s], actor, ConversionRequest(order, req));
  }

  /** The core's answer to a conversion request links to the order. */
  lemma AnswerLinks(db: Store, actor: Actor, oid: Id, req: ConvertReq, id: Id, now: int)
    requires Inv(db) && oid in db.orders && db.orders[oid].tenant == actor.tenant && Unused(db, id)
    requires SaleAnswer(db, actor, ConversionRequest(db.orders[oid], req), V1, id, now).Ok?
    ensures var ev := SaleAnswer(db, actor, ConversionRequest(db.orders[oid], req), V1, id, now).value;
            && (ev.SaleWritten? ==>
                  && ev.w.sale.key == req.key && Links(db.orders[oid], ev.w.sale) && SoldTo(ev.w.sale, actor, req.payment)
                  && Map(PersistedLine, ev.w.sale.items) == RequestLines(db.orders[oid].items))
            && (ev.SaleReplayed? ==>
                  && HasKey(db, actor.tenant, req.key, ev.id) && Links(db.orders[oid], db.sales[ev.id])
                  && SoldTo(db.sales[ev.id], actor, req.payment))
  {
    var order := db.orders[oid];
    var sale := ConversionRequest(order, req);
    assert OrderOk(db, order);
    var plan := CorePlan(actor, sale, V1, ReadAll(db, actor, sale), now);
    if plan.Write? {
      WrittenLinks(db, actor, order, req, now, plan.sale, plan.tracked);
    } else if plan.Replay? {
      ReplayFound(db, actor, sale, V1, now, plan.id);
      assert MoneyInvariant(db.sales[plan.id]) && SaleFits(db, db.sales[plan.id]);
      ReplayedLinks(db, actor, order, req, plan.id);
    }
  }

  lemma ClaimFound(db: Store, actor: Actor, oid: Id, req: ConvertReq, now: int)
    ensures var d := ConvertPlan(db, actor, oid, req, now);
            && (d.Claim? ==> oid in db.orders && db.orders[oid] == d.order && d.order.tenant == actor.tenant
                             && OpenAt(db, oid, req.expected) && OriginOpen(db, d.order))
            && (d.Again? ==> oid in db.orders && db.orders[oid].tenant == actor.tenant && db.orders[oid].status == Converted
                             && db.orders[oid].sale == Some(d.id) && HasKey(db, actor.tenant, req.key, d.id))
  {
  }

  lemma ConvertAllowed(db: Store, actor: Actor, oid: Id, req: ConvertReq, id: Id, now: int)
    requires Inv(db) && Unused(db, id)
    ensures var r := ConvertAnswer(db, actor, oid, req, id, now); r.Ok? ==> Guard(db, r.value)
  {
    ClaimFound(db, actor, oid, req, now);
    var d := ConvertPlan(db, actor, oid, req, now);
    if d.Claim? {
      var sale := ConversionRequest(d.order, req);
      SaleAllowed(db, actor, sale, V1, id, now);
      var answer := SaleAnswer(db, actor, sale, V1, id, now);
      if answer.Ok? {
        AnswerLinks(db, actor, oid, req, id, now);
      }
    }
  }

  // ---------- what a success leaves behind ----------

  /** A plan that succeeds answers the request with a sale the request repeats. */
  ghost predicate AnswersItself(db: Store, actor: Actor, req: SaleReq, mode: Mode, plan: Plan) {
    && (plan.Write? ==> plan.sale.tenant == actor.tenant && plan.sale.key == req.key && AssertSameRequest(plan.sale, actor, req))
    && (plan.Replay? ==> HasKey(db, actor.tenant, req.key, plan.id) && AssertSameRequest(db.sales[plan.id], actor, req))
    && (plan.Write? || plan.Replay? ==> InputOk(req, mode))
  }

  lemma PlanAnswersItself(db: Store, actor: Actor, req: SaleReq, mode: Mode, now: int)
    requires CatalogOk(db.catalog)
    ensures AnswersItself(db, actor, req, mode, CorePlan(actor, req, mode, ReadAll(db, actor, req), now))
  {
    var rd := ReadAll(db, actor, req);
    var plan := CorePlan(actor, req, mode, rd, now);
    if plan.Write? {
      ReadAllOk(db, actor, req);
      WrittenSaleAnswersItsRequest(actor, req, mode, rd, now, plan.sale, plan.tracked);
      var p := WriteCameFrom(actor, req, mode, rd, now, plan.sale, plan.tracked);
    }
  }

  lemma PlanIsStored(db: Store, actor: Actor, req: SaleReq, mode: Mode, plan: Plan, id: Id)
    requires AnswersItself(db, actor, req, mode, plan)
    requires var r := PlanAnswer(db, actor, req, plan, id); r.Ok? ==> Guard(db, r.value)
    ensures var r := PlanAnswer(db, actor, req, plan, id);
            r.Ok? ==> (r.value.SaleWritten? || r.value.SaleReplayed?) && Stored(Effect(db, r.value), actor, req, mode, r.value.id)
  {
    hide AssertSameRequest, InputOk;
  }

  /** A checkout that succeeds leaves its own sale stored under its key. */
  lemma SaleAnswerIsStored(db: Store, actor: Actor, req: SaleReq, mode: Mode, id: Id, now: int)
    requires CatalogOk(db.catalog) && Unused(db, id) && SaleAnswer(db, actor, req, mode, id, now).Ok?
    ensures var ev := SaleAnswer(db, actor, req, mode, id, now).value;
            && (ev.SaleWritten? || ev.SaleReplayed?) && Guard(db, ev)
            && Stored(Effect(db, ev), actor, req, mode, ev.id)
  {
    SaleAllowed(db, actor, req, mode, id, now);
    PlanAnswersItself(db, actor, req, mode, now);
    PlanIsStored(db, actor, req, mode, CorePlan(actor, req, mode, ReadAll(db, actor, req), now), id);
  }

  /** A replay decision has compared caller and payment with the linked sale's. */
  lemma AgainIsRedeemed(db: Store, actor: Actor, oid: Id, req: ConvertReq, now: int, s: Id)
    requires ConvertPlan(db, actor, oid, req, now) == Again(s)
    ensures Redeemed(db, actor, oid, req, s) && db.orders[oid].tenant == actor.tenant
  {
    var order := db.orders[oid];
    var again := ReplayRequest(order, db.sales[s], req);
    ReplayFound(db, actor, again, V1, now, s);
  }

  lemma ConvertedIsRedeemed(db: Store, actor: Actor, oid: Id, req: ConvertReq, ev: Event, now: int)
    requires oid in db.orders && db.orders[oid].tenant == actor.tenant && ConvertInputOk(req)
    requires (ev.SaleWritten? && ev.w.sale.key == req.key && SoldTo(ev.w.sale, actor, req.payment)
              && ev.w.sale.tenant == actor.tenant)
             || (ev.SaleReplayed? && HasKey(db, actor.tenant, req.key, ev.id) && SoldTo(db.sales[ev.id], actor, req.payment))
    requires Guard(db, ConversionEvent(oid, db.orders[oid], req, ev, now))
    ensures Redeemed(Effect(db, ConversionEvent(oid, db.orders[oid], req, ev, now)), actor, oid, req, ev.id)
  {
  }

  /** A held-order checkout that succeeds, for the first time or as a replay, leaves the order redeemed by its caller. */
  lemma ConvertAnswerIsRedeemed(db: Store, actor: Actor, oid: Id, req: ConvertReq, id: Id, now: int)
    requires Inv(db) && Unused(db, id) && ConvertAnswer(db, actor, oid, req, id, now).Ok?
    ensures var ev := ConvertAnswer(db, actor, oid, req, id, now).value;
            && (ev.HeldConverted? || ev.HeldReplayed?) && Guard(db, ev)
            && Redeemed(Effect(db, ev), actor, oid, req, ev.sale)
  {
    ConvertAllowed(db, actor, oid, req, id, now);
    ClaimFound(db, actor, oid, req, now);
    var d := ConvertPlan(db, actor, oid, req, now);
    if d.Again? {
      AgainIsRedeemed(db, actor, oid, req, now, d.id);
    } else {
      var core := SaleAnswer(db, actor, ConversionRequest(d.order, req), V1, id, now);
      AnswerLinks(db, actor, oid, req, id, now);
      ConvertedIsRedeemed(db, actor, oid, req, core.value, now);
    }
  }

  lemma OpenAllowed(db: Store, actor: Actor, outlet: Id, id: Id)
    requires Unused(db, id)
    ensures var r := OpenAnswer(db, actor, outlet, id); r.Ok? ==> Guard(db, r.value)
  {
  }

  lemma CloseAllowed(db: Store, actor: Actor, session: Id, now: int)
    requires Inv(db)
    ensures CloseAnswer(db, actor, session, now).Ok? ==>
              session in db.sessions && db.sessions[session].open && NoOpenOrders(db, session)
  {
    if CloseAnswer(db, actor, session, now).Ok? {
      forall o <- db.orders | db.orders[o].session == session ensures db.orders[o].status != Open {
        assert OrderOk(db, db.orders[o]);
        assert !IsOpenOrderOf(db, actor.tenant, session, o);
      }
    }
  }
}
