/**
 Interleaved database transactions, statement by statement.

 Isolation is modelled as PostgreSQL gives it:
 - READ COMMITTED: every statement sees the latest committed state and the transaction's own writes.
 - A conversion and an open-shift attempt read one snapshot; writing a row that has changed since is a serialization
   failure.
 - A row that is updated, inserted or selected FOR UPDATE stays locked until the transaction ends, and so does the entry
   of a unique index; a statement that needs a row another transaction holds waits.
 - Nothing a transaction writes is visible to others before its commit.
 */
module Transactions {
  import opened Base
  import opened Schema
  import opened Pricing
  import opened Core
  import opened HeldOrders
  import opened Ledger
  import opened Shifts

  /** What can be locked: existing rows, unique-index entries, and freshly generated ids. */
  datatype Row =
    | NewRow(id: Id)
    | SaleKeyRow(tenant: Id, key: Id)
    | StockRow(at: StockKey)
    | OrderRow(id: Id)
    | SessionRow(id: Id)
    | OpenShiftRow(tenant: Id, user: Id)

  /** Uncommitted writes. */
  datatype Writes = Writes(
    sales: map<Id, Sale>, stock: map<StockKey, int>, movements: seq<Movement>, adjustments: map<Id, Adjustment>,
    orders: map<Id, HeldOrder>, sessions: map<Id, Session>)

  const NO_WRITES := Writes(map[], map[], [], map[], map[], map[])

  function Apply(db: Store, w: Writes): Store {
    db.(sales := db.sales + w.sales, stock := db.stock + w.stock, movements := db.movements + w.movements,
        adjustments := db.adjustments + w.adjustments, orders := db.orders + w.orders, sessions := db.sessions + w.sessions)
  }

  datatype Job =
    | SaleJob(actor: Actor, sale: SaleReq, mode: Mode)
    | HoldJob(actor: Actor, hold: HoldReq)
    | EditJob(actor: Actor, order: Id, edit: EditReq)
    | CancelJob(actor: Actor, order: Id, expected: nat)
    | ConvertJob(actor: Actor, order: Id, convert: ConvertReq)
    | OpenShiftJob(actor: Actor, outlet: Id)
    | CloseShiftJob(actor: Actor, session: Id)
    | AdjustJob(actor: Actor, at: StockKey, add: bool, quantity: int)

  datatype CloseReads = CloseReads(user: Option<User>, shift: Option<Session>, blocked: bool, reportable: bool)
  datatype AdjustReads = AdjustReads(outlet: bool, product: Option<Product>, user: bool)

  /** Where a transaction stands; n counts the statements issued so far. */
  datatype Pc =
    | Start
    | SaleReading(n: nat, rd: Reads)
    | HoldReading(n: nat, hrd: HoldReads)
    | EditReading(n: nat, erd: EditReads)
    | CloseReading(n: nat, crd: CloseReads)
    | AdjustReading(n: nat, ard: AdjustReads)
    | ConvertPlanned(planned: HeldOrder)
    | ConvertClaimed(claimed: HeldOrder)
    | OpenPlanned
    | Decided(plan: Plan, origin: Option<HeldOrder>)
    | Decrementing(id: Id, w: Written, i: nat, order: Option<HeldOrder>)
    | Ready(ev: Event)
    | Finished(ev: Event)
    | Failed(reason: Reason)

  datatype Txn = Txn(job: Job, attempt: nat, snap: Option<Store>, ws: Writes, locks: set<Row>, pc: Pc)

  function Begun(job: Job, attempt: nat): Txn {
    Txn(job, attempt, None, NO_WRITES, {}, Start)
  }

  function Ended(t: Txn, pc: Pc): Txn {
    t.(snap := None, ws := NO_WRITES, locks := {}, pc := pc)
  }

  /** An exception leaves the transaction: everything it wrote is discarded and its locks are released. */
  function Fail(t: Txn, r: Reason): Txn {
    Ended(t, Failed(r))
  }

  predicate HasRetryLoop(job: Job) {
    job.SaleJob? || job.ConvertJob? || job.OpenShiftJob? || job.CloseShiftJob?
  }

  function RetryRequired(job: Job): Reason {
    if job.OpenShiftJob? || job.CloseShiftJob? then ShiftRetryRequired
    else if HasRetryLoop(job) then TransactionRetryRequired
    else InternalError
  }

  /** How many attempts the retry loops allow. */
  const ATTEMPTS := 3

  /** A write conflict, deadlock or duplicate key: the retry loops start over, up to the last attempt. */
  function Retry(t: Txn): Txn {
    if HasRetryLoop(t.job) && t.attempt + 1 < ATTEMPTS then Begun(t.job, t.attempt + 1) else Fail(t, RetryRequired(t.job))
  }

  datatype Outcome = Waits | Goes(t: Txn)

  // ---------- the sale core's writes ----------

  ghost predicate KeyTaken(db: Store, tenant: Id, key: Id) {
    exists x :: HasKey(db, tenant, key, x)
  }

  ghost predicate FreshId(db: Store, held: set<Row>, id: Id) {
    && id !in db.sales && id !in db.orders && id !in db.sessions && id !in db.adjustments
    && NewRow(id) !in held
  }

  /** INSERT of the sale row: waits for another inserter of the key, and collides with a committed one. */
  ghost function InsertSale(db: Store, held: set<Row>, t: Txn, w: Written, id: Id, order: Option<HeldOrder>): Outcome {
    var row := SaleKeyRow(w.sale.tenant, w.sale.key);
    if row in held then Waits
    else if KeyTaken(db, w.sale.tenant, w.sale.key) then Goes(Retry(t))
    else Goes(t.(ws := t.ws.(sales := map[id := w.sale]), locks := t.locks + {NewRow(id), row},
                 pc := Decrementing(id, w, 0, order)))
  }

  /** One conditional decrement: it applies only while the balance covers the quantity. */
  function TakeOne(db: Store, held: set<Row>, t: Txn): Outcome
    requires t.pc.Decrementing? && t.pc.i < |DecsOf(t.pc.w)|
  {
    var d := DecsOf(t.pc.w)[t.pc.i];
    var k := StockKey(t.pc.w.sale.outlet, d.product);
    if StockRow(k) in held then Waits
    else if t.snap.Some? && (k in db.stock) != (k in t.snap.value.stock) then Goes(Retry(t))
    else if k !in db.stock then Goes(Fail(t, InsufficientStock))
    else if t.snap.Some? && db.stock[k] != t.snap.value.stock[k] then Goes(Retry(t))
    else if db.stock[k] < d.quantity then Goes(Fail(t, InsufficientStock))
    else Goes(t.(ws := t.ws.(stock := t.ws.stock[k := db.stock[k] - d.quantity]), locks := t.locks + {StockRow(k)},
                 pc := t.pc.(i := t.pc.i + 1)))
  }

  /** Movements, payment, status; for a conversion the terminal update of the order. */
  function FinishSale(t: Txn, now: int): Txn
    requires t.pc.Decrementing?
    requires t.job.SaleJob? || (t.job.ConvertJob? && t.pc.order.Some?)
  {
    var id, w := t.pc.id, t.pc.w;
    var ws := t.ws.(movements := SaleMovements(id, w.sale, DecsOf(w)));
    if t.job.SaleJob? then t.(ws := ws, pc := Ready(SaleWritten(id, w)))
    else
      var order := t.pc.order.value;
      t.(ws := ws.(orders := map[t.job.order := ConvertedOrder(order, id, now)]),
         pc := Ready(HeldConverted(t.job.order, t.job.convert.expected, t.job.convert.key, id, Some(w),
                                   RequestLines(order.items), now)))
  }

  /** The terminal update of an order whose key was already stored. */
  function LinkStored(t: Txn, order: HeldOrder, s: Id, now: int): Txn
    requires t.job.ConvertJob?
  {
    var oid, req := t.job.order, t.job.convert;
    t.(ws := t.ws.(orders := map[oid := ConvertedOrder(order, s, now)]),
       pc := Ready(HeldConverted(oid, req.expected, req.key, s, None, RequestLines(order.items), now)))
  }

  /** The statement that follows the core's decision, for a checkout or for the order it converts. */
  ghost function CarryOut(db: Store, held: set<Row>, t: Txn, id: Id, now: int): Outcome
    requires t.pc.Decided?
    requires (t.job.SaleJob? && t.pc.origin.None?) || (t.job.ConvertJob? && t.pc.origin.Some?)
  {
    match t.pc.plan
    case Reject(e) => Goes(Fail(t, e))
    case Replay(s) =>
      if t.job.SaleJob? then Goes(t.(pc := Ready(SaleReplayed(t.job.actor.tenant, t.job.sale.key, s))))
      else Goes(LinkStored(t, t.pc.origin.value, s, now))
    case Write(sale, tracked) => InsertSale(db, held, t, Written(sale, tracked), id, t.pc.origin)
  }

  // ---------- sale ----------

  ghost function StepSale(db: Store, held: set<Row>, t: Txn, id: Id, now: int): Outcome
    requires t.job.SaleJob?
    requires t.pc.Start? || t.pc.SaleReading? || (t.pc.Decided? && t.pc.origin.None?) || t.pc.Decrementing?
  {
    var actor, req := t.job.actor, t.job.sale;
    if t.pc.Start? then Goes(t.(pc := SaleReading(0, NO_READS)))
    else if t.pc.Decided? then CarryOut(db, held, t, id, now)
    else if t.pc.Decrementing? then
      if t.pc.i < |DecsOf(t.pc.w)| then TakeOne(db, held, t) else Goes(FinishSale(t, now))
    else if t.pc.n < READS then Goes(t.(pc := SaleReading(t.pc.n + 1, ReadStep(t.pc.n, db, actor, req, t.pc.rd))))
    else Goes(t.(pc := Decided(CorePlan(actor, req, t.job.mode, t.pc.rd, now), None)))
  }

  // ---------- held orders ----------

  function HoldReadStep(n: nat, db: Store, actor: Actor, req: HoldReq, rd: HoldReads): HoldReads {
    if n == 0 then rd.(user := ReadPrincipal(db, actor))
    else if n == 1 then rd.(tenant := ReadTenant(db, actor.tenant))
    else if n == 2 then rd.(outlet := ReadOutlet(db, actor.tenant, req.outlet))
    else if n == 4 then rd.(session := ReadSession(db, actor, Some(req.session)))
    else if n == 5 then rd.(products := ReadProducts(db.catalog, actor.tenant, ProductIds(req.items)))
    else if n == 6 then rd.(rows := ReadAssignments(db.catalog, actor.tenant, ProductIds(req.items), db.catalog.assignments))
    else if n == 7 then rd.(options := ReadOptionsById(db.catalog, actor.tenant, RequestedOptions(req.items)))
    else rd
  }

  /** Statement 3 is SELECT ... FOR UPDATE on the session; the session is validated after the lock. */
  function StepHold(db: Store, held: set<Row>, t: Txn, id: Id): Outcome
    requires t.job.HoldJob? && (t.pc.Start? || t.pc.HoldReading?)
  {
    var actor, req := t.job.actor, t.job.hold;
    if t.pc.Start? then Goes(t.(pc := HoldReading(0, NO_HOLD_READS)))
    else if t.pc.n == 3 then
      if SessionRow(req.session) in held then Waits
      else Goes(t.(locks := t.locks + {SessionRow(req.session)}, pc := HoldReading(4, t.pc.hrd)))
    else if t.pc.n < 8 then Goes(t.(pc := HoldReading(t.pc.n + 1, HoldReadStep(t.pc.n, db, actor, req, t.pc.hrd))))
    else match CreatePlan(actor, req, t.pc.hrd)
      case Err(e) => Goes(Fail(t, e))
      case Ok(order) =>
        Goes(t.(ws := t.ws.(orders := map[id := order]), locks := t.locks + {NewRow(id)}, pc := Ready(HeldCreated(id, order))))
  }

  function EditReadStep(n: nat, db: Store, actor: Actor, id: Id, items: seq<LineReq>, rd: EditReads): EditReads {
    if n == 0 then rd.(user := ReadPrincipal(db, actor))
    else if n == 1 then rd.(outlet := ReadScopeOutlet(db, actor, rd.user))
    else if n == 2 then rd.(order := ReadOrder(db, actor, rd.user, id))
    else if n == 3 then rd.(tenant := ReadTenant(db, actor.tenant))
    else if n == 4 then rd.(products := ReadProducts(db.catalog, actor.tenant, ProductIds(items)))
    else if n == 5 then rd.(rows := ReadAssignments(db.catalog, actor.tenant, ProductIds(items), db.catalog.assignments))
    else rd.(options := ReadOptionsById(db.catalog, actor.tenant, RequestedOptions(items)))
  }

  ghost predicate Matches(db: Store, tenant: Id, id: Id, expected: nat) {
    OpenAt(db, id, expected) && db.orders[id].tenant == tenant
  }

  /** The conditional UPDATE re-evaluates status and version on the row it locks. */
  ghost function StepEdit(db: Store, held: set<Row>, t: Txn): Outcome
    requires t.job.EditJob? && (t.pc.Start? || t.pc.EditReading?)
  {
    var actor, id, req := t.job.actor, t.job.order, t.job.edit;
    var items := if req.items.Some? then req.items.value else [];
    if t.pc.Start? then Goes(t.(pc := EditReading(0, NO_EDIT_READS)))
    else if t.pc.n < 7 then Goes(t.(pc := EditReading(t.pc.n + 1, EditReadStep(t.pc.n, db, actor, id, items, t.pc.erd))))
    else match UpdatePlan(actor, req, t.pc.erd)
      case Err(e) => Goes(Fail(t, e))
      case Ok(priced) =>
        if OrderRow(id) in held then Waits
        else if !Matches(db, actor.tenant, id, req.expected) then Goes(Fail(t, HeldOrderVersionConflict))
        else
          var order := Edited(db.orders[id], req, priced);
          Goes(t.(ws := t.ws.(orders := map[id := order]), locks := t.locks + {OrderRow(id)},
                  pc := Ready(HeldUpdated(id, req.expected, order))))
  }

  ghost function StepCancel(db: Store, held: set<Row>, t: Txn, now: int): Outcome
    requires t.job.CancelJob? && (t.pc.Start? || t.pc.EditReading?)
  {
    var actor, id := t.job.actor, t.job.order;
    if t.pc.Start? then Goes(t.(pc := EditReading(0, NO_EDIT_READS)))
    else if t.pc.n < 3 then Goes(t.(pc := EditReading(t.pc.n + 1, EditReadStep(t.pc.n, db, actor, id, [], t.pc.erd))))
    else match CancelPlan(t.pc.erd, t.job.expected)
      case Some(e) => Goes(Fail(t, e))
      case None =>
        if OrderRow(id) in held then Waits
        else if !Matches(db, actor.tenant, id, t.job.expected) then Goes(Fail(t, HeldOrderVersionConflict))
        else
          Goes(t.(ws := t.ws.(orders := map[id := CancelledOrder(db.orders[id], now)]), locks := t.locks + {OrderRow(id)},
                  pc := Ready(HeldCancelled(id, t.job.expected, now))))
  }

  /** A conversion past its snapshot. */
  ghost predicate Converting(t: Txn) {
    && t.snap.Some?
    && (t.pc.ConvertPlanned? || t.pc.ConvertClaimed?
        || (t.pc.Decided? && t.pc.origin.Some?) || (t.pc.Decrementing? && t.pc.order.Some?))
  }

  ghost function StepConvert(db: Store, held: set<Row>, t: Txn, id: Id, now: int): Outcome
    requires t.job.ConvertJob? && (t.pc.Start? || Converting(t))
  {
    var actor, oid, req := t.job.actor, t.job.order, t.job.convert;
    if t.pc.Start? then
      match ConvertPlan(db, actor, oid, req, now)
      case Refuse(e) => Goes(Fail(t, e))
      case Again(s) => Goes(t.(snap := Some(db), pc := Ready(HeldReplayed(oid, actor.tenant, req.key, s))))
      case Claim(order) => Goes(t.(snap := Some(db), pc := ConvertPlanned(order)))
    else if t.pc.ConvertPlanned? then
      if OrderRow(oid) in held then Waits
      else if oid !in db.orders || db.orders[oid] != t.pc.planned then Goes(Retry(t))
      else Goes(t.(ws := t.ws.(orders := map[oid := ClaimedOrder(t.pc.planned)]), locks := t.locks + {OrderRow(oid)},
                   pc := ConvertClaimed(t.pc.planned)))
    else if t.pc.ConvertClaimed? then
      var sale := ConversionRequest(t.pc.claimed, req);
      Goes(t.(pc := Decided(CorePlan(actor, sale, V1, ReadAll(t.snap.value, actor, sale), now), Some(t.pc.claimed))))
    else if t.pc.Decided? then CarryOut(db, held, t, id, now)
    else if t.pc.i < |DecsOf(t.pc.w)| then TakeOne(db, held, t)
    else Goes(FinishSale(t, now))
  }

  // ---------- shifts ----------

  function OpenShiftProblem(db: Store, actor: Actor, outlet: Id): Option<Reason> {
    var user := ReadPrincipal(db, actor);
    if user.None? then Some(Unauthorized)
    else if user.value.role == OtherRole then Some(RoleForbidden)
    else if user.value.role == Cashier && user.value.outlet != Some(outlet) then Some(OutletAccessDenied)
    else if !ReadOutlet(db, actor.tenant, outlet) then Some(OutletNotFound)
    else None
  }

  ghost function StepOpenShift(db: Store, held: set<Row>, t: Txn, id: Id): Outcome
    requires t.job.OpenShiftJob? && (t.pc.Start? || t.pc.OpenPlanned?)
  {
    var actor := t.job.actor;
    var row := OpenShiftRow(actor.tenant, actor.sub);
    if t.pc.Start? then
      match OpenShiftProblem(db, actor, t.job.outlet)
      case Some(e) => Goes(Fail(t, e))
      case None =>
        if !NoOpenSession(db, actor.tenant, actor.sub) then Goes(Fail(t, ShiftAlreadyOpen))
        else Goes(t.(snap := Some(db), pc := OpenPlanned))
    else if row in held then Waits
    else if !NoOpenSession(db, actor.tenant, actor.sub) then Goes(Fail(t, ShiftAlreadyOpen))
    else
      var session := Session(actor.tenant, t.job.outlet, actor.sub, true, None);
      Goes(t.(ws := t.ws.(sessions := map[id := session]), locks := t.locks + {NewRow(id), row},
              pc := Ready(ShiftOpened(id, session))))
  }

  function ReadShift(db: Store, actor: Actor, id: Id): Option<Session> {
    if id in db.sessions && db.sessions[id].tenant == actor.tenant then Some(db.sessions[id]) else None
  }

  predicate IsOpenOrderOf(db: Store, tenant: Id, session: Id, o: Id) {
    o in db.orders && db.orders[o].tenant == tenant && db.orders[o].session == session && db.orders[o].status == Open
  }

  function ClosePlan(actor: Actor, rd: CloseReads): Option<Reason> {
    if rd.user.None? then Some(Unauthorized)
    else if rd.user.value.role == OtherRole then Some(RoleForbidden)
    else if rd.shift.None? then Some(ShiftNotFound)
    else if rd.user.value.role == Cashier && rd.shift.value.user != actor.sub then Some(ShiftAccessDenied)
    else if !rd.shift.value.open then Some(ShiftAlreadyClosed)
    else if rd.blocked then Some(OpenHeldOrdersExist)
    else if !rd.reportable then Some(InternalError)
    else None
  }

  /** Read actor and shift, lock the session row, count its open orders, derive the summary, close it if it is still open. */
  ghost function StepClose(db: Store, held: set<Row>, t: Txn, now: int): Outcome
    requires t.job.CloseShiftJob? && (t.pc.Start? || t.pc.CloseReading?)
  {
    var actor, id := t.job.actor, t.job.session;
    if t.pc.Start? then Goes(t.(pc := CloseReading(0, CloseReads(None, None, false, false))))
    else
      var rd := t.pc.crd;
      if t.pc.n == 0 then Goes(t.(pc := CloseReading(1, rd.(user := ReadPrincipal(db, actor)))))
      else if t.pc.n == 1 then Goes(t.(pc := CloseReading(2, rd.(shift := ReadShift(db, actor, id)))))
      else if t.pc.n == 2 then
        if SessionRow(id) in held then Waits
        else Goes(t.(locks := t.locks + {SessionRow(id)}, pc := CloseReading(3, rd)))
      else if t.pc.n == 3 then
        Goes(t.(pc := CloseReading(4, rd.(blocked := exists o :: IsOpenOrderOf(db, actor.tenant, id, o)))))
      else if t.pc.n == 4 then
        Goes(t.(pc := CloseReading(5, rd.(reportable := SummaryFits(db, actor.tenant, id)))))
      else match ClosePlan(actor, rd)
        case Some(e) => Goes(Fail(t, e))
        case None =>
          if id !in db.sessions || db.sessions[id].tenant != actor.tenant || !db.sessions[id].open
          then Goes(Fail(t, ShiftAlreadyClosed))
          else
            Goes(t.(ws := t.ws.(sessions := map[id := db.sessions[id].(open := false, closedAt := Some(now))]),
                    pc := Ready(ShiftClosed(id, now))))
  }

  // ---------- stock adjustments ----------

  function AdjustReadStep(n: nat, db: Store, actor: Actor, at: StockKey, rd: AdjustReads): AdjustReads {
    if n == 0 then rd.(outlet := at.outlet in db.outlets && db.outlets[at.outlet].tenant == actor.tenant)
    else if n == 1 then
      rd.(product := if at.product in db.catalog.products && db.catalog.products[at.product].tenant == actor.tenant
                     then Some(db.catalog.products[at.product]) else None)
    else rd.(user := actor.sub in db.users && db.users[actor.sub].tenant == actor.tenant)
  }

  function AdjustPlan(rd: AdjustReads, quantity: int): Option<Reason> {
    if quantity < 1 then Some(InvalidInput)
    else if !rd.outlet then Some(OutletNotFound)
    else if rd.product.None? then Some(ProductNotFound)
    else if !rd.product.value.trackStock then Some(StockTrackingDisabled)
    else if !rd.user then Some(UserNotFound)
    else None
  }

  /** ADD first inserts a zero balance if there is none; the update checks and changes the balance in one statement. */
  function StepAdjust(db: Store, held: set<Row>, t: Txn, id: Id): Outcome
    requires t.job.AdjustJob? && (t.pc.Start? || t.pc.AdjustReading?)
  {
    var actor, at := t.job.actor, t.job.at;
    if t.pc.Start? then Goes(t.(pc := AdjustReading(0, AdjustReads(false, None, false))))
    else if t.pc.n < 3 then Goes(t.(pc := AdjustReading(t.pc.n + 1, AdjustReadStep(t.pc.n, db, actor, at, t.pc.ard))))
    else match AdjustPlan(t.pc.ard, t.job.quantity)
      case Some(e) => Goes(Fail(t, e))
      case None =>
        var a := Adjustment(actor.tenant, at, actor.sub, t.job.add, t.job.quantity);
        var after := StockAt(db.stock, at) + SignedQuantity(a);
        if StockRow(at) in held then Waits
        else if !a.add && (at !in db.stock || db.stock[at] < a.quantity) then Goes(Fail(t, InsufficientStock))
        else if after > INT4_MAX then Goes(Fail(t, InternalError))
        else
          Goes(t.(ws := t.ws.(stock := map[at := after], adjustments := map[id := a], movements := [AdjustmentMovementOf(id, a)]),
                  locks := t.locks + {NewRow(id), StockRow(at)}, pc := Ready(StockAdjusted(id, a))))
  }

  // ---------- one statement of one transaction ----------

  ghost predicate Active(t: Txn) {
    match t.job
    case SaleJob(_, _, _) =>
      t.pc.Start? || t.pc.SaleReading? || (t.pc.Decided? && t.pc.origin.None?) || t.pc.Decrementing?
    case HoldJob(_, _) => t.pc.Start? || t.pc.HoldReading?
    case EditJob(_, _, _) => t.pc.Start? || t.pc.EditReading?
    case CancelJob(_, _, _) => t.pc.Start? || t.pc.EditReading?
    case ConvertJob(_, _, _) => t.pc.Start? || Converting(t)
    case OpenShiftJob(_, _) => t.pc.Start? || t.pc.OpenPlanned?
    case CloseShiftJob(_, _) => t.pc.Start? || t.pc.CloseReading?
    case AdjustJob(_, _, _, _) => t.pc.Start? || t.pc.AdjustReading?
  }

  ghost function Statement(db: Store, held: set<Row>, t: Txn, id: Id, now: int): Outcome
    requires Active(t)
  {
    match t.job
    case SaleJob(_, _, _) => StepSale(db, held, t, id, now)
    case HoldJob(_, _) => StepHold(db, held, t, id)
    case EditJob(_, _, _) => StepEdit(db, held, t)
    case CancelJob(_, _, _) => StepCancel(db, held, t, now)
    case ConvertJob(_, _, _) => StepConvert(db, held, t, id, now)
    case OpenShiftJob(_, _) => StepOpenShift(db, held, t, id)
    case CloseShiftJob(_, _) => StepClose(db, held, t, now)
    case AdjustJob(_, _, _, _) => StepAdjust(db, held, t, id)
  }

  // ---------- the machine ----------

  datatype Sys = Sys(db: Store, txns: map<nat, Txn>, trace: seq<Event>)

  ghost function HeldByOthers(s: Sys, t: nat): set<Row> {
    set u, r | u in s.txns && u != t && r in s.txns[u].locks :: r
  }

  datatype Move =
    | Begin(t: nat, job: Job)
    | Execute(t: nat, id: Id, now: int)
    | Commit(t: nat)
    | Abort(t: nat, reason: Reason)
    | Conflict(t: nat)
    | Administer(ev: Event)

  predicate Ongoing(t: Txn) {
    !t.pc.Finished? && !t.pc.Failed?
  }

  ghost predicate Next(s: Sys, m: Move, s': Sys) {
    match m
    case Begin(t, job) => t !in s.txns && s' == s.(txns := s.txns[t := Begun(job, 0)])
    case Execute(t, id, now) =>
      && t in s.txns && Active(s.txns[t])
      && FreshId(s.db, HeldByOthers(s, t) + s.txns[t].locks, id)
      && var o := Statement(s.db, HeldByOthers(s, t), s.txns[t], id, now);
      o.Goes? && s' == s.(txns := s.txns[t := o.t])
    case Commit(t) =>
      && t in s.txns && s.txns[t].pc.Ready?
      && s' == Sys(Apply(s.db, s.txns[t].ws),
                   s.txns[t := Ended(s.txns[t], Finished(s.txns[t].pc.ev))],
                   s.trace + [s.txns[t].pc.ev])
    case Abort(t, reason) =>
      t in s.txns && Ongoing(s.txns[t]) && s' == s.(txns := s.txns[t := Fail(s.txns[t], reason)])
    case Conflict(t) =>
      t in s.txns && Ongoing(s.txns[t]) && s' == s.(txns := s.txns[t := Retry(s.txns[t])])
    case Administer(ev) =>
      ev.Administered? && Guard(s.db, ev) && s' == s.(db := Effect(s.db, ev), trace := s.trace + [ev])
  }

  ghost predicate Initial(s: Sys, db0: Store) {
    s == Sys(db0, map[], []) && Inv(db0)
  }

  /** States of one run, moves between them. */
  ghost predicate Behavior(db0: Store, states: seq<Sys>, moves: seq<Move>) {
    && |states| == |moves| + 1
    && Initial(states[0], db0)
    && forall i :: 0 <= i < |moves| ==> Next(states[i], moves[i], states[i + 1])
  }
}
