/**
 Every interleaving refines a committed history: the database of a reachable machine state is the fold of the events
 committed so far, each of which was enabled at the moment it committed.
 */
module Interleaving {
  import opened Base
  import opened Schema
  import opened Pricing
  import opened SameRequest
  import opened Core
  import opened CoreFacts
  import opened HeldOrders
  import opened HeldOrderFacts
  import opened Ledger
  import opened LedgerFacts
  import opened History
  import opened Replays
  import opened Transactions
  import opened Frames
  import opened Solo

  // ---------- what each transaction knows ----------

  /** The event answers the job it belongs to. */
  predicate Fits(job: Job, ev: Event) {
    match job
    case SaleJob(actor, req, _) =>
      || (ev.SaleWritten? && ev.w.sale.tenant == actor.tenant && ev.w.sale.key == req.key)
      || (ev.SaleReplayed? && ev.tenant == actor.tenant && ev.key == req.key)
    case HoldJob(_, _) => ev.HeldCreated?
    case EditJob(_, order, req) => ev.HeldUpdated? && ev.id == order && ev.expected == req.expected
    case CancelJob(_, order, expected) => ev.HeldCancelled? && ev.id == order && ev.expected == expected
    case ConvertJob(actor, order, req) =>
      || (ev.HeldConverted? && ev.id == order && ev.expected == req.expected && ev.key == req.key)
      || (ev.HeldReplayed? && ev.id == order && ev.tenant == actor.tenant && ev.key == req.key)
    case OpenShiftJob(_, _) => ev.ShiftOpened?
    case CloseShiftJob(_, session) => ev.ShiftClosed? && ev.id == session
    case AdjustJob(_, _, _, _) => ev.StockAdjusted?
  }

  /** The sale id a successful job reports. */
  function SaleOfEvent(ev: Event): Option<Id> {
    match ev
    case SaleWritten(id, _) => Some(id)
    case SaleReplayed(_, _, id) => Some(id)
    case HeldConverted(_, _, _, sale, _, _, _) => Some(sale)
    case HeldReplayed(_, _, _, sale) => Some(sale)
    case _ => None
  }

  function KeyOf(job: Job): Id {
    match job
    case SaleJob(_, req, _) => req.key
    case ConvertJob(_, _, req) => req.key
    case _ => ""
  }

  /** The sale is one this job may be answered with: its own request, or its own caller and payment. */
  ghost predicate Owns(job: Job, sale: Sale) {
    match job
    case SaleJob(actor, req, mode) => InputOk(req, mode) && AssertSameRequest(sale, actor, req)
    case ConvertJob(actor, _, req) => ConvertInputOk(req) && SoldTo(sale, actor, req.payment)
    case _ => true
  }

  /** The sale the event reports, written by it or already stored, is the job's own. */
  ghost predicate OwnAnswer(db: Store, job: Job, ev: Event) {
    match ev
    case SaleWritten(_, w) => Owns(job, w.sale)
    case SaleReplayed(_, _, id) => id in db.sales && Owns(job, db.sales[id])
    case HeldConverted(_, _, _, sale, written, _, _) =>
      if written.Some? then Owns(job, written.value.sale) else sale in db.sales && Owns(job, db.sales[sale])
    case HeldReplayed(_, _, _, sale) => sale in db.sales && Owns(job, db.sales[sale])
    case _ => true
  }

  /** A success of a checkout is its own sale stored under its key; of a conversion, the order redeemed by its caller. */
  ghost predicate Reported(db: Store, job: Job, ev: Event) {
    match job
    case SaleJob(actor, req, mode) => SaleOfEvent(ev).Some? && Stored(db, actor, req, mode, SaleOfEvent(ev).value)
    case ConvertJob(actor, order, req) => SaleOfEvent(ev).Some? && Redeemed(db, actor, order, req, SaleOfEvent(ev).value)
    case _ => true
  }

  /** The reads a sale attempt has made stay true of what can only grow. */
  ghost predicate ReadsSound(db: Store, actor: Actor, req: SaleReq, rd: Reads) {
    && ReadsOk(rd)
    && (rd.existing.Some? ==>
          HasKey(db, actor.tenant, req.key, rd.existing.value.0) && db.sales[rd.existing.value.0] == rd.existing.value.1)
    && (rd.session.Some? ==>
          && req.session.Some? && req.session.value in db.sessions
          && db.sessions[req.session.value].tenant == actor.tenant && db.sessions[req.session.value].user == actor.sub
          && db.sessions[req.session.value].outlet == rd.session.value.outlet)
  }

  ghost predicate Idle(t: Txn) {
    t.locks == {} && t.ws == NO_WRITES
  }

  /** A snapshot taken at an earlier commit. */
  ghost predicate SnapshotOk(db: Store, snap: Option<Store>) {
    snap.Some? && Inv(snap.value) && SalesGrow(snap.value, db) && SessionsKept(snap.value, db)
  }

  ghost predicate PlannedOk(snap: Store, t: Txn, order: HeldOrder)
    requires t.job.ConvertJob?
  {
    && t.job.order in snap.orders && snap.orders[t.job.order] == order && ConvertInputOk(t.job.convert)
    && order.status == Open && order.version == t.job.convert.expected && order.tenant == t.job.actor.tenant
  }

  ghost predicate ClaimHeld(db: Store, t: Txn, order: HeldOrder)
    requires t.job.ConvertJob?
  {
    && t.job.order in db.orders && db.orders[t.job.order] == order
    && OrderRow(t.job.order) in t.locks
  }

  /** A sale the job may write: sound, its own, and for a conversion the order's lines in order. */
  ghost predicate Sells(db: Store, job: Job, origin: Option<HeldOrder>, sale: Sale) {
    && MoneyInvariant(sale) && SaleFits(db, sale)
    && sale.tenant == job.actor.tenant && sale.key == KeyOf(job) && Owns(job, sale)
    && (origin.Some? ==>
          Links(origin.value, sale) && Map(PersistedLine, sale.items) == RequestLines(origin.value.items))
  }

  /** A stored sale the job may be answered with. */
  ghost predicate Finds(db: Store, job: Job, origin: Option<HeldOrder>, s: Id) {
    && HasKey(db, job.actor.tenant, KeyOf(job), s) && Owns(job, db.sales[s])
    && (origin.Some? ==> Links(origin.value, db.sales[s]))
  }

  /** A checkout has no origin; a conversion holds the order it claimed, as its snapshot had it. */
  ghost predicate OriginOk(db: Store, t: Txn, origin: Option<HeldOrder>) {
    || (t.job.SaleJob? && origin.None? && t.snap.None? && t.ws.orders == map[])
    || (t.job.ConvertJob? && origin.Some? && SnapshotOk(db, t.snap) && PlannedOk(t.snap.value, t, origin.value)
        && ClaimHeld(db, t, origin.value)
        && t.ws.orders == map[t.job.order := ClaimedOrder(origin.value)])
  }

  ghost predicate DecidedOk(db: Store, t: Txn)
    requires t.pc.Decided?
  {
    && t.ws == NO_WRITES.(orders := t.ws.orders)
    && (t.pc.plan.Write? ==> Sells(db, t.job, t.pc.origin, t.pc.plan.sale))
    && (t.pc.plan.Replay? ==> Finds(db, t.job, t.pc.origin, t.pc.plan.id))
  }

  ghost predicate DecrementingOk(db: Store, t: Txn)
    requires t.pc.Decrementing?
  {
    var id, w, i := t.pc.id, t.pc.w, t.pc.i;
    && i <= |DecsOf(w)|
    && Unused(db, id) && !KeyTaken(db, w.sale.tenant, w.sale.key) && Sells(db, t.job, t.pc.order, w.sale)
    && StockCovers(db.stock, w.sale.outlet, DecsOf(w)[..i])
    && {NewRow(id), SaleKeyRow(w.sale.tenant, w.sale.key)} + StockRows(w.sale.outlet, DecsOf(w)[..i]) <= t.locks
    && t.ws.sales == map[id := w.sale] && t.ws.stock == StockWrites(db.stock, w.sale.outlet, DecsOf(w)[..i])
    && t.ws.movements == [] && t.ws.adjustments == map[] && t.ws.sessions == map[]
  }

  ghost predicate ReadyOk(db: Store, t: Txn)
    requires t.pc.Ready?
  {
    var ev := t.pc.ev;
    && !ev.Administered? && Guard(db, ev) && IdsUnused(db, ev) && Touches(ev) <= t.locks
    && t.ws == Delta(db, ev)
    && Fits(t.job, ev) && OwnAnswer(db, t.job, ev)
    && (t.job.ConvertJob? && ev.HeldConverted? ==> db.orders[ev.id].tenant == t.job.actor.tenant)
  }

  ghost predicate PcOk(db: Store, trace: seq<Event>, t: Txn) {
    match t.pc
    case Start => Idle(t) && t.snap.None?
    case SaleReading(n, rd) => Idle(t) && t.snap.None? && t.job.SaleJob? && ReadsSound(db, t.job.actor, t.job.sale, rd)
    case HoldReading(n, rd) =>
      && t.job.HoldJob? && t.ws == NO_WRITES
      && t.locks == (if n > 3 then {SessionRow(t.job.hold.session)} else {})
      && (rd.session.Some? ==>
            n > 3 && t.job.hold.session in db.sessions && db.sessions[t.job.hold.session] == rd.session.value
            && OpenFor(db, t.job.actor.tenant, t.job.actor.sub, t.job.hold.session))
    case EditReading(_, _) => Idle(t) && (t.job.EditJob? || t.job.CancelJob?)
    case CloseReading(n, rd) =>
      && t.job.CloseShiftJob? && t.ws == NO_WRITES
      && t.locks == (if n > 2 then {SessionRow(t.job.session)} else {})
      && (rd.shift.Some? ==> t.job.session in db.sessions && db.sessions[t.job.session].tenant == t.job.actor.tenant)
      && (n > 3 && rd.shift.Some? && !rd.blocked ==> NoOpenOrders(db, t.job.session))
    case AdjustReading(_, _) => Idle(t) && t.job.AdjustJob?
    case ConvertPlanned(order) =>
      t.job.ConvertJob? && Idle(t) && SnapshotOk(db, t.snap) && PlannedOk(t.snap.value, t, order)
    case ConvertClaimed(order) =>
      && t.job.ConvertJob? && SnapshotOk(db, t.snap) && PlannedOk(t.snap.value, t, order) && ClaimHeld(db, t, order)
      && t.ws == NO_WRITES.(orders := map[t.job.order := ClaimedOrder(order)])
    case OpenPlanned => t.job.OpenShiftJob? && Idle(t)
    case Decided(_, origin) => DecidedOk(db, t) && OriginOk(db, t, origin)
    case Decrementing(id, w, i, order) =>
      && DecrementingOk(db, t)
      && OriginOk(db, t, order)
    case Ready(_) => ReadyOk(db, t)
    case Finished(ev) => Idle(t) && ev in trace && Fits(t.job, ev) && Reported(db, t.job, ev)
    case Failed(_) => Idle(t)
  }

  ghost predicate TxnOk(db: Store, trace: seq<Event>, t: Txn) {
    t.attempt < ATTEMPTS && PcOk(db, trace, t)
  }

  /** What one statement must achieve. */
  ghost predicate Keeps(db: Store, trace: seq<Event>, held: set<Row>, o: Outcome) {
    o.Goes? ==> TxnOk(db, trace, o.t) && o.t.locks !! held
  }

  ghost predicate Runnable(db: Store, trace: seq<Event>, held: set<Row>, t: Txn, id: Id) {
    Inv(db) && TxnOk(db, trace, t) && Active(t) && t.locks !! held && FreshId(db, held + t.locks, id)
  }

  // ---------- statements of the sale core ----------

  lemma ProductReadOk(db: Store, tenant: Id, ids: set<Id>)
    requires CatalogOk(db.catalog)
    ensures forall p <- ReadProducts(db.catalog, tenant, ids) ::
              0 <= db.catalog.products[p].price <= INT4_MAX && 0 <= db.catalog.products[p].cost <= INT4_MAX
  {
  }

  lemma OptionReadOk(db: Store, tenant: Id, groups: set<Id>)
    requires CatalogOk(db.catalog)
    ensures forall o <- ReadOptionsOfGroups(db.catalog, tenant, groups) :: 0 <= db.catalog.options[o].delta <= INT4_MAX
  {
  }

  lemma SameReadsSound(db: Store, actor: Actor, req: SaleReq, rd: Reads, rd': Reads)
    requires ReadsSound(db, actor, req, rd)
    requires rd'.existing == rd.existing && rd'.session == rd.session && rd'.products == rd.products && rd'.options == rd.options
    ensures ReadsSound(db, actor, req, rd')
  {
  }

  lemma SessionReadSound(db: Store, actor: Actor, req: SaleReq, rd: Reads)
    requires ReadsSound(db, actor, req, rd)
    ensures ReadsSound(db, actor, req, rd.(session := ReadSession(db, actor, req.session)))
  {
  }

  lemma IdentityReadSound(n: nat, db: Store, actor: Actor, req: SaleReq, rd: Reads)
    requires ReadsSound(db, actor, req, rd) && n < 6 && n != 2
    ensures ReadsSound(db, actor, req, ReadStep(n, db, actor, req, rd))
  {
    hide ReadExisting, ReadProducts, ReadAssignments, ReadOptionsOfGroups, ReadsOk;
    if n == 3 {
      SessionReadSound(db, actor, req, rd);
    } else {
      SameReadsSound(db, actor, req, rd, ReadStep(n, db, actor, req, rd));
    }
  }

  lemma ExistingReadSound(db: Store, actor: Actor, req: SaleReq, rd: Reads)
    requires ReadsSound(db, actor, req, rd)
    ensures ReadsSound(db, actor, req, ReadStep(2, db, actor, req, rd))
  {
  }

  lemma CatalogReadSound(n: nat, db: Store, actor: Actor, req: SaleReq, rd: Reads)
    requires CatalogOk(db.catalog) && ReadsSound(db, actor, req, rd) && n >= 6
    ensures ReadsSound(db, actor, req, ReadStep(n, db, actor, req, rd))
  {
    if n == 6 {
      ProductReadOk(db, actor.tenant, ProductIds(req.items));
    } else if n >= 8 {
      OptionReadOk(db, actor.tenant, GroupsOf(rd.rows));
    }
  }

  lemma SaleReadSound(n: nat, db: Store, actor: Actor, req: SaleReq, rd: Reads)
    requires CatalogOk(db.catalog) && ReadsSound(db, actor, req, rd)
    ensures ReadsSound(db, actor, req, ReadStep(n, db, actor, req, rd))
  {
    if n == 2 {
      ExistingReadSound(db, actor, req, rd);
    } else if n < 6 {
      IdentityReadSound(n, db, actor, req, rd);
    } else {
      CatalogReadSound(n, db, actor, req, rd);
    }
  }

  lemma WriteOwns(job: Job, rd: Reads, now: int, sale: Sale, tracked: set<Id>)
    requires job.SaleJob? && ReadsOk(rd)
    requires CorePlan(job.actor, job.sale, job.mode, rd, now) == Write(sale, tracked)
    ensures sale.tenant == job.actor.tenant && sale.key == KeyOf(job) && Owns(job, sale)
  {
    WrittenSaleAnswersItsRequest(job.actor, job.sale, job.mode, rd, now, sale, tracked);
    var p := WriteCameFrom(job.actor, job.sale, job.mode, rd, now, sale, tracked);
  }

  lemma WriteSessionFits(db: Store, job: Job, rd: Reads, now: int, sale: Sale, tracked: set<Id>)
    requires job.SaleJob? && ReadsSound(db, job.actor, job.sale, rd)
    requires CorePlan(job.actor, job.sale, job.mode, rd, now) == Write(sale, tracked)
    ensures SaleFits(db, sale)
  {
    var p := WriteCameFrom(job.actor, job.sale, job.mode, rd, now, sale, tracked);
  }

  /** What a Write plan gives the checkout that is about to insert. */
  lemma WriteCanInsert(db: Store, job: Job, rd: Reads, now: int, sale: Sale, tracked: set<Id>)
    requires job.SaleJob? && ReadsSound(db, job.actor, job.sale, rd)
    requires CorePlan(job.actor, job.sale, job.mode, rd, now) == Write(sale, tracked)
    ensures Sells(db, job, None, sale)
  {
    hide CorePlan, MoneyInvariant, SaleFits, Owns;
    WrittenSaleIsSound(job.actor, job.sale, job.mode, rd, now, sale, tracked);
    WriteOwns(job, rd, now, sale, tracked);
    WriteSessionFits(db, job, rd, now, sale, tracked);
  }

  lemma ReplayFinds(db: Store, job: Job, rd: Reads, now: int, s: Id)
    requires job.SaleJob? && ReadsSound(db, job.actor, job.sale, rd)
    requires CorePlan(job.actor, job.sale, job.mode, rd, now) == Replay(s)
    ensures Finds(db, job, None, s)
  {
  }

  lemma OriginStaysOk(db: Store, t: Txn, t': Txn, order: Option<HeldOrder>)
    requires OriginOk(db, t, order)
    requires t'.job == t.job && t'.snap == t.snap && t'.ws.orders == t.ws.orders && t.locks <= t'.locks
    ensures OriginOk(db, t', order)
  {
  }

  lemma RetryIsOk(db: Store, trace: seq<Event>, t: Txn)
    requires t.attempt < ATTEMPTS
    ensures TxnOk(db, trace, Retry(t)) && Retry(t).locks == {}
  {
  }

  lemma InsertedOk(db: Store, t: Txn, t': Txn, w: Written, id: Id, order: Option<HeldOrder>)
    requires Unused(db, id) && !KeyTaken(db, w.sale.tenant, w.sale.key)
    requires Sells(db, t.job, order, w.sale) && OriginOk(db, t, order) && t.ws == NO_WRITES.(orders := t.ws.orders)
    requires t' == t.(ws := t.ws.(sales := map[id := w.sale]),
                      locks := t.locks + {NewRow(id), SaleKeyRow(w.sale.tenant, w.sale.key)},
                      pc := Decrementing(id, w, 0, order))
    ensures DecrementingOk(db, t') && OriginOk(db, t', order)
  {
    hide Sells;
    OriginStaysOk(db, t, t', order);
    assert DecsOf(w)[..0] == [];
  }

  lemma InsertKeeps(db: Store, trace: seq<Event>, held: set<Row>, t: Txn, w: Written, id: Id, order: Option<HeldOrder>)
    requires t.attempt < ATTEMPTS && t.locks !! held && FreshId(db, held + t.locks, id)
    requires Sells(db, t.job, order, w.sale) && OriginOk(db, t, order) && t.ws == NO_WRITES.(orders := t.ws.orders)
    ensures Keeps(db, trace, held, InsertSale(db, held, t, w, id, order))
  {
    hide Sells, OriginOk;
    var o := InsertSale(db, held, t, w, id, order);
    RetryIsOk(db, trace, t);
    if o.Goes? && o.t.pc.Decrementing? {
      InsertedOk(db, t, o.t, w, id, order);
    }
  }

  lemma PrefixRows(outlet: Id, decs: seq<Dec>, i: nat)
    requires i < |decs|
    ensures StockRows(outlet, decs[..i + 1]) == StockRows(outlet, decs[..i]) + {StockRow(StockKey(outlet, decs[i].product))}
  {
    var a, b := decs[..i + 1], decs[..i];
    forall r ensures r in StockRows(outlet, a) <==> r in StockRows(outlet, b) + {StockRow(StockKey(outlet, decs[i].product))} {
      if r in StockRows(outlet, a) {
        var k :| 0 <= k < |a| && r == StockRow(StockKey(outlet, a[k].product));
        if k < i { assert b[k] == a[k]; }
      }
      if r in StockRows(outlet, b) {
        var k :| 0 <= k < |b| && r == StockRow(StockKey(outlet, b[k].product));
        assert a[k] == b[k];
      }
      assert a[i] == decs[i];
    }
  }

  /** One more decrement. */
  lemma TookOne(db: Store, t: Txn, t': Txn)
    requires t.pc.Decrementing? && t.pc.i < |DecsOf(t.pc.w)| && DecrementingOk(db, t)
    requires var d := DecsOf(t.pc.w)[t.pc.i]; var k := StockKey(t.pc.w.sale.outlet, d.product);
             && k in db.stock && db.stock[k] >= d.quantity
             && t' == t.(ws := t.ws.(stock := t.ws.stock[k := db.stock[k] - d.quantity]), locks := t.locks + {StockRow(k)},
                         pc := Decrementing(t.pc.id, t.pc.w, t.pc.i + 1, t.pc.order))
    ensures DecrementingOk(db, t')
  {
    var decs, i, outlet := DecsOf(t.pc.w), t.pc.i, t.pc.w.sale.outlet;
    PrefixRows(outlet, decs, i);
    assert decs[..i + 1][..i] == decs[..i] && decs[..i + 1][i] == decs[i];
    assert StockWrites(db.stock, outlet, decs[..i + 1]) == t'.ws.stock;
    assert forall k :: 0 <= k < i ==> decs[..i + 1][k] == decs[..i][k];
  }

  lemma TakingKeeps(db: Store, trace: seq<Event>, held: set<Row>, t: Txn)
    requires t.attempt < ATTEMPTS && t.locks !! held && t.pc.Decrementing? && DecrementingOk(db, t) && OriginOk(db, t, t.pc.order)
    ensures Keeps(db, trace, held, Goes(t))
  {
  }

  lemma TakeOneKeeps(db: Store, trace: seq<Event>, held: set<Row>, t: Txn)
    requires t.attempt < ATTEMPTS && t.locks !! held
    requires t.pc.Decrementing? && t.pc.i < |DecsOf(t.pc.w)| && DecrementingOk(db, t) && OriginOk(db, t, t.pc.order)
    ensures Keeps(db, trace, held, TakeOne(db, held, t))
  {
    hide Sells, OriginOk;
    var o := TakeOne(db, held, t);
    RetryIsOk(db, trace, t);
    if o.Goes? && o.t.pc.Decrementing? {
      TookOne(db, t, o.t);
      OriginStaysOk(db, t, o.t, t.pc.order);
      TakingKeeps(db, trace, held, o.t);
    }
  }

  lemma FinishedSaleReady(db: Store, t: Txn, now: int)
    requires t.job.SaleJob? && t.pc.Decrementing? && t.pc.i == |DecsOf(t.pc.w)|
    requires DecrementingOk(db, t) && t.ws.orders == map[]
    ensures ReadyOk(db, FinishSale(t, now))
  {
    var id, w := t.pc.id, t.pc.w;
    assert DecsOf(w)[..t.pc.i] == DecsOf(w);
    assert FinishSale(t, now).ws == SaleWrites(db, id, w);
    assert forall x :: !HasKey(db, w.sale.tenant, w.sale.key, x);
    assert CanWrite(db, id, w);
  }

  lemma TakenCanWrite(db: Store, t: Txn)
    requires t.pc.Decrementing? && t.pc.i == |DecsOf(t.pc.w)| && DecrementingOk(db, t)
    ensures CanWrite(db, t.pc.id, t.pc.w) && Unused(db, t.pc.id)
    ensures WriteRows(t.pc.id, t.pc.w) <= t.locks
    ensures t.ws == SaleWrites(db, t.pc.id, t.pc.w).(movements := [], orders := t.ws.orders)
  {
    var w := t.pc.w;
    assert DecsOf(w)[..t.pc.i] == DecsOf(w);
    assert forall x :: !HasKey(db, w.sale.tenant, w.sale.key, x);
  }

  lemma ConvertedReady(db: Store, t: Txn, id: Id, w: Written, order: HeldOrder, now: int)
    requires t.job.ConvertJob? && CanWrite(db, id, w) && Unused(db, id) && WriteRows(id, w) <= t.locks
    requires Sells(db, t.job, Some(order), w.sale) && OriginOpen(db, order)
    requires ClaimHeld(db, t, order) && order.status == Open
    requires order.version == t.job.convert.expected && order.tenant == t.job.actor.tenant
    requires t.ws == SaleWrites(db, id, w).(orders := map[t.job.order := ConvertedOrder(order, id, now)])
    requires t.pc == Ready(HeldConverted(t.job.order, t.job.convert.expected, t.job.convert.key, id, Some(w),
                                         RequestLines(order.items), now))
    ensures ReadyOk(db, t)
  {
  }

  lemma FinishedConversionReady(db: Store, t: Txn, now: int)
    requires t.job.ConvertJob? && t.pc.Decrementing? && t.pc.i == |DecsOf(t.pc.w)|
    requires DecrementingOk(db, t) && OriginOk(db, t, t.pc.order) && OriginOpen(db, t.pc.order.value)
    ensures ReadyOk(db, FinishSale(t, now))
  {
    TakenCanWrite(db, t);
    ConvertedReady(db, FinishSale(t, now), t.pc.id, t.pc.w, t.pc.order.value, now);
  }

  lemma OpenOrderHasOpenOrigin(db: Store, id: Id)
    requires Inv(db) && id in db.orders && db.orders[id].status == Open
    ensures OriginOpen(db, db.orders[id])
  {
    assert OrderOk(db, db.orders[id]);
  }

  lemma FinishKeeps(db: Store, trace: seq<Event>, held: set<Row>, t: Txn, now: int)
    requires Inv(db) && TxnOk(db, trace, t) && t.locks !! held
    requires t.pc.Decrementing? && t.pc.i == |DecsOf(t.pc.w)|
    ensures Keeps(db, trace, held, Goes(FinishSale(t, now)))
  {
    if t.job.SaleJob? {
      FinishedSaleReady(db, t, now);
    } else {
      OpenOrderHasOpenOrigin(db, t.job.order);
      FinishedConversionReady(db, t, now);
    }
  }

  lemma ReadyKeeps(db: Store, trace: seq<Event>, held: set<Row>, t: Txn)
    requires t.attempt < ATTEMPTS && t.locks !! held && t.pc.Ready? && ReadyOk(db, t)
    ensures Keeps(db, trace, held, Goes(t))
  {
  }

  lemma SaleReplayReady(db: Store, t: Txn, s: Id)
    requires t.job.SaleJob? && t.ws == NO_WRITES && Finds(db, t.job, None, s)
    requires t.pc == Ready(SaleReplayed(t.job.actor.tenant, t.job.sale.key, s))
    ensures ReadyOk(db, t)
  {
  }

  lemma LinkReady(db: Store, t: Txn, order: HeldOrder, s: Id, now: int)
    requires t.job.ConvertJob? && ClaimHeld(db, t, order) && order.status == Open
    requires order.version == t.job.convert.expected && order.tenant == t.job.actor.tenant
    requires OriginOpen(db, order) && Finds(db, t.job, Some(order), s)
    requires t.ws == NO_WRITES.(orders := map[t.job.order := ConvertedOrder(order, s, now)])
    requires t.pc == Ready(HeldConverted(t.job.order, t.job.convert.expected, t.job.convert.key, s, None, RequestLines(order.items), now))
    ensures ReadyOk(db, t)
  {
  }

  lemma LinkKeeps(db: Store, trace: seq<Event>, held: set<Row>, t: Txn, order: HeldOrder, s: Id, now: int)
    requires Inv(db) && t.attempt < ATTEMPTS && t.locks !! held && t.job.ConvertJob?
    requires OriginOk(db, t, Some(order)) && t.ws == NO_WRITES.(orders := t.ws.orders) && Finds(db, t.job, Some(order), s)
    ensures Keeps(db, trace, held, Goes(LinkStored(t, order, s, now)))
  {
    OpenOrderHasOpenOrigin(db, t.job.order);
    LinkReady(db, LinkStored(t, order, s, now), order, s, now);
    ReadyKeeps(db, trace, held, LinkStored(t, order, s, now));
  }

  /** The statement after the decision. */
  lemma DecidedKeeps(db: Store, trace: seq<Event>, held: set<Row>, t: Txn, id: Id, now: int)
    requires Inv(db) && t.attempt < ATTEMPTS && t.locks !! held && FreshId(db, held + t.locks, id)
    requires t.pc.Decided? && DecidedOk(db, t) && OriginOk(db, t, t.pc.origin)
    ensures Keeps(db, trace, held, CarryOut(db, held, t, id, now))
  {
    hide Sells, Finds;
    match t.pc.plan {
      case Reject(_) =>
      case Replay(s) =>
        if t.job.SaleJob? {
          var u := CarryOut(db, held, t, id, now).t;
          SaleReplayReady(db, u, s);
          ReadyKeeps(db, trace, held, u);
        } else {
          LinkKeeps(db, trace, held, t, t.pc.origin.value, s, now);
        }
      case Write(sale, tracked) => InsertKeeps(db, trace, held, t, Written(sale, tracked), id, t.pc.origin);
    }
  }

  /** A checkout that has made all its reads decides. */
  lemma SaleDecides(db: Store, t: Txn, now: int)
    requires t.job.SaleJob? && t.pc.SaleReading? && Idle(t) && t.snap.None?
    requires ReadsSound(db, t.job.actor, t.job.sale, t.pc.rd)
    ensures var plan := CorePlan(t.job.actor, t.job.sale, t.job.mode, t.pc.rd, now);
            DecidedOk(db, t.(pc := Decided(plan, None)))
  {
    var plan := CorePlan(t.job.actor, t.job.sale, t.job.mode, t.pc.rd, now);
    if plan.Write? {
      WriteCanInsert(db, t.job, t.pc.rd, now, plan.sale, plan.tracked);
    } else if plan.Replay? {
      ReplayFinds(db, t.job, t.pc.rd, now, plan.id);
    }
  }

  lemma SaleKeeps(db: Store, trace: seq<Event>, held: set<Row>, t: Txn, id: Id, now: int)
    requires Runnable(db, trace, held, t, id) && t.job.SaleJob?
    ensures Keeps(db, trace, held, StepSale(db, held, t, id, now))
  {
    hide CorePlan, Sells, Finds;
    if t.pc.Decrementing? {
      if t.pc.i < |DecsOf(t.pc.w)| { TakeOneKeeps(db, trace, held, t); } else { FinishKeeps(db, trace, held, t, now); }
    } else if t.pc.Decided? {
      DecidedKeeps(db, trace, held, t, id, now);
    } else if t.pc.SaleReading? {
      if t.pc.n < READS {
        SaleReadSound(t.pc.n, db, t.job.actor, t.job.sale, t.pc.rd);
      } else {
        SaleDecides(db, t, now);
      }
    }
  }

  // ---------- held orders ----------

  lemma HoldReady(db: Store, t: Txn, id: Id, order: HeldOrder)
    requires t.job.HoldJob? && Unused(db, id)
    requires order.status == Open && order.version == 1 && order.sale == None && HeaderOk(order)
    requires SessionFits(db, order) && OriginOpen(db, order)
    requires {NewRow(id), SessionRow(order.session)} <= t.locks
    requires t.ws == NO_WRITES.(orders := map[id := order]) && t.pc == Ready(HeldCreated(id, order))
    ensures ReadyOk(db, t)
  {
  }

  lemma HoldInsertKeeps(db: Store, trace: seq<Event>, held: set<Row>, t: Txn, id: Id, order: HeldOrder)
    requires t.attempt < ATTEMPTS && t.locks !! held && FreshId(db, held + t.locks, id)
    requires t.job.HoldJob? && PcOk(db, trace, t) && t.pc.HoldReading? && t.pc.n >= 8
    requires CreatePlan(t.job.actor, t.job.hold, t.pc.hrd) == Ok(order)
    ensures Keeps(db, trace, held, StepHold(db, held, t, id))
  {
    hide CreatePlan;
    CreatedHeaderOk(t.job.actor, t.job.hold, t.pc.hrd, order);
    var tax, p := CreateCameFrom(t.job.actor, t.job.hold, t.pc.hrd, order);
    HoldReady(db, StepHold(db, held, t, id).t, id, order);
    ReadyKeeps(db, trace, held, StepHold(db, held, t, id).t);
  }

  lemma HoldKeeps(db: Store, trace: seq<Event>, held: set<Row>, t: Txn, id: Id)
    requires Runnable(db, trace, held, t, id) && t.job.HoldJob?
    ensures Keeps(db, trace, held, StepHold(db, held, t, id))
  {
    hide CreatePlan, Inv;
    if t.pc.HoldReading? && t.pc.n >= 8 {
      var plan := CreatePlan(t.job.actor, t.job.hold, t.pc.hrd);
      if plan.Ok? {
        HoldInsertKeeps(db, trace, held, t, id, plan.value);
      }
    }
  }

  lemma EditReady(db: Store, t: Txn, id: Id, expected: nat, order: HeldOrder)
    requires (t.job.EditJob? && t.job.order == id && t.job.edit.expected == expected) && OrderRow(id) in t.locks
    requires OpenAt(db, id, expected) && order.status == Open && order.version == expected + 1 && order.sale == None
    requires SameOwner(order, db.orders[id]) && HeaderOk(order)
    requires t.ws == NO_WRITES.(orders := map[id := order]) && t.pc == Ready(HeldUpdated(id, expected, order))
    ensures ReadyOk(db, t)
  {
  }

  lemma EditWriteKeeps(db: Store, trace: seq<Event>, held: set<Row>, t: Txn, priced: Option<Priced>)
    requires Inv(db) && TxnOk(db, trace, t) && t.locks !! held
    requires t.job.EditJob? && t.pc.EditReading? && t.pc.n >= 7
    requires UpdatePlan(t.job.actor, t.job.edit, t.pc.erd) == Ok(priced)
    requires OrderRow(t.job.order) !in held && Matches(db, t.job.actor.tenant, t.job.order, t.job.edit.expected)
    ensures Keeps(db, trace, held, StepEdit(db, held, t))
  {
    hide UpdatePlan;
    assert OrderOk(db, db.orders[t.job.order]);
    EditedHeaderOk(t.job.actor, t.job.edit, t.pc.erd, priced, db.orders[t.job.order]);
    var u := StepEdit(db, held, t).t;
    EditReady(db, u, t.job.order, t.job.edit.expected, Edited(db.orders[t.job.order], t.job.edit, priced));
    ReadyKeeps(db, trace, held, u);
  }

  lemma EditKeeps(db: Store, trace: seq<Event>, held: set<Row>, t: Txn, id: Id)
    requires Runnable(db, trace, held, t, id) && t.job.EditJob?
    ensures Keeps(db, trace, held, StepEdit(db, held, t))
  {
    hide Inv, UpdatePlan;
    if t.pc.EditReading? && t.pc.n >= 7 {
      var plan := UpdatePlan(t.job.actor, t.job.edit, t.pc.erd);
      if plan.Ok? && OrderRow(t.job.order) !in held && Matches(db, t.job.actor.tenant, t.job.order, t.job.edit.expected) {
        EditWriteKeeps(db, trace, held, t, plan.value);
      }
    }
  }

  lemma CancelReady(db: Store, t: Txn, id: Id, expected: nat, now: int)
    requires (t.job.CancelJob? && t.job.order == id && t.job.expected == expected) && OrderRow(id) in t.locks
    requires OpenAt(db, id, expected)
    requires t.ws == NO_WRITES.(orders := map[id := CancelledOrder(db.orders[id], now)])
    requires t.pc == Ready(HeldCancelled(id, expected, now))
    ensures ReadyOk(db, t)
  {
  }

  lemma CancelKeeps(db: Store, trace: seq<Event>, held: set<Row>, t: Txn, id: Id, now: int)
    requires TxnOk(db, trace, t) && Active(t) && t.locks !! held && t.job.CancelJob?
    ensures Keeps(db, trace, held, StepCancel(db, held, t, now))
  {
    hide CancelPlan;
    var o := StepCancel(db, held, t, now);
    if o.Goes? && o.t.pc.Ready? {
      CancelReady(db, o.t, t.job.order, t.job.expected, now);
      ReadyKeeps(db, trace, held, o.t);
    }
  }

  // ---------- conversion ----------

  lemma LinkedFinds(db: Store, snap: Store, job: Job, order: HeldOrder, s: Id)
    requires job.ConvertJob? && ConvertInputOk(job.convert) && order.tenant == job.actor.tenant
    requires Inv(snap) && SalesGrow(snap, db) && SessionFits(snap, order)
    requires HasKey(snap, job.actor.tenant, job.convert.key, s)
    requires AssertSameRequest(snap.sales[s], job.actor, ConversionRequest(order, job.convert))
    ensures Finds(db, job, Some(order), s)
  {
    assert MoneyInvariant(snap.sales[s]) && SaleFits(snap, snap.sales[s]);
    ReplayedLinks(snap, job.actor, order, job.convert, s);
  }

  lemma LinkedSells(db: Store, snap: Store, job: Job, order: HeldOrder, now: int, sale: Sale, tracked: set<Id>)
    requires job.ConvertJob? && ConvertInputOk(job.convert) && order.tenant == job.actor.tenant
    requires CatalogOk(snap.catalog) && SessionsKept(snap, db) && SessionFits(snap, order)
    requires var req := ConversionRequest(order, job.convert);
             CorePlan(job.actor, req, V1, ReadAll(snap, job.actor, req), now) == Write(sale, tracked)
    ensures Sells(db, job, Some(order), sale)
  {
    var req := ConversionRequest(order, job.convert);
    WrittenLinks(snap, job.actor, order, job.convert, now, sale, tracked);
    WriteFits(snap, job.actor, req, V1, now, sale, tracked);
  }

  /** A claimed conversion decides from its snapshot. */
  lemma ClaimedDecides(db: Store, t: Txn, order: HeldOrder, now: int, plan: Plan)
    requires t.job.ConvertJob? && ConvertInputOk(t.job.convert) && SnapshotOk(db, t.snap) && PlannedOk(t.snap.value, t, order)
    requires t.ws == NO_WRITES.(orders := t.ws.orders)
    requires var req := ConversionRequest(order, t.job.convert);
             plan == CorePlan(t.job.actor, req, V1, ReadAll(t.snap.value, t.job.actor, req), now)
    ensures DecidedOk(db, t.(pc := Decided(plan, Some(order))))
  {
    var snap := t.snap.value;
    assert OrderOk(snap, snap.orders[t.job.order]);
    if plan.Write? {
      LinkedSells(db, snap, t.job, order, now, plan.sale, plan.tracked);
    } else if plan.Replay? {
      ReplayFound(snap, t.job.actor, ConversionRequest(order, t.job.convert), V1, now, plan.id);
      LinkedFinds(db, snap, t.job, order, plan.id);
    }
  }

  lemma ClaimMeans(db: Store, actor: Actor, id: Id, req: ConvertReq, now: int, order: HeldOrder)
    requires ConvertPlan(db, actor, id, req, now) == Claim(order)
    ensures id in db.orders && db.orders[id] == order && order.tenant == actor.tenant
    ensures order.status == Open && order.version == req.expected && ConvertInputOk(req)
  {
  }

  lemma ReplayReady(db: Store, t: Txn, s: Id)
    requires t.job.ConvertJob? && t.ws == NO_WRITES
    requires Redeemed(db, t.job.actor, t.job.order, t.job.convert, s) && db.orders[t.job.order].tenant == t.job.actor.tenant
    requires t.pc == Ready(HeldReplayed(t.job.order, t.job.actor.tenant, t.job.convert.key, s))
    ensures ReadyOk(db, t)
  {
  }

  lemma ConvertStartKeeps(db: Store, trace: seq<Event>, held: set<Row>, t: Txn, id: Id, now: int)
    requires Runnable(db, trace, held, t, id) && t.job.ConvertJob? && t.pc.Start?
    ensures Keeps(db, trace, held, StepConvert(db, held, t, id, now))
  {
    hide ConvertPlan, Redeemed, Inv;
    var d := ConvertPlan(db, t.job.actor, t.job.order, t.job.convert, now);
    var o := StepConvert(db, held, t, id, now);
    match d {
      case Refuse(_) =>
      case Again(s) =>
        AgainIsRedeemed(db, t.job.actor, t.job.order, t.job.convert, now, s);
        ReplayReady(db, o.t, s);
      case Claim(order) =>
        ClaimMeans(db, t.job.actor, t.job.order, t.job.convert, now, order);
    }
  }

  lemma ClaimKeeps(db: Store, trace: seq<Event>, held: set<Row>, t: Txn, id: Id, now: int)
    requires TxnOk(db, trace, t) && t.locks !! held && t.job.ConvertJob? && t.pc.ConvertPlanned?
    ensures Keeps(db, trace, held, StepConvert(db, held, t, id, now))
  {
    RetryIsOk(db, trace, t);
  }

  lemma ConvertKeepsInv(db: Store, trace: seq<Event>, held: set<Row>, t: Txn, id: Id, now: int)
    requires Runnable(db, trace, held, t, id) && t.job.ConvertJob?
    ensures Keeps(db, trace, held, StepConvert(db, held, t, id, now))
  {
    hide ConvertPlan, CorePlan, Sells, Finds, Inv;
    if t.pc.Start? {
      ConvertStartKeeps(db, trace, held, t, id, now);
    } else if t.pc.ConvertPlanned? {
      ClaimKeeps(db, trace, held, t, id, now);
    } else if t.pc.ConvertClaimed? {
      ClaimedDecides(db, t, t.pc.claimed, now, StepConvert(db, held, t, id, now).t.pc.plan);
    } else if t.pc.Decided? {
      DecidedKeeps(db, trace, held, t, id, now);
    } else if t.pc.i < |DecsOf(t.pc.w)| {
      TakeOneKeeps(db, trace, held, t);
    } else {
      FinishKeeps(db, trace, held, t, now);
    }
  }

  // ---------- shifts and adjustments ----------

  lemma OpenReady(db: Store, t: Txn, id: Id, session: Session)
    requires t.job.OpenShiftJob? && Unused(db, id) && session.open && session.closedAt.None? && NoOpenSession(db, session.tenant, session.user)
    requires {NewRow(id), OpenShiftRow(session.tenant, session.user)} <= t.locks
    requires t.ws == NO_WRITES.(sessions := map[id := session]) && t.pc == Ready(ShiftOpened(id, session))
    ensures ReadyOk(db, t)
  {
  }

  lemma OpenKeeps(db: Store, trace: seq<Event>, held: set<Row>, t: Txn, id: Id)
    requires Runnable(db, trace, held, t, id) && t.job.OpenShiftJob?
    ensures Keeps(db, trace, held, StepOpenShift(db, held, t, id))
  {
    hide Inv, OpenShiftProblem;
    var o := StepOpenShift(db, held, t, id);
    if o.Goes? && o.t.pc.Ready? {
      OpenReady(db, o.t, id, o.t.pc.ev.session);
    }
  }

  lemma NoneCounted(db: Store, tenant: Id, session: Id)
    requires Inv(db) && session in db.sessions && db.sessions[session].tenant == tenant
    requires !(exists o :: IsOpenOrderOf(db, tenant, session, o))
    ensures NoOpenOrders(db, session)
  {
    forall o <- db.orders | db.orders[o].session == session ensures db.orders[o].status != Open {
      assert OrderOk(db, db.orders[o]);
      assert !IsOpenOrderOf(db, tenant, session, o);
    }
  }

  lemma CloseReady(db: Store, t: Txn, id: Id, now: int)
    requires t.job == CloseShiftJob(t.job.actor, id) && SessionRow(id) in t.locks
    requires id in db.sessions && db.sessions[id].open && NoOpenOrders(db, id)
    requires t.ws == NO_WRITES.(sessions := map[id := db.sessions[id].(open := false, closedAt := Some(now))])
    requires t.pc == Ready(ShiftClosed(id, now))
    ensures ReadyOk(db, t)
  {
  }

  lemma CloseCounts(db: Store, trace: seq<Event>, held: set<Row>, t: Txn, now: int)
    requires Inv(db) && TxnOk(db, trace, t) && t.locks !! held
    requires t.job.CloseShiftJob? && t.pc.CloseReading? && t.pc.n == 3
    ensures Keeps(db, trace, held, StepClose(db, held, t, now))
  {
    hide Inv;
    if t.pc.crd.shift.Some? && !(exists x :: IsOpenOrderOf(db, t.job.actor.tenant, t.job.session, x)) {
      NoneCounted(db, t.job.actor.tenant, t.job.session);
    }
  }

  lemma CloseWrites(db: Store, trace: seq<Event>, held: set<Row>, t: Txn, now: int)
    requires TxnOk(db, trace, t) && t.locks !! held
    requires t.job.CloseShiftJob? && t.pc.CloseReading? && t.pc.n > 4
    ensures Keeps(db, trace, held, StepClose(db, held, t, now))
  {
    var o := StepClose(db, held, t, now);
    if o.Goes? && o.t.pc.Ready? {
      CloseReady(db, o.t, t.job.session, now);
      ReadyKeeps(db, trace, held, o.t);
    }
  }

  lemma CloseKeeps(db: Store, trace: seq<Event>, held: set<Row>, t: Txn, id: Id, now: int)
    requires Runnable(db, trace, held, t, id) && t.job.CloseShiftJob?
    ensures Keeps(db, trace, held, StepClose(db, held, t, now))
  {
    hide Inv, ClosePlan;
    if t.pc.CloseReading? && t.pc.n == 3 {
      CloseCounts(db, trace, held, t, now);
    } else if t.pc.CloseReading? && t.pc.n > 4 {
      CloseWrites(db, trace, held, t, now);
    }
  }

  lemma AdjustReady(db: Store, t: Txn, id: Id, a: Adjustment)
    requires t.job.AdjustJob? && Unused(db, id) && a.quantity >= 1
    requires !a.add ==> a.at in db.stock && db.stock[a.at] >= a.quantity
    requires {NewRow(id), StockRow(a.at)} <= t.locks
    requires t.ws == NO_WRITES.(stock := map[a.at := StockAt(db.stock, a.at) + SignedQuantity(a)], adjustments := map[id := a],
                               movements := [AdjustmentMovementOf(id, a)])
    requires t.pc == Ready(StockAdjusted(id, a))
    ensures ReadyOk(db, t)
  {
  }

  lemma AdjustKeepsInv(db: Store, trace: seq<Event>, held: set<Row>, t: Txn, id: Id)
    requires TxnOk(db, trace, t) && Active(t) && t.locks !! held && FreshId(db, held + t.locks, id)
    requires t.job.AdjustJob?
    ensures Keeps(db, trace, held, StepAdjust(db, held, t, id))
  {
    hide Inv;
    var o := StepAdjust(db, held, t, id);
    if o.Goes? && o.t.pc.Ready? {
      AdjustReady(db, o.t, id, o.t.pc.ev.adjustment);
    }
  }

  /** Any statement of any transaction. */
  lemma StatementKeeps(db: Store, trace: seq<Event>, held: set<Row>, t: Txn, id: Id, now: int)
    requires Runnable(db, trace, held, t, id)
    ensures Keeps(db, trace, held, Statement(db, held, t, id, now))
  {
    hide Inv, PcOk, StepSale, StepHold, StepEdit, StepCancel, StepConvert, StepOpenShift, StepClose, StepAdjust;
    match t.job {
      case SaleJob(_, _, _) => SaleKeeps(db, trace, held, t, id, now);
      case HoldJob(_, _) => HoldKeeps(db, trace, held, t, id);
      case EditJob(_, _, _) => EditKeeps(db, trace, held, t, id);
      case CancelJob(_, _, _) => CancelKeeps(db, trace, held, t, id, now);
      case ConvertJob(_, _, _) => ConvertKeepsInv(db, trace, held, t, id, now);
      case OpenShiftJob(_, _) => OpenKeeps(db, trace, held, t, id);
      case CloseShiftJob(_, _) => CloseKeeps(db, trace, held, t, id, now);
      case AdjustJob(_, _, _, _) => AdjustKeepsInv(db, trace, held, t, id);
    }
  }

  // ---------- other transactions' commits ----------

  ghost predicate Undisturbed(a: Store, b: Store, trace: seq<Event>, after: seq<Event>, t: Txn) {
    && Inv(a) && Inv(b) && Frame(a, b, t.locks) && TxnOk(a, trace, t)
    && forall ev <- trace :: ev in after
  }

  lemma OriginFramed(a: Store, b: Store, t: Txn, order: Option<HeldOrder>)
    requires Frame(a, b, t.locks) && OriginOk(a, t, order)
    ensures OriginOk(b, t, order)
  {
    if t.job.ConvertJob? {
      assert OrderMoves(a, b, t.job.order);
    }
  }

  lemma DecidedFramed(a: Store, b: Store, trace: seq<Event>, after: seq<Event>, t: Txn)
    requires Undisturbed(a, b, trace, after, t) && t.pc.Decided?
    ensures TxnOk(b, after, t)
  {
    hide Inv;
    OriginFramed(a, b, t, t.pc.origin);
  }

  lemma TakenFramed(a: Store, b: Store, t: Txn)
    requires Frame(a, b, t.locks) && t.pc.Decrementing? && DecrementingOk(a, t)
    ensures DecrementingOk(b, t)
  {
    var w := t.pc.w;
    StockWritesFramed(a, b, w.sale.outlet, DecsOf(w)[..t.pc.i], t.locks);
    assert NewRow(t.pc.id) in t.locks && SaleKeyRow(w.sale.tenant, w.sale.key) in t.locks;
  }

  lemma DecrementingFramed(a: Store, b: Store, trace: seq<Event>, after: seq<Event>, t: Txn)
    requires Undisturbed(a, b, trace, after, t) && t.pc.Decrementing?
    ensures TxnOk(b, after, t)
  {
    hide Inv;
    TakenFramed(a, b, t);
    OriginFramed(a, b, t, t.pc.order);
  }

  lemma ReadyFramed(a: Store, b: Store, trace: seq<Event>, after: seq<Event>, t: Txn)
    requires Undisturbed(a, b, trace, after, t) && t.pc.Ready?
    ensures TxnOk(b, after, t)
  {
    hide Inv;
    var ev := t.pc.ev;
    GuardFramed(a, b, ev, t.locks);
    assert ev.HeldConverted? ==> OrderRow(ev.id) in t.locks;
  }

  lemma SaleReportedOnEffect(db: Store, job: Job, ev: Event)
    requires job.SaleJob? && Guard(db, ev) && Fits(job, ev) && OwnAnswer(db, job, ev)
    ensures Reported(Effect(db, ev), job, ev)
  {
  }

  lemma ConversionReportedOnEffect(db: Store, job: Job, ev: Event)
    requires job.ConvertJob? && Guard(db, ev) && Fits(job, ev) && OwnAnswer(db, job, ev)
    requires ev.HeldConverted? ==> db.orders[ev.id].tenant == job.actor.tenant
    ensures Reported(Effect(db, ev), job, ev)
  {
  }

  /** What a success reports holds once its event has happened, on any database that allows the event. */
  lemma ReportedOnEffect(db: Store, job: Job, ev: Event)
    requires Guard(db, ev) && Fits(job, ev) && OwnAnswer(db, job, ev)
    requires job.ConvertJob? && ev.HeldConverted? ==> db.orders[ev.id].tenant == job.actor.tenant
    ensures Reported(Effect(db, ev), job, ev)
  {
    if job.SaleJob? {
      SaleReportedOnEffect(db, job, ev);
    } else if job.ConvertJob? {
      ConversionReportedOnEffect(db, job, ev);
    }
  }

  lemma SaleReadingFramed(a: Store, b: Store, trace: seq<Event>, after: seq<Event>, t: Txn)
    requires Undisturbed(a, b, trace, after, t) && t.pc.SaleReading?
    ensures TxnOk(b, after, t)
  {
    hide Inv;
  }

  lemma HoldReadingFramed(a: Store, b: Store, trace: seq<Event>, after: seq<Event>, t: Txn)
    requires Undisturbed(a, b, trace, after, t) && t.pc.HoldReading?
    ensures TxnOk(b, after, t)
  {
    hide Inv;
  }

  lemma CloseReadingFramed(a: Store, b: Store, trace: seq<Event>, after: seq<Event>, t: Txn)
    requires Undisturbed(a, b, trace, after, t) && t.pc.CloseReading?
    ensures TxnOk(b, after, t)
  {
    hide Inv;
  }

  lemma ConvertingFramed(a: Store, b: Store, trace: seq<Event>, after: seq<Event>, t: Txn)
    requires Undisturbed(a, b, trace, after, t) && (t.pc.ConvertPlanned? || t.pc.ConvertClaimed?)
    ensures TxnOk(b, after, t)
  {
    hide Inv;
    assert OrderMoves(a, b, t.job.order);
  }

  lemma ReportedFramed(a: Store, b: Store, job: Job, ev: Event, L: set<Row>)
    requires Frame(a, b, L) && Reported(a, job, ev)
    ensures Reported(b, job, ev)
  {
    if job.SaleJob? {
      StoredStays(a, b, job.actor, job.sale, job.mode, SaleOfEvent(ev).value);
    } else if job.ConvertJob? {
      assert OrderMoves(a, b, job.order);
      RedeemedStays(a, b, job.actor, job.order, job.convert, SaleOfEvent(ev).value);
    }
  }

  lemma FinishedFramed(a: Store, b: Store, trace: seq<Event>, after: seq<Event>, t: Txn)
    requires Undisturbed(a, b, trace, after, t) && t.pc.Finished?
    ensures TxnOk(b, after, t)
  {
    hide Reported, Frame;
    ReportedFramed(a, b, t.job, t.pc.ev, t.locks);
  }

  lemma IdleFramed(a: Store, b: Store, trace: seq<Event>, after: seq<Event>, t: Txn)
    requires Undisturbed(a, b, trace, after, t)
    requires t.pc.Start? || t.pc.EditReading? || t.pc.AdjustReading? || t.pc.OpenPlanned? || t.pc.Failed?
    ensures TxnOk(b, after, t)
  {
    hide Inv;
  }

  lemma Framed(a: Store, b: Store, trace: seq<Event>, after: seq<Event>, t: Txn)
    requires Undisturbed(a, b, trace, after, t)
    ensures TxnOk(b, after, t)
  {
    hide Undisturbed, Inv, Frame, TxnOk;
    match t.pc {
      case SaleReading(_, _) => SaleReadingFramed(a, b, trace, after, t);
      case HoldReading(_, _) => HoldReadingFramed(a, b, trace, after, t);
      case CloseReading(_, _) => CloseReadingFramed(a, b, trace, after, t);
      case ConvertPlanned(_) => ConvertingFramed(a, b, trace, after, t);
      case ConvertClaimed(_) => ConvertingFramed(a, b, trace, after, t);
      case Decided(_, _) => DecidedFramed(a, b, trace, after, t);
      case Decrementing(_, _, _, _) => DecrementingFramed(a, b, trace, after, t);
      case Ready(_) => ReadyFramed(a, b, trace, after, t);
      case Finished(_) => FinishedFramed(a, b, trace, after, t);
      case _ => IdleFramed(a, b, trace, after, t);
    }
  }

  // ---------- the machine ----------

  ghost predicate LocksExclusive(s: Sys) {
    forall t, u :: t in s.txns && u in s.txns && t != u ==> s.txns[t].locks !! s.txns[u].locks
  }

  ghost predicate SysInv(db0: Store, s: Sys) {
    && Inv(db0) && Valid(db0, s.trace) && s.db == Run(db0, s.trace)
    && LocksExclusive(s)
    && forall t <- s.txns :: TxnOk(s.db, s.trace, s.txns[t])
  }

  lemma OthersDisjoint(s: Sys, t: nat)
    requires LocksExclusive(s) && t in s.txns
    ensures s.txns[t].locks !! HeldByOthers(s, t)
  {
  }

  lemma Replaced(s: Sys, t: nat, txn: Txn)
    requires LocksExclusive(s) && txn.locks !! HeldByOthers(s, t)
    ensures LocksExclusive(s.(txns := s.txns[t := txn]))
  {
    forall u <- s.txns | u != t ensures s.txns[u].locks <= HeldByOthers(s, t) {
    }
  }

  lemma ExecuteKeeps(db0: Store, s: Sys, t: nat, id: Id, now: int, s': Sys)
    requires SysInv(db0, s) && Next(s, Execute(t, id, now), s')
    ensures SysInv(db0, s')
  {
    hide Inv, PcOk, Statement, Active;
    InvariantAlways(db0, s.trace);
    OthersDisjoint(s, t);
    var held := HeldByOthers(s, t);
    StatementKeeps(s.db, s.trace, held, s.txns[t], id, now);
    Replaced(s, t, s'.txns[t]);
  }

  lemma Extended(db0: Store, trace: seq<Event>, ev: Event)
    requires Valid(db0, trace) && Guard(Run(db0, trace), ev)
    ensures Valid(db0, trace + [ev]) && Run(db0, trace + [ev]) == Effect(Run(db0, trace), ev)
  {
    assert (trace + [ev])[..|trace + [ev]| - 1] == trace;
  }

  /** An event whose rows no other transaction holds leaves every other transaction as sound as it was. */
  lemma OthersUndisturbed(db0: Store, s: Sys, ev: Event, t: nat)
    requires SysInv(db0, s) && Guard(s.db, ev) && t in s.txns && Touches(ev) !! s.txns[t].locks
    ensures TxnOk(Effect(s.db, ev), s.trace + [ev], s.txns[t])
  {
    hide Inv, TxnOk, Frame, Guard, Effect;
    InvariantAlways(db0, s.trace);
    EventKeeps(s.db, ev);
    EventFrames(s.db, ev, s.txns[t].locks);
    Framed(s.db, Effect(s.db, ev), s.trace, s.trace + [ev], s.txns[t]);
  }

  lemma CommittedOk(db0: Store, s: Sys, t: nat, ev: Event)
    requires SysInv(db0, s) && t in s.txns && s.txns[t].pc == Ready(ev)
    ensures Guard(s.db, ev) && Apply(s.db, s.txns[t].ws) == Effect(s.db, ev) && Touches(ev) <= s.txns[t].locks
    ensures TxnOk(Effect(s.db, ev), s.trace + [ev], Ended(s.txns[t], Finished(ev)))
  {
    assert ReadyOk(s.db, s.txns[t]);
    ApplyDelta(s.db, ev);
    ReportedOnEffect(s.db, s.txns[t].job, ev);
    assert ev in s.trace + [ev];
  }

  lemma CommitKeeps(db0: Store, s: Sys, t: nat, s': Sys)
    requires SysInv(db0, s) && Next(s, Commit(t), s')
    ensures SysInv(db0, s')
  {
    hide Inv, TxnOk, Guard, Effect, Apply, Statement, Active;
    var ev := s.txns[t].pc.ev;
    CommittedOk(db0, s, t, ev);
    Extended(db0, s.trace, ev);
    Replaced(s, t, s'.txns[t]);
    forall u <- s'.txns ensures TxnOk(s'.db, s'.trace, s'.txns[u]) {
      if u != t {
        assert s.txns[t].locks !! s.txns[u].locks;
        OthersUndisturbed(db0, s, ev, u);
      }
    }
  }

  lemma AdministerKeepsInv(db0: Store, s: Sys, ev: Event, s': Sys)
    requires SysInv(db0, s) && Next(s, Administer(ev), s')
    ensures SysInv(db0, s')
  {
    hide Inv, TxnOk, Statement, Active, Effect;
    Extended(db0, s.trace, ev);
    forall u <- s'.txns ensures TxnOk(s'.db, s'.trace, s'.txns[u]) {
      OthersUndisturbed(db0, s, ev, u);
    }
  }

  lemma AbandonedIsOk(db: Store, trace: seq<Event>, t: Txn, reason: Reason)
    requires TxnOk(db, trace, t)
    ensures TxnOk(db, trace, Fail(t, reason)) && TxnOk(db, trace, Retry(t))
    ensures Fail(t, reason).locks == {} && Retry(t).locks == {}
  {
    RetryIsOk(db, trace, t);
  }

  lemma BegunIsOk(db: Store, trace: seq<Event>, job: Job)
    ensures TxnOk(db, trace, Begun(job, 0)) && Begun(job, 0).locks == {}
  {
  }

  /** Starting, aborting and retrying touch one transaction and leave it with nothing locked. */
  lemma OneTxnKeeps(db0: Store, s: Sys, t: nat, txn: Txn, s': Sys)
    requires SysInv(db0, s) && s' == s.(txns := s.txns[t := txn]) && txn.locks == {} && TxnOk(s.db, s.trace, txn)
    ensures SysInv(db0, s')
  {
    hide Inv, TxnOk;
    Replaced(s, t, txn);
  }

  lemma NextKeeps(db0: Store, s: Sys, m: Move, s': Sys)
    requires SysInv(db0, s) && Next(s, m, s')
    ensures SysInv(db0, s')
  {
    hide Inv, Statement, Active, Guard, Effect, Apply, TxnOk, Fail, Retry, Begun;
    match m {
      case Begin(t, job) =>
        BegunIsOk(s.db, s.trace, job);
        OneTxnKeeps(db0, s, t, Begun(job, 0), s');
      case Execute(t, id, now) => ExecuteKeeps(db0, s, t, id, now, s');
      case Commit(t) => CommitKeeps(db0, s, t, s');
      case Abort(t, reason) =>
        AbandonedIsOk(s.db, s.trace, s.txns[t], reason);
        OneTxnKeeps(db0, s, t, Fail(s.txns[t], reason), s');
      case Conflict(t) =>
        AbandonedIsOk(s.db, s.trace, s.txns[t], InternalError);
        OneTxnKeeps(db0, s, t, Retry(s.txns[t]), s');
      case Administer(ev) => AdministerKeepsInv(db0, s, ev, s');
    }
  }

  /**
   Refinement. In every state of every run the database is the fold of the committed events over the initial database:
   statements, waits, failures and retries leave no trace, each commit is one atomic event, and each event was allowed
   by the database it met, whatever had been committed since its transaction read.
   */
  lemma {:induction false} Refines(db0: Store, states: seq<Sys>, moves: seq<Move>, i: nat)
    requires Behavior(db0, states, moves) && i < |states|
    ensures SysInv(db0, states[i])
  {
    hide Next, Inv, TxnOk;
    if i > 0 {
      Refines(db0, states, moves, i - 1);
      NextKeeps(db0, states[i - 1], moves[i - 1], states[i]);
    }
  }

  // ---------- what the runs inherit ----------

  /** No reachable database has a closed session with an open order that originated from it. */
  lemma ClosedShiftsStayClear(db0: Store, states: seq<Sys>, moves: seq<Move>, i: nat, o: Id)
    requires Behavior(db0, states, moves) && i < |states| && o in states[i].db.orders
    ensures var db := states[i].db;
            db.orders[o].session in db.sessions
            && (!db.sessions[db.orders[o].session].open ==> db.orders[o].status != Open)
  {
    Refines(db0, states, moves, i);
    ClosedShiftsHaveNoOpenOrders(db0, states[i].trace, o);
  }

  /** What a committed conversion leaves of the order's lines: the linked sale, and when written, row by row in order. */
  ghost predicate SoldAsSubmitted(order: HeldOrder, ev: Event, after: Store)
    requires ev.HeldConverted?
  {
    && ev.sale in after.sales && Links(order, after.sales[ev.sale])
    && (ev.written.Some? ==> Map(PersistedLine, after.sales[ev.sale].items) == RequestLines(order.items))
  }

  lemma ConversionSells(db: Store, ev: Event)
    requires ev.HeldConverted? && Guard(db, ev)
    ensures ev.id in db.orders && OriginOpen(db, db.orders[ev.id]) && db.orders[ev.id].version == ev.expected
    ensures ev.submitted == RequestLines(db.orders[ev.id].items)
    ensures SoldAsSubmitted(db.orders[ev.id], ev, Effect(db, ev))
  {
  }

  /**
   A first-time conversion commits while its origin session is open and submits the lines of the version it expected; the
   sale it writes has exactly those lines, in order.
   */
  lemma ConversionsCommitOnOpenSessions(db0: Store, states: seq<Sys>, moves: seq<Move>, i: nat, t: nat)
    requires Behavior(db0, states, moves) && i < |moves| && moves[i] == Commit(t)
    requires t in states[i].txns && states[i].txns[t].pc.Ready? && states[i].txns[t].pc.ev.HeldConverted?
    ensures var db, ev := states[i].db, states[i].txns[t].pc.ev;
            && ev.id in db.orders && OriginOpen(db, db.orders[ev.id])
            && db.orders[ev.id].version == ev.expected
            && ev.submitted == RequestLines(db.orders[ev.id].items)
            && SoldAsSubmitted(db.orders[ev.id], ev, states[i + 1].db)
  {
    hide Inv, Statement, Active, Guard, Effect, TxnOk, SoldAsSubmitted;
    Refines(db0, states, moves, i);
    var ev := states[i].txns[t].pc.ev;
    CommittedOk(db0, states[i], t, ev);
    ConversionSells(states[i].db, ev);
    assert Next(states[i], moves[i], states[i + 1]);
  }

  /**
   A job that has succeeded, on whichever of its at most three attempts, reports its own sale: a checkout's request is
   the stored sale's, and a conversion's order links to the stored sale, sold by the caller for the request's payment.
   */
  lemma SuccessReportsStoredSale(db0: Store, states: seq<Sys>, moves: seq<Move>, i: nat, t: nat)
    requires Behavior(db0, states, moves) && i < |states| && t in states[i].txns && states[i].txns[t].pc.Finished?
    requires states[i].txns[t].job.SaleJob? || states[i].txns[t].job.ConvertJob?
    ensures var txn := states[i].txns[t];
            && txn.attempt < ATTEMPTS && SaleOfEvent(txn.pc.ev).Some? && Reported(states[i].db, txn.job, txn.pc.ev)
            && HasKey(states[i].db, txn.job.actor.tenant, KeyOf(txn.job), SaleOfEvent(txn.pc.ev).value)
  {
    hide Next, Inv;
    Refines(db0, states, moves, i);
    assert TxnOk(states[i].db, states[i].trace, states[i].txns[t]);
  }

  /** Two successes for one key, of any two jobs in one run, report the same sale. */
  lemma SameKeySameSale(db0: Store, states: seq<Sys>, moves: seq<Move>, i: nat, t: nat, u: nat)
    requires Behavior(db0, states, moves) && i < |states| && t in states[i].txns && u in states[i].txns
    requires var x, y := states[i].txns[t], states[i].txns[u];
             && x.pc.Finished? && y.pc.Finished? && (x.job.SaleJob? || x.job.ConvertJob?) && (y.job.SaleJob? || y.job.ConvertJob?)
             && x.job.actor.tenant == y.job.actor.tenant && KeyOf(x.job) == KeyOf(y.job)
    ensures SaleOfEvent(states[i].txns[t].pc.ev) == SaleOfEvent(states[i].txns[u].pc.ev)
  {
    hide Next, TxnOk, Inv, HasKey, Reported;
    SuccessReportsStoredSale(db0, states, moves, i, t);
    SuccessReportsStoredSale(db0, states, moves, i, u);
    Refines(db0, states, moves, i);
    var x, y, tr := states[i].txns[t], states[i].txns[u], states[i].trace;
    assert tr[..|tr|] == tr;
    OneSalePerKey(db0, tr, |tr|, x.job.actor.tenant, KeyOf(x.job), SaleOfEvent(x.pc.ev).value, SaleOfEvent(y.pc.ev).value);
  }
}
