/**
 The committed history as a sequence of atomic events. Every event has a guard, what must hold of the database at the
 moment of the commit, and an effect. The interleaved machine of module Transactions is proved to produce only such
 histories, so everything shown here about histories holds of every interleaving.
 */
module Ledger {
  import opened Base
  import opened Schema
  import opened SameRequest
  import opened Core
  import opened CoreFacts
  import opened HeldOrders
  import opened HeldOrderFacts

  datatype Written = Written(sale: Sale, tracked: set<Id>)

  datatype Event =
    | SaleWritten(id: Id, w: Written)
    | SaleReplayed(tenant: Id, key: Id, id: Id)
    | HeldCreated(id: Id, order: HeldOrder)
    | HeldUpdated(id: Id, expected: nat, order: HeldOrder)
    | HeldCancelled(id: Id, expected: nat, at: int)
    | HeldConverted(id: Id, expected: nat, key: Id, sale: Id, written: Option<Written>, submitted: seq<LineReq>, at: int)
    | HeldReplayed(id: Id, tenant: Id, key: Id, sale: Id)
    | ShiftOpened(id: Id, session: Session)
    | ShiftClosed(id: Id, at: int)
    | StockAdjusted(id: Id, adjustment: Adjustment)
    | Administered(tenants: map<Id, Tenant>, users: map<Id, User>, outlets: map<Id, Outlet>, customers: map<Id, Id>, catalog: Catalog)

  // ---------- stock ----------

  function StockAt(stock: map<StockKey, int>, k: StockKey): int {
    if k in stock then stock[k] else 0
  }

  ghost predicate StockCovers(stock: map<StockKey, int>, outlet: Id, decs: seq<Dec>) {
    forall i :: 0 <= i < |decs| ==>
      StockKey(outlet, decs[i].product) in stock && stock[StockKey(outlet, decs[i].product)] >= decs[i].quantity
  }

  /** All decrements of a sale at once. */
  function TakeStock(stock: map<StockKey, int>, outlet: Id, decs: seq<Dec>): map<StockKey, int> {
    map k | k in stock :: stock[k] - (if k.outlet == outlet then Taken(decs, k.product) else 0)
  }

  function SaleMovements(id: Id, sale: Sale, decs: seq<Dec>): (ms: seq<Movement>)
    ensures |ms| == |decs|
    ensures forall i :: 0 <= i < |decs| ==>
      ms[i] == Movement(sale.tenant, StockKey(sale.outlet, decs[i].product), sale.user, SaleMovement, -decs[i].quantity, id)
  {
    seq(|decs|, i requires 0 <= i < |decs| =>
      Movement(sale.tenant, StockKey(sale.outlet, decs[i].product), sale.user, SaleMovement, -decs[i].quantity, id))
  }

  function SignedQuantity(a: Adjustment): int {
    if a.add then a.quantity else -a.quantity
  }

  function AdjustmentMovementOf(id: Id, a: Adjustment): Movement {
    Movement(a.tenant, a.at, a.user, AdjustmentMovement, SignedQuantity(a), id)
  }

  ghost function MovementSum(ms: seq<Movement>, k: StockKey): int {
    if ms == [] then 0
    else MovementSum(ms[..|ms| - 1], k) + (if ms[|ms| - 1].at == k then ms[|ms| - 1].quantity else 0)
  }

  function DecsOf(w: Written): seq<Dec> {
    Decrements(w.sale.items, w.tracked)
  }

  // ---------- guards and effects ----------

  /** A sale's session is its seller's, at its outlet; sessions are never deleted and only their status changes. */
  ghost predicate SaleFits(db: Store, s: Sale) {
    s.session.Some? ==>
      && s.session.value in db.sessions
      && db.sessions[s.session.value].tenant == s.tenant
      && db.sessions[s.session.value].outlet == s.outlet
      && db.sessions[s.session.value].user == s.user
  }

  ghost predicate CanWrite(db: Store, id: Id, w: Written) {
    && id !in db.sales
    && (forall x :: !HasKey(db, w.sale.tenant, w.sale.key, x))
    && MoneyInvariant(w.sale) && SaleFits(db, w.sale)
    && StockCovers(db.stock, w.sale.outlet, DecsOf(w))
  }

  function WriteSale(db: Store, id: Id, w: Written): Store {
    db.(sales := db.sales[id := w.sale],
        stock := TakeStock(db.stock, w.sale.outlet, DecsOf(w)),
        movements := db.movements + SaleMovements(id, w.sale, DecsOf(w)))
  }

  /** The sale a converted order points to is that order's sale. */
  ghost predicate Links(order: HeldOrder, sale: Sale) {
    && sale.tenant == order.tenant && sale.outlet == order.outlet
    && sale.session == Some(order.session) && sale.user == order.cashier
    && sale.customer == None && sale.discount == 0
    && sale.status == Completed
    && LineBag(Map(PersistedLine, sale.items)) == LineBag(RequestLines(order.items))
  }

  ghost predicate SessionFits(db: Store, o: HeldOrder) {
    && o.session in db.sessions
    && db.sessions[o.session].tenant == o.tenant
    && db.sessions[o.session].outlet == o.outlet
    && db.sessions[o.session].user == o.cashier
  }

  ghost predicate OriginOpen(db: Store, o: HeldOrder) {
    o.session in db.sessions && db.sessions[o.session].open
  }

  ghost predicate OpenAt(db: Store, id: Id, expected: nat) {
    id in db.orders && db.orders[id].status == Open && db.orders[id].version == expected
  }

  ghost predicate SameOwner(a: HeldOrder, b: HeldOrder) {
    a.tenant == b.tenant && a.outlet == b.outlet && a.session == b.session && a.cashier == b.cashier
  }

  ghost predicate NoOpenOrders(db: Store, session: Id) {
    forall o <- db.orders :: db.orders[o].session == session ==> db.orders[o].status != Open
  }

  ghost predicate NoOpenSession(db: Store, tenant: Id, user: Id) {
    forall s <- db.sessions :: db.sessions[s].tenant == tenant && db.sessions[s].user == user ==> !db.sessions[s].open
  }

  ghost predicate TaxRatesOk(tenants: map<Id, Tenant>) {
    forall t <- tenants :: tenants[t].taxRate <= 10000
  }

  ghost predicate CanConvert(db: Store, id: Id, expected: nat, key: Id, sale: Id, written: Option<Written>, submitted: seq<LineReq>) {
    && OpenAt(db, id, expected)
    && OriginOpen(db, db.orders[id])
    && submitted == RequestLines(db.orders[id].items)
    && match written
       case Some(w) =>
         && CanWrite(db, sale, w) && Links(db.orders[id], w.sale) && w.sale.key == key
         && Map(PersistedLine, w.sale.items) == submitted
       case None => HasKey(db, db.orders[id].tenant, key, sale) && Links(db.orders[id], db.sales[sale])
  }

  ghost predicate Guard(db: Store, ev: Event) {
    match ev
    case SaleWritten(id, w) => CanWrite(db, id, w)
    case SaleReplayed(tenant, key, id) => HasKey(db, tenant, key, id)
    case HeldCreated(id, order) =>
      && id !in db.orders && order.status == Open && order.version == 1 && order.sale == None
      && SessionFits(db, order) && OriginOpen(db, order) && HeaderOk(order)
    case HeldUpdated(id, expected, order) =>
      && OpenAt(db, id, expected)
      && order.status == Open && order.version == expected + 1 && order.sale == None
      && SameOwner(order, db.orders[id])
      && (HeaderOk(db.orders[id]) ==> HeaderOk(order))
    case HeldCancelled(id, expected, at) => OpenAt(db, id, expected)
    case HeldConverted(id, expected, key, sale, written, submitted, at) =>
      CanConvert(db, id, expected, key, sale, written, submitted)
    case HeldReplayed(id, tenant, key, sale) =>
      && id in db.orders && db.orders[id].tenant == tenant && db.orders[id].status == Converted
      && db.orders[id].sale == Some(sale) && HasKey(db, tenant, key, sale)
    case ShiftOpened(id, session) =>
      id !in db.sessions && session.open && session.closedAt.None? && NoOpenSession(db, session.tenant, session.user)
    case ShiftClosed(id, at) => id in db.sessions && db.sessions[id].open && NoOpenOrders(db, id)
    case StockAdjusted(id, a) =>
      && id !in db.adjustments && a.quantity >= 1
      && (!a.add ==> a.at in db.stock && db.stock[a.at] >= a.quantity)
    case Administered(tenants, users, outlets, customers, catalog) => CatalogOk(catalog) && TaxRatesOk(tenants)
  }

  function ConvertOrder(db: Store, id: Id, sale: Id, at: int): Store
    requires id in db.orders
  {
    db.(orders := db.orders[id := ConvertedOrder(db.orders[id], sale, at)])
  }

  function CloseSession(db: Store, id: Id, at: int): Store
    requires id in db.sessions
  {
    db.(sessions := db.sessions[id := db.sessions[id].(open := false, closedAt := Some(at))])
  }

  function AdjustStock(db: Store, id: Id, a: Adjustment): Store {
    db.(stock := db.stock[a.at := StockAt(db.stock, a.at) + SignedQuantity(a)],
        adjustments := db.adjustments[id := a],
        movements := db.movements + [AdjustmentMovementOf(id, a)])
  }

  ghost function Effect(db: Store, ev: Event): Store
    requires Guard(db, ev)
  {
    match ev
    case SaleWritten(id, w) => WriteSale(db, id, w)
    case SaleReplayed(tenant, key, id) => db
    case HeldCreated(id, order) => db.(orders := db.orders[id := order])
    case HeldUpdated(id, expected, order) => db.(orders := db.orders[id := order])
    case HeldCancelled(id, expected, at) => db.(orders := db.orders[id := CancelledOrder(db.orders[id], at)])
    case HeldConverted(id, expected, key, sale, written, submitted, at) =>
      ConvertOrder(if written.Some? then WriteSale(db, sale, written.value) else db, id, sale, at)
    case HeldReplayed(id, tenant, key, sale) => db
    case ShiftOpened(id, session) => db.(sessions := db.sessions[id := session])
    case ShiftClosed(id, at) => CloseSession(db, id, at)
    case StockAdjusted(id, a) => AdjustStock(db, id, a)
    case Administered(tenants, users, outlets, customers, catalog) =>
      db.(tenants := tenants, users := users, outlets := outlets, customers := customers, catalog := catalog)
  }

  // ---------- the invariant ----------

  ghost predicate OrderOk(db: Store, o: HeldOrder) {
    && HeaderOk(o) && o.version >= 1
    && SessionFits(db, o)
    && (o.status == Open ==> OriginOpen(db, o))
    && (o.status == Converted <==> o.sale.Some?)
    && (o.status == Converted ==> o.sale.value in db.sales && Links(o, db.sales[o.sale.value]))
  }

  ghost predicate KeysUnique(db: Store) {
    forall a, b, tenant, key :: HasKey(db, tenant, key, a) && HasKey(db, tenant, key, b) ==> a == b
  }

  ghost predicate OpenFor(db: Store, tenant: Id, user: Id, s: Id) {
    s in db.sessions && db.sessions[s].open && db.sessions[s].tenant == tenant && db.sessions[s].user == user
  }

  /** The partial unique index on open sessions. */
  ghost predicate OneOpenShift(db: Store) {
    forall a, b, tenant, user :: OpenFor(db, tenant, user, a) && OpenFor(db, tenant, user, b) ==> a == b
  }

  /** An open session has no closing time. */
  ghost predicate OnlyClosedAreStamped(db: Store) {
    forall s <- db.sessions :: db.sessions[s].open ==> db.sessions[s].closedAt.None?
  }

  ghost predicate MovementsRefer(db: Store) {
    forall i :: 0 <= i < |db.movements| && db.movements[i].kind == SaleMovement ==> db.movements[i].reference in db.sales
  }

  ghost predicate Inv(db: Store) {
    && CatalogOk(db.catalog) && TaxRatesOk(db.tenants)
    && (forall s <- db.sales :: MoneyInvariant(db.sales[s]) && SaleFits(db, db.sales[s]))
    && KeysUnique(db)
    && OneOpenShift(db) && OnlyClosedAreStamped(db)
    && MovementsRefer(db)
    && (forall k <- db.stock :: db.stock[k] >= 0)
    && (forall o <- db.orders :: OrderOk(db, db.orders[o]))
  }
}
