/**
 Opening and closing shifts and adjusting stock from the arguments and the rows alone: when each succeeds, exactly what it
 then changes, and why it is refused.
 */
module Shiftwork {
  import opened Base
  import opened Schema
  import opened Access
  import opened CoreFacts
  import opened Ledger
  import opened Shifts
  import opened Transactions
  import opened Frames
  import opened Solo

  // ---------- opening ----------

  ghost predicate HasOpenSession(db: Store, actor: Actor) {
    exists s <- db.sessions :: db.sessions[s].open && db.sessions[s].tenant == actor.tenant && db.sessions[s].user == actor.sub
  }

  ghost predicate OpenRefused(db: Store, actor: Actor, outlet: Id, e: Reason) {
    if !Member(db, actor) then e == Unauthorized
    else if !MaySell(db, actor) then e == RoleForbidden
    else if !WorksAt(db, actor, outlet) then e == OutletAccessDenied
    else if !OpenOutlet(db, actor.tenant, outlet) then e == OutletNotFound
    else e == ShiftAlreadyOpen && HasOpenSession(db, actor)
  }

  /** Opening a shift, exactly: the caller may sell, works at the open outlet and has no open session; it gets one there. */
  lemma OpenExact(db: Store, actor: Actor, outlet: Id, id: Id)
    requires Unused(db, id)
    ensures var r := OpenAnswer(db, actor, outlet, id);
            && (r.Ok? <==>
                  && MaySell(db, actor) && WorksAt(db, actor, outlet) && OpenOutlet(db, actor.tenant, outlet)
                  && !HasOpenSession(db, actor))
            && (r.Ok? ==>
                  && r.value.ShiftOpened? && Guard(db, r.value)
                  && Effect(db, r.value) == db.(sessions := db.sessions[id := Session(actor.tenant, outlet, actor.sub, true, None)]))
            && (r.Err? ==> OpenRefused(db, actor, outlet, r.error))
  {
  }

  // ---------- closing ----------

  predicate IsShift(db: Store, tenant: Id, session: Id) {
    session in db.sessions && db.sessions[session].tenant == tenant
  }

  ghost predicate Blocked(db: Store, tenant: Id, session: Id) {
    exists o <- db.orders :: db.orders[o].tenant == tenant && db.orders[o].session == session && db.orders[o].status == Open
  }

  /** The takings of the session are an amount the summary can carry. */
  ghost predicate TakingsFit(db: Store, tenant: Id, session: Id) {
    exists ids :: IsResult(db, tenant, session, ids) && TotalOf(Rows(db, ids)) <= 9007199254740991
  }

  ghost predicate CloseRefused(db: Store, actor: Actor, session: Id, e: Reason) {
    if !Member(db, actor) then e == Unauthorized
    else if !MaySell(db, actor) then e == RoleForbidden
    else if !IsShift(db, actor.tenant, session) then e == ShiftNotFound
    else if Cashes(db, actor) && db.sessions[session].user != actor.sub then e == ShiftAccessDenied
    else if !db.sessions[session].open then e == ShiftAlreadyClosed
    else if Blocked(db, actor.tenant, session) then e == OpenHeldOrdersExist
    else e == InternalError && !TakingsFit(db, actor.tenant, session)
  }

  lemma {:induction false} PaidIsPart(sales: seq<Sale>, m: Method)
    requires forall s <- sales :: MoneyInvariant(s)
    ensures 0 <= PaidBy(sales, m) <= TotalOf(sales)
  {
    hide ItemOk, ItemsSubtotal;
    if sales != [] {
      var n := |sales| - 1;
      PaidIsPart(sales[..n], m);
      assert MoneyInvariant(sales[n]);
    }
  }

  /** Every reported amount is a part of the takings, so the takings decide. */
  lemma ReportableIsTakings(db: Store, tenant: Id, session: Id, ids: seq<Id>)
    requires Inv(db) && IsResult(db, tenant, session, ids)
    ensures Reportable(SummaryOf(Rows(db, ids), Names(db))) <==> TotalOf(Rows(db, ids)) <= 9007199254740991
  {
    hide Inv, MoneyInvariant, ProductLines;
    SessionSalesAreSound(db, tenant, session, ids);
    ReceivedIsPaid(Rows(db, ids), Cash);
    ReceivedIsPaid(Rows(db, ids), Qris);
    ReceivedIsPaid(Rows(db, ids), Edc);
    PaidIsPart(Rows(db, ids), Cash);
    PaidIsPart(Rows(db, ids), Qris);
    PaidIsPart(Rows(db, ids), Edc);
  }

  lemma TakingsExact(db: Store, tenant: Id, session: Id)
    requires Inv(db)
    ensures SummaryFits(db, tenant, session) <==> TakingsFit(db, tenant, session)
  {
    hide Inv, Reportable, SummaryOf;
    forall ids | IsResult(db, tenant, session, ids)
      ensures Reportable(SummaryOf(Rows(db, ids), Names(db))) <==> TotalOf(Rows(db, ids)) <= 9007199254740991
    {
      ReportableIsTakings(db, tenant, session, ids);
    }
  }

  lemma BlockedExact(db: Store, tenant: Id, session: Id)
    ensures (exists o :: IsOpenOrderOf(db, tenant, session, o)) <==> Blocked(db, tenant, session)
  {
    if Blocked(db, tenant, session) {
      var o :| o in db.orders && db.orders[o].tenant == tenant && db.orders[o].session == session && db.orders[o].status == Open;
      assert IsOpenOrderOf(db, tenant, session, o);
    }
  }

  /**
   Closing a shift, exactly: it is a shift of the caller's tenant, open, the caller's own if a cashier, without open orders
   of its own, and its takings can be reported; it is then closed and stamped, and nothing else changes.
   */
  lemma CloseExact(db: Store, actor: Actor, session: Id, now: int)
    requires Inv(db)
    ensures var r := CloseAnswer(db, actor, session, now);
            && (r.Ok? <==>
                  && MaySell(db, actor) && IsShift(db, actor.tenant, session) && db.sessions[session].open
                  && (Cashes(db, actor) ==> db.sessions[session].user == actor.sub)
                  && !Blocked(db, actor.tenant, session) && TakingsFit(db, actor.tenant, session))
            && (r.Ok? ==>
                  && r == Ok(ShiftClosed(session, now)) && Guard(db, r.value)
                  && Effect(db, r.value) ==
                     db.(sessions := db.sessions[session := db.sessions[session].(open := false, closedAt := Some(now))]))
            && (r.Err? ==> CloseRefused(db, actor, session, r.error))
  {
    hide Inv, SummaryFits, TakingsFit;
    TakingsExact(db, actor.tenant, session);
    BlockedExact(db, actor.tenant, session);
    CloseAllowed(db, actor, session, now);
  }

  // ---------- stock adjustments ----------

  predicate OutletOf(db: Store, tenant: Id, outlet: Id) {
    outlet in db.outlets && db.outlets[outlet].tenant == tenant
  }

  predicate ProductOf(db: Store, tenant: Id, product: Id) {
    product in db.catalog.products && db.catalog.products[product].tenant == tenant
  }

  predicate UserOf(db: Store, tenant: Id, user: Id) {
    user in db.users && db.users[user].tenant == tenant
  }

  /** The balance, zero where there is none. */
  function Balance(db: Store, at: StockKey): int {
    if at in db.stock then db.stock[at] else 0
  }

  /** Deducting needs a balance that covers it. */
  predicate Covers(db: Store, at: StockKey, add: bool, quantity: int) {
    !add ==> at in db.stock && db.stock[at] >= quantity
  }

  function Signed(add: bool, quantity: int): int {
    if add then quantity else -quantity
  }

  predicate Tracks(db: Store, product: Id) {
    product in db.catalog.products && db.catalog.products[product].trackStock
  }

  ghost predicate AdjustRefused(db: Store, actor: Actor, at: StockKey, add: bool, quantity: int, e: Reason) {
    if quantity < 1 then e == InvalidInput
    else if !OutletOf(db, actor.tenant, at.outlet) then e == OutletNotFound
    else if !ProductOf(db, actor.tenant, at.product) then e == ProductNotFound
    else if !Tracks(db, at.product) then e == StockTrackingDisabled
    else if !UserOf(db, actor.tenant, actor.sub) then e == UserNotFound
    else if !Covers(db, at, add, quantity) then e == InsufficientStock
    else e == InternalError && Balance(db, at) + Signed(add, quantity) > 2147483647
  }

  /**
   Adjusting stock, exactly: outlet, product and user are the tenant's, the product is tracked, a deduction is covered and
   the balance stays an int4; balance, adjustment row and signed movement are then written together, and nothing else.
   */
  lemma AdjustExact(db: Store, actor: Actor, at: StockKey, add: bool, quantity: int, id: Id)
    requires Unused(db, id)
    ensures var r := AdjustAnswer(db, actor, at, add, quantity, id);
            && (r.Ok? <==>
                  && quantity >= 1 && OutletOf(db, actor.tenant, at.outlet) && ProductOf(db, actor.tenant, at.product)
                  && Tracks(db, at.product) && UserOf(db, actor.tenant, actor.sub) && Covers(db, at, add, quantity)
                  && Balance(db, at) + Signed(add, quantity) <= 2147483647)
            && (r.Ok? ==>
                  && r.value.StockAdjusted? && Guard(db, r.value)
                  && Effect(db, r.value) == db.(
                       stock := db.stock[at := Balance(db, at) + Signed(add, quantity)],
                       adjustments := db.adjustments[id := Adjustment(actor.tenant, at, actor.sub, add, quantity)],
                       movements := db.movements + [Movement(actor.tenant, at, actor.sub, AdjustmentMovement, Signed(add, quantity), id)]))
            && (r.Err? ==> AdjustRefused(db, actor, at, add, quantity, r.error))
  {
  }
}
