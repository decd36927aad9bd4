/** Resubmission: when it is answered from the store, and that nothing committed in between matters. */
module Replays {
  import opened Base
  import opened Schema
  import opened Access
  import opened SameRequest
  import opened Core
  import opened CoreFacts
  import opened HeldOrders
  import opened Ledger
  import opened History

  /** The same method and, for cash, the same amount handed over, in either field. */
  predicate SameTender(a: PaymentReq, b: PaymentReq) {
    && a.paidBy == b.paidBy
    && (a.paidBy == Cash ==>
          (if a.received.Some? then a.received else a.amount) == (if b.received.Some? then b.received else b.amount))
  }

  /** The two requests mean the same: lines and the options of a line in any order, tender in either transport field. */
  ghost predicate Repeats(a: SaleReq, b: SaleReq) {
    && a.key == b.key && a.outlet == b.outlet && a.session == b.session && a.customer == b.customer
    && a.discount == b.discount
    && SameTender(a.payment, b.payment)
    && Rearranged(a.items, b.items)
  }

  lemma MaySellReads(db: Store, actor: Actor)
    ensures MaySell(db, actor) <==>
              ReadUser(db, actor).Some? && ReadUser(db, actor).value.role != OtherRole && ReadTenant(db, actor.tenant).Some?
  {
  }

  lemma StoredKeyPlans(db: Store, actor: Actor, req: SaleReq, mode: Mode, now: int, id: Id)
    requires KeysUnique(db) && HasKey(db, actor.tenant, req.key, id)
    requires MaySell(db, actor) && InputOk(req, mode)
    ensures CorePlan(actor, req, mode, ReadAll(db, actor, req), now) ==
            if AssertSameRequest(db.sales[id], actor, req) then Replay(id) else Reject(IdempotencyPayloadMismatch)
  {
    hide InputOk, AssertSameRequest;
    MaySellReads(db, actor);
  }

  /**
   Once a sale is stored under the key, a well-formed request of an authorised caller is answered from it exactly when
   seller, outlet, session, customer, discount, tender and lines agree, and is otherwise a payload mismatch; catalog,
   stock, the state of the session and of the outlet do not enter the decision.
   */
  lemma StoredKeyDecides(db: Store, actor: Actor, req: SaleReq, mode: Mode, now: int, id: Id)
    requires KeysUnique(db) && HasKey(db, actor.tenant, req.key, id)
    requires MaySell(db, actor) && InputOk(req, mode)
    ensures var sale, plan := db.sales[id], CorePlan(actor, req, mode, ReadAll(db, actor, req), now);
            && (plan == Replay(id) || plan == Reject(IdempotencyPayloadMismatch))
            && (plan == Replay(id) <==>
                  && sale.user == actor.sub && sale.outlet == req.outlet && sale.session == req.session
                  && sale.customer == req.customer && sale.discount == req.discount
                  && |sale.payments| == 1 && PaidAs(sale.payments[0], req.payment)
                  && Rearranged(Map(PersistedLine, sale.items), req.items))
  {
    hide InputOk, PaidAs, Rearranged, AssertSameRequest;
    AssertSameRequestExact(db.sales[id], actor, req);
    StoredKeyPlans(db, actor, req, mode, now, id);
  }

  /** A stored cash sale is replayed only for what was handed over when it was sold; any other only without cash fields. */
  lemma ReplayedTender(db: Store, actor: Actor, req: SaleReq, mode: Mode, now: int, id: Id)
    requires KeysUnique(db) && HasKey(db, actor.tenant, req.key, id) && MoneyInvariant(db.sales[id])
    requires MaySell(db, actor) && InputOk(req, mode)
    requires CorePlan(actor, req, mode, ReadAll(db, actor, req), now) == Replay(id)
    ensures var p := db.sales[id].payments[0];
            && req.payment.paidBy == p.paidBy
            && (if p.paidBy == Cash
                then p.received.Some? && (if req.payment.received.Some? then req.payment.received else req.payment.amount) == p.received
                else req.payment.amount == None && req.payment.received == None)
  {
    hide Rearranged;
    StoredKeyDecides(db, actor, req, mode, now, id);
  }

  /** Of two requests under one key, the sale that answers one answers the other exactly when they repeat each other. */
  lemma SameRequestTwice(sale: Sale, actor: Actor, a: SaleReq, b: SaleReq)
    requires AssertSameRequest(sale, actor, a) && a.key == b.key
    ensures AssertSameRequest(sale, actor, b) <==> Repeats(a, b)
  {
    hide CanonicalLines, LineBag, Rearranged, PersistedLine;
    SameRequestBags(sale, actor, a);
    SameRequestBags(sale, actor, b);
    LineBagExact(a.items, b.items);
  }

  // ---------- what a success leaves behind ----------

  /** The request is well formed and the sale stored under its key is its own. */
  ghost predicate Stored(db: Store, actor: Actor, req: SaleReq, mode: Mode, id: Id) {
    && InputOk(req, mode)
    && HasKey(db, actor.tenant, req.key, id) && AssertSameRequest(db.sales[id], actor, req)
  }

  /** The sale was sold by this caller for this payment. */
  ghost predicate SoldTo(sale: Sale, actor: Actor, payment: PaymentReq) {
    sale.user == actor.sub && |sale.payments| == 1 && SamePayment(sale.payments[0], payment)
  }

  /** The order is converted and links to the sale under the request's key, which the caller sold for its payment. */
  ghost predicate Redeemed(db: Store, actor: Actor, order: Id, req: ConvertReq, id: Id) {
    && ConvertInputOk(req)
    && order in db.orders && db.orders[order].status == Converted && db.orders[order].sale == Some(id)
    && HasKey(db, actor.tenant, req.key, id) && SoldTo(db.sales[id], actor, req.payment)
  }

  lemma StoredStays(a: Store, b: Store, actor: Actor, req: SaleReq, mode: Mode, id: Id)
    requires SalesGrow(a, b) && Stored(a, actor, req, mode, id)
    ensures Stored(b, actor, req, mode, id)
  {
  }

  lemma RedeemedStays(a: Store, b: Store, actor: Actor, order: Id, req: ConvertReq, id: Id)
    requires SalesGrow(a, b) && OrderMoves(a, b, order) && Redeemed(a, actor, order, req, id)
    ensures Redeemed(b, actor, order, req, id)
  {
  }

  /** A stored sale answers exactly the repetitions of its request; anything else under its key is a mismatch. */
  lemma StoredAnswers(db: Store, actor: Actor, req: SaleReq, mode: Mode, id: Id, again: SaleReq, againMode: Mode, now: int)
    requires KeysUnique(db) && Stored(db, actor, req, mode, id)
    requires again.key == req.key && InputOk(again, againMode) && MaySell(db, actor)
    ensures CorePlan(actor, again, againMode, ReadAll(db, actor, again), now) ==
            if Repeats(req, again) then Replay(id) else Reject(IdempotencyPayloadMismatch)
  {
    hide CorePlan, ReadAll, AssertSameRequest, Repeats, InputOk;
    SameRequestTwice(db.sales[id], actor, req, again);
    StoredKeyPlans(db, actor, again, againMode, now, id);
  }

  lemma WrittenIsStored(db: Store, id: Id, actor: Actor, req: SaleReq, mode: Mode, rd: Reads, before: int, w: Written)
    requires ReadsOk(rd) && CorePlan(actor, req, mode, rd, before) == Write(w.sale, w.tracked)
    requires id in db.sales && db.sales[id] == w.sale
    ensures Stored(db, actor, req, mode, id)
  {
    WrittenSaleAnswersItsRequest(actor, req, mode, rd, before, w.sale, w.tracked);
    var p := WriteCameFrom(actor, req, mode, rd, before, w.sale, w.tracked);
  }

  lemma WrittenSaleIsThere(db0: Store, tr: seq<Event>, i: nat)
    requires Valid(db0, tr) && i < |tr| && tr[i].SaleWritten?
    ensures var db := At(db0, tr, i + 1); tr[i].id in db.sales && db.sales[tr[i].id] == tr[i].w.sale
  {
    Step(db0, tr, i);
  }

  /** What is stored stays stored, and answers exactly the repetitions of its request, at any later state of any history. */
  lemma StoredAnswersLater(db0: Store, tr: seq<Event>, i: nat, j: nat, actor: Actor, req: SaleReq, mode: Mode, id: Id,
                           again: SaleReq, againMode: Mode, now: int)
    requires Inv(db0) && Valid(db0, tr) && i <= j <= |tr| && Stored(At(db0, tr, i), actor, req, mode, id)
    requires again.key == req.key && InputOk(again, againMode) && MaySell(At(db0, tr, j), actor)
    ensures Stored(At(db0, tr, j), actor, req, mode, id)
    ensures CorePlan(actor, again, againMode, ReadAll(At(db0, tr, j), actor, again), now) ==
            if Repeats(req, again) then Replay(id) else Reject(IdempotencyPayloadMismatch)
  {
    hide CorePlan, ReadAll, Repeats, InputOk, MaySell, Guard, Effect;
    SalesAreKept(db0, tr, i, j);
    StoredStays(At(db0, tr, i), At(db0, tr, j), actor, req, mode, id);
    InvariantAt(db0, tr, j);
    StoredAnswers(At(db0, tr, j), actor, req, mode, id, again, againMode, now);
  }

  /**
   A committed sale answers exactly the later repetitions of its request, by whatever path the history went on: event i
   wrote the sale that this request priced, and at any later state j another well-formed request of the same caller under
   the same key is a replay of the same id when it repeats the first, and a payload mismatch when it does not.
   */
  lemma RepetitionReplays(db0: Store, tr: seq<Event>, i: nat, j: nat, id: Id, actor: Actor,
                          req: SaleReq, mode: Mode, rd: Reads, before: int, again: SaleReq, againMode: Mode, now: int)
    requires Inv(db0) && Valid(db0, tr) && i < j <= |tr|
    requires tr[i].SaleWritten? && tr[i].id == id && ReadsOk(rd)
    requires CorePlan(actor, req, mode, rd, before) == Write(tr[i].w.sale, tr[i].w.tracked)
    requires again.key == req.key && InputOk(again, againMode) && MaySell(At(db0, tr, j), actor)
    ensures CorePlan(actor, again, againMode, ReadAll(At(db0, tr, j), actor, again), now) ==
            if Repeats(req, again) then Replay(id) else Reject(IdempotencyPayloadMismatch)
  {
    hide Guard, Effect, Inv, Stored, MaySell, At, CorePlan, Repeats;
    WrittenSaleIsThere(db0, tr, i);
    WrittenIsStored(At(db0, tr, i + 1), id, actor, req, mode, rd, before, tr[i].w);
    StoredAnswersLater(db0, tr, i + 1, j, actor, req, mode, id, again, againMode, now);
  }

  lemma StoredLinesAreInput(sale: Sale)
    requires MoneyInvariant(sale)
    ensures forall i :: 0 <= i < |sale.items| ==> LineInputOk(Map(PersistedLine, sale.items)[i], V1)
  {
    forall i | 0 <= i < |sale.items| ensures LineInputOk(Map(PersistedLine, sale.items)[i], V1) {
      assert ItemOk(sale.items[i]);
    }
  }

  /** The request rebuilt from the linked sale is that sale's own request, up to caller and payment. */
  lemma RebuiltRequest(db: Store, actor: Actor, order: HeldOrder, id: Id, req: ConvertReq, now: int)
    requires Inv(db) && HasKey(db, actor.tenant, req.key, id) && Links(order, db.sales[id])
    requires MaySell(db, actor) && ConvertInputOk(req)
    ensures var again := ReplayRequest(order, db.sales[id], req);
            CorePlan(actor, again, V1, ReadAll(db, actor, again), now) ==
            if actor.sub == order.cashier && SamePayment(db.sales[id].payments[0], req.payment) then Replay(id)
            else Reject(IdempotencyPayloadMismatch)
  {
    hide CorePlan, ReadAll, CanonicalLines, LineBag, MaySell;
    var sale := db.sales[id];
    assert MoneyInvariant(sale);
    StoredLinesAreInput(sale);
    var again := ReplayRequest(order, sale, req);
    assert InputOk(again, V1);
    SameRequestBags(sale, actor, again);
    StoredKeyPlans(db, actor, again, V1, now, id);
  }

  lemma ScopeReads(db: Store, actor: Actor, id: Id)
    ensures var user := ReadPrincipal(db, actor);
            InScope(db, actor, id) <==>
            ScopeProblem(user, ReadScopeOutlet(db, actor, user)).None? && ReadOrder(db, actor, user, id).Some?
    ensures InScope(db, actor, id) ==> id in db.orders && ReadOrder(db, actor, ReadPrincipal(db, actor), id) == Some(db.orders[id])
  {
    if Cashes(db, actor) && db.users[actor.sub].outlet.Some? {
      assert AssignedTo(db, actor, db.users[actor.sub].outlet.value);
    }
  }

  /** The stored payment is the one the checkout of a converted order brings: its method, and for cash what was handed over. */
  predicate Settles(p: Payment, req: PaymentReq) {
    req.paidBy == p.paidBy && (p.paidBy == Cash ==> (if req.received.Some? then req.received else req.amount) == p.received)
  }

  lemma ScopeSells(db: Store, actor: Actor, id: Id)
    requires InScope(db, actor, id)
    ensures MaySell(db, actor)
  {
  }

  /**
   Checking out an order that is already converted replays the linked sale, whatever version the caller expects, exactly
   when the key is the linked sale's, the caller is the order's cashier and the payment is the same.
   */
  lemma ConvertedReplaysExactly(db: Store, actor: Actor, id: Id, req: ConvertReq, now: int)
    requires Inv(db) && id in db.orders && db.orders[id].status == Converted
    requires InScope(db, actor, id) && ConvertInputOk(req)
    ensures var order, plan := db.orders[id], ConvertPlan(db, actor, id, req, now);
            && order.sale.Some? && order.sale.value in db.sales && |db.sales[order.sale.value].payments| == 1
            && (plan == Again(order.sale.value) <==>
                  && db.sales[order.sale.value].tenant == actor.tenant && db.sales[order.sale.value].key == req.key
                  && actor.sub == order.cashier
                  && Settles(db.sales[order.sale.value].payments[0], req.payment))
            && (plan.Again? || plan.Refuse?)
  {
    hide CorePlan, ReadAll, InScope, MaySell, CatalogOk;
    ScopeReads(db, actor, id);
    var order := db.orders[id];
    assert OrderOk(db, order);
    assert MoneyInvariant(db.sales[order.sale.value]);
    if HasKey(db, actor.tenant, req.key, order.sale.value) {
      assert FindSale(db, actor.tenant, req.key) == Some(order.sale.value);
      ScopeSells(db, actor, id);
      RebuiltRequest(db, actor, order, order.sale.value, req, now);
    }
  }

  lemma LinkedSaleIsTheCashiers(db: Store, id: Id)
    requires Inv(db) && id in db.orders && db.orders[id].status == Converted
    ensures db.orders[id].sale.Some? && db.orders[id].sale.value in db.sales
    ensures db.sales[db.orders[id].sale.value].user == db.orders[id].cashier
  {
    assert OrderOk(db, db.orders[id]);
  }

  /**
   A redeemed order answers exactly the repetitions of its checkout: the same key and tender by the same caller, whatever
   version the repetition expects.
   */
  lemma RedeemedAnswers(db: Store, actor: Actor, order: Id, req: ConvertReq, id: Id, caller: Actor, again: ConvertReq, now: int)
    requires Inv(db) && Redeemed(db, actor, order, req, id)
    requires caller.tenant == actor.tenant && ConvertInputOk(again) && InScope(db, caller, order)
    ensures ConvertPlan(db, caller, order, again, now) == Again(id) <==>
            again.key == req.key && SameTender(req.payment, again.payment) && caller.sub == actor.sub
  {
    hide ConvertPlan, InScope;
    LinkedSaleIsTheCashiers(db, order);
    assert MoneyInvariant(db.sales[id]);
    ConvertedReplaysExactly(db, caller, order, again, now);
  }

  /** An order's row moves only along its own versions, and a converted one not at all. */
  lemma ConvertedStays(db0: Store, tr: seq<Event>, i: nat, j: nat, id: Id)
    requires Valid(db0, tr) && i <= j <= |tr| && id in At(db0, tr, i).orders && At(db0, tr, i).orders[id].status == Converted
    ensures id in At(db0, tr, j).orders && At(db0, tr, j).orders[id] == At(db0, tr, i).orders[id]
  {
    VersionDeterminesRow(db0, tr, i, j, id);
  }

  /** What is redeemed stays redeemed, and answers exactly its repetitions, at any later state of any history. */
  lemma RedeemedAnswersLater(db0: Store, tr: seq<Event>, i: nat, j: nat, actor: Actor, order: Id, req: ConvertReq, id: Id,
                             caller: Actor, again: ConvertReq, now: int)
    requires Inv(db0) && Valid(db0, tr) && i <= j <= |tr| && Redeemed(At(db0, tr, i), actor, order, req, id)
    requires caller.tenant == actor.tenant && ConvertInputOk(again) && InScope(At(db0, tr, j), caller, order)
    ensures Redeemed(At(db0, tr, j), actor, order, req, id)
    ensures ConvertPlan(At(db0, tr, j), caller, order, again, now) == Again(id) <==>
            again.key == req.key && SameTender(req.payment, again.payment) && caller.sub == actor.sub
  {
    hide ConvertPlan, InScope, Guard, Effect, SameTender;
    SalesAreKept(db0, tr, i, j);
    ConvertedStays(db0, tr, i, j, order);
    RedeemedStays(At(db0, tr, i), At(db0, tr, j), actor, order, req, id);
    InvariantAt(db0, tr, j);
    RedeemedAnswers(At(db0, tr, j), actor, order, req, id, caller, again, now);
  }
}
