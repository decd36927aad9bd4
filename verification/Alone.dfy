/**
 The interleaved machine and the calls agree: a transaction of the machine that nobody disturbs answers exactly what the
 call of module Database answers, by the same event or the same rejection.
 */
module Alone {
  import opened Base
  import opened Schema
  import opened Core
  import opened HeldOrders
  import opened Ledger
  import opened Transactions
  import opened Solo

  /** The next statement of a transaction while the database stands still and nothing else is locked. */
  ghost function Turn(db: Store, t: Txn, id: Id, now: int): Txn {
    if Active(t) then
      match Statement(db, {}, t, id, now)
      case Goes(after) => after
      case Waits => t
    else t
  }

  ghost function Turns(db: Store, id: Id, now: int): Txn -> Txn {
    t => Turn(db, t, id, now)
  }

  ghost function Iterate(f: Txn -> Txn, t: Txn, n: nat): Txn {
    if n == 0 then t else f(Iterate(f, t, n - 1))
  }

  lemma {:induction false} Chain(f: Txn -> Txn, t: Txn, m: nat, n: nat)
    ensures Iterate(f, t, m + n) == Iterate(f, Iterate(f, t, m), n)
  {
    if n > 0 {
      Chain(f, t, m, n - 1);
    }
  }

  function AnswerPc(a: Answer): Pc {
    match a
    case Ok(ev) => Ready(ev)
    case Err(e) => Failed(e)
  }

  /** After some number of statements the transaction is ready to commit the event, or has failed for the reason. */
  ghost predicate Answers(db: Store, job: Job, id: Id, now: int, a: Answer) {
    exists n :: Iterate(Turns(db, id, now), Begun(job, 0), n).pc == AnswerPc(a)
  }

  /** From t the transaction reaches u. */
  ghost predicate Reaches(db: Store, t: Txn, u: Txn, id: Id, now: int) {
    exists n :: Iterate(Turns(db, id, now), t, n) == u
  }

  lemma Then(db: Store, t: Txn, u: Txn, v: Txn, id: Id, now: int)
    requires Reaches(db, t, u, id, now) && Reaches(db, u, v, id, now)
    ensures Reaches(db, t, v, id, now)
  {
    var m :| Iterate(Turns(db, id, now), t, m) == u;
    var n :| Iterate(Turns(db, id, now), u, n) == v;
    Chain(Turns(db, id, now), t, m, n);
  }

  lemma Stays(db: Store, t: Txn, id: Id, now: int)
    ensures Reaches(db, t, t, id, now)
  {
    assert Iterate(Turns(db, id, now), t, 0) == t;
  }

  lemma OneStep(db: Store, t: Txn, u: Txn, id: Id, now: int)
    requires Active(t) && Statement(db, {}, t, id, now) == Goes(u)
    ensures Reaches(db, t, u, id, now)
  {
    assert Iterate(Turns(db, id, now), t, 0) == t;
    assert Iterate(Turns(db, id, now), t, 1) == u;
  }

  // ---------- the sale core ----------

  ghost function ReadsUpTo(db: Store, actor: Actor, req: SaleReq, n: nat): Reads {
    if n == 0 then NO_READS else ReadStep(n - 1, db, actor, req, ReadsUpTo(db, actor, req, n - 1))
  }

  lemma AllRead(db: Store, actor: Actor, req: SaleReq)
    ensures ReadsUpTo(db, actor, req, READS) == ReadAll(db, actor, req)
  {
    var r1 := ReadsUpTo(db, actor, req, 1);
    var r2 := ReadsUpTo(db, actor, req, 2);
    var r3 := ReadsUpTo(db, actor, req, 3);
    var r4 := ReadsUpTo(db, actor, req, 4);
    var r5 := ReadsUpTo(db, actor, req, 5);
    var r6 := ReadsUpTo(db, actor, req, 6);
    var r7 := ReadsUpTo(db, actor, req, 7);
    var r8 := ReadsUpTo(db, actor, req, 8);
  }

  lemma {:induction false} ReadsAlone(db: Store, t: Txn, id: Id, now: int, n: nat)
    requires t.job.SaleJob? && t.pc == SaleReading(0, NO_READS) && n <= READS
    ensures Reaches(db, t, t.(pc := SaleReading(n, ReadsUpTo(db, t.job.actor, t.job.sale, n))), id, now)
  {
    if n == 0 {
      Stays(db, t, id, now);
    } else {
      ReadsAlone(db, t, id, now, n - 1);
      var u := t.(pc := SaleReading(n - 1, ReadsUpTo(db, t.job.actor, t.job.sale, n - 1)));
      var v := t.(pc := SaleReading(n, ReadsUpTo(db, t.job.actor, t.job.sale, n)));
      OneStep(db, u, v, id, now);
      Then(db, t, u, v, id, now);
    }
  }

  /** A transaction that has inserted its sale and taken the first i decrements. */
  ghost predicate Taking(db: Store, t: Txn, id: Id, w: Written, i: nat, order: Option<HeldOrder>) {
    && ((t.job.SaleJob? && order.None? && t.snap.None?) || (t.job.ConvertJob? && order.Some? && t.snap == Some(db)))
    && t.pc == Decrementing(id, w, i, order) && i <= |DecsOf(w)|
  }

  predicate Enough(stock: map<StockKey, int>, outlet: Id, d: Dec) {
    StockKey(outlet, d.product) in stock && stock[StockKey(outlet, d.product)] >= d.quantity
  }

  lemma TakesOne(db: Store, t: Txn, id: Id, now: int, w: Written, i: nat, order: Option<HeldOrder>) returns (u: Txn)
    requires Taking(db, t, id, w, i, order) && i < |DecsOf(w)|
    ensures Reaches(db, t, u, id, now)
    ensures if Enough(db.stock, w.sale.outlet, DecsOf(w)[i]) then Taking(db, u, id, w, i + 1, order) && u.job == t.job
            else u.pc == Failed(InsufficientStock)
  {
    u := Statement(db, {}, t, id, now).t;
    OneStep(db, t, u, id, now);
  }

  lemma CoversOneMore(stock: map<StockKey, int>, outlet: Id, decs: seq<Dec>, i: nat)
    requires i < |decs| && StockCovers(stock, outlet, decs[..i])
    ensures Enough(stock, outlet, decs[i]) ==> StockCovers(stock, outlet, decs[..i + 1])
    ensures !Enough(stock, outlet, decs[i]) ==> !StockCovers(stock, outlet, decs)
  {
    var more := decs[..i + 1];
    assert forall j :: 0 <= j < i + 1 ==> more[j] == if j < i then decs[..i][j] else decs[i];
  }

  /** The remaining decrements all apply, or one fails. */
  lemma {:induction false} TakesAll(db: Store, t: Txn, id: Id, now: int, w: Written, i: nat, order: Option<HeldOrder>) returns (u: Txn)
    requires Taking(db, t, id, w, i, order) && StockCovers(db.stock, w.sale.outlet, DecsOf(w)[..i])
    ensures Reaches(db, t, u, id, now)
    ensures if StockCovers(db.stock, w.sale.outlet, DecsOf(w))
            then Taking(db, u, id, w, |DecsOf(w)|, order) && u.job == t.job else u.pc == Failed(InsufficientStock)
    decreases |DecsOf(w)| - i
  {
    if i == |DecsOf(w)| {
      assert DecsOf(w)[..i] == DecsOf(w);
      Stays(db, t, id, now);
      u := t;
    } else {
      CoversOneMore(db.stock, w.sale.outlet, DecsOf(w), i);
      u := TakesOne(db, t, id, now, w, i, order);
      if Enough(db.stock, w.sale.outlet, DecsOf(w)[i]) {
        var v := TakesAll(db, u, id, now, w, i + 1, order);
        Then(db, t, u, v, id, now);
        u := v;
      }
    }
  }

  lemma Finishes(db: Store, t: Txn, u: Txn, id: Id, now: int, a: Answer)
    requires Reaches(db, t, u, id, now) && u.pc == AnswerPc(a)
    ensures exists n :: Iterate(Turns(db, id, now), t, n).pc == AnswerPc(a)
  {
    var n :| Iterate(Turns(db, id, now), t, n) == u;
  }

  lemma ReadingStarts(db: Store, job: Job, id: Id, now: int)
    requires job.SaleJob?
    ensures Reaches(db, Begun(job, 0), Begun(job, 0).(pc := SaleReading(0, NO_READS)), id, now)
  {
    OneStep(db, Begun(job, 0), Begun(job, 0).(pc := SaleReading(0, NO_READS)), id, now);
  }

  lemma Inserts(db: Store, t: Txn, id: Id, now: int, w: Written, order: Option<HeldOrder>)
    requires (t.job.SaleJob? && order.None? && t.snap.None?) || (t.job.ConvertJob? && order.Some? && t.snap == Some(db))
    requires forall x :: !HasKey(db, w.sale.tenant, w.sale.key, x)
    ensures var o := InsertSale(db, {}, t, w, id, order); o.Goes? && Taking(db, o.t, id, w, 0, order) && o.t.job == t.job
  {
  }

  /** Having inserted, the sale ends written or short of stock. */
  lemma SaleEnds(db: Store, t: Txn, id: Id, now: int, w: Written) returns (u: Txn)
    requires t.job.SaleJob? && Taking(db, t, id, w, 0, None)
    ensures Reaches(db, t, u, id, now)
    ensures u.pc == if StockCovers(db.stock, w.sale.outlet, DecsOf(w)) then Ready(SaleWritten(id, w)) else Failed(InsufficientStock)
  {
    assert DecsOf(w)[..0] == [];
    u := TakesAll(db, t, id, now, w, 0, None);
    if StockCovers(db.stock, w.sale.outlet, DecsOf(w)) {
      OneStep(db, u, FinishSale(u, now), id, now);
      Then(db, t, u, FinishSale(u, now), id, now);
      u := FinishSale(u, now);
    }
  }

  lemma PlanEnds(db: Store, t: Txn, id: Id, now: int, plan: Plan) returns (u: Txn)
    requires t.job.SaleJob? && t.snap.None? && t.pc == Decided(plan, None)
    requires plan.Write? ==> forall x :: !HasKey(db, plan.sale.tenant, plan.sale.key, x)
    ensures Reaches(db, t, u, id, now)
    ensures u.pc == AnswerPc(PlanAnswer(db, t.job.actor, t.job.sale, plan, id))
  {
    u := Statement(db, {}, t, id, now).t;
    if plan.Write? {
      var w := Written(plan.sale, plan.tracked);
      Inserts(db, t, id, now, w, None);
      OneStep(db, t, u, id, now);
      var v := SaleEnds(db, u, id, now, w);
      Then(db, t, u, v, id, now);
      u := v;
    } else {
      OneStep(db, t, u, id, now);
    }
  }

  lemma SaleDecides(db: Store, t: Txn, id: Id, now: int)
    requires t.job.SaleJob? && t.pc.SaleReading? && t.pc.n == READS
    ensures Reaches(db, t, t.(pc := Decided(CorePlan(t.job.actor, t.job.sale, t.job.mode, t.pc.rd, now), None)), id, now)
  {
    OneStep(db, t, t.(pc := Decided(CorePlan(t.job.actor, t.job.sale, t.job.mode, t.pc.rd, now), None)), id, now);
  }

  /** A sale transaction alone is CreateSale. */
  lemma SaleAlone(db: Store, actor: Actor, req: SaleReq, mode: Mode, id: Id, now: int)
    requires CatalogOk(db.catalog)
    ensures Answers(db, SaleJob(actor, req, mode), id, now, SaleAnswer(db, actor, req, mode, id, now))
  {
    var t := Begun(SaleJob(actor, req, mode), 0);
    var r := t.(pc := SaleReading(0, NO_READS));
    ReadingStarts(db, t.job, id, now);
    ReadsAlone(db, r, id, now, READS);
    AllRead(db, actor, req);
    var read := t.(pc := SaleReading(READS, ReadAll(db, actor, req)));
    Then(db, t, r, read, id, now);
    var plan := CorePlan(actor, req, mode, ReadAll(db, actor, req), now);
    if plan.Write? {
      WriteFits(db, actor, req, mode, now, plan.sale, plan.tracked);
    }
    SaleDecides(db, read, id, now);
    var decided := t.(pc := Decided(plan, None));
    Then(db, t, read, decided, id, now);
    var u := PlanEnds(db, decided, id, now, plan);
    Then(db, t, decided, u, id, now);
    Finishes(db, t, u, id, now, SaleAnswer(db, actor, req, mode, id, now));
  }

  // ---------- conversion ----------

  lemma ClaimTaken(db: Store, t: Txn, id: Id, now: int, order: HeldOrder) returns (u: Txn)
    requires t.job.ConvertJob? && t.snap == Some(db) && t.pc == Pc.ConvertPlanned(order)
    requires t.job.order in db.orders && db.orders[t.job.order] == order
    ensures Reaches(db, t, u, id, now)
    ensures u.job == t.job && u.snap == Some(db) && u.pc == ConvertClaimed(order)
  {
    u := Statement(db, {}, t, id, now).t;
    OneStep(db, t, u, id, now);
  }

  lemma ConvertPlanned(db: Store, actor: Actor, oid: Id, req: ConvertReq, id: Id, now: int, order: HeldOrder) returns (u: Txn)
    requires ConvertPlan(db, actor, oid, req, now) == Claim(order)
    requires oid in db.orders && db.orders[oid] == order
    ensures Reaches(db, Begun(ConvertJob(actor, oid, req), 0), u, id, now)
    ensures u.job == ConvertJob(actor, oid, req) && u.snap == Some(db) && u.pc == ConvertClaimed(order)
  {
    var t := Begun(ConvertJob(actor, oid, req), 0);
    var v := t.(snap := Some(db), pc := Pc.ConvertPlanned(order));
    OneStep(db, t, v, id, now);
    u := ClaimTaken(db, v, id, now, order);
    Then(db, t, v, u, id, now);
  }

  lemma ConversionEnds(db: Store, t: Txn, id: Id, now: int, w: Written, order: HeldOrder) returns (u: Txn)
    requires t.job.ConvertJob? && Taking(db, t, id, w, 0, Some(order))
    ensures Reaches(db, t, u, id, now)
    ensures u.pc == if StockCovers(db.stock, w.sale.outlet, DecsOf(w))
                    then Ready(ConversionEvent(t.job.order, order, t.job.convert, SaleWritten(id, w), now))
                    else Failed(InsufficientStock)
  {
    assert DecsOf(w)[..0] == [];
    u := TakesAll(db, t, id, now, w, 0, Some(order));
    if StockCovers(db.stock, w.sale.outlet, DecsOf(w)) {
      OneStep(db, u, FinishSale(u, now), id, now);
      Then(db, t, u, FinishSale(u, now), id, now);
      u := FinishSale(u, now);
    }
  }

  lemma ClaimedDecides(db: Store, t: Txn, id: Id, now: int, order: HeldOrder)
    requires t.job.ConvertJob? && t.snap == Some(db) && t.pc == ConvertClaimed(order)
    ensures var req := ConversionRequest(order, t.job.convert);
            Reaches(db, t, t.(pc := Decided(CorePlan(t.job.actor, req, V1, ReadAll(db, t.job.actor, req), now), Some(order))), id, now)
  {
    var req := ConversionRequest(order, t.job.convert);
    OneStep(db, t, t.(pc := Decided(CorePlan(t.job.actor, req, V1, ReadAll(db, t.job.actor, req), now), Some(order))), id, now);
  }

  lemma ClaimedPlanEnds(db: Store, t: Txn, id: Id, now: int, order: HeldOrder, plan: Plan) returns (u: Txn)
    requires t.job.ConvertJob? && t.snap == Some(db) && t.pc == Decided(plan, Some(order))
    requires plan.Write? ==> forall x :: !HasKey(db, plan.sale.tenant, plan.sale.key, x)
    ensures Reaches(db, t, u, id, now)
    ensures var core := PlanAnswer(db, t.job.actor, ConversionRequest(order, t.job.convert), plan, id);
            u.pc == AnswerPc(ConversionAnswer(t.job.order, order, t.job.convert, core, now))
  {
    hide CorePlan;
    u := Statement(db, {}, t, id, now).t;
    if plan.Write? {
      var w := Written(plan.sale, plan.tracked);
      Inserts(db, t, id, now, w, Some(order));
      OneStep(db, t, u, id, now);
      var v := ConversionEnds(db, u, id, now, w, order);
      Then(db, t, u, v, id, now);
      u := v;
    } else {
      OneStep(db, t, u, id, now);
    }
  }

  lemma ClaimEnds(db: Store, actor: Actor, oid: Id, req: ConvertReq, id: Id, now: int, order: HeldOrder) returns (u: Txn)
    requires CatalogOk(db.catalog) && ConvertPlan(db, actor, oid, req, now) == Claim(order)
    requires oid in db.orders && db.orders[oid] == order
    ensures Reaches(db, Begun(ConvertJob(actor, oid, req), 0), u, id, now)
    ensures u.pc == AnswerPc(DecisionAnswer(db, actor, oid, req, Claim(order), id, now))
  {
    var t := Begun(ConvertJob(actor, oid, req), 0);
    var claimed := ConvertPlanned(db, actor, oid, req, id, now, order);
    var sale := ConversionRequest(order, req);
    var plan := CorePlan(actor, sale, V1, ReadAll(db, actor, sale), now);
    if plan.Write? {
      WriteFits(db, actor, sale, V1, now, plan.sale, plan.tracked);
    }
    ClaimedDecides(db, claimed, id, now, order);
    var decided := claimed.(pc := Decided(plan, Some(order)));
    Then(db, t, claimed, decided, id, now);
    u := ClaimedPlanEnds(db, decided, id, now, order, plan);
    Then(db, t, decided, u, id, now);
  }

  /** A conversion alone is ConvertHeldOrder. */
  lemma ConvertAlone(db: Store, actor: Actor, oid: Id, req: ConvertReq, id: Id, now: int)
    requires CatalogOk(db.catalog)
    ensures Answers(db, ConvertJob(actor, oid, req), id, now, ConvertAnswer(db, actor, oid, req, id, now))
  {
    var t := Begun(ConvertJob(actor, oid, req), 0);
    var a := ConvertAnswer(db, actor, oid, req, id, now);
    ClaimFound(db, actor, oid, req, now);
    var d := ConvertPlan(db, actor, oid, req, now);
    if d.Claim? {
      var u := ClaimEnds(db, actor, oid, req, id, now, d.order);
      Finishes(db, t, u, id, now, a);
    } else {
      var u := Statement(db, {}, t, id, now).t;
      OneStep(db, t, u, id, now);
      Finishes(db, t, u, id, now, a);
    }
  }

  // ---------- held orders ----------

  function HoldReadsUpTo(db: Store, actor: Actor, req: HoldReq, n: nat): HoldReads {
    if n == 0 then NO_HOLD_READS else HoldReadStep(n - 1, db, actor, req, HoldReadsUpTo(db, actor, req, n - 1))
  }

  function Holding(db: Store, t: Txn, n: nat): Txn
    requires t.job.HoldJob?
  {
    t.(locks := if n > 3 then {SessionRow(t.job.hold.session)} else {},
       pc := HoldReading(n, HoldReadsUpTo(db, t.job.actor, t.job.hold, n)))
  }

  lemma HoldReadsOne(db: Store, t: Txn, id: Id, now: int, n: nat)
    requires t.job.HoldJob? && n < 8
    ensures Reaches(db, Holding(db, t, n), Holding(db, t, n + 1), id, now)
  {
    OneStep(db, Holding(db, t, n), Holding(db, t, n + 1), id, now);
  }

  lemma {:induction false} HoldReadsAlone(db: Store, t: Txn, id: Id, now: int, n: nat)
    requires t.job.HoldJob? && n <= 8
    ensures Reaches(db, Holding(db, t, 0), Holding(db, t, n), id, now)
  {
    if n == 0 {
      Stays(db, Holding(db, t, 0), id, now);
    } else {
      HoldReadsAlone(db, t, id, now, n - 1);
      HoldReadsOne(db, t, id, now, n - 1);
      Then(db, Holding(db, t, 0), Holding(db, t, n - 1), Holding(db, t, n), id, now);
    }
  }

  lemma AllHoldRead(db: Store, actor: Actor, req: HoldReq)
    ensures HoldReadsUpTo(db, actor, req, 8) == HoldReadAll(db, actor, req)
  {
    var r1 := HoldReadsUpTo(db, actor, req, 1);
    var r2 := HoldReadsUpTo(db, actor, req, 2);
    var r3 := HoldReadsUpTo(db, actor, req, 3);
    var r4 := HoldReadsUpTo(db, actor, req, 4);
    var r5 := HoldReadsUpTo(db, actor, req, 5);
    var r6 := HoldReadsUpTo(db, actor, req, 6);
    var r7 := HoldReadsUpTo(db, actor, req, 7);
  }

  lemma HoldEnds(db: Store, t: Txn, id: Id, now: int) returns (u: Txn)
    requires t.job.HoldJob? && t.pc == HoldReading(8, HoldReadAll(db, t.job.actor, t.job.hold))
    ensures Reaches(db, t, u, id, now) && u.pc == AnswerPc(HoldAnswer(db, t.job.actor, t.job.hold, id))
  {
    u := Statement(db, {}, t, id, now).t;
    OneStep(db, t, u, id, now);
  }

  /** Creating a held order alone is CreateHeldOrder. */
  lemma HoldAlone(db: Store, actor: Actor, req: HoldReq, id: Id, now: int)
    ensures Answers(db, HoldJob(actor, req), id, now, HoldAnswer(db, actor, req, id))
  {
    var t := Begun(HoldJob(actor, req), 0);
    OneStep(db, t, Holding(db, t, 0), id, now);
    HoldReadsAlone(db, t, id, now, 8);
    Then(db, t, Holding(db, t, 0), Holding(db, t, 8), id, now);
    AllHoldRead(db, actor, req);
    var u := HoldEnds(db, Holding(db, t, 8), id, now);
    Then(db, t, Holding(db, t, 8), u, id, now);
    Finishes(db, t, u, id, now, HoldAnswer(db, actor, req, id));
  }

  function EditReadsUpTo(db: Store, actor: Actor, id: Id, items: seq<LineReq>, n: nat): EditReads {
    if n == 0 then NO_EDIT_READS else EditReadStep(n - 1, db, actor, id, items, EditReadsUpTo(db, actor, id, items, n - 1))
  }

  lemma AllEditRead(db: Store, actor: Actor, id: Id, items: seq<LineReq>)
    ensures EditReadsUpTo(db, actor, id, items, 7) == EditReadAll(db, actor, id, items)
    ensures var r, all := EditReadsUpTo(db, actor, id, items, 3), EditReadAll(db, actor, id, items);
            r.user == all.user && r.outlet == all.outlet && r.order == all.order
  {
    var r1 := EditReadsUpTo(db, actor, id, items, 1);
    var r2 := EditReadsUpTo(db, actor, id, items, 2);
    var r3 := EditReadsUpTo(db, actor, id, items, 3);
    var r4 := EditReadsUpTo(db, actor, id, items, 4);
    var r5 := EditReadsUpTo(db, actor, id, items, 5);
    var r6 := EditReadsUpTo(db, actor, id, items, 6);
  }

  function EditedItems(job: Job): seq<LineReq> {
    if job.EditJob? && job.edit.items.Some? then job.edit.items.value else []
  }

  function Editing(db: Store, t: Txn, n: nat): Txn
    requires t.job.EditJob? || t.job.CancelJob?
  {
    t.(pc := EditReading(n, EditReadsUpTo(db, t.job.actor, t.job.order, EditedItems(t.job), n)))
  }

  lemma EditReadsOne(db: Store, t: Txn, id: Id, now: int, n: nat)
    requires (t.job.EditJob? && n < 7) || (t.job.CancelJob? && n < 3)
    ensures Reaches(db, Editing(db, t, n), Editing(db, t, n + 1), id, now)
  {
    OneStep(db, Editing(db, t, n), Editing(db, t, n + 1), id, now);
  }

  lemma {:induction false} EditReadsAlone(db: Store, t: Txn, id: Id, now: int, n: nat)
    requires (t.job.EditJob? && n <= 7) || (t.job.CancelJob? && n <= 3)
    ensures Reaches(db, Editing(db, t, 0), Editing(db, t, n), id, now)
  {
    if n == 0 {
      Stays(db, Editing(db, t, 0), id, now);
    } else {
      EditReadsAlone(db, t, id, now, n - 1);
      EditReadsOne(db, t, id, now, n - 1);
      Then(db, Editing(db, t, 0), Editing(db, t, n - 1), Editing(db, t, n), id, now);
    }
  }

  lemma EditEnds(db: Store, t: Txn, id: Id, now: int) returns (u: Txn)
    requires t.job.EditJob? && t.pc == EditReading(7, EditReadAll(db, t.job.actor, t.job.order, EditedItems(t.job)))
    ensures Reaches(db, t, u, id, now) && u.pc == AnswerPc(EditAnswer(db, t.job.actor, t.job.order, t.job.edit))
  {
    u := Statement(db, {}, t, id, now).t;
    OneStep(db, t, u, id, now);
  }

  /** An update alone is UpdateHeldOrder. */
  lemma EditAlone(db: Store, actor: Actor, oid: Id, req: EditReq, id: Id, now: int)
    ensures Answers(db, EditJob(actor, oid, req), id, now, EditAnswer(db, actor, oid, req))
  {
    var t := Begun(EditJob(actor, oid, req), 0);
    OneStep(db, t, Editing(db, t, 0), id, now);
    EditReadsAlone(db, t, id, now, 7);
    Then(db, t, Editing(db, t, 0), Editing(db, t, 7), id, now);
    AllEditRead(db, actor, oid, EditedItems(t.job));
    var u := EditEnds(db, Editing(db, t, 7), id, now);
    Then(db, t, Editing(db, t, 7), u, id, now);
    Finishes(db, t, u, id, now, EditAnswer(db, actor, oid, req));
  }

  lemma CancelEnds(db: Store, t: Txn, id: Id, now: int) returns (u: Txn)
    requires t.job.CancelJob? && t.pc.EditReading? && t.pc.n == 3
    requires var all := EditReadAll(db, t.job.actor, t.job.order, []);
             t.pc.erd.user == all.user && t.pc.erd.outlet == all.outlet && t.pc.erd.order == all.order
    ensures Reaches(db, t, u, id, now)
    ensures u.pc == AnswerPc(CancelAnswer(db, t.job.actor, t.job.order, t.job.expected, now))
  {
    u := Statement(db, {}, t, id, now).t;
    OneStep(db, t, u, id, now);
  }

  /** A cancellation alone is CancelHeldOrder. */
  lemma CancelAlone(db: Store, actor: Actor, oid: Id, expected: nat, id: Id, now: int)
    ensures Answers(db, CancelJob(actor, oid, expected), id, now, CancelAnswer(db, actor, oid, expected, now))
  {
    var t := Begun(CancelJob(actor, oid, expected), 0);
    OneStep(db, t, Editing(db, t, 0), id, now);
    EditReadsAlone(db, t, id, now, 3);
    Then(db, t, Editing(db, t, 0), Editing(db, t, 3), id, now);
    AllEditRead(db, actor, oid, []);
    var u := CancelEnds(db, Editing(db, t, 3), id, now);
    Then(db, t, Editing(db, t, 3), u, id, now);
    Finishes(db, t, u, id, now, CancelAnswer(db, actor, oid, expected, now));
  }

  // ---------- shifts and adjustments ----------

  /** Opening a shift alone is OpenShift. */
  lemma OpenAlone(db: Store, actor: Actor, outlet: Id, id: Id, now: int)
    ensures Answers(db, OpenShiftJob(actor, outlet), id, now, OpenAnswer(db, actor, outlet, id))
  {
    var t := Begun(OpenShiftJob(actor, outlet), 0);
    var u := Statement(db, {}, t, id, now).t;
    OneStep(db, t, u, id, now);
    if OpenAnswer(db, actor, outlet, id).Ok? {
      var v := Statement(db, {}, u, id, now).t;
      OneStep(db, u, v, id, now);
      Then(db, t, u, v, id, now);
      u := v;
    }
    Finishes(db, t, u, id, now, OpenAnswer(db, actor, outlet, id));
  }

  ghost function Closing(db: Store, t: Txn, n: nat): Txn
    requires t.job.CloseShiftJob? && n <= 5
  {
    var actor, session := t.job.actor, t.job.session;
    var all := CloseReadAll(db, actor, session);
    t.(locks := if n > 2 then {SessionRow(session)} else {},
       pc := CloseReading(n, CloseReads(if n > 0 then all.user else None, if n > 1 then all.shift else None,
                                        n > 3 && all.blocked, n > 4 && all.reportable)))
  }

  lemma CloseReadsOne(db: Store, t: Txn, id: Id, now: int, n: nat)
    requires t.job.CloseShiftJob? && n < 5
    ensures Reaches(db, Closing(db, t, n), Closing(db, t, n + 1), id, now)
  {
    OneStep(db, Closing(db, t, n), Closing(db, t, n + 1), id, now);
  }

  lemma CloseEnds(db: Store, t: Txn, id: Id, now: int) returns (u: Txn)
    requires t.job.CloseShiftJob?
    ensures Reaches(db, Closing(db, t, 5), u, id, now) && u.pc == AnswerPc(CloseAnswer(db, t.job.actor, t.job.session, now))
  {
    u := Statement(db, {}, Closing(db, t, 5), id, now).t;
    OneStep(db, Closing(db, t, 5), u, id, now);
  }

  /** Closing a shift alone is CloseShift. */
  lemma CloseAlone(db: Store, actor: Actor, session: Id, id: Id, now: int)
    ensures Answers(db, CloseShiftJob(actor, session), id, now, CloseAnswer(db, actor, session, now))
  {
    var t := Begun(CloseShiftJob(actor, session), 0);
    OneStep(db, t, Closing(db, t, 0), id, now);
    var n := 0;
    while n < 5
      invariant n <= 5 && Reaches(db, t, Closing(db, t, n), id, now)
    {
      CloseReadsOne(db, t, id, now, n);
      Then(db, t, Closing(db, t, n), Closing(db, t, n + 1), id, now);
      n := n + 1;
    }
    var u := CloseEnds(db, t, id, now);
    Then(db, t, Closing(db, t, 5), u, id, now);
    Finishes(db, t, u, id, now, CloseAnswer(db, actor, session, now));
  }

  function Adjusting(db: Store, t: Txn, n: nat): Txn
    requires t.job.AdjustJob? && n <= 3
  {
    var all := AdjustReadAll(db, t.job.actor, t.job.at);
    t.(pc := AdjustReading(n, AdjustReads(n > 0 && all.outlet, if n > 1 then all.product else None, n > 2 && all.user)))
  }

  lemma AdjustReadsOne(db: Store, t: Txn, id: Id, now: int, n: nat)
    requires t.job.AdjustJob? && n < 3
    ensures Reaches(db, Adjusting(db, t, n), Adjusting(db, t, n + 1), id, now)
  {
    OneStep(db, Adjusting(db, t, n), Adjusting(db, t, n + 1), id, now);
  }

  lemma AdjustEnds(db: Store, t: Txn, id: Id, now: int) returns (u: Txn)
    requires t.job.AdjustJob?
    ensures Reaches(db, Adjusting(db, t, 3), u, id, now)
    ensures u.pc == AnswerPc(AdjustAnswer(db, t.job.actor, t.job.at, t.job.add, t.job.quantity, id))
  {
    u := Statement(db, {}, Adjusting(db, t, 3), id, now).t;
    OneStep(db, Adjusting(db, t, 3), u, id, now);
  }

  /** An adjustment alone is CreateAdjustment. */
  lemma AdjustAlone(db: Store, actor: Actor, at: StockKey, add: bool, quantity: int, id: Id, now: int)
    ensures Answers(db, AdjustJob(actor, at, add, quantity), id, now, AdjustAnswer(db, actor, at, add, quantity, id))
  {
    var t := Begun(AdjustJob(actor, at, add, quantity), 0);
    OneStep(db, t, Adjusting(db, t, 0), id, now);
    var n := 0;
    while n < 3
      invariant n <= 3 && Reaches(db, t, Adjusting(db, t, n), id, now)
    {
      AdjustReadsOne(db, t, id, now, n);
      Then(db, t, Adjusting(db, t, n), Adjusting(db, t, n + 1), id, now);
      n := n + 1;
    }
    var u := AdjustEnds(db, t, id, now);
    Then(db, t, Adjusting(db, t, 3), u, id, now);
    Finishes(db, t, u, id, now, AdjustAnswer(db, actor, at, add, quantity, id));
  }

  // ---------- conflicts ----------

  /** Attempt after attempt that meets a conflict: up to three for sales, conversions and shifts, one for every other call. */
  lemma ConflictsEnd(t: Txn)
    ensures t.job.SaleJob? || t.job.ConvertJob? || t.job.OpenShiftJob? || t.job.CloseShiftJob? ==>
              if t.attempt < 2 then Retry(t) == Txn(t.job, t.attempt + 1, None, Writes(map[], map[], [], map[], map[], map[]), {}, Start)
              else Retry(t).pc == Failed(if t.job.SaleJob? || t.job.ConvertJob? then TransactionRetryRequired else ShiftRetryRequired)
    ensures t.job.HoldJob? || t.job.EditJob? || t.job.CancelJob? || t.job.AdjustJob? ==> Retry(t).pc == Failed(InternalError)
    ensures Retry(t).job == t.job && Retry(t).locks == {} && Retry(t).ws == NO_WRITES
  {
  }
}
