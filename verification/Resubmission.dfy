/** Replays over histories and over interleaved runs: what succeeded once is answered again, and writes nothing. */
module Resubmission {
  import opened Base
  import opened Schema
  import opened Access
  import opened Pricing
  import opened SameRequest
  import opened Core
  import opened HeldOrders
  import opened Ledger
  import opened History
  import opened Replays
  import opened Transactions
  import opened Frames
  import opened Solo
  import opened Interleaving

  // ---------- over histories ----------

  /**
   The conversion that event i committed, first-time or itself a replay, answers exactly the later repetitions of its
   checkout: at any later state j a checkout of the order is a replay of the same sale when it brings the same key and
   tender by the same caller, whatever version it expects, and never otherwise.
   */
  lemma ConversionReplays(db0: Store, tr: seq<Event>, i: nat, j: nat, actor: Actor, order: Id, req: ConvertReq,
                          newId: Id, before: int, caller: Actor, again: ConvertReq, now: int)
    requires Inv(db0) && Valid(db0, tr) && i < j <= |tr| && Unused(At(db0, tr, i), newId)
    requires ConvertAnswer(At(db0, tr, i), actor, order, req, newId, before) == Ok(tr[i])
    requires caller.tenant == actor.tenant && ConvertInputOk(again) && InScope(At(db0, tr, j), caller, order)
    ensures tr[i].HeldConverted? || tr[i].HeldReplayed?
    ensures ConvertPlan(At(db0, tr, j), caller, order, again, now) == Again(tr[i].sale) <==>
            again.key == req.key && SameTender(req.payment, again.payment) && caller.sub == actor.sub
  {
    hide ConvertAnswer, ConvertPlan, Redeemed, InScope, SameTender;
    InvariantAt(db0, tr, i);
    ConvertAnswerIsRedeemed(At(db0, tr, i), actor, order, req, newId, before);
    Step(db0, tr, i);
    RedeemedAnswersLater(db0, tr, i + 1, j, actor, order, req, tr[i].sale, caller, again, now);
  }

  /** The same for a checkout: the sale that event i wrote or found answers exactly the later repetitions. */
  lemma CheckoutReplays(db0: Store, tr: seq<Event>, i: nat, j: nat, actor: Actor, req: SaleReq, mode: Mode,
                        newId: Id, before: int, again: SaleReq, againMode: Mode, now: int)
    requires Inv(db0) && Valid(db0, tr) && i < j <= |tr| && Unused(At(db0, tr, i), newId)
    requires SaleAnswer(At(db0, tr, i), actor, req, mode, newId, before) == Ok(tr[i])
    requires again.key == req.key && InputOk(again, againMode) && MaySell(At(db0, tr, j), actor)
    ensures tr[i].SaleWritten? || tr[i].SaleReplayed?
    ensures CorePlan(actor, again, againMode, ReadAll(At(db0, tr, j), actor, again), now) ==
            if Repeats(req, again) then Replay(tr[i].id) else Reject(IdempotencyPayloadMismatch)
  {
    hide SaleAnswer, CorePlan, Stored, Repeats, MaySell;
    InvariantAt(db0, tr, i);
    SaleAnswerIsStored(At(db0, tr, i), actor, req, mode, newId, before);
    Step(db0, tr, i);
    StoredAnswersLater(db0, tr, i + 1, j, actor, req, mode, tr[i].id, again, againMode, now);
  }

  // ---------- over interleaved runs ----------

  lemma {:induction false} FinishedStays(db0: Store, states: seq<Sys>, moves: seq<Move>, i: nat, j: nat, t: nat)
    requires Behavior(db0, states, moves) && i <= j < |states| && t in states[i].txns && states[i].txns[t].pc.Finished?
    ensures t in states[j].txns && states[j].txns[t] == states[i].txns[t]
    decreases j
  {
    hide Statement, Guard, Effect, Apply, Inv;
    if i < j {
      FinishedStays(db0, states, moves, i, j - 1, t);
      assert Next(states[j - 1], moves[j - 1], states[j]);
    }
  }

  /** What a finished job reported is reported by every later state. */
  lemma ReportStays(db0: Store, states: seq<Sys>, moves: seq<Move>, i: nat, j: nat, t: nat)
    requires Behavior(db0, states, moves) && i <= j < |states| && t in states[i].txns && states[i].txns[t].pc.Finished?
    requires states[i].txns[t].job.SaleJob? || states[i].txns[t].job.ConvertJob?
    ensures SaleOfEvent(states[i].txns[t].pc.ev).Some? && Reported(states[j].db, states[i].txns[t].job, states[i].txns[t].pc.ev)
    ensures Inv(states[j].db)
  {
    hide Next, Inv, Reported;
    FinishedStays(db0, states, moves, i, j, t);
    SuccessReportsStoredSale(db0, states, moves, j, t);
    Refines(db0, states, moves, j);
    InvariantAlways(db0, states[j].trace);
  }

  lemma ReplayAnswer(db: Store, actor: Actor, again: SaleReq, mode: Mode, newId: Id, now: int, id: Id)
    requires CorePlan(actor, again, mode, ReadAll(db, actor, again), now) == Replay(id)
    requires HasKey(db, actor.tenant, again.key, id)
    ensures var a := SaleAnswer(db, actor, again, mode, newId, now);
            a == Ok(SaleReplayed(actor.tenant, again.key, id)) && Guard(db, a.value) && Effect(db, a.value) == db
  {
  }

  lemma RejectAnswer(db: Store, actor: Actor, again: SaleReq, mode: Mode, newId: Id, now: int, e: Reason)
    requires CorePlan(actor, again, mode, ReadAll(db, actor, again), now) == Reject(e)
    ensures SaleAnswer(db, actor, again, mode, newId, now) == Err(e)
  {
  }

  /**
   A later well-formed request under the key of any finished checkout of any run is answered with its sale when it repeats
   it, and rejected when it does not; it writes nothing either way.
   */
  lemma FinishedCheckoutAnswers(db0: Store, states: seq<Sys>, moves: seq<Move>, i: nat, j: nat, t: nat,
                                again: SaleReq, againMode: Mode, newId: Id, now: int)
    requires Behavior(db0, states, moves) && i <= j < |states| && t in states[i].txns && states[i].txns[t].pc.Finished?
    requires states[i].txns[t].job.SaleJob? && SaleOfEvent(states[i].txns[t].pc.ev).Some?
    requires again.key == states[i].txns[t].job.sale.key && InputOk(again, againMode)
    requires MaySell(states[j].db, states[i].txns[t].job.actor)
    ensures var db, actor, id := states[j].db, states[i].txns[t].job.actor, SaleOfEvent(states[i].txns[t].pc.ev).value;
            var a := SaleAnswer(db, actor, again, againMode, newId, now);
            && a == (if Repeats(states[i].txns[t].job.sale, again) then Ok(SaleReplayed(actor.tenant, again.key, id))
                     else Err(IdempotencyPayloadMismatch))
            && (a.Ok? ==> Guard(db, a.value) && Effect(db, a.value) == db)
  {
    hide Next, SaleAnswer, CorePlan, Guard, Effect, Repeats, InputOk, MaySell;
    ReportStays(db0, states, moves, i, j, t);
    var job, id := states[i].txns[t].job, SaleOfEvent(states[i].txns[t].pc.ev).value;
    StoredAnswers(states[j].db, job.actor, job.sale, job.mode, id, again, againMode, now);
    if Repeats(job.sale, again) {
      ReplayAnswer(states[j].db, job.actor, again, againMode, newId, now, id);
    } else {
      RejectAnswer(states[j].db, job.actor, again, againMode, newId, now, IdempotencyPayloadMismatch);
    }
  }

  lemma AgainAnswer(db: Store, actor: Actor, order: Id, again: ConvertReq, newId: Id, now: int, id: Id)
    requires ConvertPlan(db, actor, order, again, now) == Again(id)
    ensures var a := ConvertAnswer(db, actor, order, again, newId, now);
            a == Ok(HeldReplayed(order, actor.tenant, again.key, id)) && Guard(db, a.value) && Effect(db, a.value) == db
  {
    ClaimFound(db, actor, order, again, now);
  }

  /** A repetition of any finished conversion of any run, at any later state, is answered with its sale and writes nothing. */
  lemma FinishedConversionAnswers(db0: Store, states: seq<Sys>, moves: seq<Move>, i: nat, j: nat, t: nat,
                                  again: ConvertReq, newId: Id, now: int)
    requires Behavior(db0, states, moves) && i <= j < |states| && t in states[i].txns && states[i].txns[t].pc.Finished?
    requires states[i].txns[t].job.ConvertJob? && SaleOfEvent(states[i].txns[t].pc.ev).Some?
    requires var req := states[i].txns[t].job.convert;
             again.key == req.key && SameTender(req.payment, again.payment) && ConvertInputOk(again)
    requires InScope(states[j].db, states[i].txns[t].job.actor, states[i].txns[t].job.order)
    ensures var db, job, id := states[j].db, states[i].txns[t].job, SaleOfEvent(states[i].txns[t].pc.ev).value;
            var a := ConvertAnswer(db, job.actor, job.order, again, newId, now);
            a == Ok(HeldReplayed(job.order, job.actor.tenant, again.key, id)) && Guard(db, a.value) && Effect(db, a.value) == db
  {
    hide Next, ConvertAnswer, ConvertPlan, Guard, Effect, Inv;
    ReportStays(db0, states, moves, i, j, t);
    var job, id := states[i].txns[t].job, SaleOfEvent(states[i].txns[t].pc.ev).value;
    RedeemedAnswers(states[j].db, job.actor, job.order, job.convert, id, job.actor, again, now);
    AgainAnswer(states[j].db, job.actor, job.order, again, newId, now, id);
  }

  // ---------- a repetition that runs interleaved with everything else ----------

  /** A repetition that begins after the first success: it holds nothing, writes nothing, and can only report that sale. */
  ghost predicate OnlyRepeats(t: Txn, actor: Actor, again: SaleReq, id: Id, sale: Sale) {
    && t.job.SaleJob? && t.job.actor == actor && t.job.sale == again && t.ws == NO_WRITES && t.locks == {}
    && match t.pc
       case Start => true
       case SaleReading(n, rd) => n > 2 ==> rd.existing == Some((id, sale))
       case Decided(plan, origin) =>
         origin.None? && (plan == Replay(id) || plan == Reject(Unauthorized) || plan == Reject(RoleForbidden))
       case Ready(ev) => ev == SaleReplayed(actor.tenant, again.key, id)
       case Finished(ev) => ev == SaleReplayed(actor.tenant, again.key, id)
       case Failed(_) => true
       case _ => false
  }

  lemma RepetitionReads(n: nat, db: Store, actor: Actor, req: SaleReq, rd: Reads, id: Id)
    requires KeysUnique(db) && HasKey(db, actor.tenant, req.key, id)
    requires n > 2 ==> rd.existing == Some((id, db.sales[id]))
    ensures n >= 2 ==> ReadStep(n, db, actor, req, rd).existing == Some((id, db.sales[id]))
  {
    hide ReadProducts, ReadAssignments, ReadOptionsOfGroups;
  }

  lemma RepetitionDecides(actor: Actor, again: SaleReq, mode: Mode, rd: Reads, now: int, id: Id, sale: Sale)
    requires InputOk(again, mode) && rd.existing == Some((id, sale)) && AssertSameRequest(sale, actor, again)
    ensures var plan := CorePlan(actor, again, mode, rd, now);
            plan == Replay(id) || plan == Reject(Unauthorized) || plan == Reject(RoleForbidden)
  {
    hide NewSalePlan, AssertSameRequest, InputOk;
  }

  /** Each statement of a repetition. */
  lemma RepetitionSteps(db: Store, held: set<Row>, t: Txn, newId: Id, now: int, actor: Actor, again: SaleReq, id: Id)
    requires Inv(db) && Active(t) && HasKey(db, actor.tenant, again.key, id)
    requires OnlyRepeats(t, actor, again, id, db.sales[id])
    requires InputOk(again, t.job.mode) && AssertSameRequest(db.sales[id], actor, again)
    ensures var o := Statement(db, held, t, newId, now);
            o.Goes? ==> OnlyRepeats(o.t, actor, again, id, db.sales[id]) && o.t.job == t.job
  {
    hide CorePlan, AssertSameRequest, InputOk;
    if t.pc.SaleReading? && t.pc.n < READS {
      RepetitionReads(t.pc.n, db, actor, again, t.pc.rd, id);
    } else if t.pc.SaleReading? {
      RepetitionDecides(actor, again, t.job.mode, t.pc.rd, now, id, db.sales[id]);
    }
  }

  /** A move leaves stored sales as they are. */
  lemma NextGrows(db0: Store, s: Sys, m: Move, s': Sys)
    requires SysInv(db0, s) && Next(s, m, s')
    ensures SalesGrow(s.db, s'.db)
  {
    hide Statement, Active, Guard, Effect, Apply, TxnOk, Inv;
    match m {
      case Commit(t) =>
        CommittedOk(db0, s, t, s.txns[t].pc.ev);
        EventGrows(s.db, s.txns[t].pc.ev);
      case Administer(ev) => EventGrows(s.db, ev);
      case _ =>
    }
  }

  /** Abandoning and starting over keep a repetition one. */
  lemma AbandonedRepeats(t: Txn, actor: Actor, again: SaleReq, id: Id, sale: Sale, reason: Reason)
    requires OnlyRepeats(t, actor, again, id, sale)
    ensures OnlyRepeats(Fail(t, reason), actor, again, id, sale) && OnlyRepeats(Retry(t), actor, again, id, sale)
    ensures Fail(t, reason).job == t.job && Retry(t).job == t.job
  {
  }

  lemma EndedRepeats(t: Txn, actor: Actor, again: SaleReq, id: Id, sale: Sale)
    requires OnlyRepeats(t, actor, again, id, sale) && t.pc.Ready?
    ensures OnlyRepeats(Ended(t, Finished(t.pc.ev)), actor, again, id, sale)
  {
  }

  lemma RepetitionMoves(db0: Store, s: Sys, m: Move, s': Sys, u: nat, actor: Actor, again: SaleReq, mode: Mode, id: Id)
    requires SysInv(db0, s) && Inv(s.db) && Next(s, m, s') && u in s.txns && HasKey(s.db, actor.tenant, again.key, id)
    requires OnlyRepeats(s.txns[u], actor, again, id, s.db.sales[id]) && s.txns[u].job.mode == mode
    requires InputOk(again, mode) && AssertSameRequest(s.db.sales[id], actor, again)
    ensures u in s'.txns && OnlyRepeats(s'.txns[u], actor, again, id, s.db.sales[id]) && s'.txns[u].job.mode == mode
  {
    hide SysInv, Inv, InputOk, AssertSameRequest, OnlyRepeats, Statement, Active, Guard, Effect, Apply, Fail, Retry;
    var sale := s.db.sales[id];
    match m {
      case Execute(t, newId, now) =>
        if t == u {
          RepetitionSteps(s.db, HeldByOthers(s, u), s.txns[u], newId, now, actor, again, id);
        }
      case Commit(t) =>
        if t == u {
          EndedRepeats(s.txns[u], actor, again, id, sale);
        }
      case Abort(t, reason) =>
        if t == u {
          AbandonedRepeats(s.txns[u], actor, again, id, sale, reason);
        }
      case Conflict(t) =>
        if t == u {
          AbandonedRepeats(s.txns[u], actor, again, id, sale, InternalError);
        }
      case _ =>
    }
  }

  /** The sale a finished checkout reported, at a later state, as the arbiter sees a repetition of its request. */
  lemma RepetitionIsSame(db0: Store, states: seq<Sys>, moves: seq<Move>, i: nat, j: nat, t: nat, again: SaleReq)
    requires Behavior(db0, states, moves) && i <= j < |states| && t in states[i].txns && states[i].txns[t].pc.Finished?
    requires states[i].txns[t].job.SaleJob? && SaleOfEvent(states[i].txns[t].pc.ev).Some?
    requires Repeats(states[i].txns[t].job.sale, again)
    ensures var actor, id := states[i].txns[t].job.actor, SaleOfEvent(states[i].txns[t].pc.ev).value;
            && Inv(states[j].db) && HasKey(states[j].db, actor.tenant, again.key, id)
            && AssertSameRequest(states[j].db.sales[id], actor, again)
  {
    hide Next, Inv;
    ReportStays(db0, states, moves, i, j, t);
    var job, id := states[i].txns[t].job, SaleOfEvent(states[i].txns[t].pc.ev).value;
    SameRequestTwice(states[j].db.sales[id], job.actor, job.sale, again);
  }

  /**
   In every run: a repetition of a finished checkout, begun at any later point and interleaved with anything, never holds a
   row, never writes one, and if it succeeds reports the same sale.
   */
  lemma {:induction false} RepeatedCheckoutNeverWrites(db0: Store, states: seq<Sys>, moves: seq<Move>, i: nat, t: nat,
                                                       k: nat, u: nat, again: SaleReq, againMode: Mode, j: nat)
    requires Behavior(db0, states, moves) && i <= k < j < |states|
    requires t in states[i].txns && states[i].txns[t].pc.Finished?
    requires states[i].txns[t].job.SaleJob? && SaleOfEvent(states[i].txns[t].pc.ev).Some?
    requires Repeats(states[i].txns[t].job.sale, again) && InputOk(again, againMode)
    requires moves[k] == Begin(u, SaleJob(states[i].txns[t].job.actor, again, againMode))
    ensures var actor, id := states[i].txns[t].job.actor, SaleOfEvent(states[i].txns[t].pc.ev).value;
            && u in states[j].txns && id in states[j].db.sales && states[j].txns[u].job == SaleJob(actor, again, againMode)
            && OnlyRepeats(states[j].txns[u], actor, again, id, states[j].db.sales[id])
    decreases j
  {
    hide Repeats, InputOk, Inv, SysInv, AssertSameRequest, Statement, Active, Guard, Effect, Apply;
    var actor, id := states[i].txns[t].job.actor, SaleOfEvent(states[i].txns[t].pc.ev).value;
    assert Next(states[j - 1], moves[j - 1], states[j]);
    RepetitionIsSame(db0, states, moves, i, j - 1, t, again);
    if j > k + 1 {
      RepeatedCheckoutNeverWrites(db0, states, moves, i, t, k, u, again, againMode, j - 1);
      Refines(db0, states, moves, j - 1);
      RepetitionMoves(db0, states[j - 1], moves[j - 1], states[j], u, actor, again, againMode, id);
      NextGrows(db0, states[j - 1], moves[j - 1], states[j]);
    }
  }

  // ---------- the same for held orders ----------

  /** A repeated held-order checkout: it holds nothing, writes nothing, and can only report that sale. */
  ghost predicate OnlyReplays(t: Txn, actor: Actor, order: Id, again: ConvertReq, id: Id) {
    && t.job == ConvertJob(actor, order, again) && t.ws == NO_WRITES && t.locks == {}
    && match t.pc
       case Start => true
       case Ready(ev) => ev == HeldReplayed(order, actor.tenant, again.key, id)
       case Finished(ev) => ev == HeldReplayed(order, actor.tenant, again.key, id)
       case Failed(_) => true
       case _ => false
  }

  /** A redeemed order is never claimed again. */
  lemma RedeemedIsNotClaimed(db: Store, actor: Actor, order: Id, req: ConvertReq, id: Id, again: ConvertReq, now: int)
    requires Redeemed(db, actor, order, req, id)
    ensures var d := ConvertPlan(db, actor, order, again, now); d.Refuse? || d == Again(id)
  {
    var d := ConvertPlan(db, actor, order, again, now);
    if d.Again? {
      AgainIsRedeemed(db, actor, order, again, now, d.id);
    }
  }

  lemma ReplaySteps(db: Store, held: set<Row>, t: Txn, newId: Id, now: int, actor: Actor, order: Id, req: ConvertReq,
                    again: ConvertReq, id: Id)
    requires Active(t) && Redeemed(db, actor, order, req, id) && OnlyReplays(t, actor, order, again, id)
    ensures var o := Statement(db, held, t, newId, now); o.Goes? ==> OnlyReplays(o.t, actor, order, again, id)
  {
    hide ConvertPlan, Redeemed;
    RedeemedIsNotClaimed(db, actor, order, req, id, again, now);
  }

  lemma AbandonedReplays(t: Txn, actor: Actor, order: Id, again: ConvertReq, id: Id, reason: Reason)
    requires OnlyReplays(t, actor, order, again, id)
    ensures OnlyReplays(Fail(t, reason), actor, order, again, id) && OnlyReplays(Retry(t), actor, order, again, id)
  {
  }

  lemma EndedReplays(t: Txn, actor: Actor, order: Id, again: ConvertReq, id: Id)
    requires OnlyReplays(t, actor, order, again, id) && t.pc.Ready?
    ensures OnlyReplays(Ended(t, Finished(t.pc.ev)), actor, order, again, id)
  {
  }

  lemma ReplayMoves(s: Sys, m: Move, s': Sys, u: nat, actor: Actor, order: Id, req: ConvertReq, again: ConvertReq, id: Id)
    requires Next(s, m, s') && u in s.txns
    requires Redeemed(s.db, actor, order, req, id) && OnlyReplays(s.txns[u], actor, order, again, id)
    ensures u in s'.txns && OnlyReplays(s'.txns[u], actor, order, again, id)
  {
    hide Redeemed, OnlyReplays, Statement, Active, Guard, Effect, Apply, Fail, Retry;
    match m {
      case Execute(t, newId, now) =>
        if t == u {
          ReplaySteps(s.db, HeldByOthers(s, u), s.txns[u], newId, now, actor, order, req, again, id);
        }
      case Commit(t) =>
        if t == u {
          EndedReplays(s.txns[u], actor, order, again, id);
        }
      case Abort(t, reason) =>
        if t == u {
          AbandonedReplays(s.txns[u], actor, order, again, id, reason);
        }
      case Conflict(t) =>
        if t == u {
          AbandonedReplays(s.txns[u], actor, order, again, id, InternalError);
        }
      case _ =>
    }
  }

  /**
   In every run: a held-order checkout begun after a finished one of the same order, by the same caller and whatever its
   key, version and payment, never holds a row, never writes one, and if it succeeds reports the same sale.
   */
  lemma {:induction false} RepeatedConversionNeverWrites(db0: Store, states: seq<Sys>, moves: seq<Move>, i: nat, t: nat,
                                                         k: nat, u: nat, again: ConvertReq, j: nat)
    requires Behavior(db0, states, moves) && i <= k < j < |states|
    requires t in states[i].txns && states[i].txns[t].pc.Finished?
    requires states[i].txns[t].job.ConvertJob? && SaleOfEvent(states[i].txns[t].pc.ev).Some?
    requires moves[k] == Begin(u, ConvertJob(states[i].txns[t].job.actor, states[i].txns[t].job.order, again))
    ensures var job, id := states[i].txns[t].job, SaleOfEvent(states[i].txns[t].pc.ev).value;
            u in states[j].txns && OnlyReplays(states[j].txns[u], job.actor, job.order, again, id)
    decreases j
  {
    hide Inv, Redeemed, Statement, Active, Guard, Effect, Apply;
    var job, id := states[i].txns[t].job, SaleOfEvent(states[i].txns[t].pc.ev).value;
    assert Next(states[j - 1], moves[j - 1], states[j]);
    if j > k + 1 {
      RepeatedConversionNeverWrites(db0, states, moves, i, t, k, u, again, j - 1);
      ReportStays(db0, states, moves, i, j - 1, t);
      ReplayMoves(states[j - 1], moves[j - 1], states[j], u, job.actor, job.order, job.convert, again, id);
    }
  }
}
