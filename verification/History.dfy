/** Theorems over whole committed histories: conservation, exactly-once sales, the held-order state machine, replays. */
module History {
  import opened Base
  import opened Schema
  import opened SameRequest
  import opened Core
  import opened CoreFacts
  import opened HeldOrders
  import opened HeldOrderFacts
  import opened Ledger
  import opened LedgerFacts

  ghost predicate Valid(db0: Store, tr: seq<Event>)
    decreases |tr|, 0
  {
    tr == [] || (Valid(db0, tr[..|tr| - 1]) && Guard(Run(db0, tr[..|tr| - 1]), tr[|tr| - 1]))
  }

  /** The database after a history: the fold of its events. */
  ghost function Run(db0: Store, tr: seq<Event>): Store
    requires Valid(db0, tr)
    decreases |tr|, 1
  {
    if tr == [] then db0 else Effect(Run(db0, tr[..|tr| - 1]), tr[|tr| - 1])
  }

  lemma {:induction false} PrefixValid(db0: Store, tr: seq<Event>, i: nat)
    requires Valid(db0, tr) && i <= |tr|
    ensures Valid(db0, tr[..i])
  {
    if i < |tr| {
      PrefixValid(db0, tr[..|tr| - 1], i);
      assert tr[..|tr| - 1][..i] == tr[..i];
    } else {
      assert tr[..i] == tr;
    }
  }

  /** The state before event i; i == |tr| is the final state. */
  ghost function At(db0: Store, tr: seq<Event>, i: nat): Store
    requires Valid(db0, tr) && i <= |tr|
  {
    PrefixValid(db0, tr, i);
    Run(db0, tr[..i])
  }

  lemma Step(db0: Store, tr: seq<Event>, i: nat)
    requires Valid(db0, tr) && i < |tr|
    ensures Guard(At(db0, tr, i), tr[i]) && At(db0, tr, i + 1) == Effect(At(db0, tr, i), tr[i])
  {
    PrefixValid(db0, tr, i + 1);
    assert tr[..i + 1][..i] == tr[..i];
  }

  /** The invariant holds after every committed history. */
  lemma {:induction false} InvariantAlways(db0: Store, tr: seq<Event>)
    requires Inv(db0) && Valid(db0, tr)
    ensures Inv(Run(db0, tr))
  {
    if tr != [] {
      InvariantAlways(db0, tr[..|tr| - 1]);
      EventKeeps(Run(db0, tr[..|tr| - 1]), tr[|tr| - 1]);
    }
  }

  lemma InvariantAt(db0: Store, tr: seq<Event>, i: nat)
    requires Inv(db0) && Valid(db0, tr) && i <= |tr|
    ensures Inv(At(db0, tr, i))
  {
    PrefixValid(db0, tr, i);
    InvariantAlways(db0, tr[..i]);
  }

  /** No committed state has a closed session with an open order that originated from it. */
  lemma ClosedShiftsHaveNoOpenOrders(db0: Store, tr: seq<Event>, o: Id)
    requires Inv(db0) && Valid(db0, tr) && o in Run(db0, tr).orders
    ensures var db := Run(db0, tr);
            db.orders[o].session in db.sessions
            && (!db.sessions[db.orders[o].session].open ==> db.orders[o].status != Open)
  {
    InvariantAlways(db0, tr);
    assert OrderOk(Run(db0, tr), Run(db0, tr).orders[o]);
  }

  // ---------- stock ----------

  lemma {:induction false} MovementSumConcat(a: seq<Movement>, b: seq<Movement>, k: StockKey)
    ensures MovementSum(a + b, k) == MovementSum(a, k) + MovementSum(b, k)
  {
    if b == [] {
      assert a + b == a;
    } else {
      var n := |b| - 1;
      MovementSumConcat(a, b[..n], k);
      assert (a + b)[..|a + b| - 1] == a + b[..n];
    }
  }

  lemma {:induction false} SaleMovementSum(id: Id, sale: Sale, decs: seq<Dec>, k: StockKey)
    ensures MovementSum(SaleMovements(id, sale, decs), k) == if k.outlet == sale.outlet then -Taken(decs, k.product) else 0
  {
    if decs != [] {
      var n := |decs| - 1;
      SaleMovementSum(id, sale, decs[..n], k);
      assert SaleMovements(id, sale, decs)[..n] == SaleMovements(id, sale, decs[..n]);
    }
  }

  lemma UntouchedStock(decs: seq<Dec>, p: Id)
    requires forall d <- decs :: d.product != p
    ensures Taken(decs, p) == 0
  {
    if decs != [] {
      UntouchedStock(decs[..|decs| - 1], p);
    }
  }

  ghost predicate Conserves(a: Store, b: Store, k: StockKey) {
    && StockAt(b.stock, k) - MovementSum(b.movements, k) == StockAt(a.stock, k) - MovementSum(a.movements, k)
    && a.movements <= b.movements
  }

  lemma WriteSaleConserves(db: Store, id: Id, w: Written, k: StockKey)
    requires CanWrite(db, id, w)
    ensures Conserves(db, WriteSale(db, id, w), k)
  {
    var decs := DecsOf(w);
    MovementSumConcat(db.movements, SaleMovements(id, w.sale, decs), k);
    SaleMovementSum(id, w.sale, decs, k);
    if k !in db.stock && k.outlet == w.sale.outlet {
      forall d <- decs ensures d.product != k.product {
        var i :| 0 <= i < |decs| && decs[i] == d;
        assert StockKey(w.sale.outlet, decs[i].product) in db.stock;
      }
      UntouchedStock(decs, k.product);
    }
  }

  lemma AdjustConserves(db: Store, id: Id, a: Adjustment, k: StockKey)
    ensures Conserves(db, AdjustStock(db, id, a), k)
  {
    MovementSumConcat(db.movements, [AdjustmentMovementOf(id, a)], k);
    assert MovementSum([AdjustmentMovementOf(id, a)], k) == if a.at == k then SignedQuantity(a) else 0;
  }

  lemma ConvertConserves(db: Store, ev: Event, k: StockKey)
    requires ev.HeldConverted? && Guard(db, ev)
    ensures Conserves(db, Effect(db, ev), k)
  {
    if ev.written.Some? {
      WriteSaleConserves(db, ev.sale, ev.written.value, k);
    }
  }

  lemma EventConserves(db: Store, ev: Event, k: StockKey)
    requires Guard(db, ev)
    ensures Conserves(db, Effect(db, ev), k)
  {
    match ev {
      case SaleWritten(id, w) => WriteSaleConserves(db, id, w, k);
      case HeldConverted(_, _, _, _, _, _, _) => ConvertConserves(db, ev, k);
      case StockAdjusted(id, a) => AdjustConserves(db, id, a, k);
      case _ =>
    }
  }

  lemma {:induction false} ConservedAlong(db0: Store, tr: seq<Event>, k: StockKey)
    requires Valid(db0, tr)
    ensures Conserves(db0, Run(db0, tr), k)
  {
    if tr != [] {
      ConservedAlong(db0, tr[..|tr| - 1], k);
      EventConserves(Run(db0, tr[..|tr| - 1]), tr[|tr| - 1], k);
    }
  }

  lemma ConservedMeans(a: Store, b: Store, k: StockKey)
    requires Conserves(a, b, k)
    ensures StockAt(b.stock, k) == StockAt(a.stock, k) + MovementSum(b.movements[|a.movements|..], k)
  {
    MovementSumConcat(a.movements, b.movements[|a.movements|..], k);
    assert b.movements == a.movements + b.movements[|a.movements|..];
  }

  lemma StockStaysNonNegative(db0: Store, tr: seq<Event>, k: StockKey)
    requires Inv(db0) && Valid(db0, tr)
    ensures StockAt(Run(db0, tr).stock, k) >= 0
  {
    InvariantAlways(db0, tr);
  }

  /**
   Ledger conservation: after any history every balance is non-negative and equals its initial value plus the sum of
   the movements appended since.
   */
  lemma StockIsTheSumOfMovements(db0: Store, tr: seq<Event>, k: StockKey)
    requires Inv(db0) && Valid(db0, tr)
    ensures var db := Run(db0, tr);
            && db0.movements <= db.movements
            && StockAt(db.stock, k) == StockAt(db0.stock, k) + MovementSum(db.movements[|db0.movements|..], k)
            && StockAt(db.stock, k) >= 0
  {
    ConservedAlong(db0, tr, k);
    ConservedMeans(db0, Run(db0, tr), k);
    StockStaysNonNegative(db0, tr, k);
  }

  // ---------- what only grows ----------

  ghost predicate SalesGrow(a: Store, b: Store) {
    forall s <- a.sales :: s in b.sales && b.sales[s] == a.sales[s]
  }

  /** An order row either stays, or was open and moves to the next version; terminal rows never change. */
  ghost predicate OrderMoves(a: Store, b: Store, id: Id) {
    id in a.orders ==>
      && id in b.orders
      && (b.orders[id] == a.orders[id] || (a.orders[id].status == Open && b.orders[id].version == a.orders[id].version + 1))
  }

  lemma EventGrows(db: Store, ev: Event)
    requires Guard(db, ev)
    ensures SalesGrow(db, Effect(db, ev))
  {
  }

  lemma OrderEventMoves(db: Store, ev: Event, id: Id)
    requires Guard(db, ev)
    ensures OrderMoves(db, Effect(db, ev), id)
  {
  }

  lemma EventMoves(db: Store, ev: Event, id: Id)
    requires Guard(db, ev)
    ensures SalesGrow(db, Effect(db, ev)) && OrderMoves(db, Effect(db, ev), id)
  {
    EventGrows(db, ev);
    OrderEventMoves(db, ev, id);
  }

  lemma {:induction false} SalesAreKept(db0: Store, tr: seq<Event>, i: nat, j: nat)
    requires Valid(db0, tr) && i <= j <= |tr|
    ensures SalesGrow(At(db0, tr, i), At(db0, tr, j))
    decreases j
  {
    hide Guard, Effect, OrderMoves;
    if i < j {
      SalesAreKept(db0, tr, i, j - 1);
      Step(db0, tr, j - 1);
      EventMoves(At(db0, tr, j - 1), tr[j - 1], "");
    }
  }

  /** Versions never fall, a version determines the whole row, and CANCELLED and CONVERTED are absorbing. */
  lemma {:induction false} VersionDeterminesRow(db0: Store, tr: seq<Event>, i: nat, j: nat, id: Id)
    requires Valid(db0, tr) && i <= j <= |tr| && id in At(db0, tr, i).orders
    ensures id in At(db0, tr, j).orders
    ensures var a, b := At(db0, tr, i).orders[id], At(db0, tr, j).orders[id];
            && a.version <= b.version
            && (a.version == b.version || a.status != Open ==> a == b)
    decreases j
  {
    hide Guard, Effect, SalesGrow;
    if i < j {
      VersionDeterminesRow(db0, tr, i, j - 1, id);
      Step(db0, tr, j - 1);
      EventMoves(At(db0, tr, j - 1), tr[j - 1], id);
    }
  }

  // ---------- exactly-once sales ----------

  /** The sale an event reports to its caller, with the key it was asked for. */
  datatype SaleReport = NoReport | ForSale(tenant: Id, key: Id, sale: Id)

  ghost function ReportOf(db: Store, ev: Event): SaleReport
    requires Guard(db, ev)
  {
    match ev
    case SaleWritten(id, w) => ForSale(w.sale.tenant, w.sale.key, id)
    case SaleReplayed(tenant, key, id) => ForSale(tenant, key, id)
    case HeldConverted(id, expected, key, sale, written, submitted, at) => ForSale(db.orders[id].tenant, key, sale)
    case HeldReplayed(id, tenant, key, sale) => ForSale(tenant, key, sale)
    case _ => NoReport
  }

  predicate Writes(ev: Event, id: Id) {
    (ev.SaleWritten? && ev.id == id) || (ev.HeldConverted? && ev.written.Some? && ev.sale == id)
  }

  lemma AnswersAreStored(db: Store, ev: Event)
    requires Guard(db, ev) && ReportOf(db, ev).ForSale?
    ensures var a := ReportOf(db, ev); HasKey(Effect(db, ev), a.tenant, a.key, a.sale)
  {
  }

  /** Event i of the history answers its caller with a. */
  ghost predicate Answers(db0: Store, tr: seq<Event>, i: nat, a: SaleReport) {
    && Valid(db0, tr) && i < |tr| && a.ForSale?
    && Guard(At(db0, tr, i), tr[i]) && a == ReportOf(At(db0, tr, i), tr[i])
  }

  /** An answer's sale is still stored under its key at any later point. */
  lemma AnswerStaysStored(db0: Store, tr: seq<Event>, i: nat, j: nat, a: SaleReport)
    requires Answers(db0, tr, i, a) && i < j <= |tr|
    ensures HasKey(At(db0, tr, j), a.tenant, a.key, a.sale)
  {
    Step(db0, tr, i);
    AnswersAreStored(At(db0, tr, i), tr[i]);
    SalesAreKept(db0, tr, i + 1, j);
  }

  lemma OneSalePerKey(db0: Store, tr: seq<Event>, i: nat, tenant: Id, key: Id, x: Id, y: Id)
    requires Inv(db0) && Valid(db0, tr) && i <= |tr|
    requires HasKey(At(db0, tr, i), tenant, key, x) && HasKey(At(db0, tr, i), tenant, key, y)
    ensures x == y
  {
    InvariantAt(db0, tr, i);
  }

  lemma WritesOnlyNewKeys(db0: Store, tr: seq<Event>, j: nat, b: SaleReport, x: Id)
    requires Answers(db0, tr, j, b) && HasKey(At(db0, tr, j), b.tenant, b.key, x)
    ensures forall id :: !Writes(tr[j], id)
  {
  }

  lemma AnswersAgree(db0: Store, tr: seq<Event>, i: nat, j: nat, a: SaleReport, b: SaleReport)
    requires Inv(db0) && i < j && Answers(db0, tr, i, a) && Answers(db0, tr, j, b)
    requires a.tenant == b.tenant && a.key == b.key
    ensures a.sale == b.sale
  {
    hide Guard, Effect, ReportOf, Inv, HasKey, At;
    AnswerStaysStored(db0, tr, i, j + 1, a);
    AnswerStaysStored(db0, tr, j, j + 1, b);
    OneSalePerKey(db0, tr, j + 1, a.tenant, a.key, a.sale, b.sale);
  }

  /**
   Every success for a key, from direct checkouts, held-order checkouts and retries of either, at any two points of any
   history, reports the same stored sale, and only the first of them can have written it.
   */
  lemma ExactlyOnce(db0: Store, tr: seq<Event>, i: nat, j: nat, a: SaleReport, b: SaleReport)
    requires Inv(db0) && i < j && Answers(db0, tr, i, a) && Answers(db0, tr, j, b)
    requires a.tenant == b.tenant && a.key == b.key
    ensures a.sale == b.sale
    ensures forall id :: !Writes(tr[j], id)
  {
    hide Guard, Effect, ReportOf, Inv, HasKey, At;
    AnswersAgree(db0, tr, i, j, a, b);
    AnswerStaysStored(db0, tr, i, j, a);
    WritesOnlyNewKeys(db0, tr, j, b, a.sale);
  }

  /** The movements that refer to a sale. */
  ghost function TakenBy(ms: seq<Movement>, id: Id): seq<Movement> {
    if ms == [] then []
    else TakenBy(ms[..|ms| - 1], id)
         + (if ms[|ms| - 1].kind == SaleMovement && ms[|ms| - 1].reference == id then [ms[|ms| - 1]] else [])
  }

  lemma {:induction false} TakenByConcat(a: seq<Movement>, b: seq<Movement>, id: Id)
    ensures TakenBy(a + b, id) == TakenBy(a, id) + TakenBy(b, id)
  {
    if b == [] {
      assert a + b == a;
    } else {
      var n := |b| - 1;
      TakenByConcat(a, b[..n], id);
      assert (a + b)[..|a + b| - 1] == a + b[..n];
    }
  }

  lemma {:induction false} TakenByNone(ms: seq<Movement>, id: Id)
    requires forall i :: 0 <= i < |ms| && ms[i].kind == SaleMovement ==> ms[i].reference != id
    ensures TakenBy(ms, id) == []
  {
    if ms != [] {
      TakenByNone(ms[..|ms| - 1], id);
    }
  }

  lemma {:induction false} TakenByAll(ms: seq<Movement>, id: Id)
    requires forall i :: 0 <= i < |ms| ==> ms[i].kind == SaleMovement && ms[i].reference == id
    ensures TakenBy(ms, id) == ms
  {
    if ms != [] {
      TakenByAll(ms[..|ms| - 1], id);
      assert ms == ms[..|ms| - 1] + [ms[|ms| - 1]];
    }
  }

  ghost function WrittenBy(ev: Event): Written
    requires ev.SaleWritten? || (ev.HeldConverted? && ev.written.Some?)
  {
    if ev.SaleWritten? then ev.w else ev.written.value
  }

  ghost function MovementsOf(ev: Event, id: Id): seq<Movement>
    requires Writes(ev, id)
  {
    SaleMovements(id, WrittenBy(ev).sale, DecsOf(WrittenBy(ev)))
  }

  /** The movement rows an event appends. */
  ghost function Appended(ev: Event): seq<Movement> {
    if ev.SaleWritten? then MovementsOf(ev, ev.id)
    else if ev.HeldConverted? && ev.written.Some? then MovementsOf(ev, ev.sale)
    else if ev.StockAdjusted? then [AdjustmentMovementOf(ev.id, ev.adjustment)]
    else []
  }

  lemma EventAppends(db: Store, ev: Event)
    requires Guard(db, ev)
    ensures Effect(db, ev).movements == db.movements + Appended(ev)
    ensures forall id :: Writes(ev, id) ==> id !in db.sales && id in Effect(db, ev).sales
  {
    hide MoneyInvariant, SaleFits, StockCovers, Links, HeaderOk, SessionFits, NoOpenOrders, NoOpenSession, DecsOf, SaleMovements;
  }

  lemma OwnTakes(ms: seq<Movement>, ev: Event, id: Id)
    requires Writes(ev, id) && forall i :: 0 <= i < |ms| && ms[i].kind == SaleMovement ==> ms[i].reference != id
    ensures TakenBy(ms + Appended(ev), id) == MovementsOf(ev, id)
  {
    TakenByConcat(ms, Appended(ev), id);
    TakenByNone(ms, id);
    TakenByAll(Appended(ev), id);
  }

  lemma OtherTakes(ms: seq<Movement>, ev: Event, id: Id)
    requires !Writes(ev, id)
    ensures TakenBy(ms + Appended(ev), id) == TakenBy(ms, id)
  {
    TakenByConcat(ms, Appended(ev), id);
    TakenByNone(Appended(ev), id);
  }

  lemma EventTakes(db: Store, ev: Event, id: Id)
    requires MovementsRefer(db) && Guard(db, ev)
    ensures TakenBy(Effect(db, ev).movements, id) ==
            if Writes(ev, id) then MovementsOf(ev, id) else TakenBy(db.movements, id)
  {
    EventAppends(db, ev);
    if Writes(ev, id) {
      OwnTakes(db.movements, ev, id);
    } else {
      OtherTakes(db.movements, ev, id);
    }
  }

  lemma WrittenOnce(db: Store, ev: Event, id: Id)
    requires Guard(db, ev) && id in db.sales
    ensures !Writes(ev, id) && id in Effect(db, ev).sales
  {
    EventAppends(db, ev);
    EventGrows(db, ev);
  }

  lemma WrittenNow(db: Store, ev: Event, id: Id)
    requires MovementsRefer(db) && Guard(db, ev) && Writes(ev, id)
    ensures id in Effect(db, ev).sales && TakenBy(Effect(db, ev).movements, id) == MovementsOf(ev, id)
  {
    EventTakes(db, ev, id);
    EventAppends(db, ev);
  }

  lemma SaleMovementsRefer(db0: Store, tr: seq<Event>, i: nat)
    requires Inv(db0) && Valid(db0, tr) && i <= |tr|
    ensures MovementsRefer(At(db0, tr, i))
  {
    InvariantAt(db0, tr, i);
  }

  /** The sale is stored at state j and the movements that refer to it are ms. */
  ghost predicate TookExactly(db0: Store, tr: seq<Event>, j: nat, id: Id, ms: seq<Movement>) {
    Valid(db0, tr) && j <= |tr| && id in At(db0, tr, j).sales && TakenBy(At(db0, tr, j).movements, id) == ms
  }

  lemma StillTaken(db0: Store, tr: seq<Event>, j: nat, id: Id, ms: seq<Movement>)
    requires Inv(db0) && TookExactly(db0, tr, j, id, ms) && j < |tr|
    ensures TookExactly(db0, tr, j + 1, id, ms)
  {
    Step(db0, tr, j);
    SaleMovementsRefer(db0, tr, j);
    WrittenOnce(At(db0, tr, j), tr[j], id);
    EventTakes(At(db0, tr, j), tr[j], id);
  }

  lemma TakenAtFirst(db0: Store, tr: seq<Event>, i: nat, id: Id)
    requires Inv(db0) && Valid(db0, tr) && i < |tr| && Writes(tr[i], id)
    ensures TookExactly(db0, tr, i + 1, id, MovementsOf(tr[i], id))
  {
    Step(db0, tr, i);
    SaleMovementsRefer(db0, tr, i);
    WrittenNow(At(db0, tr, i), tr[i], id);
  }

  /** A sale's stock is taken once: whatever follows, the movements that refer to it are those of its own write. */
  lemma {:induction false} StockTakenOnce(db0: Store, tr: seq<Event>, i: nat, j: nat, id: Id)
    requires Inv(db0) && Valid(db0, tr) && i < j <= |tr| && Writes(tr[i], id)
    ensures TookExactly(db0, tr, j, id, MovementsOf(tr[i], id))
    decreases j
  {
    hide TookExactly, Guard, Effect, Inv, MovementsOf;
    if i == j - 1 {
      TakenAtFirst(db0, tr, i, id);
    } else {
      StockTakenOnce(db0, tr, i, j - 1, id);
      StillTaken(db0, tr, j - 1, id, MovementsOf(tr[i], id));
    }
  }

  // ---------- the held-order state machine ----------

  predicate Advances(ev: Event, id: Id) {
    (ev.HeldUpdated? || ev.HeldCancelled? || ev.HeldConverted?) && ev.id == id
  }

  /** An update, cancellation or conversion that succeeds finds the order open at the expected version and leaves the next. */
  lemma EventAdvances(db: Store, ev: Event, id: Id)
    requires Guard(db, ev) && Advances(ev, id)
    ensures OpenAt(db, id, ev.expected)
    ensures id in Effect(db, ev).orders && Effect(db, ev).orders[id].version == ev.expected + 1
  {
  }

  /** At most one request succeeds per (order, version); later successes expect strictly later versions. */
  lemma OneSuccessPerVersion(db0: Store, tr: seq<Event>, i: nat, j: nat, id: Id)
    requires Valid(db0, tr) && i < j < |tr| && Advances(tr[i], id) && Advances(tr[j], id)
    ensures tr[i].expected < tr[j].expected
  {
    Step(db0, tr, i);
    Step(db0, tr, j);
    EventAdvances(At(db0, tr, i), tr[i], id);
    EventAdvances(At(db0, tr, j), tr[j], id);
    VersionDeterminesRow(db0, tr, i + 1, j, id);
  }

  /** An order is CONVERTED exactly when it links to a stored sale, and that sale is this order's: same tenant, outlet,
      session, cashier and bag of lines, completed. */
  lemma ConvertedIffLinked(db0: Store, tr: seq<Event>, id: Id)
    requires Inv(db0) && Valid(db0, tr) && id in Run(db0, tr).orders
    ensures var db := Run(db0, tr); var o := db.orders[id];
            && (o.status == Converted <==> o.sale.Some?)
            && (o.sale.Some? ==> o.sale.value in db.sales && Links(o, db.sales[o.sale.value]))
  {
    InvariantAlways(db0, tr);
    assert OrderOk(Run(db0, tr), Run(db0, tr).orders[id]);
  }

  lemma ConversionWrites(db: Store, ev: Event)
    requires ev.HeldConverted? && Guard(db, ev)
    ensures ev.id in db.orders && OriginOpen(db, db.orders[ev.id]) && db.orders[ev.id].version == ev.expected
    ensures ev.submitted == RequestLines(db.orders[ev.id].items)
    ensures ev.sale in Effect(db, ev).sales && Links(db.orders[ev.id], Effect(db, ev).sales[ev.sale])
    ensures ev.written.Some? ==> Map(PersistedLine, Effect(db, ev).sales[ev.sale].items) == ev.submitted
  {
  }

  /**
   A conversion submits to the sale core exactly the lines committed at the version it expected, whatever else was
   committed before it, and commits while its origin session is open. The rows of the sale it writes read back, in order,
   as those lines; a sale it finds already stored has them as a bag.
   */
  lemma ConversionSubmitsItsVersion(db0: Store, tr: seq<Event>, i: nat, j: nat, id: Id)
    requires Inv(db0) && Valid(db0, tr) && i <= j < |tr| && tr[j].HeldConverted? && tr[j].id == id
    requires id in At(db0, tr, i).orders && At(db0, tr, i).orders[id].version == tr[j].expected
    ensures tr[j].submitted == RequestLines(At(db0, tr, i).orders[id].items)
    ensures id in At(db0, tr, j).orders && OriginOpen(At(db0, tr, j), At(db0, tr, j).orders[id])
    ensures tr[j].sale in At(db0, tr, j + 1).sales
    ensures var rows := Map(PersistedLine, At(db0, tr, j + 1).sales[tr[j].sale].items);
            var lines := RequestLines(At(db0, tr, i).orders[id].items);
            LineBag(rows) == LineBag(lines) && (tr[j].written.Some? ==> rows == lines)
  {
    Step(db0, tr, j);
    ConversionWrites(At(db0, tr, j), tr[j]);
    VersionDeterminesRow(db0, tr, i, j, id);
  }

  /** In every reachable state a held order's estimates are the sums over its rows, numbered 0..n-1 in order. */
  lemma HeadersAgree(db0: Store, tr: seq<Event>, id: Id)
    requires Inv(db0) && Valid(db0, tr) && id in Run(db0, tr).orders
    ensures var o := Run(db0, tr).orders[id];
            && o.subtotal == LineTotals(o.items) && o.total == o.subtotal + o.tax
            && forall i :: 0 <= i < |o.items| ==>
                 && o.items[i].displayOrder == i
                 && o.items[i].lineTotal == o.items[i].effectivePrice * o.items[i].quantity
                 && o.items[i].effectivePrice == o.items[i].basePrice + ModifierDelta(o.items[i].modifiers)
  {
    InvariantAlways(db0, tr);
    var o := Run(db0, tr).orders[id];
    assert OrderOk(Run(db0, tr), o);
    forall i | 0 <= i < |o.items| ensures HeldItemOk(o.items[i], i) {
    }
  }
}
