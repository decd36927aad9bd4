/** What a commit leaves alone: the rely/guarantee half of the refinement. */
module Frames {
  import opened Base
  import opened Schema
  import opened Core
  import opened CoreFacts
  import opened HeldOrders
  import opened Ledger
  import opened History
  import opened Transactions

  function StockRows(outlet: Id, decs: seq<Dec>): set<Row> {
    set i | 0 <= i < |decs| :: StockRow(StockKey(outlet, decs[i].product))
  }

  function WriteRows(id: Id, w: Written): set<Row> {
    {NewRow(id), SaleKeyRow(w.sale.tenant, w.sale.key)} + StockRows(w.sale.outlet, DecsOf(w))
  }

  /** The rows an event needs locked when it commits. */
  function Touches(ev: Event): set<Row> {
    match ev
    case SaleWritten(id, w) => WriteRows(id, w)
    case SaleReplayed(_, _, _) => {}
    case HeldCreated(id, order) => {NewRow(id), SessionRow(order.session)}
    case HeldUpdated(id, _, _) => {OrderRow(id)}
    case HeldCancelled(id, _, _) => {OrderRow(id)}
    case HeldConverted(id, _, _, sale, written, _, _) =>
      {OrderRow(id)} + (if written.Some? then WriteRows(sale, written.value) else {})
    case HeldReplayed(_, _, _, _) => {}
    case ShiftOpened(id, session) => {NewRow(id), OpenShiftRow(session.tenant, session.user)}
    case ShiftClosed(id, _) => {SessionRow(id)}
    case StockAdjusted(id, a) => {NewRow(id), StockRow(a.at)}
    case Administered(_, _, _, _, _) => {}
  }

  ghost predicate SameStock(a: Store, b: Store, k: StockKey) {
    (k in a.stock <==> k in b.stock) && (k in a.stock ==> a.stock[k] == b.stock[k])
  }

  /** A generated id that names no row of any table yet. */
  ghost predicate Unused(db: Store, id: Id) {
    id !in db.sales && id !in db.orders && id !in db.sessions && id !in db.adjustments
  }

  ghost predicate SessionsKept(a: Store, b: Store) {
    forall s <- a.sessions ::
      s in b.sessions && b.sessions[s].tenant == a.sessions[s].tenant && b.sessions[s].outlet == a.sessions[s].outlet
      && b.sessions[s].user == a.sessions[s].user
  }

  /** What holds between the states before and after commits by others, for a transaction holding the rows L. */
  ghost predicate Frame(a: Store, b: Store, L: set<Row>) {
    && SalesGrow(a, b) && SessionsKept(a, b)
    && (forall id :: OrderMoves(a, b, id))
    && (forall id :: NewRow(id) in L && Unused(a, id) ==> Unused(b, id))
    && (forall t, k :: SaleKeyRow(t, k) in L && !KeyTaken(a, t, k) ==> !KeyTaken(b, t, k))
    && (forall k :: StockRow(k) in L ==> SameStock(a, b, k))
    && (forall id :: OrderRow(id) in L && id in a.orders ==> id in b.orders && b.orders[id] == a.orders[id])
    && (forall id :: SessionRow(id) in L && id in a.sessions ==> id in b.sessions && b.sessions[id] == a.sessions[id])
    && (forall id :: SessionRow(id) in L && id in a.sessions && NoOpenOrders(a, id) ==> NoOpenOrders(b, id))
    && (forall t, u :: OpenShiftRow(t, u) in L && NoOpenSession(a, t, u) ==> NoOpenSession(b, t, u))
  }

  /** A commit whose rows are disjoint from L is a frame step for L. */
  lemma WriteFrames(db: Store, id: Id, w: Written, L: set<Row>)
    requires CanWrite(db, id, w) && WriteRows(id, w) !! L
    ensures Frame(db, WriteSale(db, id, w), L)
  {
    hide MoneyInvariant, SaleFits;
    var b := WriteSale(db, id, w);
    forall k | StockRow(k) in L ensures SameStock(db, b, k) {
      if k in db.stock && k.outlet == w.sale.outlet {
        forall d <- DecsOf(w) ensures d.product != k.product {
          var i :| 0 <= i < |DecsOf(w)| && DecsOf(w)[i] == d;
          assert StockRow(StockKey(w.sale.outlet, d.product)) in StockRows(w.sale.outlet, DecsOf(w));
        }
        UntouchedStock(DecsOf(w), k.product);
      }
    }
    assert forall x, t, k :: x != id ==> (HasKey(b, t, k, x) <==> HasKey(db, t, k, x));
    assert forall t, k :: HasKey(b, t, k, id) ==> t == w.sale.tenant && k == w.sale.key;
  }

  lemma OrderFrames(db: Store, id: Id, order: HeldOrder, L: set<Row>)
    requires id in db.orders ==> OrderRow(id) !in L && db.orders[id].status == Open && order.version == db.orders[id].version + 1
                                 && order.session == db.orders[id].session
    requires id !in db.orders ==> NewRow(id) !in L && SessionRow(order.session) !in L
    ensures Frame(db, db.(orders := db.orders[id := order]), L)
  {
    var b := db.(orders := db.orders[id := order]);
    assert forall x, t, k :: HasKey(b, t, k, x) <==> HasKey(db, t, k, x);
  }

  lemma FrameTransitive(a: Store, b: Store, c: Store, L: set<Row>)
    requires Frame(a, b, L) && Frame(b, c, L)
    requires b.orders == a.orders
    ensures Frame(a, c, L)
  {
    forall id ensures OrderMoves(a, c, id) {
      assert OrderMoves(a, b, id) && OrderMoves(b, c, id);
    }
  }

  lemma ConvertFrames(db: Store, ev: Event, L: set<Row>)
    requires ev.HeldConverted? && Guard(db, ev) && Touches(ev) !! L
    ensures Frame(db, Effect(db, ev), L)
  {
    var order := ConvertedOrder(db.orders[ev.id], ev.sale, ev.at);
    if ev.written.Some? {
      var mid := WriteSale(db, ev.sale, ev.written.value);
      WriteFrames(db, ev.sale, ev.written.value, L);
      OrderFrames(mid, ev.id, order, L);
      FrameTransitive(db, mid, Effect(db, ev), L);
    } else {
      OrderFrames(db, ev.id, order, L);
    }
  }

  lemma SessionFrames(db: Store, b: Store, L: set<Row>)
    requires b == db.(sessions := b.sessions) && SessionsKept(db, b)
    requires forall id :: SessionRow(id) in L && id in db.sessions ==> b.sessions[id] == db.sessions[id]
    requires forall id :: NewRow(id) in L && Unused(db, id) ==> Unused(b, id)
    requires forall t, u :: OpenShiftRow(t, u) in L && NoOpenSession(db, t, u) ==> NoOpenSession(b, t, u)
    ensures Frame(db, b, L)
  {
    assert forall x, t, k :: HasKey(b, t, k, x) <==> HasKey(db, t, k, x);
  }

  lemma OpenShiftFrames(db: Store, id: Id, session: Session, L: set<Row>)
    requires Guard(db, ShiftOpened(id, session)) && Touches(ShiftOpened(id, session)) !! L
    ensures Frame(db, Effect(db, ShiftOpened(id, session)), L)
  {
    SessionFrames(db, Effect(db, ShiftOpened(id, session)), L);
  }

  lemma CloseShiftFrames(db: Store, id: Id, at: int, L: set<Row>)
    requires Guard(db, ShiftClosed(id, at)) && Touches(ShiftClosed(id, at)) !! L
    ensures Frame(db, Effect(db, ShiftClosed(id, at)), L)
  {
    SessionFrames(db, Effect(db, ShiftClosed(id, at)), L);
  }

  lemma AdjustFrames(db: Store, id: Id, a: Adjustment, L: set<Row>)
    requires StockRow(a.at) !in L && NewRow(id) !in L
    ensures Frame(db, AdjustStock(db, id, a), L)
  {
    assert forall x, t, k :: HasKey(AdjustStock(db, id, a), t, k, x) <==> HasKey(db, t, k, x);
  }

  lemma AdministerFrames(db: Store, b: Store, L: set<Row>)
    requires b == db.(tenants := b.tenants, users := b.users, outlets := b.outlets, customers := b.customers, catalog := b.catalog)
    ensures Frame(db, b, L)
  {
    assert forall x, t, k :: HasKey(b, t, k, x) <==> HasKey(db, t, k, x);
  }

  /** Every event, whoever commits it. */
  lemma EventFrames(db: Store, ev: Event, L: set<Row>)
    requires Guard(db, ev) && Touches(ev) !! L
    ensures Frame(db, Effect(db, ev), L)
  {
    match ev {
      case SaleWritten(id, w) => WriteFrames(db, id, w, L);
      case SaleReplayed(_, _, _) =>
      case HeldCreated(id, order) => OrderFrames(db, id, order, L);
      case HeldUpdated(id, _, order) => OrderFrames(db, id, order, L);
      case HeldCancelled(id, _, at) => OrderFrames(db, id, CancelledOrder(db.orders[id], at), L);
      case HeldConverted(_, _, _, _, _, _, _) => ConvertFrames(db, ev, L);
      case HeldReplayed(_, _, _, _) =>
      case ShiftOpened(id, session) => OpenShiftFrames(db, id, session, L);
      case ShiftClosed(id, at) => CloseShiftFrames(db, id, at, L);
      case StockAdjusted(id, a) => AdjustFrames(db, id, a, L);
      case Administered(_, _, _, _, _) => AdministerFrames(db, Effect(db, ev), L);
    }
  }

  // ---------- uncommitted writes and the event they amount to ----------

  /** The balances written by the first decrements, each computed from the balance its statement saw. */
  function StockWrites(stock: map<StockKey, int>, outlet: Id, decs: seq<Dec>): map<StockKey, int> {
    if decs == [] then map[]
    else
      var d := decs[|decs| - 1];
      StockWrites(stock, outlet, decs[..|decs| - 1])[StockKey(outlet, d.product) := StockAt(stock, StockKey(outlet, d.product)) - d.quantity]
  }

  lemma {:induction false} StockWritesKeys(stock: map<StockKey, int>, outlet: Id, decs: seq<Dec>)
    ensures forall k :: k in StockWrites(stock, outlet, decs) <==> StockRow(k) in StockRows(outlet, decs)
  {
    if decs != [] {
      var n := |decs| - 1;
      StockWritesKeys(stock, outlet, decs[..n]);
      forall k ensures k in StockWrites(stock, outlet, decs) <==> StockRow(k) in StockRows(outlet, decs) {
        if StockRow(k) in StockRows(outlet, decs) {
          var i :| 0 <= i < |decs| && k == StockKey(outlet, decs[i].product);
          if i < n { assert decs[..n][i] == decs[i]; }
        }
        if StockRow(k) in StockRows(outlet, decs[..n]) {
          var i :| 0 <= i < n && k == StockKey(outlet, decs[..n][i].product);
          assert decs[i] == decs[..n][i];
        }
      }
    }
  }

  lemma {:induction false} StockWritesValue(stock: map<StockKey, int>, outlet: Id, decs: seq<Dec>, k: StockKey)
    requires DistinctProducts(decs) && k in StockWrites(stock, outlet, decs)
    ensures k.outlet == outlet && StockWrites(stock, outlet, decs)[k] == StockAt(stock, k) - Taken(decs, k.product)
  {
    if decs != [] {
      var n := |decs| - 1;
      if k == StockKey(outlet, decs[n].product) {
        forall d <- decs[..n] ensures d.product != k.product {
          var i :| 0 <= i < n && decs[i] == d;
        }
        UntouchedStock(decs[..n], k.product);
      } else {
        StockWritesValue(stock, outlet, decs[..n], k);
      }
    }
  }

  /** Writing the rows one by one is taking the whole sale's stock at once. */
  lemma StockWritesAreTaken(stock: map<StockKey, int>, outlet: Id, decs: seq<Dec>)
    requires DistinctProducts(decs) && StockCovers(stock, outlet, decs)
    ensures stock + StockWrites(stock, outlet, decs) == TakeStock(stock, outlet, decs)
  {
    StockWritesKeys(stock, outlet, decs);
    var ws := StockWrites(stock, outlet, decs);
    forall k ensures k in ws ==> k in stock && ws[k] == TakeStock(stock, outlet, decs)[k] {
      if k in ws {
        var i :| 0 <= i < |decs| && k == StockKey(outlet, decs[i].product);
        StockWritesValue(stock, outlet, decs, k);
      }
    }
    forall k <- stock ensures k !in ws ==> stock[k] == TakeStock(stock, outlet, decs)[k] {
      if k !in ws && k.outlet == outlet {
        forall d <- decs ensures d.product != k.product {
          var i :| 0 <= i < |decs| && decs[i] == d;
          assert StockRow(StockKey(outlet, decs[i].product)) in StockRows(outlet, decs);
        }
        UntouchedStock(decs, k.product);
      }
    }
  }

  lemma {:induction false} StockWritesFramed(a: Store, b: Store, outlet: Id, decs: seq<Dec>, L: set<Row>)
    requires Frame(a, b, L) && StockRows(outlet, decs) <= L
    ensures StockWrites(a.stock, outlet, decs) == StockWrites(b.stock, outlet, decs)
    ensures StockCovers(a.stock, outlet, decs) ==> StockCovers(b.stock, outlet, decs)
  {
    forall i | 0 <= i < |decs| ensures SameStock(a, b, StockKey(outlet, decs[i].product)) {
      assert StockRow(StockKey(outlet, decs[i].product)) in StockRows(outlet, decs);
    }
    if decs != [] {
      var n := |decs| - 1;
      forall r <- StockRows(outlet, decs[..n]) ensures r in L {
        var i :| 0 <= i < n && r == StockRow(StockKey(outlet, decs[..n][i].product));
        assert decs[i] == decs[..n][i];
      }
      StockWritesFramed(a, b, outlet, decs[..n], L);
    }
  }

  function SaleWrites(db: Store, id: Id, w: Written): Writes {
    Writes(map[id := w.sale], StockWrites(db.stock, w.sale.outlet, DecsOf(w)), SaleMovements(id, w.sale, DecsOf(w)),
           map[], map[], map[])
  }

  /** The buffered writes a transaction must have made when it is ready to commit ev. */
  ghost function Delta(db: Store, ev: Event): Writes
    requires Guard(db, ev)
  {
    match ev
    case SaleWritten(id, w) => SaleWrites(db, id, w)
    case SaleReplayed(_, _, _) => NO_WRITES
    case HeldCreated(id, order) => NO_WRITES.(orders := map[id := order])
    case HeldUpdated(id, _, order) => NO_WRITES.(orders := map[id := order])
    case HeldCancelled(id, _, at) => NO_WRITES.(orders := map[id := CancelledOrder(db.orders[id], at)])
    case HeldConverted(id, _, _, sale, written, _, at) =>
      (if written.Some? then SaleWrites(db, sale, written.value) else NO_WRITES)
      .(orders := map[id := ConvertedOrder(db.orders[id], sale, at)])
    case HeldReplayed(_, _, _, _) => NO_WRITES
    case ShiftOpened(id, session) => NO_WRITES.(sessions := map[id := session])
    case ShiftClosed(id, at) => NO_WRITES.(sessions := map[id := db.sessions[id].(open := false, closedAt := Some(at))])
    case StockAdjusted(id, a) =>
      NO_WRITES.(stock := map[a.at := StockAt(db.stock, a.at) + SignedQuantity(a)], adjustments := map[id := a],
                movements := [AdjustmentMovementOf(id, a)])
    case Administered(_, _, _, _, _) => NO_WRITES
  }

  lemma DistinctDecs(w: Written)
    requires MoneyInvariant(w.sale)
    ensures DistinctProducts(DecsOf(w))
  {
    forall it <- w.sale.items ensures it.quantity >= 1 { assert ItemOk(it); }
    DecrementsExact(w.sale.items, w.tracked, "");
  }

  lemma WrittenStock(db: Store, id: Id, w: Written)
    requires CanWrite(db, id, w)
    ensures db.stock + StockWrites(db.stock, w.sale.outlet, DecsOf(w)) == TakeStock(db.stock, w.sale.outlet, DecsOf(w))
  {
    DistinctDecs(w);
    StockWritesAreTaken(db.stock, w.sale.outlet, DecsOf(w));
  }

  lemma EmptyUnion<K, V>(m: map<K, V>)
    ensures m + map[] == m
  {
  }

  lemma SingleUnion<K, V>(m: map<K, V>, k: K, v: V)
    ensures m + map[k := v] == m[k := v]
  {
  }

  lemma ApplySaleWrites(db: Store, id: Id, w: Written)
    requires db.stock + StockWrites(db.stock, w.sale.outlet, DecsOf(w)) == TakeStock(db.stock, w.sale.outlet, DecsOf(w))
    ensures Apply(db, SaleWrites(db, id, w)) == WriteSale(db, id, w)
  {
    EmptyUnion(db.adjustments);
    EmptyUnion(db.orders);
    EmptyUnion(db.sessions);
    SingleUnion(db.sales, id, w.sale);
  }

  lemma ApplyOrder(db: Store, ws: Writes, mid: Store, id: Id, order: HeldOrder)
    requires ws.orders == map[] && Apply(db, ws) == mid && mid.orders == db.orders
    ensures Apply(db, ws.(orders := map[id := order])) == mid.(orders := db.orders[id := order])
  {
    SingleUnion(db.orders, id, order);
  }

  lemma ApplyNothing(db: Store)
    ensures Apply(db, NO_WRITES) == db
  {
    EmptyUnion(db.sales);
    EmptyUnion(db.stock);
    EmptyUnion(db.adjustments);
    EmptyUnion(db.orders);
    EmptyUnion(db.sessions);
  }

  lemma ApplyConvertedOrder(db: Store, ws: Writes, mid: Store, id: Id, sale: Id, at: int)
    requires id in db.orders && ws.orders == map[] && Apply(db, ws) == mid && mid.orders == db.orders
    ensures Apply(db, ws.(orders := map[id := ConvertedOrder(db.orders[id], sale, at)])) == ConvertOrder(mid, id, sale, at)
  {
    ApplyOrder(db, ws, mid, id, ConvertedOrder(db.orders[id], sale, at));
  }

  lemma ApplyConversion(db: Store, ev: Event)
    requires ev.HeldConverted? && Guard(db, ev)
    ensures Apply(db, Delta(db, ev)) == Effect(db, ev)
  {
    if ev.written.Some? {
      var w := ev.written.value;
      WrittenStock(db, ev.sale, w);
      ApplySaleWrites(db, ev.sale, w);
      ApplyConvertedOrder(db, SaleWrites(db, ev.sale, w), WriteSale(db, ev.sale, w), ev.id, ev.sale, ev.at);
    } else {
      ApplyNothing(db);
      ApplyConvertedOrder(db, NO_WRITES, db, ev.id, ev.sale, ev.at);
    }
  }

  lemma ApplySession(db: Store, id: Id, session: Session)
    ensures Apply(db, NO_WRITES.(sessions := map[id := session])) == db.(sessions := db.sessions[id := session])
  {
    EmptyUnion(db.sales);
    EmptyUnion(db.stock);
    EmptyUnion(db.adjustments);
    EmptyUnion(db.orders);
    SingleUnion(db.sessions, id, session);
  }

  lemma ApplyAdjustment(db: Store, id: Id, a: Adjustment)
    requires Guard(db, StockAdjusted(id, a))
    ensures Apply(db, Delta(db, StockAdjusted(id, a))) == AdjustStock(db, id, a)
  {
    EmptyUnion(db.sales);
    EmptyUnion(db.orders);
    EmptyUnion(db.sessions);
    SingleUnion(db.adjustments, id, a);
    SingleUnion(db.stock, a.at, StockAt(db.stock, a.at) + SignedQuantity(a));
  }

  /** Applying the buffered writes at the commit is exactly the event's effect. */
  lemma ApplyDelta(db: Store, ev: Event)
    requires Guard(db, ev) && !ev.Administered?
    ensures Apply(db, Delta(db, ev)) == Effect(db, ev)
  {
    ApplyNothing(db);
    match ev {
      case SaleWritten(id, w) => WrittenStock(db, id, w); ApplySaleWrites(db, id, w);
      case SaleReplayed(_, _, _) =>
      case HeldCreated(id, order) => ApplyOrder(db, NO_WRITES, db, id, order);
      case HeldUpdated(id, _, order) => ApplyOrder(db, NO_WRITES, db, id, order);
      case HeldCancelled(id, _, at) => ApplyOrder(db, NO_WRITES, db, id, CancelledOrder(db.orders[id], at));
      case HeldConverted(_, _, _, _, _, _, _) => ApplyConversion(db, ev);
      case HeldReplayed(_, _, _, _) =>
      case ShiftOpened(id, session) => ApplySession(db, id, session);
      case ShiftClosed(id, at) => ApplySession(db, id, db.sessions[id].(open := false, closedAt := Some(at)));
      case StockAdjusted(id, a) => ApplyAdjustment(db, id, a);
    }
  }

  // ---------- guards survive the commits of others ----------

  lemma CanWriteFramed(a: Store, b: Store, id: Id, w: Written, L: set<Row>)
    requires Frame(a, b, L) && CanWrite(a, id, w) && Unused(a, id) && WriteRows(id, w) <= L
    ensures CanWrite(b, id, w) && SaleWrites(b, id, w) == SaleWrites(a, id, w)
  {
    StockWritesFramed(a, b, w.sale.outlet, DecsOf(w), L);
    assert !KeyTaken(a, w.sale.tenant, w.sale.key);
    assert SaleKeyRow(w.sale.tenant, w.sale.key) in L && !KeyTaken(b, w.sale.tenant, w.sale.key);
  }

  /** What a ready transaction knows beyond the event's guard: its generated id is still unused. */
  ghost predicate IdsUnused(db: Store, ev: Event) {
    match ev
    case SaleWritten(id, _) => Unused(db, id)
    case HeldCreated(id, _) => Unused(db, id)
    case HeldConverted(_, _, _, sale, written, _, _) => written.Some? ==> Unused(db, sale)
    case ShiftOpened(id, _) => Unused(db, id)
    case StockAdjusted(id, _) => Unused(db, id)
    case _ => true
  }

  lemma ConvertGuardFramed(a: Store, b: Store, ev: Event, L: set<Row>)
    requires ev.HeldConverted? && Inv(b) && Frame(a, b, L) && Guard(a, ev) && IdsUnused(a, ev) && Touches(ev) <= L
    ensures Guard(b, ev) && IdsUnused(b, ev) && Delta(b, ev) == Delta(a, ev)
  {
    assert OrderRow(ev.id) in L;
    assert OrderMoves(a, b, ev.id) && b.orders[ev.id] == a.orders[ev.id];
    assert OrderOk(b, b.orders[ev.id]);
    if ev.written.Some? {
      CanWriteFramed(a, b, ev.sale, ev.written.value, L);
    }
  }

  lemma OrderGuardFramed(a: Store, b: Store, ev: Event, L: set<Row>)
    requires ev.HeldCreated? || ev.HeldUpdated? || ev.HeldCancelled? || ev.HeldReplayed?
    requires Frame(a, b, L) && Guard(a, ev) && IdsUnused(a, ev) && Touches(ev) <= L
    ensures Guard(b, ev) && IdsUnused(b, ev) && Delta(b, ev) == Delta(a, ev)
  {
    if ev.HeldCreated? {
      assert NewRow(ev.id) in L && SessionRow(ev.order.session) in L;
    } else {
      assert OrderMoves(a, b, ev.id);
    }
  }

  lemma ShiftGuardFramed(a: Store, b: Store, ev: Event, L: set<Row>)
    requires ev.ShiftOpened? || ev.ShiftClosed?
    requires Frame(a, b, L) && Guard(a, ev) && IdsUnused(a, ev) && Touches(ev) <= L
    ensures Guard(b, ev) && IdsUnused(b, ev) && Delta(b, ev) == Delta(a, ev)
  {
    if ev.ShiftOpened? {
      assert NewRow(ev.id) in L && OpenShiftRow(ev.session.tenant, ev.session.user) in L;
    } else {
      assert SessionRow(ev.id) in L;
    }
  }

  lemma AdjustGuardFramed(a: Store, b: Store, id: Id, adj: Adjustment, L: set<Row>)
    requires Frame(a, b, L) && Unused(a, id) && {NewRow(id), StockRow(adj.at)} <= L
    requires Guard(a, StockAdjusted(id, adj))
    ensures var ev := StockAdjusted(id, adj); Guard(b, ev) && Unused(b, id) && Delta(b, ev) == Delta(a, ev)
  {
    assert NewRow(id) in L && StockRow(adj.at) in L && SameStock(a, b, adj.at);
  }

  lemma SaleGuardFramed(a: Store, b: Store, ev: Event, L: set<Row>)
    requires ev.SaleWritten? || ev.SaleReplayed?
    requires Frame(a, b, L) && Guard(a, ev) && IdsUnused(a, ev) && Touches(ev) <= L
    ensures Guard(b, ev) && IdsUnused(b, ev) && Delta(b, ev) == Delta(a, ev)
  {
    if ev.SaleWritten? {
      CanWriteFramed(a, b, ev.id, ev.w, L);
      assert NewRow(ev.id) in L;
    }
  }

  /** A ready transaction stays ready, with the same writes, across commits that leave its locked rows alone. */
  lemma GuardFramed(a: Store, b: Store, ev: Event, L: set<Row>)
    requires !ev.Administered? && Inv(b) && Frame(a, b, L) && Guard(a, ev) && IdsUnused(a, ev) && Touches(ev) <= L
    ensures Guard(b, ev) && IdsUnused(b, ev) && Delta(b, ev) == Delta(a, ev)
  {
    if ev.SaleWritten? || ev.SaleReplayed? {
      SaleGuardFramed(a, b, ev, L);
    } else if ev.HeldConverted? {
      ConvertGuardFramed(a, b, ev, L);
    } else if ev.ShiftOpened? || ev.ShiftClosed? {
      ShiftGuardFramed(a, b, ev, L);
    } else if ev.StockAdjusted? {
      AdjustGuardFramed(a, b, ev.id, ev.adjustment, L);
    } else {
      OrderGuardFramed(a, b, ev, L);
    }
  }
}
