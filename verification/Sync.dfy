/** The offline sync batch: a loop over the sale core, one transaction per row. */
module Sync {
  import opened Base
  import opened Schema
  import opened Access
  import opened SameRequest
  import opened Core
  import opened Ledger
  import opened LedgerFacts
  import opened History
  import opened Replays
  import opened Frames
  import opened Solo
  import opened Checkout
  import D = Database

  datatype RowResult =
    | Synced(key: Id, sale: Id)
    | Failed(key: Id, reason: Reason)

  datatype BatchResult = BatchResult(total: nat, synced: nat, failed: nat, results: seq<RowResult>)

  /** The presence of cashier_session_id selects the V1 contract. */
  function Classify(row: SaleReq): Mode {
    if row.session.Some? then V1 else LegacySync
  }

  // ---------- before the loop ----------

  function OutletsOf(rows: seq<SaleReq>): set<Id> {
    set i | 0 <= i < |rows| :: rows[i].outlet
  }

  /** Input of the whole batch, then access; a cashier syncs the assigned outlet only. */
  function BatchProblem(db: Store, actor: Actor, rows: seq<SaleReq>): Option<Reason> {
    if !(1 <= |rows| <= 100) || exists i :: 0 <= i < |rows| && !InputOk(rows[i], Classify(rows[i])) then Some(InvalidInput)
    else
      var user, tenant := ReadUser(db, actor), ReadTenant(db, actor.tenant);
      if user.None? || tenant.None? then Some(Unauthorized)
      else if user.value.role == OtherRole then Some(RoleForbidden)
      else if user.value.role != Cashier then None
      else if user.value.outlet.None? then Some(OutletAccessDenied)
      else if OutletsOf(rows) != {user.value.outlet.value} then Some(ShiftOutletMismatch)
      else None
  }

  /** What a row must bring: the V1 input when it names a session, else the legacy one. */
  predicate RowFits(row: SaleReq) {
    Fits(row, if row.session.Some? then V1 else LegacySync)
  }

  predicate BatchFits(rows: seq<SaleReq>) {
    1 <= |rows| <= 100 && forall i :: 0 <= i < |rows| ==> RowFits(rows[i])
  }

  /** A cashier syncs rows of the assigned outlet only. */
  predicate AllAtOutlet(db: Store, actor: Actor, rows: seq<SaleReq>) {
    forall i :: 0 <= i < |rows| ==> AssignedTo(db, actor, rows[i].outlet)
  }

  lemma OneOutlet(rows: seq<SaleReq>, outlet: Id)
    requires |rows| >= 1
    ensures OutletsOf(rows) == {outlet} <==> forall i :: 0 <= i < |rows| ==> rows[i].outlet == outlet
  {
    forall i | 0 <= i < |rows| ensures rows[i].outlet in OutletsOf(rows) {
    }
    if forall i :: 0 <= i < |rows| ==> rows[i].outlet == outlet {
      assert rows[0].outlet in OutletsOf(rows);
    }
  }

  /**
   A batch is let through exactly when every row of it fits, the caller may sell and, if a cashier, has an outlet that is
   every row's; the first of these that does not hold is the code of its refusal.
   */
  lemma BatchExact(db: Store, actor: Actor, rows: seq<SaleReq>)
    ensures var e := BatchProblem(db, actor, rows);
            if !BatchFits(rows) then e == Some(InvalidInput)
            else if !Member(db, actor) then e == Some(Unauthorized)
            else if !MaySell(db, actor) then e == Some(RoleForbidden)
            else if Cashes(db, actor) && db.users[actor.sub].outlet == None then e == Some(OutletAccessDenied)
            else if Cashes(db, actor) && !AllAtOutlet(db, actor, rows) then e == Some(ShiftOutletMismatch)
            else e == None
  {
    hide InputOk, Fits;
    forall i | 0 <= i < |rows| ensures InputOk(rows[i], Classify(rows[i])) <==> RowFits(rows[i]) {
      InputExact(rows[i], Classify(rows[i]));
    }
    if Cashes(db, actor) && db.users[actor.sub].outlet.Some? && BatchFits(rows) {
      OneOutlet(rows, db.users[actor.sub].outlet.value);
    }
  }

  // ---------- rows one by one ----------

  ghost function RowAnswer(db: Store, actor: Actor, row: SaleReq, tries: Tries, now: int): Solo.Answer {
    RetriedAnswer(db, actor, row, Classify(row), tries, now)
  }

  ghost function After(db: Store, r: Solo.Answer): Store {
    if r.Ok? && Guard(db, r.value) then Effect(db, r.value) else db
  }

  ghost function ResultOf(row: SaleReq, r: Solo.Answer): RowResult {
    match r
    case Err(e) => Failed(row.key, e)
    case Ok(ev) => Synced(row.key, if ev.SaleWritten? || ev.SaleReplayed? then ev.id else "")
  }

  /** One row: its database and its result. */
  type Turn = (Store, SaleReq, Tries) -> (Store, RowResult)

  ghost function RowTurn(actor: Actor, now: int): Turn {
    (db: Store, row: SaleReq, tries: Tries) =>
      (After(db, RowAnswer(db, actor, row, tries, now)), ResultOf(row, RowAnswer(db, actor, row, tries, now)))
  }

  /** Attempt n is the first without a conflict. */
  predicate Clears(tries: Tries, n: nat) {
    n < 3 && !tries.conflicts[n] && forall i :: 0 <= i < n ==> tries.conflicts[i]
  }

  /**
   A row under a new key, exactly: three conflicts ask for a retry; else its first clear attempt sells it, under the id of
   that attempt, when it may be checked out, and reports why not otherwise.
   */
  lemma RowExact(db: Store, actor: Actor, row: SaleReq, tries: Tries, now: int)
    requires Inv(db) && NewKey(db, actor.tenant, row.key) && forall id <- tries.ids :: Unused(db, id)
    ensures var mode := if row.session.Some? then V1 else LegacySync;
            var (after, result) := RowTurn(actor, now)(db, row, tries);
            && (if forall i :: 0 <= i < 3 ==> tries.conflicts[i] then result == Failed(row.key, TransactionRetryRequired)
                else if MayCheckOut(db, actor, row, mode)
                then exists n: nat :: Clears(tries, n) && result == Synced(row.key, tries.ids[n])
                                 && tries.ids[n] in after.sales && SoldAs(db, actor, row, now, after.sales[tries.ids[n]])
                                 && TookStock(db, actor, row, tries.ids[n], after)
                else result.Failed? && result.key == row.key && Refused(db, actor, row, mode, result.reason))
            && (result.Failed? ==> after == db)
  {
    hide Inv, MayCheckOut, Refused, SoldAs, TookStock, SaleAnswer, Guard, Effect;
    SoundCatalog(db);
    var n := FirstClear(tries.conflicts);
    if n < 3 {
      assert Clears(tries, n) && tries.ids[n] in tries.ids;
      CheckoutExact(db, actor, row, Classify(row), tries.ids[n], now);
      if MayCheckOut(db, actor, row, Classify(row)) {
        CheckoutTakesStock(db, actor, row, Classify(row), tries.ids[n], now);
      }
    }
  }

  ghost function Batch(turn: Turn, db: Store, rows: seq<SaleReq>, tries: seq<Tries>): (r: (Store, seq<RowResult>))
    requires |tries| == |rows|
    ensures |r.1| == |rows|
  {
    if rows == [] then (db, [])
    else
      var n := |rows| - 1;
      var before := Batch(turn, db, rows[..n], tries[..n]);
      var last := turn(before.0, rows[n], tries[n]);
      (last.0, before.1 + [last.1])
  }

  /** The database after the rows have been applied in order. */
  ghost function Applied(db: Store, actor: Actor, rows: seq<SaleReq>, tries: seq<Tries>, now: int): Store
    requires |tries| == |rows|
  {
    Batch(RowTurn(actor, now), db, rows, tries).0
  }

  ghost function Results(db: Store, actor: Actor, rows: seq<SaleReq>, tries: seq<Tries>, now: int): (rs: seq<RowResult>)
    requires |tries| == |rows|
    ensures |rs| == |rows|
  {
    Batch(RowTurn(actor, now), db, rows, tries).1
  }

  lemma BatchTurn(turn: Turn, db: Store, rows: seq<SaleReq>, tries: seq<Tries>, i: nat)
    requires |tries| == |rows| && i < |rows|
    ensures var before, after := Batch(turn, db, rows[..i], tries[..i]), Batch(turn, db, rows[..i + 1], tries[..i + 1]);
            var last := turn(before.0, rows[i], tries[i]);
            after == (last.0, before.1 + [last.1])
  {
    assert rows[..i + 1][..i] == rows[..i] && tries[..i + 1][..i] == tries[..i];
  }

  lemma {:induction false} ResultOfTurn(turn: Turn, db: Store, rows: seq<SaleReq>, tries: seq<Tries>, i: nat)
    requires |tries| == |rows| && i < |rows|
    ensures Batch(turn, db, rows, tries).1[i] == turn(Batch(turn, db, rows[..i], tries[..i]).0, rows[i], tries[i]).1
  {
    var n := |rows| - 1;
    if i < n {
      ResultOfTurn(turn, db, rows[..n], tries[..n], i);
      assert rows[..n][..i] == rows[..i] && tries[..n][..i] == tries[..i];
    }
  }

  ghost function CountSynced(rs: seq<RowResult>): nat {
    if rs == [] then 0 else CountSynced(rs[..|rs| - 1]) + if rs[|rs| - 1].Synced? then 1 else 0
  }

  ghost predicate AllUnused(db: Store, tries: Tries) {
    forall id <- tries.ids :: Unused(db, id)
  }

  ghost predicate NoneShared(tries: seq<Tries>) {
    forall i, j, id :: 0 <= i < j < |tries| && id in tries[i].ids ==> id !in tries[j].ids
  }

  /** Generated ids: unused, and no two rows generate the same one. */
  ghost predicate Fresh(db: Store, tries: seq<Tries>) {
    NoneShared(tries) && forall i :: 0 <= i < |tries| ==> AllUnused(db, tries[i])
  }

  /** What the loop has reached after the first i rows. */
  ghost predicate Reached(begun: Store, db: Store, actor: Actor, rows: seq<SaleReq>, tries: seq<Tries>, now: int, i: nat)
    requires |tries| == |rows| && i <= |rows|
  {
    && db == Applied(begun, actor, rows[..i], tries[..i], now)
    && Inv(db) && forall j :: i <= j < |tries| ==> AllUnused(db, tries[j])
  }

  lemma OwnIdOfEvent(db: Store, ev: Event, tries: Tries)
    requires (ev.SaleWritten? && IdUsed(tries) == Some(ev.id)) || ev.SaleReplayed?
    requires Guard(db, ev)
    ensures forall x :: x !in tries.ids && Unused(db, x) ==> Unused(Effect(db, ev), x)
  {
  }

  lemma OnlySales(db: Store, actor: Actor, row: SaleReq, tries: Tries, now: int)
    ensures var r := RowAnswer(db, actor, row, tries, now);
            r.Ok? ==> (r.value.SaleWritten? && IdUsed(tries) == Some(r.value.id)) || r.value.SaleReplayed?
  {
    hide CorePlan, ReadAll;
  }

  /** A row takes no id but the one of its answering attempt. */
  lemma OnlyItsOwnId(db: Store, actor: Actor, row: SaleReq, tries: Tries, now: int)
    ensures var after := After(db, RowAnswer(db, actor, row, tries, now));
            forall x :: x !in tries.ids && Unused(db, x) ==> Unused(after, x)
  {
    var r := RowAnswer(db, actor, row, tries, now);
    OnlySales(db, actor, row, tries, now);
    if r.Ok? && Guard(db, r.value) {
      OwnIdOfEvent(db, r.value, tries);
    }
  }

  lemma RowApplied(begun: Store, db: Store, actor: Actor, rows: seq<SaleReq>, tries: seq<Tries>, now: int, i: nat, after: Store)
    requires |tries| == |rows| && i < |rows| && NoneShared(tries)
    requires Reached(begun, db, actor, rows, tries, now, i)
    requires D.Atomic(db, RowAnswer(db, actor, rows[i], tries[i], now), after)
    ensures Reached(begun, after, actor, rows, tries, now, i + 1)
    ensures Results(begun, actor, rows[..i + 1], tries[..i + 1], now) ==
            Results(begun, actor, rows[..i], tries[..i], now) + [ResultOf(rows[i], RowAnswer(db, actor, rows[i], tries[i], now))]
  {
    BatchTurn(RowTurn(actor, now), begun, rows, tries, i);
    D.AtomicKeeps(db, RowAnswer(db, actor, rows[i], tries[i], now), after);
    OnlyItsOwnId(db, actor, rows[i], tries[i], now);
  }

  /** One turn of the loop: the row's own transaction, retried, and its result either way. */
  method SyncRow(db: D.Database, ghost begun: Store, actor: Actor, rows: seq<SaleReq>, tries: seq<Tries>, now: int, i: nat)
    returns (result: RowResult)
    requires |tries| == |rows| && i < |rows| && NoneShared(tries)
    requires Reached(begun, db.Snapshot(), actor, rows, tries, now, i)
    modifies db
    ensures Reached(begun, db.Snapshot(), actor, rows, tries, now, i + 1)
    ensures Results(begun, actor, rows[..i + 1], tries[..i + 1], now) == Results(begun, actor, rows[..i], tries[..i], now) + [result]
  {
    ghost var before := db.Snapshot();
    var row := db.CreateInternal(actor, rows[i], Classify(rows[i]), tries[i], now);
    OnlySales(before, actor, rows[i], tries[i], now);
    RowApplied(begun, before, actor, rows, tries, now, i, db.Snapshot());
    result := if row.Ok? then Synced(rows[i].key, row.value.id) else Failed(rows[i].key, row.error);
  }

  /** What the loop has pushed and counted after i rows. */
  ghost predicate Tallied(begun: Store, actor: Actor, rows: seq<SaleReq>, tries: seq<Tries>, now: int, i: nat,
                          results: seq<RowResult>, synced: nat)
    requires |tries| == |rows| && i <= |rows|
  {
    results == Results(begun, actor, rows[..i], tries[..i], now) && synced == CountSynced(results)
  }

  lemma TallyOne(begun: Store, actor: Actor, rows: seq<SaleReq>, tries: seq<Tries>, now: int, i: nat,
                 results: seq<RowResult>, synced: nat, result: RowResult)
    requires |tries| == |rows| && i < |rows| && Tallied(begun, actor, rows, tries, now, i, results, synced)
    requires Results(begun, actor, rows[..i + 1], tries[..i + 1], now) == Results(begun, actor, rows[..i], tries[..i], now) + [result]
    ensures Tallied(begun, actor, rows, tries, now, i + 1, results + [result], synced + if result.Synced? then 1 else 0)
  {
    assert (results + [result])[..|results|] == results;
  }

  lemma NoneReached(begun: Store, actor: Actor, rows: seq<SaleReq>, tries: seq<Tries>, now: int)
    requires |tries| == |rows| && Inv(begun) && Fresh(begun, tries)
    ensures Reached(begun, begun, actor, rows, tries, now, 0) && Tallied(begun, actor, rows, tries, now, 0, [], 0)
  {
  }

  lemma AllReached(begun: Store, db: Store, actor: Actor, rows: seq<SaleReq>, tries: seq<Tries>, now: int,
                   results: seq<RowResult>, synced: nat)
    requires |tries| == |rows| && Reached(begun, db, actor, rows, tries, now, |rows|)
    requires Tallied(begun, actor, rows, tries, now, |rows|, results, synced)
    ensures Inv(db) && db == Applied(begun, actor, rows, tries, now)
    ensures results == Results(begun, actor, rows, tries, now) && synced == CountSynced(results)
  {
    assert rows[..|rows|] == rows && tries[..|rows|] == tries;
  }

  /** The loop: a rejected row stops nothing. */
  method RunRows(db: D.Database, actor: Actor, rows: seq<SaleReq>, tries: seq<Tries>, now: int)
    returns (results: seq<RowResult>, synced: nat)
    requires |tries| == |rows| && Inv(db.Snapshot()) && Fresh(db.Snapshot(), tries)
    modifies db
    ensures Reached(old(db.Snapshot()), db.Snapshot(), actor, rows, tries, now, |rows|)
    ensures Tallied(old(db.Snapshot()), actor, rows, tries, now, |rows|, results, synced) && synced <= |results|
  {
    ghost var begun := db.Snapshot();
    results := [];
    synced := 0;
    var i := 0;
    NoneReached(begun, actor, rows, tries, now);
    while i < |rows|
      invariant 0 <= i <= |rows| && synced <= i == |results|
      invariant Reached(begun, db.Snapshot(), actor, rows, tries, now, i)
      invariant Tallied(begun, actor, rows, tries, now, i, results, synced)
    {
      var result := SyncRow(db, begun, actor, rows, tries, now, i);
      TallyOne(begun, actor, rows, tries, now, i, results, synced, result);
      results := results + [result];
      if result.Synced? {
        synced := synced + 1;
      }
      i := i + 1;
    }
  }

  /** SyncService.transactions. */
  method Transactions(db: D.Database, actor: Actor, rows: seq<SaleReq>, tries: seq<Tries>, now: int)
    returns (r: Result<BatchResult, Reason>)
    requires |tries| == |rows| && Inv(db.Snapshot()) && Fresh(db.Snapshot(), tries)
    modifies db
    ensures match BatchProblem(old(db.Snapshot()), actor, rows)
            case Some(e) => r == Err(e) && db.Snapshot() == old(db.Snapshot())
            case None =>
              && r.Ok? && Inv(db.Snapshot())
              && db.Snapshot() == Applied(old(db.Snapshot()), actor, rows, tries, now)
              && r.value.results == Results(old(db.Snapshot()), actor, rows, tries, now)
              && r.value.total == |rows| && r.value.synced == CountSynced(r.value.results)
              && r.value.synced + r.value.failed == r.value.total
  {
    var problem := BatchProblem(db.Snapshot(), actor, rows);
    if problem.Some? {
      return Err(problem.value);
    }
    ghost var begun := db.Snapshot();
    var results, synced := RunRows(db, actor, rows, tries, now);
    AllReached(begun, db.Snapshot(), actor, rows, tries, now, results, synced);
    r := Ok(BatchResult(|results|, synced, |results| - synced, results));
  }

  // ---------- resubmission ----------

  lemma AnswerIsStored(db: Store, actor: Actor, row: SaleReq, tries: Tries, now: int)
    requires Inv(db) && AllUnused(db, tries)
    ensures var r := RowAnswer(db, actor, row, tries, now);
            && D.Atomic(db, r, After(db, r))
            && (r.Ok? ==>
                  && (r.value.SaleWritten? || r.value.SaleReplayed?)
                  && Stored(After(db, r), actor, row, Classify(row), r.value.id))
  {
    hide SaleAnswer, Stored, Effect;
    if IdUsed(tries).Some? {
      assert IdUsed(tries).value in tries.ids;
      if SaleAnswer(db, actor, row, Classify(row), IdUsed(tries).value, now).Ok? {
        SaleAnswerIsStored(db, actor, row, Classify(row), IdUsed(tries).value, now);
      }
    }
  }

  /**
   A row whose sale is stored is answered with it by the first attempt without a conflict, or is to be retried when there
   is none; either way nothing changes.
   */
  lemma StoredReplays(db: Store, actor: Actor, row: SaleReq, id: Id, tries: Tries, now: int)
    requires KeysUnique(db) && MaySell(db, actor) && Stored(db, actor, row, Classify(row), id)
    ensures var r := RowAnswer(db, actor, row, tries, now);
            && r == (if GetsThrough(tries) then Ok(SaleReplayed(actor.tenant, row.key, id)) else Err(TransactionRetryRequired))
            && After(db, r) == db
  {
    hide InputOk, AssertSameRequest, CorePlan, ReadAll;
    StoredKeyPlans(db, actor, row, Classify(row), now, id);
  }

  /** The loop's state after any number of rows. */
  lemma {:induction false} ReachedAlways(db: Store, actor: Actor, rows: seq<SaleReq>, tries: seq<Tries>, now: int, i: nat)
    requires |tries| == |rows| && i <= |rows| && Inv(db) && Fresh(db, tries)
    ensures Reached(db, Applied(db, actor, rows[..i], tries[..i], now), actor, rows, tries, now, i)
  {
    if i > 0 {
      ReachedAlways(db, actor, rows, tries, now, i - 1);
      var before := Applied(db, actor, rows[..i - 1], tries[..i - 1], now);
      assert rows[..i][..i - 1] == rows[..i - 1] && tries[..i][..i - 1] == tries[..i - 1];
      var r := RowAnswer(before, actor, rows[i - 1], tries[i - 1], now);
      AnswerIsStored(before, actor, rows[i - 1], tries[i - 1], now);
      RowApplied(db, before, actor, rows, tries, now, i - 1, After(before, r));
    }
  }

  lemma AfterGrows(db: Store, r: Solo.Answer)
    ensures SalesGrow(db, After(db, r))
  {
    if r.Ok? && Guard(db, r.value) {
      EventMoves(db, r.value, "");
    }
  }

  lemma TurnGrows(db: Store, actor: Actor, row: SaleReq, tries: Tries, now: int)
    ensures SalesGrow(db, RowTurn(actor, now)(db, row, tries).0)
  {
    AfterGrows(db, RowAnswer(db, actor, row, tries, now));
  }

  lemma {:induction false} BatchGrows(actor: Actor, now: int, db: Store, rows: seq<SaleReq>, tries: seq<Tries>, i: nat)
    requires |tries| == |rows| && i <= |rows|
    ensures SalesGrow(Batch(RowTurn(actor, now), db, rows[..i], tries[..i]).0, Batch(RowTurn(actor, now), db, rows, tries).0)
    decreases |rows|
  {
    if i == |rows| {
      assert rows[..i] == rows && tries[..i] == tries;
    } else {
      var n := |rows| - 1;
      BatchGrows(actor, now, db, rows[..n], tries[..n], i);
      assert rows[..n][..i] == rows[..i] && tries[..n][..i] == tries[..i];
      TurnGrows(Batch(RowTurn(actor, now), db, rows[..n], tries[..n]).0, actor, rows[n], tries[n], now);
    }
  }

  /** A row whose turn was SYNCED is stored right after it. */
  lemma SyncedTurn(db: Store, actor: Actor, row: SaleReq, tries: Tries, now: int)
    requires Inv(db) && AllUnused(db, tries) && RowTurn(actor, now)(db, row, tries).1.Synced?
    ensures var t := RowTurn(actor, now)(db, row, tries);
            t.1.key == row.key && Stored(t.0, actor, row, Classify(row), t.1.sale)
  {
    hide RowAnswer, Stored, Inv, Guard, Effect;
    AnswerIsStored(db, actor, row, tries, now);
  }

  /** Every row reported SYNCED is stored when the batch ends. */
  lemma SyncedRowsAreStored(db: Store, actor: Actor, rows: seq<SaleReq>, tries: seq<Tries>, now: int, i: nat)
    requires |tries| == |rows| && i < |rows| && Inv(db) && Fresh(db, tries)
    requires Results(db, actor, rows, tries, now)[i].Synced?
    ensures Results(db, actor, rows, tries, now)[i].key == rows[i].key
    ensures Stored(Applied(db, actor, rows, tries, now), actor, rows[i], Classify(rows[i]),
                   Results(db, actor, rows, tries, now)[i].sale)
  {
    var turn := RowTurn(actor, now);
    ReachedAlways(db, actor, rows, tries, now, i);
    var before := Batch(turn, db, rows[..i], tries[..i]).0;
    assert AllUnused(before, tries[i]);
    ResultOfTurn(turn, db, rows, tries, i);
    BatchTurn(turn, db, rows, tries, i);
    SyncedTurn(before, actor, rows[i], tries[i], now);
    BatchGrows(actor, now, db, rows, tries, i + 1);
  }

  function Pick<T>(xs: seq<T>, picked: seq<nat>): (ys: seq<T>)
    requires forall k :: 0 <= k < |picked| ==> picked[k] < |xs|
    ensures |ys| == |picked| && forall k :: 0 <= k < |picked| ==> ys[k] == xs[picked[k]]
  {
    seq(|picked|, k requires 0 <= k < |picked| => xs[picked[k]])
  }

  /** Turns that change nothing, row after row. */
  lemma {:induction false} IdleBatch(turn: Turn, db: Store, rows: seq<SaleReq>, tries: seq<Tries>, results: seq<RowResult>)
    requires |tries| == |rows| == |results|
    requires forall k :: 0 <= k < |rows| ==> turn(db, rows[k], tries[k]) == (db, results[k])
    ensures Batch(turn, db, rows, tries) == (db, results)
  {
    if rows != [] {
      var n := |rows| - 1;
      IdleBatch(turn, db, rows[..n], tries[..n], results[..n]);
      assert results == results[..n] + [results[n]];
    }
  }

  /** The result of resubmitting a row: the one it had, unless all three attempts meet a conflict. */
  function Retold(first: RowResult, tries: Tries): RowResult {
    if GetsThrough(tries) then first else Failed(first.key, TransactionRetryRequired)
  }

  lemma StoredTurn(db: Store, actor: Actor, row: SaleReq, first: RowResult, tries: Tries, now: int)
    requires KeysUnique(db) && MaySell(db, actor)
    requires first.Synced? && first.key == row.key && Stored(db, actor, row, Classify(row), first.sale)
    ensures RowTurn(actor, now)(db, row, tries) == (db, Retold(first, tries))
  {
    hide RowAnswer, Stored;
    StoredReplays(db, actor, row, first.sale, tries, now);
  }

  /**
   Resubmitting SYNCED rows, any selection of them in any order and any number of times, at any later database that still
   holds the batch's sales: every row that gets through is answered with the id it had, and nothing changes whatever the
   attempts meet.
   */
  lemma ResubmissionIsANoOp(db: Store, actor: Actor, rows: seq<SaleReq>, tries: seq<Tries>, now: int,
                            later: Store, picked: seq<nat>, newTries: seq<Tries>, newNow: int)
    requires |tries| == |rows| && Inv(db) && Fresh(db, tries)
    requires Inv(later) && MaySell(later, actor) && SalesGrow(Applied(db, actor, rows, tries, now), later)
    requires |newTries| == |picked|
    requires forall k :: 0 <= k < |picked| ==> picked[k] < |rows| && Results(db, actor, rows, tries, now)[picked[k]].Synced?
    ensures Applied(later, actor, Pick(rows, picked), newTries, newNow) == later
    ensures forall k :: 0 <= k < |picked| ==>
              Results(later, actor, Pick(rows, picked), newTries, newNow)[k] ==
              Retold(Results(db, actor, rows, tries, now)[picked[k]], newTries[k])
  {
    hide RowTurn, Stored, MaySell;
    var first := Results(db, actor, rows, tries, now);
    var again := Pick(rows, picked);
    var retold := seq(|again|, k requires 0 <= k < |again| => Retold(first[picked[k]], newTries[k]));
    forall k | 0 <= k < |again| ensures RowTurn(actor, newNow)(later, again[k], newTries[k]) == (later, retold[k]) {
      SyncedRowsAreStored(db, actor, rows, tries, now, picked[k]);
      StoredStays(Applied(db, actor, rows, tries, now), later, actor, rows[picked[k]], Classify(rows[picked[k]]),
                  first[picked[k]].sale);
      StoredTurn(later, actor, again[k], first[picked[k]], newTries[k], newNow);
    }
    IdleBatch(RowTurn(actor, newNow), later, again, newTries, retold);
  }

  /** Where a batch is cut makes no difference. */
  lemma {:induction false} BatchesCompose(turn: Turn, db: Store, a: seq<SaleReq>, ia: seq<Tries>,
                                            b: seq<SaleReq>, ib: seq<Tries>)
    requires |ia| == |a| && |ib| == |b|
    ensures var first := Batch(turn, db, a, ia);
            var second := Batch(turn, first.0, b, ib);
            Batch(turn, db, a + b, ia + ib) == (second.0, first.1 + second.1)
  {
    if b == [] {
      assert a + b == a && ia + ib == ia;
      assert Batch(turn, db, a, ia).1 + [] == Batch(turn, db, a, ia).1;
    } else {
      var n := |b| - 1;
      BatchesCompose(turn, db, a, ia, b[..n], ib[..n]);
      assert (a + b)[..|a + b| - 1] == a + b[..n] && (ia + ib)[..|a + b| - 1] == ia + ib[..n];
      var first := Batch(turn, db, a, ia);
      var most := Batch(turn, first.0, b[..n], ib[..n]);
      var last := turn(most.0, b[n], ib[n]);
      assert first.1 + most.1 + [last.1] == first.1 + (most.1 + [last.1]);
    }
  }
}
