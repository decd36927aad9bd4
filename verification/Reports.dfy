/** Sales reports: aggregates over the completed sales of a half-open time range. */
module Reports {
  import opened Base
  import opened Schema
  import opened CoreFacts
  import opened Ledger
  import opened History
  import Tax

  // ---------- sums over finite sets ----------

  ghost function SumOver(ids: set<Id>, f: Id -> int): int {
    if ids == {} then 0
    else
      var id :| id in ids;
      f(id) + SumOver(ids - {id}, f)
  }

  lemma {:induction false} SumWithout(ids: set<Id>, f: Id -> int, id: Id)
    requires id in ids
    ensures SumOver(ids, f) == f(id) + SumOver(ids - {id}, f)
  {
    var x :| x in ids && SumOver(ids, f) == f(x) + SumOver(ids - {x}, f);
    if x != id {
      SumWithout(ids - {x}, f, id);
      SumWithout(ids - {id}, f, x);
      assert ids - {x} - {id} == ids - {id} - {x};
    }
  }

  lemma {:induction false} SumSplit(a: set<Id>, b: set<Id>, f: Id -> int)
    requires a !! b
    ensures SumOver(a + b, f) == SumOver(a, f) + SumOver(b, f)
  {
    if a == {} {
      assert a + b == b;
    } else {
      var id :| id in a;
      SumWithout(a, f, id);
      SumWithout(a + b, f, id);
      assert a + b - {id} == (a - {id}) + b;
      SumSplit(a - {id}, b, f);
    }
  }

  lemma {:induction false} SumAgrees(ids: set<Id>, f: Id -> int, g: Id -> int)
    requires forall id <- ids :: f(id) == g(id)
    ensures SumOver(ids, f) == SumOver(ids, g)
  {
    if ids != {} {
      var id :| id in ids;
      SumWithout(ids, f, id);
      SumWithout(ids, g, id);
      SumAgrees(ids - {id}, f, g);
    }
  }

  /** A linear relation that holds of every row holds of the sums. */
  lemma {:induction false} SumsCombine(ids: set<Id>, sum: Id -> int, a: Id -> int, b: Id -> int, c: Id -> int)
    requires forall id <- ids :: sum(id) == a(id) - b(id) + c(id)
    ensures SumOver(ids, sum) == SumOver(ids, a) - SumOver(ids, b) + SumOver(ids, c)
  {
    if ids != {} {
      var id :| id in ids;
      SumWithout(ids, sum, id);
      SumWithout(ids, a, id);
      SumWithout(ids, b, id);
      SumWithout(ids, c, id);
      SumsCombine(ids - {id}, sum, a, b, c);
    }
  }

  lemma {:induction false} SumBounds(ids: set<Id>, f: Id -> int, low: int)
    requires forall id <- ids :: low <= f(id)
    ensures low * |ids| <= SumOver(ids, f)
  {
    if ids != {} {
      var id :| id in ids;
      SumWithout(ids, f, id);
      SumBounds(ids - {id}, f, low);
      assert |ids| == |ids - {id}| + 1;
    }
  }

  // ---------- the report ----------

  datatype Scope = Scope(tenant: Id, outlet: Option<Id>)
  datatype Range = Range(start: int, end: int)
  datatype Report = Report(count: int, gross: int, discount: int, net: int, tax: int, total: int, cogs: int, profit: int)

  /** 24 hours in milliseconds; Jakarta has no daylight saving time. */
  const DAY: int := 86_400_000

  function DailyRange(start: int): Range {
    Range(start, start + DAY)
  }

  predicate Counts(s: Sale, scope: Scope, range: Range) {
    && s.tenant == scope.tenant && (scope.outlet.Some? ==> s.outlet == scope.outlet.value)
    && s.status == Completed && range.start <= s.createdAt < range.end
  }

  function Counted(db: Store, scope: Scope, range: Range): set<Id> {
    set id | id in db.sales && Counts(db.sales[id], scope, range) :: id
  }

  function CostOf(items: seq<SaleItem>): int {
    if items == [] then 0
    else CostOf(items[..|items| - 1]) + items[|items| - 1].quantity * items[|items| - 1].unitCost
  }

  datatype Column = One | Subtotal | Discount | Net | TaxOf | Total | Cogs

  function Value(s: Sale, c: Column): int {
    match c
    case One => 1
    case Subtotal => s.subtotal
    case Discount => s.discount
    case Net => s.subtotal - s.discount
    case TaxOf => s.tax
    case Total => s.total
    case Cogs => CostOf(s.items)
  }

  function Cell(db: Store, c: Column): Id -> int {
    id => if id in db.sales then Value(db.sales[id], c) else 0
  }

  /** The column summed over the matching rows, zero when there are none. */
  ghost function Sum(db: Store, ids: set<Id>, c: Column): int {
    SumOver(ids, Cell(db, c))
  }

  ghost function ReportOver(db: Store, ids: set<Id>): Report {
    Report(Sum(db, ids, One), Sum(db, ids, Subtotal), Sum(db, ids, Discount), Sum(db, ids, Net), Sum(db, ids, TaxOf),
           Sum(db, ids, Total), Sum(db, ids, Cogs), Sum(db, ids, Net) - Sum(db, ids, Cogs))
  }

  ghost function ReadSummary(db: Store, scope: Scope, range: Range): Report {
    ReportOver(db, Counted(db, scope, range))
  }

  function Plus(a: Report, b: Report): Report {
    Report(a.count + b.count, a.gross + b.gross, a.discount + b.discount, a.net + b.net, a.tax + b.tax,
           a.total + b.total, a.cogs + b.cogs, a.profit + b.profit)
  }

  const EMPTY_REPORT := Report(0, 0, 0, 0, 0, 0, 0, 0)

  function RowReport(s: Sale): Report {
    Report(1, s.subtotal, s.discount, s.subtotal - s.discount, s.tax, s.total, CostOf(s.items),
           s.subtotal - s.discount - CostOf(s.items))
  }

  // ---------- additivity ----------

  lemma ReportSplit(db: Store, a: set<Id>, b: set<Id>)
    requires a !! b
    ensures ReportOver(db, a + b) == Plus(ReportOver(db, a), ReportOver(db, b))
  {
    forall c: Column ensures Sum(db, a + b, c) == Sum(db, a, c) + Sum(db, b, c) {
      SumSplit(a, b, Cell(db, c));
    }
  }

  /** A range cut anywhere reports the same as its two parts. */
  lemma RangesAdd(db: Store, scope: Scope, a: int, b: int, c: int)
    requires a <= b <= c
    ensures ReadSummary(db, scope, Range(a, c)) ==
            Plus(ReadSummary(db, scope, Range(a, b)), ReadSummary(db, scope, Range(b, c)))
  {
    var left, right := Counted(db, scope, Range(a, b)), Counted(db, scope, Range(b, c));
    assert Counted(db, scope, Range(a, c)) == left + right;
    ReportSplit(db, left, right);
  }

  /** Day by day. */
  ghost function OverDays(f: Range -> Report, start: int, days: nat): Report {
    if days == 0 then EMPTY_REPORT
    else Plus(OverDays(f, start, days - 1), f(DailyRange(start + (days - 1) * DAY)))
  }

  /** Cutting [a, c) at b loses nothing and counts nothing twice. */
  ghost predicate Cuts(f: Range -> Report, a: int, b: int, c: int) {
    a <= b <= c ==> f(Range(a, c)) == Plus(f(Range(a, b)), f(Range(b, c)))
  }

  lemma {:induction false} AdditiveOverDays(f: Range -> Report, start: int, days: nat)
    requires forall a :: f(Range(a, a)) == EMPTY_REPORT
    requires forall a, b, c :: Cuts(f, a, b, c)
    ensures f(Range(start, start + days * DAY)) == OverDays(f, start, days)
  {
    if days > 0 {
      var cut := start + (days - 1) * DAY;
      assert start + days * DAY == cut + DAY;
      AdditiveOverDays(f, start, days - 1);
      assert Cuts(f, start, cut, cut + DAY);
    }
  }

  lemma EmptyRange(db: Store, scope: Scope, at: int)
    ensures ReadSummary(db, scope, Range(at, at)) == EMPTY_REPORT
  {
    assert Counted(db, scope, Range(at, at)) == {};
  }

  /** The summary over whole days is the sum of the daily reports of those days. */
  lemma SummaryIsTheDays(db: Store, scope: Scope, start: int, days: nat)
    ensures ReadSummary(db, scope, Range(start, start + days * DAY)) ==
            OverDays(range => ReadSummary(db, scope, range), start, days)
  {
    var f := (range: Range) => ReadSummary(db, scope, range);
    forall a ensures f(Range(a, a)) == EMPTY_REPORT {
      EmptyRange(db, scope, a);
    }
    forall a, b, c ensures Cuts(f, a, b, c) {
      if a <= b <= c {
        RangesAdd(db, scope, a, b, c);
      }
    }
    AdditiveOverDays(f, start, days);
  }

  // ---------- consistency ----------

  lemma {:induction false} SumOfZeros(ids: set<Id>)
    ensures SumOver(ids, (id: Id) => 0) == 0
  {
    var zero := (id: Id) => 0;
    if ids != {} {
      var id :| id in ids;
      SumWithout(ids, zero, id);
      SumOfZeros(ids - {id});
    }
  }

  lemma NetHolds(db: Store, ids: set<Id>)
    ensures Sum(db, ids, Net) == Sum(db, ids, Subtotal) - Sum(db, ids, Discount)
  {
    var zero := (id: Id) => 0;
    SumsCombine(ids, Cell(db, Net), Cell(db, Subtotal), Cell(db, Discount), zero);
    SumOfZeros(ids);
  }

  lemma {:induction false} CountIsSize(db: Store, ids: set<Id>)
    requires forall id <- ids :: id in db.sales
    ensures Sum(db, ids, One) == |ids|
  {
    if ids != {} {
      var id :| id in ids;
      SumWithout(ids, Cell(db, One), id);
      CountIsSize(db, ids - {id});
      assert |ids| == |ids - {id}| + 1;
    }
  }

  lemma TotalHolds(db: Store, ids: set<Id>)
    requires forall id <- ids :: id in db.sales && MoneyInvariant(db.sales[id])
    ensures Sum(db, ids, Total) == Sum(db, ids, Subtotal) - Sum(db, ids, Discount) + Sum(db, ids, TaxOf)
  {
    SumsCombine(ids, Cell(db, Total), Cell(db, Subtotal), Cell(db, Discount), Cell(db, TaxOf));
  }

  lemma FiguresBounded(db: Store, ids: set<Id>)
    requires forall id <- ids :: id in db.sales && MoneyInvariant(db.sales[id])
    ensures 0 <= Sum(db, ids, Net) && |ids| <= Sum(db, ids, Total)
  {
    SumBounds(ids, Cell(db, Net), 0);
    SumBounds(ids, Cell(db, Total), 1);
  }

  /** In every state: net is gross less discount, total is net plus tax, every sale counted contributes at least one. */
  lemma ReportConsistent(db: Store, scope: Scope, range: Range)
    requires Inv(db)
    ensures var r := ReadSummary(db, scope, range);
            && r.total == r.gross - r.discount + r.tax
            && r.net == r.gross - r.discount && r.profit == r.net - r.cogs
            && r.count == |Counted(db, scope, range)|
            && 0 <= r.net && r.count <= r.total
  {
    var ids := Counted(db, scope, range);
    TotalHolds(db, ids);
    NetHolds(db, ids);
    CountIsSize(db, ids);
    FiguresBounded(db, ids);
  }

  // ---------- what the figures mean ----------

  /** The cost of a sale is one product of quantity and unit cost per item. */
  lemma {:induction false} CostIsPerItem(a: seq<SaleItem>, b: seq<SaleItem>)
    ensures CostOf([]) == 0 && CostOf(a + b) == CostOf(a) + CostOf(b)
    ensures forall it: SaleItem :: CostOf([it]) == it.quantity * it.unitCost
  {
    forall it: SaleItem ensures CostOf([it]) == it.quantity * it.unitCost {
      assert [it][..0] == [];
    }
    if b == [] {
      assert a + b == a;
    } else {
      var n := |b| - 1;
      CostIsPerItem(a, b[..n]);
      assert (a + b)[..|a + b| - 1] == a + b[..n];
    }
  }

  /** The sales a report counts: the tenant's completed ones in the half-open range, at the outlet if one is asked for. */
  ghost predicate InReport(db: Store, tenant: Id, outlet: Option<Id>, start: int, end: int, id: Id) {
    && id in db.sales && db.sales[id].tenant == tenant && (outlet.Some? ==> Some(db.sales[id].outlet) == outlet)
    && db.sales[id].status == Completed && start <= db.sales[id].createdAt < end
  }

  lemma CountedExact(db: Store, tenant: Id, outlet: Option<Id>, start: int, end: int, ids: set<Id>)
    requires forall id :: id in ids <==> InReport(db, tenant, outlet, start, end, id)
    ensures Counted(db, Scope(tenant, outlet), Range(start, end)) == ids
  {
    var counted := Counted(db, Scope(tenant, outlet), Range(start, end));
    forall id ensures id in counted <==> id in ids {
    }
  }

  lemma ColumnIs(db: Store, ids: set<Id>, c: Column, f: Id -> int)
    requires forall id <- ids :: id in db.sales && f(id) == Value(db.sales[id], c)
    ensures Sum(db, ids, c) == SumOver(ids, f)
  {
    SumAgrees(ids, Cell(db, c), f);
  }

  /** Every figure of a report is the sum of its column over exactly the sales it counts. */
  lemma FiguresExact(db: Store, tenant: Id, outlet: Option<Id>, start: int, end: int, ids: set<Id>,
                     subtotal: Id -> int, discount: Id -> int, tax: Id -> int, total: Id -> int, cost: Id -> int)
    requires forall id :: id in ids <==> InReport(db, tenant, outlet, start, end, id)
    requires forall id <- ids ::
               && id in db.sales && subtotal(id) == db.sales[id].subtotal && discount(id) == db.sales[id].discount
               && tax(id) == db.sales[id].tax && total(id) == db.sales[id].total && cost(id) == CostOf(db.sales[id].items)
    ensures var r := ReadSummary(db, Scope(tenant, outlet), Range(start, end));
            && r.count == |ids|
            && r.gross == SumOver(ids, subtotal) && r.discount == SumOver(ids, discount) && r.net == r.gross - r.discount
            && r.tax == SumOver(ids, tax) && r.total == SumOver(ids, total)
            && r.cogs == SumOver(ids, cost) && r.profit == r.net - r.cogs
    ensures DailyRange(start) == Range(start, start + 24 * 60 * 60 * 1000)
  {
    hide InReport, CostOf, SumOver, Sum, Counted;
    CountedExact(db, tenant, outlet, start, end, ids);
    CountIsSize(db, ids);
    NetHolds(db, ids);
    ColumnIs(db, ids, Subtotal, subtotal);
    ColumnIs(db, ids, Discount, discount);
    ColumnIs(db, ids, TaxOf, tax);
    ColumnIs(db, ids, Total, total);
    ColumnIs(db, ids, Cogs, cost);
  }

  // ---------- the average ----------

  function Average(r: Report): int
    requires r.count >= 0
  {
    if r.count == 0 then 0 else Tax.TruncDiv(r.net + r.count / 2, r.count)
  }

  /** The average is the one integer nearest to net/count, ties upward. */
  lemma AverageIsNearest(r: Report, t: int)
    requires r.count > 0 && r.net >= 0
    ensures t == Average(r) <==> -r.count < 2 * (t * r.count - r.net) <= r.count
  {
    var x, c := r.net + r.count / 2, r.count;
    assert x == x / c * c + x % c;
    if -c < 2 * (t * c - r.net) <= c {
      assert t * c <= x < t * c + c;
      Quotient(x, c, t);
    }
  }

  // ---------- what changes a report ----------

  lemma SameRowsSameReport(a: Store, b: Store, ids: set<Id>)
    requires forall id <- ids :: id in a.sales && id in b.sales && a.sales[id] == b.sales[id]
    ensures ReportOver(a, ids) == ReportOver(b, ids)
  {
    forall c: Column ensures Sum(a, ids, c) == Sum(b, ids, c) {
      SumAgrees(ids, Cell(a, c), Cell(b, c));
    }
  }

  lemma OneRow(db: Store, id: Id)
    requires id in db.sales
    ensures ReportOver(db, {id}) == RowReport(db.sales[id])
  {
    forall c: Column ensures Sum(db, {id}, c) == Value(db.sales[id], c) {
      SumWithout({id}, Cell(db, c), id);
      assert {id} - {id} == {};
    }
  }

  predicate WritesSale(ev: Event) {
    ev.SaleWritten? || (ev.HeldConverted? && ev.written.Some?)
  }

  /** What an event adds to a report: the figures of the sale it writes, if that sale is counted; otherwise nothing. */
  ghost function Added(ev: Event, scope: Scope, range: Range): Report {
    if WritesSale(ev) && Counts(WrittenBy(ev).sale, scope, range)
    then RowReport(WrittenBy(ev).sale) else EMPTY_REPORT
  }

  lemma CountedSaleAdds(db: Store, after: Store, id: Id, s: Sale, scope: Scope, range: Range)
    requires id !in db.sales && after.sales == db.sales[id := s] && Counts(s, scope, range)
    ensures ReadSummary(after, scope, range) == Plus(ReadSummary(db, scope, range), RowReport(s))
  {
    var before := Counted(db, scope, range);
    assert after.sales[id] == s && id in after.sales;
    forall x ensures x in Counted(after, scope, range) <==> x in before + {id} {
      if x in db.sales {
        assert x != id && x in after.sales && after.sales[x] == db.sales[x];
      }
    }
    assert Counted(after, scope, range) == before + {id};
    SameRowsSameReport(db, after, before);
    ReportSplit(after, before, {id});
    OneRow(after, id);
  }

  lemma OtherSaleAddsNothing(db: Store, after: Store, id: Id, s: Sale, scope: Scope, range: Range)
    requires id !in db.sales && after.sales == db.sales[id := s] && !Counts(s, scope, range)
    ensures ReadSummary(after, scope, range) == ReadSummary(db, scope, range)
  {
    forall x ensures x in Counted(after, scope, range) <==> x in Counted(db, scope, range) {
      assert x != id && x in db.sales ==> after.sales[x] == db.sales[x];
    }
    assert Counted(after, scope, range) == Counted(db, scope, range);
    SameRowsSameReport(db, after, Counted(db, scope, range));
  }

  lemma SaleAdds(db: Store, after: Store, id: Id, w: Written, scope: Scope, range: Range)
    requires id !in db.sales && after.sales == db.sales[id := w.sale]
    ensures ReadSummary(after, scope, range) ==
            Plus(ReadSummary(db, scope, range), if Counts(w.sale, scope, range) then RowReport(w.sale) else EMPTY_REPORT)
  {
    if Counts(w.sale, scope, range) {
      CountedSaleAdds(db, after, id, w.sale, scope, range);
    } else {
      OtherSaleAddsNothing(db, after, id, w.sale, scope, range);
    }
  }

  lemma SalesAfter(db: Store, ev: Event)
    requires Guard(db, ev)
    ensures WritesSale(ev) ==>
              var id := if ev.SaleWritten? then ev.id else ev.sale;
              id !in db.sales && Effect(db, ev).sales == db.sales[id := WrittenBy(ev).sale]
    ensures !WritesSale(ev) ==> Effect(db, ev).sales == db.sales
  {
  }

  lemma NothingAdds(db: Store, after: Store, scope: Scope, range: Range)
    requires after.sales == db.sales
    ensures ReadSummary(after, scope, range) == Plus(ReadSummary(db, scope, range), EMPTY_REPORT)
  {
    assert Counted(after, scope, range) == Counted(db, scope, range);
    SameRowsSameReport(db, after, Counted(db, scope, range));
  }

  /** Replays, held orders, shifts, adjustments and administration leave every report as it was. */
  lemma EventReports(db: Store, ev: Event, after: Store, scope: Scope, range: Range)
    requires Guard(db, ev) && after == Effect(db, ev)
    ensures ReadSummary(after, scope, range) == Plus(ReadSummary(db, scope, range), Added(ev, scope, range))
  {
    SalesAfter(db, ev);
    if WritesSale(ev) {
      SaleAdds(db, after, if ev.SaleWritten? then ev.id else ev.sale, WrittenBy(ev), scope, range);
    } else {
      NothingAdds(db, after, scope, range);
    }
  }

  ghost function AddedBy(tr: seq<Event>, add: Event -> Report): Report {
    if tr == [] then EMPTY_REPORT else Plus(AddedBy(tr[..|tr| - 1], add), add(tr[|tr| - 1]))
  }

  ghost predicate Accumulates(f: Store -> Report, add: Event -> Report) {
    forall db, ev :: Guard(db, ev) ==> f(Effect(db, ev)) == Plus(f(db), add(ev))
  }

  lemma {:induction false} AlongHistory(db0: Store, tr: seq<Event>, f: Store -> Report, add: Event -> Report)
    requires Valid(db0, tr) && Accumulates(f, add)
    ensures f(Run(db0, tr)) == Plus(f(db0), AddedBy(tr, add))
  {
    if tr != [] {
      AlongHistory(db0, tr[..|tr| - 1], f, add);
      assert Guard(Run(db0, tr[..|tr| - 1]), tr[|tr| - 1]);
    }
  }

  /** A report after any history is the report before it plus the sales the history wrote, each counted once. */
  lemma HistoryReports(db0: Store, tr: seq<Event>, scope: Scope, range: Range)
    requires Valid(db0, tr)
    ensures ReadSummary(Run(db0, tr), scope, range) ==
            Plus(ReadSummary(db0, scope, range), AddedBy(tr, ev => Added(ev, scope, range)))
  {
    var f := (db: Store) => ReadSummary(db, scope, range);
    var add := (ev: Event) => Added(ev, scope, range);
    forall db, ev | Guard(db, ev) ensures f(Effect(db, ev)) == Plus(f(db), add(ev)) {
      EventReports(db, ev, Effect(db, ev), scope, range);
    }
    AlongHistory(db0, tr, f, add);
  }
}
