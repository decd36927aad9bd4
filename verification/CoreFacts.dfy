/** What every sale the core writes satisfies, and how the stock it takes relates to its lines. */
module CoreFacts {
  import opened Base
  import opened Schema
  import opened Pricing
  import opened PricingAgreement
  import opened SameRequest
  import opened Core
  import Tax

  // ---------- the money invariant ----------

  ghost function ModifierDelta(ms: seq<Modifier>): int {
    if ms == [] then 0 else ModifierDelta(ms[..|ms| - 1]) + ms[|ms| - 1].delta
  }

  ghost function ItemsSubtotal(items: seq<SaleItem>): int {
    if items == [] then 0 else ItemsSubtotal(items[..|items| - 1]) + items[|items| - 1].subtotal
  }

  ghost predicate ItemOk(it: SaleItem) {
    && LineInputOk(PersistedLine(it), V1)
    && it.basePrice.Some? && 0 <= it.basePrice.value
    && it.unitPrice == it.basePrice.value + ModifierDelta(it.modifiers)
    && it.basePrice.value <= it.unitPrice <= 51 * INT4_MAX
    && it.effectivePrice == Some(it.unitPrice)
    && it.subtotal == it.unitPrice * it.quantity
    && 0 <= it.unitCost <= INT4_MAX
  }

  ghost predicate PaymentOk(p: Payment, total: int) {
    && p.status == Paid && p.amount == total
    && (p.paidBy == Cash ==> p.received.Some? && p.received.value >= total && p.change == Some(p.received.value - total))
    && (p.paidBy != Cash ==> p.received.None? && p.change.None?)
  }

  ghost predicate MoneyInvariant(s: Sale) {
    && s.status == Completed
    && s.items != [] && (forall it <- s.items :: ItemOk(it))
    && s.subtotal == ItemsSubtotal(s.items)
    && 0 <= s.discount <= s.subtotal <= MAX_SAFE
    && 0 <= s.tax
    && s.total == s.subtotal - s.discount + s.tax
    && 0 < s.total <= MAX_SAFE
    && |s.payments| == 1 && PaymentOk(s.payments[0], s.total)
  }

  /** Every conversion of the response stays in range, so serialising before the commit never rolls a sale back. */
  ghost predicate Serializes(s: Sale) {
    && MoneyOk(s.subtotal) && MoneyOk(s.discount) && MoneyOk(s.tax) && MoneyOk(s.total)
    && (forall it <- s.items ::
          && MoneyOk(it.unitPrice) && MoneyOk(it.unitCost) && MoneyOk(it.subtotal)
          && (it.basePrice.Some? ==> MoneyOk(it.basePrice.value))
          && (it.effectivePrice.Some? ==> MoneyOk(it.effectivePrice.value)))
    && (forall p <- s.payments ::
          && MoneyOk(p.amount)
          && (p.received.Some? ==> MoneyOk(p.received.value))
          && (p.change.Some? ==> MoneyOk(p.change.value)))
  }

  /** What the column constraints give about an attempt's catalog reads. */
  ghost predicate ReadsOk(rd: Reads) {
    && (forall p <- rd.products :: 0 <= rd.products[p].price <= INT4_MAX && 0 <= rd.products[p].cost <= INT4_MAX)
    && (forall o <- rd.options :: 0 <= rd.options[o].delta <= INT4_MAX)
  }

  lemma {:induction false} DeltaOfModifiers(opts: seq<ResolvedOption>)
    ensures ModifierDelta(Map(ModifierOf, opts)) == DeltaSum(opts)
  {
    if opts != [] {
      var n := |opts| - 1;
      DeltaOfModifiers(opts[..n]);
      assert Map(ModifierOf, opts)[..n] == Map(ModifierOf, opts[..n]);
    }
  }

  lemma {:induction false} SubtotalOfItems(lines: seq<PricedLine>)
    ensures ItemsSubtotal(Map(SaleItemOf, lines)) == Subtotal(lines)
  {
    if lines != [] {
      var n := |lines| - 1;
      SubtotalOfItems(lines[..n]);
      assert Map(SaleItemOf, lines)[..n] == Map(SaleItemOf, lines[..n]);
    }
  }

  lemma {:induction false} OptionIdsOfResolved(opts: seq<ResolvedOption>, ids: seq<Id>)
    requires |opts| == |ids| && forall i :: 0 <= i < |ids| ==> opts[i].id == ids[i]
    ensures OptionIds(Map(ModifierOf, opts)) == ids
  {
    if opts != [] {
      OptionIdsOfResolved(opts[1..], ids[1..]);
      assert Map(ModifierOf, opts)[1..] == Map(ModifierOf, opts[1..]);
      assert ids == [ids[0]] + ids[1..];
    }
  }

  /** A stored line reads back as the request line it came from. */
  lemma StoredLineReadsBack(products: map<Id, Product>, l: PricedLine, item: LineReq)
    requires LineMatches(products, l, item)
    ensures PersistedLine(SaleItemOf(l)) == item
  {
    OptionIdsOfResolved(l.options, item.options);
  }

  lemma StoredItemOk(products: map<Id, Product>, l: PricedLine, item: LineReq, mode: Mode)
    requires LineMatches(products, l, item) && LineInputOk(item, mode)
    requires forall p <- products :: 0 <= products[p].price <= INT4_MAX && 0 <= products[p].cost <= INT4_MAX
    ensures ItemOk(SaleItemOf(l))
  {
    StoredLineReadsBack(products, l, item);
    DeltaOfModifiers(l.options);
    DeltaSumBounded(l.options);
  }

  lemma {:induction false} ItemsBelowSubtotal(items: seq<SaleItem>)
    requires forall it <- items :: ItemOk(it)
    ensures 0 <= ItemsSubtotal(items)
    ensures forall it <- items :: 0 <= it.subtotal <= ItemsSubtotal(items)
  {
    if items != [] {
      var n := |items| - 1;
      ItemsBelowSubtotal(items[..n]);
      assert items[n] in items;
      ProductNonNegative(items[n].unitPrice, items[n].quantity);
      assert forall it :: it in items <==> it in items[..n] || it == items[n];
    }
  }

  lemma MoneyInvariantSerializes(s: Sale)
    requires MoneyInvariant(s) && (forall p <- s.payments :: p.received.Some? ==> p.received.value <= MAX_SAFE)
    ensures Serializes(s)
  {
    ItemsBelowSubtotal(s.items);
    forall it <- s.items
      ensures && MoneyOk(it.unitPrice) && MoneyOk(it.unitCost) && MoneyOk(it.subtotal)
              && (it.basePrice.Some? ==> MoneyOk(it.basePrice.value))
              && (it.effectivePrice.Some? ==> MoneyOk(it.effectivePrice.value))
    {
      assert ItemOk(it);
    }
  }

  /** Lines that were priced, against the request lines. */
  lemma PricedLinesMatch(rd: Reads, items: seq<LineReq>, discount: int, tax: TaxConfig, p: Priced)
    requires ReadsOk(rd)
    requires PriceSaleFrom(rd.products, rd.rows, rd.options, items, discount, tax) == Ok(p)
    ensures |p.lines| == |items|
    ensures forall i :: 0 <= i < |items| ==> LineMatches(rd.products, p.lines[i], items[i])
    ensures SaleTotals(p.lines, discount, tax) == Ok(p.totals)
  {
    SaleLinesShape(rd.products, rd.rows, rd.options, items);
  }

  lemma ItemsOfPlan(rd: Reads, items: seq<LineReq>, lines: seq<PricedLine>, mode: Mode)
    requires ReadsOk(rd) && |lines| == |items|
    requires forall i :: 0 <= i < |items| ==> LineMatches(rd.products, lines[i], items[i]) && LineInputOk(items[i], mode)
    ensures forall it <- Map(SaleItemOf, lines) :: ItemOk(it)
    ensures Map(PersistedLine, Map(SaleItemOf, lines)) == items
  {
    var its := Map(SaleItemOf, lines);
    forall i | 0 <= i < |items| ensures ItemOk(its[i]) && PersistedLine(its[i]) == items[i] {
      StoredItemOk(rd.products, lines[i], items[i], mode);
      StoredLineReadsBack(rd.products, lines[i], items[i]);
    }
    assert Map(PersistedLine, its) == items;
  }

  lemma TotalsFacts(lines: seq<PricedLine>, discount: int, tax: TaxConfig, t: Totals)
    requires discount >= 0
    requires SaleTotals(lines, discount, tax) == Ok(t)
    ensures t.subtotal == Subtotal(lines) && t.discount == discount && discount <= t.subtotal <= MAX_SAFE
    ensures t.total == t.subtotal - t.discount + t.tax && t.tax >= 0 && t.total <= MAX_SAFE
  {
  }

  /** What a Write plan was decided from. */
  lemma WriteCameFrom(actor: Actor, req: SaleReq, mode: Mode, rd: Reads, now: int, sale: Sale, tracked: set<Id>) returns (p: Priced)
    requires CorePlan(actor, req, mode, rd, now) == Write(sale, tracked)
    ensures InputOk(req, mode) && rd.tenant.Some? && rd.existing.None?
    ensures PriceSaleFrom(rd.products, rd.rows, rd.options, req.items, req.discount, rd.tenant.value) == Ok(p)
    ensures p.totals.total > 0
    ensures ResolveTender(req.payment).Some? ==> ResolveTender(req.payment).value >= p.totals.total
    ensures sale == SaleOf(actor, req, mode, p, now) && tracked == TrackedOf(rd.products)
    ensures mode == V1 ==> rd.session.Some? && rd.session.value.outlet == req.outlet
  {
    p := PriceSaleFrom(rd.products, rd.rows, rd.options, req.items, req.discount, rd.tenant.value).value;
  }

  lemma PaymentSound(req: PaymentReq, total: int)
    requires PaymentProblem(req).None? && InMoneyRange(req.amount) && InMoneyRange(req.received)
    requires ResolveTender(req).Some? ==> ResolveTender(req).value >= total
    ensures var p := PaymentOf(req, total);
            PaymentOk(p, total) && SamePayment(p, req) && (p.received.Some? ==> p.received.value <= MAX_SAFE)
  {
  }

  lemma SaleOfSound(actor: Actor, req: SaleReq, mode: Mode, rd: Reads, p: Priced, now: int)
    requires ReadsOk(rd) && InputOk(req, mode)
    requires |p.lines| == |req.items|
    requires forall i :: 0 <= i < |req.items| ==> LineMatches(rd.products, p.lines[i], req.items[i])
    requires p.totals.subtotal == Subtotal(p.lines)
    ensures var s := SaleOf(actor, req, mode, p, now);
            && s.items != [] && (forall it <- s.items :: ItemOk(it))
            && s.subtotal == ItemsSubtotal(s.items)
            && Map(PersistedLine, s.items) == req.items
            && SameHeader(s.(discount := req.discount), actor, req)
  {
    ItemsOfPlan(rd, req.items, p.lines, mode);
    SubtotalOfItems(p.lines);
  }

  /** Priced lines and totals, as far as the stored sale depends on them. */
  ghost predicate PricedFor(rd: Reads, req: SaleReq, p: Priced) {
    && |p.lines| == |req.items|
    && (forall i :: 0 <= i < |req.items| ==> LineMatches(rd.products, p.lines[i], req.items[i]))
    && p.totals.subtotal == Subtotal(p.lines) <= MAX_SAFE
    && p.totals.discount == req.discount <= p.totals.subtotal
    && p.totals.tax >= 0 && p.totals.total == p.totals.subtotal - p.totals.discount + p.totals.tax <= MAX_SAFE
  }

  lemma PricedForRequest(rd: Reads, req: SaleReq, tax: TaxConfig, p: Priced)
    requires ReadsOk(rd) && req.discount >= 0
    requires PriceSaleFrom(rd.products, rd.rows, rd.options, req.items, req.discount, tax) == Ok(p)
    ensures PricedFor(rd, req, p)
  {
    PricedLinesMatch(rd, req.items, req.discount, tax, p);
    TotalsFacts(p.lines, req.discount, tax, p.totals);
  }

  lemma PricedSaleIsSound(actor: Actor, req: SaleReq, mode: Mode, rd: Reads, p: Priced, now: int)
    requires ReadsOk(rd) && InputOk(req, mode) && PricedFor(rd, req, p)
    requires p.totals.total > 0
    requires ResolveTender(req.payment).Some? ==> ResolveTender(req.payment).value >= p.totals.total
    ensures MoneyInvariant(SaleOf(actor, req, mode, p, now)) && Serializes(SaleOf(actor, req, mode, p, now))
  {
    PaymentSound(req.payment, p.totals.total);
    SaleOfSound(actor, req, mode, rd, p, now);
    MoneyInvariantSerializes(SaleOf(actor, req, mode, p, now));
  }

  /** The money invariant of every sale the core writes, for every request and every mixture of reads. */
  lemma WrittenSaleIsSound(actor: Actor, req: SaleReq, mode: Mode, rd: Reads, now: int, sale: Sale, tracked: set<Id>)
    requires ReadsOk(rd)
    requires CorePlan(actor, req, mode, rd, now) == Write(sale, tracked)
    ensures MoneyInvariant(sale) && Serializes(sale)
  {
    var p := WriteCameFrom(actor, req, mode, rd, now, sale, tracked);
    PricedForRequest(rd, req, rd.tenant.value, p);
    PricedSaleIsSound(actor, req, mode, rd, p, now);
  }

  /** The stored sale's lines read back as the request, so a request is a repetition of itself. */
  lemma WrittenSaleAnswersItsRequest(actor: Actor, req: SaleReq, mode: Mode, rd: Reads, now: int, sale: Sale, tracked: set<Id>)
    requires ReadsOk(rd)
    requires CorePlan(actor, req, mode, rd, now) == Write(sale, tracked)
    ensures sale.tenant == actor.tenant && sale.key == req.key
    ensures Map(PersistedLine, sale.items) == req.items
    ensures AssertSameRequest(sale, actor, req)
  {
    var p := WriteCameFrom(actor, req, mode, rd, now, sale, tracked);
    PricedForRequest(rd, req, rd.tenant.value, p);
    PaymentSound(req.payment, p.totals.total);
    SaleOfSound(actor, req, mode, rd, p, now);
  }

  lemma TaxOfTotals(lines: seq<PricedLine>, discount: int, tax: TaxConfig, t: Totals)
    requires discount >= 0 && SaleTotals(lines, discount, tax) == Ok(t)
    ensures t.subtotal >= t.discount
    ensures t.tax == Tax.CalculateTax(tax.enabled, tax.rate, t.subtotal - t.discount).0
  {
  }

  /** The stored tax is the nearest integer to (subtotal - discount) times the rate, ties upward, or zero when disabled. */
  lemma WrittenTaxIsNearest(actor: Actor, req: SaleReq, mode: Mode, rd: Reads, now: int, sale: Sale, tracked: set<Id>)
    requires CorePlan(actor, req, mode, rd, now) == Write(sale, tracked)
    ensures rd.tenant.Some?
    ensures var cfg, taxable := rd.tenant.value, sale.subtotal - sale.discount;
            && (!cfg.enabled ==> sale.tax == 0)
            && (cfg.enabled ==> -5000 < 10000 * sale.tax - taxable * cfg.rate <= 5000)
            && (cfg.rate <= 10000 ==> 0 <= sale.tax <= taxable)
  {
    hide CorePlan, SaleTotals, Tax.BasisPoints;
    var p := WriteCameFrom(actor, req, mode, rd, now, sale, tracked);
    TaxOfTotals(p.lines, req.discount, rd.tenant.value, p.totals);
    var cfg, taxable := rd.tenant.value, sale.subtotal - sale.discount;
    if cfg.enabled {
      Tax.TaxIsNearest(cfg.rate, taxable, sale.tax);
    }
    if cfg.rate <= 10000 {
      Tax.TaxBounded(cfg.enabled, cfg.rate, taxable);
    }
  }

  // ---------- stock to take ----------

  ghost predicate DistinctProducts(decs: seq<Dec>) {
    forall i, j :: 0 <= i < j < |decs| ==> decs[i].product != decs[j].product
  }

  lemma {:induction false} TakenHead(decs: seq<Dec>, p: Id)
    requires decs != []
    ensures Taken(decs, p) == (if decs[0].product == p then decs[0].quantity else 0) + Taken(decs[1..], p)
  {
    if |decs| > 1 {
      var n := |decs| - 1;
      assert decs[1..][..n - 1] == decs[..n][1..];
      TakenHead(decs[..n], p);
    }
  }

  lemma {:induction false} AddDecKeepsOrder(decs: seq<Dec>, p: Id, q: int)
    requires DistinctProducts(decs)
    ensures DistinctProducts(AddDec(decs, p, q))
    ensures forall d <- AddDec(decs, p, q) :: d.product == p || d in decs
    ensures (forall d <- decs :: d.quantity >= 1) && q >= 1 ==> forall d <- AddDec(decs, p, q) :: d.quantity >= 1
  {
    if decs != [] && decs[0].product != p {
      AddDecKeepsOrder(decs[1..], p, q);
      var rest := AddDec(decs[1..], p, q);
      forall d <- rest ensures d.product != decs[0].product {
        if d.product != p {
          var k :| 0 <= k < |decs| - 1 && decs[1..][k] == d;
          assert decs[k + 1] == d;
        }
      }
    }
  }

  lemma {:induction false} AddDecTakes(decs: seq<Dec>, p: Id, q: int, x: Id)
    ensures Taken(AddDec(decs, p, q), x) == Taken(decs, x) + if x == p then q else 0
  {
    var r := AddDec(decs, p, q);
    TakenHead(r, x);
    if decs != [] {
      TakenHead(decs, x);
      if decs[0].product == p {
        assert r[1..] == decs[1..];
      } else {
        AddDecTakes(decs[1..], p, q, x);
        assert r[1..] == AddDec(decs[1..], p, q);
      }
    }
  }

  /** The aggregation takes each product once, in total exactly what the tracked lines ask for. */
  lemma {:induction false} DecrementsExact(items: seq<SaleItem>, tracked: set<Id>, p: Id)
    requires forall it <- items :: it.quantity >= 1
    ensures var decs := Decrements(items, tracked);
            && DistinctProducts(decs)
            && (forall d <- decs :: d.quantity >= 1 && d.product in tracked)
            && Taken(decs, p) == if p in tracked then QuantityOf(items, p) else 0
  {
    if items != [] {
      var n := |items| - 1;
      var last := items[n];
      DecrementsExact(items[..n], tracked, p);
      assert last in items;
      AddDecKeepsOrder(Decrements(items[..n], tracked), last.product, last.quantity);
      AddDecTakes(Decrements(items[..n], tracked), last.product, last.quantity, p);
    }
  }
}
