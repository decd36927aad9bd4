/** Held-order rows agree with their header, read back as the lines that were requested, and predict the sale. */
module HeldOrderFacts {
  import opened Base
  import opened Schema
  import opened Pricing
  import opened PricingAgreement
  import opened CoreFacts
  import opened HeldOrders

  ghost function LineTotals(items: seq<HeldItem>): int {
    if items == [] then 0 else LineTotals(items[..|items| - 1]) + items[|items| - 1].lineTotal
  }

  ghost predicate HeldItemOk(it: HeldItem, displayOrder: nat) {
    && it.displayOrder == displayOrder
    && it.quantity >= 1
    && it.effectivePrice == it.basePrice + ModifierDelta(it.modifiers)
    && it.lineSubtotal == it.effectivePrice * it.quantity && it.lineDiscount == 0 && it.lineTotal == it.lineSubtotal
    && MoneyOk(it.effectivePrice) && MoneyOk(it.lineTotal)
    && it.note != Some("")
  }

  /** The header's estimates are what its rows add up to; rows are numbered 0..n-1 in order. */
  ghost predicate HeaderOk(o: HeldOrder) {
    && o.items != [] && (forall i :: 0 <= i < |o.items| ==> HeldItemOk(o.items[i], i))
    && o.subtotal == LineTotals(o.items)
    && o.total == o.subtotal + o.tax
    && MoneyOk(o.subtotal) && MoneyOk(o.tax) && MoneyOk(o.total)
  }

  lemma {:induction false} LineTotalsOfItems(lines: seq<PricedLine>)
    ensures LineTotals(HeldItems(lines)) == Subtotal(lines)
  {
    if lines != [] {
      var n := |lines| - 1;
      LineTotalsOfItems(lines[..n]);
      assert HeldItems(lines)[..n] == HeldItems(lines[..n]);
    }
  }

  ghost predicate HeldLineMatches(l: PricedLine, item: LineReq) {
    && l.product == item.product && l.quantity == item.quantity && l.note == HeldNote(item.note)
    && |l.options| == |item.options| && (forall i :: 0 <= i < |l.options| ==> l.options[i].id == item.options[i])
    && l.effectivePrice == l.row.price + DeltaSum(l.options)
    && InRange(l)
  }

  lemma {:induction false} HeldOptionsKeepIds(rows: seq<AssignRow>, options: map<Id, ModOption>, ids: seq<Id>)
    ensures var r := Pricing.HeldOptions(rows, options, ids);
            r.Ok? ==> |r.value| == |ids| && forall i :: 0 <= i < |ids| ==> r.value[i].id == ids[i]
  {
    if ids != [] {
      HeldOptionsKeepIds(rows, options, ids[1..]);
    }
  }

  lemma HeldLineShape(products: map<Id, Product>, rows: seq<AssignRow>, options: map<Id, ModOption>, item: LineReq)
    requires item.product in products
    ensures var r := HeldLine(products, rows, options, item); r.Ok? ==> HeldLineMatches(r.value, item)
  {
    HeldOptionsKeepIds(RowsOf(rows, item.product), options, item.options);
  }

  lemma {:induction false} HeldLinesShape(products: map<Id, Product>, rows: seq<AssignRow>, options: map<Id, ModOption>, items: seq<LineReq>)
    requires ProductIds(items) <= products.Keys
    ensures var r := HeldLines(products, rows, options, items);
            r.Ok? ==> |r.value| == |items| && forall i :: 0 <= i < |items| ==> HeldLineMatches(r.value[i], items[i])
  {
    if items != [] {
      assert items[0].product in ProductIds(items);
      assert ProductIds(items[1..]) <= ProductIds(items);
      HeldLineShape(products, rows, options, items[0]);
      HeldLinesShape(products, rows, options, items[1..]);
    }
  }

  lemma HeldItemsOk(lines: seq<PricedLine>, items: seq<LineReq>)
    requires |lines| == |items| && forall i :: 0 <= i < |items| ==> HeldLineMatches(lines[i], items[i]) && items[i].quantity >= 1
    ensures forall i :: 0 <= i < |lines| ==> HeldItemOk(HeldItems(lines)[i], i)
  {
    forall i | 0 <= i < |lines| ensures HeldItemOk(HeldItems(lines)[i], i) {
      DeltaOfModifiers(lines[i].options);
      assert HeldLineMatches(lines[i], items[i]);
    }
  }

  lemma HeldTotalsFacts(lines: seq<PricedLine>, tax: TaxConfig, t: Totals)
    requires HeldTotals(lines, tax) == Ok(t)
    ensures t.subtotal == Subtotal(lines) && t.total == t.subtotal + t.tax && t.discount == 0
    ensures MoneyOk(t.subtotal) && MoneyOk(t.tax) && MoneyOk(t.total)
  {
  }

  /** What a priced request gives to the rows. */
  ghost predicate HeldPricedFor(items: seq<LineReq>, p: Priced) {
    && |p.lines| == |items| && (forall i :: 0 <= i < |items| ==> HeldLineMatches(p.lines[i], items[i]))
    && p.totals.subtotal == Subtotal(p.lines) && p.totals.total == p.totals.subtotal + p.totals.tax
    && MoneyOk(p.totals.subtotal) && MoneyOk(p.totals.tax) && MoneyOk(p.totals.total)
  }

  lemma PricedHeld(products: map<Id, Product>, rows: seq<AssignRow>, options: map<Id, ModOption>,
                   items: seq<LineReq>, tax: TaxConfig, p: Priced)
    requires PriceHeldFrom(products, rows, options, items, tax) == Ok(p)
    ensures HeldPricedFor(items, p)
  {
    HeldLinesShape(products, rows, options, items);
    HeldTotalsFacts(p.lines, tax, p.totals);
  }

  lemma RepricedHeaderOk(order: HeldOrder, items: seq<LineReq>, p: Priced)
    requires LinesInputOk(items) && HeldPricedFor(items, p)
    ensures HeaderOk(Repriced(order, p))
  {
    HeldItemsOk(p.lines, items);
    LineTotalsOfItems(p.lines);
  }

  /** What a created order was priced from. */
  lemma CreateCameFrom(actor: Actor, req: HoldReq, rd: HoldReads, order: HeldOrder) returns (tax: TaxConfig, p: Priced)
    requires CreatePlan(actor, req, rd) == Ok(order)
    ensures LinesInputOk(req.items) && PriceHeldFrom(rd.products, rd.rows, rd.options, req.items, tax) == Ok(p)
    ensures order == NewOrder(actor, req, p)
    ensures rd.session.Some? && rd.session.value.outlet == req.outlet
  {
    tax := AuthorizeWrite(req.outlet, rd.user, rd.tenant, rd.outlet, rd.session).value;
    p := PriceHeldFrom(rd.products, rd.rows, rd.options, req.items, tax).value;
  }

  lemma NewHeaderOk(actor: Actor, req: HoldReq, p: Priced)
    requires LinesInputOk(req.items) && HeldPricedFor(req.items, p)
    ensures HeaderOk(NewOrder(actor, req, p))
  {
    var order := NewOrder(actor, req, p);
    RepricedHeaderOk(order, req.items, p);
    assert order == Repriced(order, p);
  }

  /** A created order's header agrees with its rows. */
  lemma CreatedHeaderOk(actor: Actor, req: HoldReq, rd: HoldReads, order: HeldOrder)
    requires CreatePlan(actor, req, rd) == Ok(order)
    ensures HeaderOk(order)
  {
    var tax, p := CreateCameFrom(actor, req, rd, order);
    PricedHeld(rd.products, rd.rows, rd.options, req.items, tax, p);
    NewHeaderOk(actor, req, p);
  }

  /** So does every update, whether or not it replaces the items. */
  lemma EditedHeaderOk(actor: Actor, req: EditReq, rd: EditReads, priced: Option<Priced>, order: HeldOrder)
    requires UpdatePlan(actor, req, rd) == Ok(priced) && HeaderOk(order)
    ensures HeaderOk(Edited(order, req, priced))
  {
    if priced.Some? {
      PricedHeld(rd.products, rd.rows, rd.options, req.items.value, rd.tenant.value, priced.value);
      RepricedHeaderOk(Retitled(order, req.title).(version := order.version + 1), req.items.value, priced.value);
    }
  }

  // ---------- reading the items back ----------

  lemma {:induction false} NumberedStaysInOrder(items: seq<HeldItem>, from: nat)
    requires forall i :: 0 <= i < |items| ==> items[i].displayOrder == from + i
    ensures InDisplayOrder(items) == items
  {
    if items != [] {
      NumberedStaysInOrder(items[1..], from + 1);
      assert items == [items[0]] + items[1..];
    }
  }

  function NormalNote(l: LineReq): LineReq {
    l.(note := HeldNote(l.note))
  }

  /** The rows of a priced request read back, in display order, as exactly the requested lines (an empty note is null). */
  lemma RowsReadBack(items: seq<LineReq>, p: Priced)
    requires HeldPricedFor(items, p)
    ensures RequestLines(HeldItems(p.lines)) == Map(NormalNote, items)
  {
    NumberedStaysInOrder(HeldItems(p.lines), 0);
    forall i | 0 <= i < |items| ensures RequestLine(HeldItems(p.lines)[i]) == NormalNote(items[i]) {
      assert HeldLineMatches(p.lines[i], items[i]);
      OptionIdsOfResolved(p.lines[i].options, items[i].options);
    }
  }

  // ---------- the estimate is the sale ----------

  lemma NoteDoesNotPriceLine(products: map<Id, Product>, rows: seq<AssignRow>, options: map<Id, ModOption>, item: LineReq)
    ensures var a, b := SaleLine(products, rows, options, item), SaleLine(products, rows, options, NormalNote(item));
            (a.Ok? <==> b.Ok?) && (a.Ok? ==> SamePrice(a.value, b.value))
  {
  }

  /** Notes do not enter the price. */
  lemma {:induction false} NotesDoNotPrice(products: map<Id, Product>, rows: seq<AssignRow>, options: map<Id, ModOption>, items: seq<LineReq>)
    ensures var a, b := SaleLines(products, rows, options, items), SaleLines(products, rows, options, Map(NormalNote, items));
            && (a.Ok? <==> b.Ok?)
            && (a.Ok? ==> SamePrices(a.value, b.value))
  {
    if items != [] {
      NoteDoesNotPriceLine(products, rows, options, items[0]);
      NotesDoNotPrice(products, rows, options, items[1..]);
      assert Map(NormalNote, items)[1..] == Map(NormalNote, items[1..]);
    }
  }

  lemma NotesDoNotSelect(items: seq<LineReq>)
    ensures ProductIds(Map(NormalNote, items)) == ProductIds(items)
  {
    var ys := Map(NormalNote, items);
    forall p ensures p in ProductIds(ys) <==> p in ProductIds(items) {
      if p in ProductIds(items) {
        var i :| 0 <= i < |items| && items[i].product == p;
        assert ys[i].product == p;
      }
      if p in ProductIds(ys) {
        var i :| 0 <= i < |ys| && ys[i].product == p;
        assert items[i].product == p;
      }
    }
  }

  lemma SamePricesSameTotals(xs: seq<PricedLine>, ys: seq<PricedLine>, discount: int, tax: TaxConfig)
    requires SamePrices(xs, ys)
    ensures SaleTotals(xs, discount, tax) == SaleTotals(ys, discount, tax)
  {
    SamePricesSameSubtotal(xs, ys);
  }

  lemma NotesDoNotPriceSale(c: Catalog, tenant: Id, items: seq<LineReq>, tax: TaxConfig)
    ensures var a, b := PriceSale(c, tenant, items, 0, tax), PriceSale(c, tenant, Map(NormalNote, items), 0, tax);
            && (a.Ok? <==> b.Ok?)
            && (a.Ok? ==> SamePrices(a.value.lines, b.value.lines) && a.value.totals == b.value.totals)
  {
    NotesDoNotSelect(items);
    var ids := ProductIds(items);
    var rows := ReadAssignments(c, tenant, ids, c.assignments);
    var products, options := ReadProducts(c, tenant, ids), ReadOptionsOfGroups(c, tenant, GroupsOf(rows));
    NotesDoNotPrice(products, rows, options, items);
    var a, b := SaleLines(products, rows, options, items), SaleLines(products, rows, options, Map(NormalNote, items));
    if a.Ok? {
      SamePricesSameTotals(a.value, b.value, 0, tax);
    }
  }

  /**
   With the catalog and the tax configuration unchanged since the order was priced, the sale core accepts the order's
   lines and arrives at exactly the stored estimates.
   */
  lemma EstimateIsTheSale(c: Catalog, tenant: Id, items: seq<LineReq>, tax: TaxConfig, order: HeldOrder)
    requires CatalogOk(c) && LinesInputOk(items)
    requires PriceHeld(c, tenant, items, tax).Ok?
    requires order == Repriced(order, PriceHeld(c, tenant, items, tax).value)
    ensures var s := PriceSale(c, tenant, RequestLines(order.items), 0, tax);
            s.Ok? && s.value.totals == Totals(order.subtotal, 0, order.tax, order.total)
  {
    PricingAgrees(c, tenant, items, tax);
    var p := PriceHeld(c, tenant, items, tax).value;
    PricedHeld(ReadProducts(c, tenant, ProductIds(items)), ReadAssignments(c, tenant, ProductIds(items), c.assignments),
               ReadOptionsById(c, tenant, RequestedOptions(items)), items, tax, p);
    RowsReadBack(items, p);
    NotesDoNotPriceSale(c, tenant, items, tax);
  }
}
