/** The held-order estimate and the sale core price alike: when, exactly, and with what totals. */
module PricingAgreement {
  import opened Base
  import opened Schema
  import opened Pricing

  // ---------- assigned rows ----------

  ghost predicate UniqueRows(rows: seq<AssignRow>) {
    forall i, j :: 0 <= i < j < |rows| ==> (rows[i].product, rows[i].group) != (rows[j].product, rows[j].group)
  }

  ghost predicate Describes(c: Catalog, tenant: Id, ids: set<Id>, a: Assignment, r: AssignRow) {
    Joins(c, tenant, ids, a) && r.product == a.product && r.group == a.group && r.groupName == c.groups[a.group].name
  }

  ghost predicate Joined(c: Catalog, tenant: Id, ids: set<Id>, table: seq<Assignment>, r: AssignRow) {
    exists a <- table :: Describes(c, tenant, ids, a, r)
  }

  lemma {:induction false} RowsAreUnique(c: Catalog, tenant: Id, ids: set<Id>, table: seq<Assignment>)
    requires UniqueKeys(table)
    ensures var rows := ReadAssignments(c, tenant, ids, table);
            && UniqueRows(rows)
            && forall r <- rows :: Joined(c, tenant, ids, table, r)
  {
    if table != [] {
      RowsAreUnique(c, tenant, ids, table[1..]);
      var a := table[0];
      var rest := ReadAssignments(c, tenant, ids, table[1..]);
      forall r <- rest ensures (r.product, r.group) != (a.product, a.group) || !Joins(c, tenant, ids, a) {
        var b :| b in table[1..] && Describes(c, tenant, ids, b, r);
        var k :| 0 <= k < |table| - 1 && table[1..][k] == b;
        assert table[0] == a && table[k + 1] == b;
      }
      forall r <- ReadAssignments(c, tenant, ids, table) ensures Joined(c, tenant, ids, table, r) {
        if r in rest {
          var x :| x in table[1..] && Describes(c, tenant, ids, x, r);
          assert x in table;
        } else {
          assert Describes(c, tenant, ids, a, r) && a in table;
        }
      }
    }
  }

  lemma {:induction false} RowsOfProduct(rows: seq<AssignRow>, p: Id)
    ensures forall r :: r in RowsOf(rows, p) <==> r in rows && r.product == p
    ensures UniqueRows(rows) ==> UniqueRows(RowsOf(rows, p))
  {
    if rows != [] {
      RowsOfProduct(rows[1..], p);
      var rest := RowsOf(rows[1..], p);
      assert forall r :: r in rows <==> r == rows[0] || r in rows[1..];
      if UniqueRows(rows) {
        forall r <- rest ensures r.group != rows[0].group || rows[0].product != p {
          var k :| 0 <= k < |rows| - 1 && rows[1..][k] == r;
          assert rows[k + 1] == r;
        }
      }
    }
  }

  lemma {:induction false} FirstRowFinds(rows: seq<AssignRow>, g: Id)
    ensures match FirstRow(rows, g)
            case None => forall r <- rows :: r.group != g
            case Some(a) => a in rows && a.group == g
  {
    if rows != [] {
      FirstRowFinds(rows[1..], g);
      assert forall r :: r in rows <==> r == rows[0] || r in rows[1..];
    }
  }

  lemma {:induction false} LastRowFinds(rows: seq<AssignRow>, g: Id)
    ensures match LastRow(rows, g)
            case None => forall r <- rows :: r.group != g
            case Some(a) => a in rows && a.group == g
  {
    if rows != [] {
      var n := |rows| - 1;
      LastRowFinds(rows[..n], g);
      assert forall r :: r in rows <==> r in rows[..n] || r == rows[n];
    }
  }

  /** With one assignment per group, the first row and the last row of a group are the same. */
  lemma FirstIsLast(rows: seq<AssignRow>, p: Id, g: Id)
    requires UniqueRows(rows) && forall r <- rows :: r.product == p
    ensures FirstRow(rows, g) == LastRow(rows, g)
  {
    FirstRowFinds(rows, g);
    LastRowFinds(rows, g);
    if FirstRow(rows, g).Some? && LastRow(rows, g).Some? {
      var i :| 0 <= i < |rows| && rows[i] == FirstRow(rows, g).value;
      var j :| 0 <= j < |rows| && rows[j] == LastRow(rows, g).value;
      assert i == j;
    }
  }

  // ---------- options and rules ----------

  /** What the two routines read for one line, related. */
  ghost predicate SameReads(rows: seq<AssignRow>, p: Id, saleOptions: map<Id, ModOption>, heldOptions: map<Id, ModOption>, ids: seq<Id>) {
    && UniqueRows(rows)
    && (forall r <- rows :: r.product == p && r.groupName != "")
    && (forall id <- ids :: id in saleOptions ==> id in heldOptions && heldOptions[id] == saleOptions[id])
    && (forall id <- ids :: id in heldOptions && id !in saleOptions ==> forall r <- rows :: r.group != heldOptions[id].group)
  }

  lemma OptionsAgree(rows: seq<AssignRow>, p: Id, saleOptions: map<Id, ModOption>, heldOptions: map<Id, ModOption>, ids: seq<Id>)
    requires SameReads(rows, p, saleOptions, heldOptions, ids)
    ensures Pricing.SaleOptions(rows, saleOptions, ids).Ok? <==> Pricing.HeldOptions(rows, heldOptions, ids).Ok?
    ensures Pricing.SaleOptions(rows, saleOptions, ids).Ok? ==>
              Pricing.SaleOptions(rows, saleOptions, ids) == Pricing.HeldOptions(rows, heldOptions, ids)
    decreases |ids|
  {
    if ids != [] {
      var id := ids[0];
      if id in heldOptions {
        var g := heldOptions[id].group;
        FirstIsLast(rows, p, g);
        FirstRowFinds(rows, g);
        LastRowFinds(rows, g);
      }
      assert forall x :: x in ids[1..] ==> x in ids;
      OptionsAgree(rows, p, saleOptions, heldOptions, ids[1..]);
    }
  }

  ghost predicate RequiresMultiple(rows: seq<AssignRow>) {
    exists r <- rows :: r.required && r.selection == Multiple
  }

  lemma {:induction false} RulesAgreeOnSelection(rows: seq<AssignRow>, opts: seq<ResolvedOption>)
    ensures HeldRules(rows, opts).None? <==> SaleRules(rows, opts).None?
  {
    if rows != [] {
      RulesAgreeOnSelection(rows[1..], opts);
    }
  }

  lemma {:induction false} RulesAgreeOnNoSelection(rows: seq<AssignRow>)
    ensures HeldRules(rows, []).None? <==> SaleRulesNoSelection(rows).None? && !RequiresMultiple(rows)
  {
    if rows != [] {
      RulesAgreeOnNoSelection(rows[1..]);
      assert forall r :: r in rows <==> r == rows[0] || r in rows[1..];
    }
  }

  // ---------- lines ----------

  /** The one case the sale core lets through: no option chosen although an assigned MULTIPLE group is required. */
  ghost predicate BareRequiredMultiple(rows: seq<AssignRow>, item: LineReq) {
    item.options == [] && RequiresMultiple(RowsOf(rows, item.product))
  }

  ghost predicate SamePrice(a: PricedLine, b: PricedLine) {
    a.product == b.product && a.row == b.row && a.options == b.options
    && a.effectivePrice == b.effectivePrice && a.quantity == b.quantity
  }

  ghost predicate SamePrices(xs: seq<PricedLine>, ys: seq<PricedLine>) {
    |xs| == |ys| && forall i :: 0 <= i < |xs| ==> SamePrice(xs[i], ys[i])
  }

  ghost predicate InRange(l: PricedLine) {
    MoneyOk(l.effectivePrice) && MoneyOk(l.effectivePrice * l.quantity)
  }

  ghost predicate Readable(products: map<Id, Product>, rows: seq<AssignRow>, saleOptions: map<Id, ModOption>,
                           heldOptions: map<Id, ModOption>, items: seq<LineReq>) {
    && ProductIds(items) <= products.Keys
    && forall i :: 0 <= i < |items| ==>
         SameReads(RowsOf(rows, items[i].product), items[i].product, saleOptions, heldOptions, items[i].options)
  }

  lemma LineAgrees(products: map<Id, Product>, rows: seq<AssignRow>, saleOptions: map<Id, ModOption>,
                   heldOptions: map<Id, ModOption>, item: LineReq)
    requires item.product in products
    requires SameReads(RowsOf(rows, item.product), item.product, saleOptions, heldOptions, item.options)
    ensures var s, h := SaleLine(products, rows, saleOptions, item), HeldLine(products, rows, heldOptions, item);
            && (h.Ok? <==> s.Ok? && InRange(s.value) && !BareRequiredMultiple(rows, item))
            && (h.Ok? ==> SamePrice(s.value, h.value))
  {
    var itemRows := RowsOf(rows, item.product);
    OptionsAgree(itemRows, item.product, saleOptions, heldOptions, item.options);
    var opts := Pricing.SaleOptions(itemRows, saleOptions, item.options);
    if opts.Ok? {
      RulesAgreeOnSelection(itemRows, opts.value);
      RulesAgreeOnNoSelection(itemRows);
    }
  }

  ghost predicate NoneBare(rows: seq<AssignRow>, items: seq<LineReq>) {
    forall i :: 0 <= i < |items| ==> !BareRequiredMultiple(rows, items[i])
  }

  lemma {:induction false} LinesAgree(products: map<Id, Product>, rows: seq<AssignRow>, saleOptions: map<Id, ModOption>,
                   heldOptions: map<Id, ModOption>, items: seq<LineReq>)
    requires Readable(products, rows, saleOptions, heldOptions, items)
    ensures var s, h := SaleLines(products, rows, saleOptions, items), HeldLines(products, rows, heldOptions, items);
            && (h.Ok? <==> s.Ok? && (forall l <- s.value :: InRange(l)) && NoneBare(rows, items))
            && (h.Ok? ==> SamePrices(s.value, h.value))
  {
    if items != [] {
      assert items[0].product in ProductIds(items);
      assert ProductIds(items[1..]) <= ProductIds(items);
      LineAgrees(products, rows, saleOptions, heldOptions, items[0]);
      LinesAgree(products, rows, saleOptions, heldOptions, items[1..]);
      assert NoneBare(rows, items) <==> !BareRequiredMultiple(rows, items[0]) && NoneBare(rows, items[1..]) by {
        assert forall i :: 0 < i < |items| ==> items[i] == items[1..][i - 1];
      }
    }
  }

  // ---------- totals ----------

  lemma {:induction false} SamePricesSameSubtotal(xs: seq<PricedLine>, ys: seq<PricedLine>)
    requires SamePrices(xs, ys)
    ensures Subtotal(xs) == Subtotal(ys)
  {
    if xs != [] {
      var n := |xs| - 1;
      SamePricesSameSubtotal(xs[..n], ys[..n]);
      assert SamePrice(xs[n], ys[n]);
    }
  }

  lemma ProductNonNegative(a: int, b: int)
    requires a >= 0 && b >= 1
    ensures a * b >= a
  {
    assert a * b == a + a * (b - 1);
  }

  /** With non-negative prices every line is bounded by the subtotal. */
  lemma {:induction false} LinesBelowSubtotal(lines: seq<PricedLine>)
    requires forall l <- lines :: l.effectivePrice >= 0 && l.quantity >= 1
    ensures Subtotal(lines) >= 0
    ensures forall l <- lines :: 0 <= l.effectivePrice <= l.effectivePrice * l.quantity <= Subtotal(lines)
  {
    if lines != [] {
      var n := |lines| - 1;
      LinesBelowSubtotal(lines[..n]);
      ProductNonNegative(lines[n].effectivePrice, lines[n].quantity);
      assert forall l :: l in lines <==> l in lines[..n] || l == lines[n];
    }
  }

  ghost predicate DeltasNonNegative(opts: seq<ResolvedOption>) {
    forall o <- opts :: 0 <= o.delta <= INT4_MAX
  }

  /** The option deltas of a line never leave the range where JavaScript numbers are exact. */
  lemma {:induction false} DeltaSumBounded(opts: seq<ResolvedOption>)
    requires DeltasNonNegative(opts)
    ensures 0 <= DeltaSum(opts) <= |opts| * INT4_MAX
  {
    if opts != [] {
      assert opts[|opts| - 1] in opts;
      DeltaSumBounded(opts[..|opts| - 1]);
    }
  }

  lemma {:induction false} SaleOptionsCarryDeltas(rows: seq<AssignRow>, options: map<Id, ModOption>, ids: seq<Id>)
    requires forall o <- options :: 0 <= options[o].delta <= INT4_MAX
    ensures var r := Pricing.SaleOptions(rows, options, ids);
            r.Ok? ==> |r.value| == |ids| && DeltasNonNegative(r.value) && forall i :: 0 <= i < |ids| ==> r.value[i].id == ids[i]
  {
    if ids != [] {
      SaleOptionsCarryDeltas(rows, options, ids[1..]);
    }
  }

  ghost predicate LineMatches(products: map<Id, Product>, l: PricedLine, item: LineReq) {
    && l.product == item.product && l.quantity == item.quantity && l.note == item.note
    && l.product in products && l.row == products[l.product]
    && |l.options| == |item.options| && (forall i :: 0 <= i < |l.options| ==> l.options[i].id == item.options[i])
    && DeltasNonNegative(l.options)
    && l.effectivePrice == l.row.price + DeltaSum(l.options)
    && 0 <= l.effectivePrice <= (1 + |item.options|) * INT4_MAX
  }

  /** What a priced sale line keeps of the request, and the sign and size of its price. */
  lemma SaleLineShape(products: map<Id, Product>, rows: seq<AssignRow>, options: map<Id, ModOption>, item: LineReq)
    requires forall o <- options :: 0 <= options[o].delta <= INT4_MAX
    requires forall p <- products :: 0 <= products[p].price <= INT4_MAX
    ensures var r := SaleLine(products, rows, options, item); r.Ok? ==> LineMatches(products, r.value, item)
  {
    var itemRows := RowsOf(rows, item.product);
    SaleOptionsCarryDeltas(itemRows, options, item.options);
    var opts := Pricing.SaleOptions(itemRows, options, item.options);
    if opts.Ok? {
      DeltaSumBounded(opts.value);
    }
  }

  lemma {:induction false} SaleLinesShape(products: map<Id, Product>, rows: seq<AssignRow>, options: map<Id, ModOption>, items: seq<LineReq>)
    requires forall o <- options :: 0 <= options[o].delta <= INT4_MAX
    requires forall p <- products :: 0 <= products[p].price <= INT4_MAX
    ensures var r := SaleLines(products, rows, options, items);
            r.Ok? ==> |r.value| == |items| && forall i :: 0 <= i < |items| ==> LineMatches(products, r.value[i], items[i])
  {
    if items != [] {
      SaleLineShape(products, rows, options, items[0]);
      SaleLinesShape(products, rows, options, items[1..]);
    }
  }

  lemma SaleLinesNonNegative(products: map<Id, Product>, rows: seq<AssignRow>, options: map<Id, ModOption>,
                             items: seq<LineReq>, lines: seq<PricedLine>)
    requires forall o <- options :: 0 <= options[o].delta <= INT4_MAX
    requires forall p <- products :: 0 <= products[p].price <= INT4_MAX
    requires forall i :: 0 <= i < |items| ==> items[i].quantity >= 1
    requires SaleLines(products, rows, options, items) == Ok(lines)
    ensures forall l <- lines :: l.effectivePrice >= 0 && l.quantity >= 1
  {
    SaleLinesShape(products, rows, options, items);
    forall l <- lines ensures l.effectivePrice >= 0 && l.quantity >= 1 {
      var i :| 0 <= i < |lines| && lines[i] == l;
      assert LineMatches(products, lines[i], items[i]);
    }
  }

  /** The reads of one catalog satisfy everything the line lemmas ask for. */
  lemma CatalogReads(c: Catalog, tenant: Id, items: seq<LineReq>)
    requires CatalogOk(c)
    requires ReadProducts(c, tenant, ProductIds(items)).Keys == ProductIds(items)
    ensures var rows := ReadAssignments(c, tenant, ProductIds(items), c.assignments);
            Readable(ReadProducts(c, tenant, ProductIds(items)), rows, ReadOptionsOfGroups(c, tenant, GroupsOf(rows)),
                     ReadOptionsById(c, tenant, RequestedOptions(items)), items)
  {
    var ids := ProductIds(items);
    var rows := ReadAssignments(c, tenant, ids, c.assignments);
    var saleOptions, heldOptions := ReadOptionsOfGroups(c, tenant, GroupsOf(rows)), ReadOptionsById(c, tenant, RequestedOptions(items));
    RowsAreUnique(c, tenant, ids, c.assignments);
    forall i | 0 <= i < |items|
      ensures SameReads(RowsOf(rows, items[i].product), items[i].product, saleOptions, heldOptions, items[i].options)
    {
      var p := items[i].product;
      RowsOfProduct(rows, p);
      forall r <- RowsOf(rows, p) ensures r.product == p && r.groupName != "" && r.group in GroupsOf(rows) {
        assert r in rows;
        var k :| 0 <= k < |rows| && rows[k] == r;
      }
      forall id <- items[i].options ensures id in RequestedOptions(items) {
        var j :| 0 <= j < |items[i].options| && items[i].options[j] == id;
      }
    }
  }

  /** With non-negative prices, a line out of range puts the whole sale out of range. */
  lemma RangeFollowsFromSubtotal(lines: seq<PricedLine>)
    requires forall l <- lines :: l.effectivePrice >= 0 && l.quantity >= 1
    requires MoneyOk(Subtotal(lines))
    ensures forall l <- lines :: InRange(l)
  {
    LinesBelowSubtotal(lines);
  }

  lemma TotalsAgree(xs: seq<PricedLine>, ys: seq<PricedLine>, tax: TaxConfig)
    requires Subtotal(xs) == Subtotal(ys) >= 0
    ensures SaleTotals(xs, 0, tax).Ok? <==> HeldTotals(ys, tax).Ok?
    ensures SaleTotals(xs, 0, tax).Ok? ==> SaleTotals(xs, 0, tax) == HeldTotals(ys, tax) && MoneyOk(Subtotal(xs))
  {
  }

  lemma PricingAgreesOnReads(products: map<Id, Product>, rows: seq<AssignRow>, saleOptions: map<Id, ModOption>,
                             heldOptions: map<Id, ModOption>, items: seq<LineReq>, tax: TaxConfig)
    requires products.Keys == ProductIds(items)
    requires Readable(products, rows, saleOptions, heldOptions, items)
    requires forall o <- saleOptions :: 0 <= saleOptions[o].delta <= INT4_MAX
    requires forall p <- products :: 0 <= products[p].price <= INT4_MAX
    requires forall i :: 0 <= i < |items| ==> items[i].quantity >= 1
    ensures var s, h := PriceSaleFrom(products, rows, saleOptions, items, 0, tax), PriceHeldFrom(products, rows, heldOptions, items, tax);
            && (h.Ok? <==> s.Ok? && NoneBare(rows, items))
            && (h.Ok? ==> SamePrices(s.value.lines, h.value.lines) && s.value.totals == h.value.totals)
  {
    LinesAgree(products, rows, saleOptions, heldOptions, items);
    var s, h := SaleLines(products, rows, saleOptions, items), HeldLines(products, rows, heldOptions, items);
    if s.Ok? {
      SaleLinesNonNegative(products, rows, saleOptions, items, s.value);
      LinesBelowSubtotal(s.value);
      TotalsAgree(s.value, s.value, tax);
      if MoneyOk(Subtotal(s.value)) { RangeFollowsFromSubtotal(s.value); }
      if h.Ok? {
        SamePricesSameSubtotal(s.value, h.value);
        TotalsAgree(s.value, h.value, tax);
      }
    }
  }

  /**
   The two routines, over any catalog that satisfies the table constraints and any lines the input rules admit:
   a held order is accepted exactly when the undiscounted sale of the same lines passes the sale core's pricing and no
   line leaves a required MULTIPLE group without any selection. Then every line has the same effective price and the
   estimate is the sale's subtotal, tax and total.
   */
  lemma PricingAgrees(c: Catalog, tenant: Id, items: seq<LineReq>, tax: TaxConfig)
    requires CatalogOk(c)
    requires forall i :: 0 <= i < |items| ==> items[i].quantity >= 1
    ensures var s, h := PriceSale(c, tenant, items, 0, tax), PriceHeld(c, tenant, items, tax);
            && (h.Ok? <==> s.Ok? && NoneBare(ReadAssignments(c, tenant, ProductIds(items), c.assignments), items))
            && (h.Ok? ==> SamePrices(s.value.lines, h.value.lines) && s.value.totals == h.value.totals)
  {
    if ReadProducts(c, tenant, ProductIds(items)).Keys == ProductIds(items) {
      CatalogReads(c, tenant, items);
      var rows := ReadAssignments(c, tenant, ProductIds(items), c.assignments);
      PricingAgreesOnReads(
        ReadProducts(c, tenant, ProductIds(items)), rows, ReadOptionsOfGroups(c, tenant, GroupsOf(rows)),
        ReadOptionsById(c, tenant, RequestedOptions(items)), items, tax);
    }
  }
}
