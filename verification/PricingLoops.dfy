/** The pricing loops as the two services run them, each proved against the function of module Pricing it computes. */
module PricingLoops {
  import opened Base
  import opened Schema
  import opened Pricing
  import opened PricingAgreement
  import Tax

  lemma PrependPrepend<T>(a: seq<T>, b: seq<T>, r: Result<seq<T>, Reason>)
    ensures Prepend(a, Prepend(b, r)) == Prepend(a + b, r)
  {
    if r.Ok? {
      assert a + (b + r.value) == a + b + r.value;
    }
  }

  lemma PrependNothing<T>(r: Result<seq<T>, Reason>)
    ensures Prepend([], r) == r
  {
    if r.Ok? {
      assert [] + r.value == r.value;
    }
  }

  lemma {:induction false} CountGroupAppend(opts: seq<ResolvedOption>, o: ResolvedOption, g: Id)
    ensures CountGroup(opts + [o], g) == CountGroup(opts, g) + if o.group == g then 1 else 0
  {
    if opts == [] {
      assert [] + [o] == [o];
    } else {
      CountGroupAppend(opts[1..], o, g);
      assert (opts + [o])[1..] == opts[1..] + [o];
    }
  }

  /** The option loop of the sale core: every chosen option must be loaded and its group assigned. */
  method SaleOptionsLoop(rows: seq<AssignRow>, options: map<Id, ModOption>, ids: seq<Id>)
    returns (r: Result<seq<ResolvedOption>, Reason>)
    ensures r == Pricing.SaleOptions(rows, options, ids)
  {
    var resolved: seq<ResolvedOption> := [];
    var k := 0;
    PrependNothing(Pricing.SaleOptions(rows, options, ids));
    assert ids[0..] == ids;
    while k < |ids|
      invariant 0 <= k <= |ids|
      invariant Pricing.SaleOptions(rows, options, ids) == Prepend(resolved, Pricing.SaleOptions(rows, options, ids[k..]))
    {
      var id := ids[k];
      assert ids[k..][0] == id && ids[k..][1..] == ids[k + 1..];
      if id !in options {
        return Err(ModifierOptionNotFound);
      }
      var found := FirstRow(rows, options[id].group);
      if found.None? {
        return Err(ModifierGroupNotAssigned);
      }
      if found.value.groupName == "" {
        return Err(ModifierSnapshotInvariantViolation);
      }
      var o := Resolved(id, options[id], found.value);
      PrependPrepend(resolved, [o], Pricing.SaleOptions(rows, options, ids[k + 1..]));
      resolved := resolved + [o];
      k := k + 1;
    }
    assert resolved + [] == resolved;
    r := Ok(resolved);
  }

  /** groupSelections: how many options were chosen per group. */
  method CountSelections(opts: seq<ResolvedOption>) returns (selections: map<Id, nat>)
    ensures forall g :: (if g in selections then selections[g] else 0) == CountGroup(opts, g)
  {
    selections := map[];
    var k := 0;
    while k < |opts|
      invariant 0 <= k <= |opts|
      invariant forall g :: (if g in selections then selections[g] else 0) == CountGroup(opts[..k], g)
    {
      var g := opts[k].group;
      selections := selections[g := (if g in selections then selections[g] else 0) + 1];
      forall x {
        CountGroupAppend(opts[..k], opts[k], x);
      }
      assert opts[..k + 1] == opts[..k] + [opts[k]];
      k := k + 1;
    }
    assert opts[..k] == opts;
  }

  /** The selection rules of the sale core over the product's assigned groups. */
  method SaleRulesLoop(rows: seq<AssignRow>, opts: seq<ResolvedOption>, ids: seq<Id>) returns (r: Option<Reason>)
    ensures r == SaleLineRules(rows, opts, ids)
  {
    var k := 0;
    if |ids| > 0 {
      var selections := CountSelections(opts);
      while k < |rows|
        invariant 0 <= k <= |rows|
        invariant SaleRules(rows, opts) == SaleRules(rows[k..], opts)
      {
        var a := rows[k];
        assert rows[k..][0] == a && rows[k..][1..] == rows[k + 1..];
        var count := if a.group in selections then selections[a.group] else 0;
        if a.required && a.selection == Single && count != 1 {
          return Some(RequiredSingleViolation);
        }
        if !a.required && a.selection == Single && count > 1 {
          return Some(OptionalSingleViolation);
        }
        if a.selection == Multiple && a.required {
          return Some(RequiredMultipleNotSupported);
        }
        k := k + 1;
      }
    } else {
      while k < |rows|
        invariant 0 <= k <= |rows|
        invariant SaleRulesNoSelection(rows) == SaleRulesNoSelection(rows[k..])
      {
        assert rows[k..][0] == rows[k] && rows[k..][1..] == rows[k + 1..];
        if rows[k].required && rows[k].selection == Single {
          return Some(RequiredSingleMissing);
        }
        k := k + 1;
      }
    }
    r := None;
  }

  /** The sum of deltas in JavaScript numbers: at most 50 int4 values, so every intermediate value is exact. */
  method SumDeltas(opts: seq<ResolvedOption>) returns (sum: SafeInteger)
    requires |opts| <= 50 && DeltasNonNegative(opts)
    ensures sum == DeltaSum(opts)
    ensures 0 <= sum <= 50 * INT4_MAX
  {
    sum := 0;
    var k := 0;
    while k < |opts|
      invariant 0 <= k <= |opts|
      invariant sum == DeltaSum(opts[..k])
      invariant 0 <= sum <= k * INT4_MAX
    {
      assert opts[k] in opts;
      assert opts[..k + 1][..k] == opts[..k];
      sum := sum + opts[k].delta;
      k := k + 1;
    }
    assert opts[..k] == opts;
  }

  /** The column bounds of what was loaded, and at most 50 options on a line. */
  ghost predicate Loaded(products: map<Id, Product>, options: map<Id, ModOption>, items: seq<LineReq>) {
    && (forall p <- products :: 0 <= products[p].price <= INT4_MAX)
    && (forall o <- options :: 0 <= options[o].delta <= INT4_MAX)
    && (forall i :: 0 <= i < |items| ==> |items[i].options| <= 50)
  }

  /** One turn of the sale core's line loop. */
  method SaleLineTurn(products: map<Id, Product>, rows: seq<AssignRow>, options: map<Id, ModOption>, item: LineReq)
    returns (r: Result<PricedLine, Reason>)
    requires Loaded(products, options, [item])
    ensures r == SaleLine(products, rows, options, item)
  {
    if item.product !in products {
      return Err(ProductNotFound);
    }
    var product := products[item.product];
    var itemRows := RowsOf(rows, item.product);
    var opts := SaleOptionsLoop(itemRows, options, item.options);
    if opts.Err? {
      return Err(opts.error);
    }
    var broken := SaleRulesLoop(itemRows, opts.value, item.options);
    if broken.Some? {
      return Err(broken.value);
    }
    assert |[item][0].options| <= 50;
    SaleOptionsCarryDeltas(itemRows, options, item.options);
    var deltaSum := SumDeltas(opts.value);
    r := Ok(PricedLine(item.product, product, opts.value, product.price + deltaSum, item.quantity, item.note));
  }

  /** The next line decides, or comes first. */
  lemma SaleLinesFrom(products: map<Id, Product>, rows: seq<AssignRow>, options: map<Id, ModOption>, items: seq<LineReq>, n: nat)
    requires n < |items|
    ensures SaleLines(products, rows, options, items[n..]) ==
            match SaleLine(products, rows, options, items[n])
            case Err(e) => Err(e)
            case Ok(l) => Prepend([l], SaleLines(products, rows, options, items[n + 1..]))
  {
    assert items[n..][0] == items[n] && items[n..][1..] == items[n + 1..];
  }

  /** The line loop of the sale core. */
  method SaleLinesLoop(products: map<Id, Product>, rows: seq<AssignRow>, options: map<Id, ModOption>, items: seq<LineReq>)
    returns (r: Result<seq<PricedLine>, Reason>)
    requires Loaded(products, options, items)
    ensures r == SaleLines(products, rows, options, items)
  {
    var validated: seq<PricedLine> := [];
    var n := 0;
    PrependNothing(SaleLines(products, rows, options, items));
    assert items[0..] == items;
    while n < |items|
      invariant 0 <= n <= |items|
      invariant SaleLines(products, rows, options, items) == Prepend(validated, SaleLines(products, rows, options, items[n..]))
    {
      SaleLinesFrom(products, rows, options, items, n);
      var line := SaleLineTurn(products, rows, options, items[n]);
      if line.Err? {
        return Err(line.error);
      }
      PrependPrepend(validated, [line.value], SaleLines(products, rows, options, items[n + 1..]));
      validated := validated + [line.value];
      n := n + 1;
    }
    assert validated + [] == validated;
    r := Ok(validated);
  }

  // ---------- held orders ----------

  /** assignmentByGroup: a Map built from the rows in order. */
  method GroupMap(rows: seq<AssignRow>) returns (byGroup: map<Id, AssignRow>)
    ensures forall g :: LastRow(rows, g) == if g in byGroup then Some(byGroup[g]) else None
  {
    byGroup := map[];
    var k := 0;
    while k < |rows|
      invariant 0 <= k <= |rows|
      invariant forall g :: LastRow(rows[..k], g) == if g in byGroup then Some(byGroup[g]) else None
    {
      assert rows[..k + 1][..k] == rows[..k];
      byGroup := byGroup[rows[k].group := rows[k]];
      k := k + 1;
    }
    assert rows[..k] == rows;
  }

  method HeldOptionsLoop(rows: seq<AssignRow>, options: map<Id, ModOption>, ids: seq<Id>)
    returns (r: Result<seq<ResolvedOption>, Reason>)
    ensures r == Pricing.HeldOptions(rows, options, ids)
  {
    var resolved: seq<ResolvedOption> := [];
    var byGroup := GroupMap(rows);
    var k := 0;
    PrependNothing(Pricing.HeldOptions(rows, options, ids));
    assert ids[0..] == ids;
    while k < |ids|
      invariant 0 <= k <= |ids|
      invariant Pricing.HeldOptions(rows, options, ids) == Prepend(resolved, Pricing.HeldOptions(rows, options, ids[k..]))
    {
      var id := ids[k];
      assert ids[k..][0] == id && ids[k..][1..] == ids[k + 1..];
      if id !in options {
        return Err(ModifierOptionNotFound);
      }
      var g := options[id].group;
      assert LastRow(rows, g) == if g in byGroup then Some(byGroup[g]) else None;
      if g !in byGroup {
        return Err(ModifierGroupNotAssigned);
      }
      var o := Resolved(id, options[id], byGroup[g]);
      PrependPrepend(resolved, [o], Pricing.HeldOptions(rows, options, ids[k + 1..]));
      resolved := resolved + [o];
      k := k + 1;
    }
    assert resolved + [] == resolved;
    r := Ok(resolved);
  }

  /** How many of the resolved options belong to the group. */
  method FilterCount(opts: seq<ResolvedOption>, g: Id) returns (count: nat)
    ensures count == CountGroup(opts, g)
  {
    count := 0;
    var k := 0;
    while k < |opts|
      invariant 0 <= k <= |opts|
      invariant count == CountGroup(opts[..k], g)
    {
      CountGroupAppend(opts[..k], opts[k], g);
      assert opts[..k + 1] == opts[..k] + [opts[k]];
      if opts[k].group == g {
        count := count + 1;
      }
      k := k + 1;
    }
    assert opts[..k] == opts;
  }

  method HeldRulesLoop(rows: seq<AssignRow>, opts: seq<ResolvedOption>) returns (r: Option<Reason>)
    ensures r == HeldRules(rows, opts)
  {
    var k := 0;
    while k < |rows|
      invariant 0 <= k <= |rows|
      invariant HeldRules(rows, opts) == HeldRules(rows[k..], opts)
    {
      var a := rows[k];
      assert rows[k..][0] == a && rows[k..][1..] == rows[k + 1..];
      var count := FilterCount(opts, a.group);
      if a.required && a.selection == Single && count == 0 {
        return Some(RequiredSingleMissing);
      }
      if a.required && a.selection == Single && count != 1 {
        return Some(RequiredSingleViolation);
      }
      if !a.required && a.selection == Single && count > 1 {
        return Some(OptionalSingleViolation);
      }
      if a.required && a.selection == Multiple {
        return Some(RequiredMultipleNotSupported);
      }
      k := k + 1;
    }
    r := None;
  }

  lemma {:induction false} HeldOptionsCarryDeltas(rows: seq<AssignRow>, options: map<Id, ModOption>, ids: seq<Id>)
    requires forall o <- options :: 0 <= options[o].delta <= INT4_MAX
    ensures var r := Pricing.HeldOptions(rows, options, ids);
            r.Ok? ==> |r.value| == |ids| && DeltasNonNegative(r.value)
  {
    if ids != [] {
      HeldOptionsCarryDeltas(rows, options, ids[1..]);
    }
  }

  /** One turn of the held-order line loop; the price with its deltas is a JavaScript number and stays exact. */
  method HeldLineTurn(products: map<Id, Product>, rows: seq<AssignRow>, options: map<Id, ModOption>, item: LineReq)
    returns (r: Result<PricedLine, Reason>)
    requires item.product in products && Loaded(products, options, [item])
    ensures r == HeldLine(products, rows, options, item)
  {
    var product := products[item.product];
    var itemRows := RowsOf(rows, item.product);
    var opts := HeldOptionsLoop(itemRows, options, item.options);
    if opts.Err? {
      return Err(opts.error);
    }
    var broken := HeldRulesLoop(itemRows, opts.value);
    if broken.Some? {
      return Err(broken.value);
    }
    assert |[item][0].options| <= 50;
    HeldOptionsCarryDeltas(itemRows, options, item.options);
    var delta := SumDeltas(opts.value);
    var price: SafeInteger := product.price + delta;
    if !MoneyOk(price) || !MoneyOk(price * item.quantity) {
      return Err(HeldOrderTotalOutOfRange);
    }
    r := Ok(PricedLine(item.product, product, opts.value, price, item.quantity, HeldNote(item.note)));
  }

  lemma HeldLinesFrom(products: map<Id, Product>, rows: seq<AssignRow>, options: map<Id, ModOption>, items: seq<LineReq>, n: nat)
    requires n < |items| && ProductIds(items[n..]) <= products.Keys
    ensures items[n].product in products && ProductIds(items[n + 1..]) <= products.Keys
    ensures HeldLines(products, rows, options, items[n..]) ==
            match HeldLine(products, rows, options, items[n])
            case Err(e) => Err(e)
            case Ok(l) => Prepend([l], HeldLines(products, rows, options, items[n + 1..]))
  {
    assert items[n..][0] == items[n] && items[n..][1..] == items[n + 1..];
    assert items[n].product in ProductIds(items[n..]) && ProductIds(items[n + 1..]) <= ProductIds(items[n..]);
  }

  /** The line loop of held orders. */
  method HeldLinesLoop(products: map<Id, Product>, rows: seq<AssignRow>, options: map<Id, ModOption>, items: seq<LineReq>)
    returns (r: Result<seq<PricedLine>, Reason>)
    requires ProductIds(items) <= products.Keys && Loaded(products, options, items)
    ensures r == HeldLines(products, rows, options, items)
  {
    var resolved: seq<PricedLine> := [];
    var n := 0;
    PrependNothing(HeldLines(products, rows, options, items));
    assert items[0..] == items;
    while n < |items|
      invariant 0 <= n <= |items| && ProductIds(items[n..]) <= products.Keys
      invariant HeldLines(products, rows, options, items) == Prepend(resolved, HeldLines(products, rows, options, items[n..]))
    {
      HeldLinesFrom(products, rows, options, items, n);
      var line := HeldLineTurn(products, rows, options, items[n]);
      if line.Err? {
        return Err(line.error);
      }
      PrependPrepend(resolved, [line.value], HeldLines(products, rows, options, items[n + 1..]));
      resolved := resolved + [line.value];
      n := n + 1;
    }
    assert resolved + [] == resolved;
    r := Ok(resolved);
  }

  // ---------- totals and whole carts ----------

  /** The running sum of price times quantity over the lines. */
  method SumLines(lines: seq<PricedLine>) returns (subtotal: int)
    ensures subtotal == Subtotal(lines)
  {
    subtotal := 0;
    var i := 0;
    while i < |lines|
      invariant 0 <= i <= |lines|
      invariant subtotal == Subtotal(lines[..i])
    {
      assert lines[..i + 1][..i] == lines[..i];
      subtotal := subtotal + lines[i].effectivePrice * lines[i].quantity;
      i := i + 1;
    }
    assert lines[..i] == lines;
  }

  /** The cart of a sale: lines, subtotal, discount, tax and total. */
  method PriceSaleCart(products: map<Id, Product>, rows: seq<AssignRow>, options: map<Id, ModOption>,
                       items: seq<LineReq>, discount: int, tax: TaxConfig)
    returns (r: Result<Priced, Reason>)
    requires Loaded(products, options, items)
    ensures r == PriceSaleFrom(products, rows, options, items, discount, tax)
  {
    if products.Keys != ProductIds(items) {
      return Err(ProductNotFound);
    }
    var lines := SaleLinesLoop(products, rows, options, items);
    if lines.Err? {
      return Err(lines.error);
    }
    var subtotal := SumLines(lines.value);
    if discount > subtotal {
      return Err(DiscountExceedsSubtotal);
    }
    var (t, total) := Tax.CalculateTax(tax.enabled, tax.rate, subtotal - discount);
    if !MoneyOk(subtotal) || !MoneyOk(t) || !MoneyOk(total) {
      return Err(InvalidAmount);
    }
    r := Ok(Priced(lines.value, Totals(subtotal, discount, t, total)));
  }

  /** The cart of a held order. */
  method PriceHeldCart(products: map<Id, Product>, rows: seq<AssignRow>, options: map<Id, ModOption>,
                       items: seq<LineReq>, tax: TaxConfig)
    returns (r: Result<Priced, Reason>)
    requires Loaded(products, options, items)
    ensures r == PriceHeldFrom(products, rows, options, items, tax)
  {
    if products.Keys != ProductIds(items) {
      return Err(CatalogConflict);
    }
    var lines := HeldLinesLoop(products, rows, options, items);
    if lines.Err? {
      return Err(lines.error);
    }
    var subtotal := SumLines(lines.value);
    var (t, total) := Tax.CalculateTax(tax.enabled, tax.rate, subtotal);
    if !MoneyOk(subtotal) || !MoneyOk(t) || !MoneyOk(total) {
      return Err(HeldOrderTotalOutOfRange);
    }
    r := Ok(Priced(lines.value, Totals(subtotal, 0, t, total)));
  }
}
