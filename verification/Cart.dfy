/**
 What a cart is worth and when it sells, read off the catalog rows, and that the pricing routines compute exactly that.
 Nothing here mentions how the routines read, loop or count.
 */
module Cart {
  import opened Base
  import opened Schema
  import opened Pricing
  import opened PricingAgreement
  import Core
  import Tax

  // ---------- lines ----------

  predicate Offered(c: Catalog, tenant: Id, product: Id) {
    product in c.products && c.products[product].tenant == tenant && c.products[product].active
  }

  /** The row assigns an active group to this tenant's product. */
  predicate Applies(c: Catalog, tenant: Id, product: Id, a: Assignment) {
    && a in c.assignments && a.tenant == tenant && a.product == product
    && a.group in c.groups && c.groups[a.group].active
  }

  predicate LiveOption(c: Catalog, tenant: Id, option: Id) {
    option in c.options && c.options[option].tenant == tenant && c.options[option].active
  }

  /** A live option of a group that is assigned to the product. */
  ghost predicate Choosable(c: Catalog, tenant: Id, product: Id, option: Id) {
    LiveOption(c, tenant, option)
    && exists a <- c.assignments :: Applies(c, tenant, product, a) && a.group == c.options[option].group
  }

  /** The chosen options of one group. */
  function Chosen(c: Catalog, options: seq<Id>, group: Id): set<Id> {
    set o | o in options && o in c.options && c.options[o].group == group
  }

  /** A required SINGLE group wants one option, an optional one at most one, a required MULTIPLE one a line without any. */
  predicate RuleHolds(c: Catalog, a: Assignment, options: seq<Id>) {
    match a.selection
    case Single => if a.required then |Chosen(c, options, a.group)| == 1 else |Chosen(c, options, a.group)| <= 1
    case Multiple => a.required ==> options == []
  }

  ghost predicate Sells(c: Catalog, tenant: Id, item: LineReq) {
    && Offered(c, tenant, item.product)
    && (forall o <- item.options :: Choosable(c, tenant, item.product, o))
    && (forall a <- c.assignments :: Applies(c, tenant, item.product, a) ==> RuleHolds(c, a, item.options))
  }

  /** Held orders refuse a required MULTIPLE group even on a line without options. */
  ghost predicate Holds(c: Catalog, tenant: Id, item: LineReq) {
    && Sells(c, tenant, item)
    && (forall a <- c.assignments :: Applies(c, tenant, item.product, a) ==> !(a.required && a.selection == Multiple))
  }

  ghost predicate AllSell(c: Catalog, tenant: Id, items: seq<LineReq>) {
    forall i :: 0 <= i < |items| ==> Sells(c, tenant, items[i])
  }

  ghost predicate AllHold(c: Catalog, tenant: Id, items: seq<LineReq>) {
    forall i :: 0 <= i < |items| ==> Holds(c, tenant, items[i])
  }

  // ---------- money ----------

  function Deltas(c: Catalog, options: seq<Id>): int {
    if options == [] then 0
    else (if options[0] in c.options then c.options[options[0]].delta else 0) + Deltas(c, options[1..])
  }

  /** The product's price and the deltas of the chosen options. */
  function UnitPrice(c: Catalog, item: LineReq): int {
    (if item.product in c.products then c.products[item.product].price else 0) + Deltas(c, item.options)
  }

  function Worth(c: Catalog, items: seq<LineReq>): int {
    if items == [] then 0
    else Worth(c, items[..|items| - 1]) + UnitPrice(c, items[|items| - 1]) * items[|items| - 1].quantity
  }

  /** The tax due on an amount: the rate counts hundredths of a percent, a half is rounded up. */
  function TaxDue(enabled: bool, rate: nat, amount: nat): nat {
    if enabled then (amount * rate + 5000) / 10000 else 0
  }

  lemma TaxDueIsCharged(enabled: bool, rate: nat, amount: nat)
    ensures Tax.CalculateTax(enabled, rate, amount) == (TaxDue(enabled, rate, amount), amount + TaxDue(enabled, rate, amount))
  {
    hide Tax.BasisPoints;
    Tax.BasisPointsExact(rate);
    Scaled(0, amount, rate);
    var x := amount * rate;
    assert Tax.TruncDiv(x + 5000, 10000) == (x + 5000) / 10000;
  }

  // ---------- the rows a routine reads ----------

  function RowFor(c: Catalog, a: Assignment): AssignRow
    requires a.group in c.groups
  {
    AssignRow(a.product, a.group, a.required, a.selection, c.groups[a.group].name)
  }

  ghost predicate ReadFrom(c: Catalog, tenant: Id, table: seq<Assignment>, product: Id, a: Assignment, r: AssignRow) {
    a in table && a.tenant == tenant && a.product == product && a.group in c.groups && c.groups[a.group].active && r == RowFor(c, a)
  }

  lemma {:induction false} RowsExact(c: Catalog, tenant: Id, ids: set<Id>, table: seq<Assignment>, product: Id, r: AssignRow)
    requires product in ids
    ensures r in ReadAssignments(c, tenant, ids, table) && r.product == product <==>
            exists a :: ReadFrom(c, tenant, table, product, a, r)
  {
    if table != [] {
      var a0, rest := table[0], table[1..];
      RowsExact(c, tenant, ids, rest, product, r);
      assert forall a :: a in table <==> a == a0 || a in rest;
      if r in ReadAssignments(c, tenant, ids, rest) && r.product == product {
        var a :| ReadFrom(c, tenant, rest, product, a, r);
        assert ReadFrom(c, tenant, table, product, a, r);
      } else if Joins(c, tenant, ids, a0) && r == RowFor(c, a0) && r.product == product {
        assert ReadFrom(c, tenant, table, product, a0, r);
      }
      if a :| ReadFrom(c, tenant, table, product, a, r) {
        assert a == a0 || ReadFrom(c, tenant, rest, product, a, r);
      }
    }
  }

  /** The rows read for one product of the cart. */
  ghost predicate RowsAre(c: Catalog, tenant: Id, product: Id, rows: seq<AssignRow>) {
    && (forall r <- rows :: exists a <- c.assignments :: Applies(c, tenant, product, a) && r == RowFor(c, a))
    && (forall a <- c.assignments :: Applies(c, tenant, product, a) ==> RowFor(c, a) in rows)
  }

  lemma RowsOfCart(c: Catalog, tenant: Id, ids: set<Id>, product: Id)
    requires product in ids
    ensures RowsAre(c, tenant, product, RowsOf(ReadAssignments(c, tenant, ids, c.assignments), product))
  {
    var rows := ReadAssignments(c, tenant, ids, c.assignments);
    RowsOfProduct(rows, product);
    forall r <- RowsOf(rows, product) ensures exists a <- c.assignments :: Applies(c, tenant, product, a) && r == RowFor(c, a) {
      RowsExact(c, tenant, ids, c.assignments, product, r);
      var a :| ReadFrom(c, tenant, c.assignments, product, a, r);
      assert Applies(c, tenant, product, a);
    }
    forall a <- c.assignments | Applies(c, tenant, product, a) ensures RowFor(c, a) in RowsOf(rows, product) {
      RowsExact(c, tenant, ids, c.assignments, product, RowFor(c, a));
      assert ReadFrom(c, tenant, c.assignments, product, a, RowFor(c, a));
    }
  }

  /** What a line's routine needs of the options it was given. */
  ghost predicate OptionsAre(c: Catalog, tenant: Id, product: Id, options: map<Id, ModOption>, ids: seq<Id>) {
    && (forall o <- options :: LiveOption(c, tenant, o) && options[o] == c.options[o])
    && (forall o <- ids :: Choosable(c, tenant, product, o) ==> o in options)
  }

  // ---------- options ----------

  lemma FindsAssigned(c: Catalog, tenant: Id, product: Id, rows: seq<AssignRow>, g: Id)
    requires CatalogOk(c) && RowsAre(c, tenant, product, rows)
    ensures FirstRow(rows, g).Some? <==> exists a <- c.assignments :: Applies(c, tenant, product, a) && a.group == g
    ensures FirstRow(rows, g).Some? ==> FirstRow(rows, g).value.groupName != ""
    ensures LastRow(rows, g).Some? <==> FirstRow(rows, g).Some?
  {
    FirstRowFinds(rows, g);
    LastRowFinds(rows, g);
    if a :| a in c.assignments && Applies(c, tenant, product, a) && a.group == g {
      assert RowFor(c, a) in rows;
    }
  }

  /** Resolved options carry the group and delta of the option rows. */
  ghost predicate Resolves(c: Catalog, opts: seq<ResolvedOption>, ids: seq<Id>) {
    |opts| == |ids|
    && forall i :: 0 <= i < |ids| ==>
         ids[i] in c.options && opts[i].group == c.options[ids[i]].group && opts[i].delta == c.options[ids[i]].delta
  }

  lemma SaleOptionExact(c: Catalog, tenant: Id, product: Id, rows: seq<AssignRow>, options: map<Id, ModOption>, id: Id)
    requires CatalogOk(c) && RowsAre(c, tenant, product, rows) && OptionsAre(c, tenant, product, options, [id])
    ensures var r := SaleOption(rows, options, id);
            && (r.Ok? <==> Choosable(c, tenant, product, id))
            && (r.Ok? ==> r.value.group == c.options[id].group && r.value.delta == c.options[id].delta)
            && (r.Err? ==> r.error == if id in options then ModifierGroupNotAssigned else ModifierOptionNotFound)
    ensures HeldOption(rows, options, id).Ok? <==> Choosable(c, tenant, product, id)
    ensures HeldOption(rows, options, id).Err? ==>
              HeldOption(rows, options, id).error == if id in options then ModifierGroupNotAssigned else ModifierOptionNotFound
  {
    assert id in [id];
    if id in options {
      FindsAssigned(c, tenant, product, rows, options[id].group);
    }
  }

  ghost predicate BadAt(c: Catalog, tenant: Id, product: Id, options: map<Id, ModOption>, ids: seq<Id>, k: nat, e: Reason)
    requires k < |ids|
  {
    && (forall j :: 0 <= j < k ==> Choosable(c, tenant, product, ids[j])) && !Choosable(c, tenant, product, ids[k])
    && e == if ids[k] in options then ModifierGroupNotAssigned else ModifierOptionNotFound
  }

  /** The first option that cannot be chosen, and why. */
  ghost predicate FirstBad(c: Catalog, tenant: Id, product: Id, options: map<Id, ModOption>, ids: seq<Id>, e: Reason) {
    exists k :: 0 <= k < |ids| && BadAt(c, tenant, product, options, ids, k, e)
  }

  lemma BadLater(c: Catalog, tenant: Id, product: Id, options: map<Id, ModOption>, ids: seq<Id>, e: Reason)
    requires ids != [] && Choosable(c, tenant, product, ids[0]) && FirstBad(c, tenant, product, options, ids[1..], e)
    ensures FirstBad(c, tenant, product, options, ids, e)
  {
    var k :| 0 <= k < |ids| - 1 && BadAt(c, tenant, product, options, ids[1..], k, e);
    assert ids[1..][k] == ids[k + 1] && forall j :: 0 < j <= k ==> ids[j] == ids[1..][j - 1];
    assert BadAt(c, tenant, product, options, ids, k + 1, e);
  }

  lemma {:induction false} SaleOptionsExact(c: Catalog, tenant: Id, product: Id, rows: seq<AssignRow>, options: map<Id, ModOption>, ids: seq<Id>)
    requires CatalogOk(c) && RowsAre(c, tenant, product, rows) && OptionsAre(c, tenant, product, options, ids)
    ensures var r := Pricing.SaleOptions(rows, options, ids);
            && (r.Ok? <==> forall o <- ids :: Choosable(c, tenant, product, o))
            && (r.Ok? ==> Resolves(c, r.value, ids))
            && (r.Err? ==> FirstBad(c, tenant, product, options, ids, r.error))
    decreases |ids|
  {
    if ids != [] {
      assert forall o :: o in ids <==> o == ids[0] || o in ids[1..];
      SaleOptionExact(c, tenant, product, rows, options, ids[0]);
      SaleOptionsExact(c, tenant, product, rows, options, ids[1..]);
      var r := Pricing.SaleOptions(rows, options, ids);
      if !Choosable(c, tenant, product, ids[0]) {
        assert BadAt(c, tenant, product, options, ids, 0, r.error);
      } else if r.Err? {
        BadLater(c, tenant, product, options, ids, r.error);
      }
    }
  }

  lemma {:induction false} HeldOptionsExact(c: Catalog, tenant: Id, product: Id, rows: seq<AssignRow>, options: map<Id, ModOption>, ids: seq<Id>)
    requires CatalogOk(c) && RowsAre(c, tenant, product, rows) && OptionsAre(c, tenant, product, options, ids)
    ensures var r := Pricing.HeldOptions(rows, options, ids);
            && (r.Ok? <==> forall o <- ids :: Choosable(c, tenant, product, o))
            && (r.Ok? ==> Resolves(c, r.value, ids))
            && (r.Err? ==> FirstBad(c, tenant, product, options, ids, r.error))
    decreases |ids|
  {
    if ids != [] {
      assert forall o :: o in ids <==> o == ids[0] || o in ids[1..];
      SaleOptionExact(c, tenant, product, rows, options, ids[0]);
      HeldOptionsExact(c, tenant, product, rows, options, ids[1..]);
      var r := Pricing.HeldOptions(rows, options, ids);
      if !Choosable(c, tenant, product, ids[0]) {
        assert BadAt(c, tenant, product, options, ids, 0, r.error);
      } else if r.Err? {
        BadLater(c, tenant, product, options, ids, r.error);
      }
    }
  }

  // ---------- counts, rules and prices ----------

  lemma {:induction false} CountsChosen(c: Catalog, opts: seq<ResolvedOption>, ids: seq<Id>, g: Id)
    requires Resolves(c, opts, ids) && Core.Distinct(ids)
    ensures CountGroup(opts, g) == |Chosen(c, ids, g)|
  {
    if ids != [] {
      CountsChosen(c, opts[1..], ids[1..], g);
      assert ids[0] !in ids[1..];
      assert Chosen(c, ids, g) == Chosen(c, ids[1..], g) + if c.options[ids[0]].group == g then {ids[0]} else {};
    }
  }

  lemma {:induction false} DeltaHead(opts: seq<ResolvedOption>)
    requires opts != []
    ensures DeltaSum(opts) == opts[0].delta + DeltaSum(opts[1..])
  {
    if |opts| > 1 {
      var n := |opts| - 1;
      DeltaHead(opts[..n]);
      assert opts[1..][..n - 1] == opts[..n][1..];
    }
  }

  lemma {:induction false} SumsDeltas(c: Catalog, opts: seq<ResolvedOption>, ids: seq<Id>)
    requires Resolves(c, opts, ids)
    ensures DeltaSum(opts) == Deltas(c, ids)
  {
    if ids != [] {
      SumsDeltas(c, opts[1..], ids[1..]);
      DeltaHead(opts);
    }
  }

  lemma {:induction false} SaleRulesExact(rows: seq<AssignRow>, opts: seq<ResolvedOption>)
    ensures SaleRules(rows, opts).None? <==> forall r <- rows :: SaleRule(r, CountGroup(opts, r.group)).None?
    ensures SaleRules(rows, opts).Some? ==> exists r <- rows :: SaleRule(r, CountGroup(opts, r.group)) == SaleRules(rows, opts)
  {
    if rows != [] {
      SaleRulesExact(rows[1..], opts);
      assert forall r :: r in rows <==> r == rows[0] || r in rows[1..];
    }
  }

  lemma {:induction false} NoSelectionExact(rows: seq<AssignRow>)
    ensures SaleRulesNoSelection(rows).None? <==> forall r <- rows :: !(r.required && r.selection == Single)
    ensures SaleRulesNoSelection(rows).Some? ==> SaleRulesNoSelection(rows) == Some(RequiredSingleMissing)
  {
    if rows != [] {
      NoSelectionExact(rows[1..]);
      assert forall r :: r in rows <==> r == rows[0] || r in rows[1..];
    }
  }

  lemma {:induction false} HeldRulesExact(rows: seq<AssignRow>, opts: seq<ResolvedOption>)
    ensures HeldRules(rows, opts).None? <==> forall r <- rows :: HeldRule(r, CountGroup(opts, r.group)).None?
    ensures HeldRules(rows, opts).Some? ==> exists r <- rows :: HeldRule(r, CountGroup(opts, r.group)) == HeldRules(rows, opts)
  {
    if rows != [] {
      HeldRulesExact(rows[1..], opts);
      assert forall r :: r in rows <==> r == rows[0] || r in rows[1..];
    }
  }

  /** The rule an assignment breaks, by its code. */
  predicate Breaks(c: Catalog, a: Assignment, options: seq<Id>, e: Reason) {
    var n := |Chosen(c, options, a.group)|;
    match e
    case RequiredSingleMissing => a.required && a.selection == Single && n == 0
    case RequiredSingleViolation => a.required && a.selection == Single && n != 1
    case OptionalSingleViolation => !a.required && a.selection == Single && n > 1
    case RequiredMultipleNotSupported => a.required && a.selection == Multiple
    case _ => false
  }

  ghost predicate SomeBreaks(c: Catalog, tenant: Id, product: Id, options: seq<Id>, e: Reason) {
    exists a <- c.assignments :: Applies(c, tenant, product, a) && Breaks(c, a, options, e)
  }

  lemma RuleMeans(c: Catalog, a: Assignment, opts: seq<ResolvedOption>, ids: seq<Id>)
    requires a.group in c.groups && Resolves(c, opts, ids) && Core.Distinct(ids)
    ensures var rule := SaleRule(RowFor(c, a), CountGroup(opts, a.group));
            ids != [] ==>
              && (rule.None? <==> RuleHolds(c, a, ids))
              && (rule.Some? ==> Breaks(c, a, ids, rule.value) && rule.value != RequiredSingleMissing)
    ensures ids == [] ==>
              && (RuleHolds(c, a, ids) <==> !(a.required && a.selection == Single))
              && (!RuleHolds(c, a, ids) ==> Breaks(c, a, ids, RequiredSingleMissing))
    ensures var rule := HeldRule(RowFor(c, a), CountGroup(opts, a.group));
            && (rule.None? <==> RuleHolds(c, a, ids) && !(a.required && a.selection == Multiple))
            && (rule.Some? ==> Breaks(c, a, ids, rule.value))
  {
    CountsChosen(c, opts, ids, a.group);
    if ids == [] {
      assert Chosen(c, ids, a.group) == {};
    }
  }

  lemma SaleLineRulesExact(c: Catalog, tenant: Id, product: Id, rows: seq<AssignRow>, opts: seq<ResolvedOption>, ids: seq<Id>)
    requires RowsAre(c, tenant, product, rows) && Resolves(c, opts, ids) && Core.Distinct(ids)
    ensures var r := SaleLineRules(rows, opts, ids);
            && (r.None? <==> forall a <- c.assignments :: Applies(c, tenant, product, a) ==> RuleHolds(c, a, ids))
            && (r.Some? ==> SomeBreaks(c, tenant, product, ids, r.value)
                            && (r.value == RequiredSingleMissing <==> ids == []))
  {
    hide RuleHolds, SaleRule, HeldRule, Breaks, Chosen, CountGroup, Resolves;
    SaleRulesExact(rows, opts);
    NoSelectionExact(rows);
    forall a <- c.assignments | Applies(c, tenant, product, a)
      ensures RowFor(c, a) in rows
      ensures RuleHolds(c, a, ids) <==>
              if ids == [] then !(a.required && a.selection == Single)
              else SaleRule(RowFor(c, a), CountGroup(opts, a.group)).None?
    {
      RuleMeans(c, a, opts, ids);
    }
    var r := SaleLineRules(rows, opts, ids);
    if r.Some? {
      var row :| row in rows && if ids == [] then row.required && row.selection == Single
                                else SaleRule(row, CountGroup(opts, row.group)) == r;
      var a :| a in c.assignments && Applies(c, tenant, product, a) && row == RowFor(c, a);
      RuleMeans(c, a, opts, ids);
    }
  }

  lemma HeldLineRulesExact(c: Catalog, tenant: Id, product: Id, rows: seq<AssignRow>, opts: seq<ResolvedOption>, ids: seq<Id>)
    requires RowsAre(c, tenant, product, rows) && Resolves(c, opts, ids) && Core.Distinct(ids)
    ensures var r := HeldRules(rows, opts);
            && (r.None? <==> forall a <- c.assignments :: Applies(c, tenant, product, a) ==>
                               RuleHolds(c, a, ids) && !(a.required && a.selection == Multiple))
            && (r.Some? ==> SomeBreaks(c, tenant, product, ids, r.value))
  {
    hide RuleHolds, SaleRule, HeldRule, Breaks, Chosen, CountGroup, Resolves;
    HeldRulesExact(rows, opts);
    forall a <- c.assignments | Applies(c, tenant, product, a)
      ensures RowFor(c, a) in rows
      ensures RuleHolds(c, a, ids) && !(a.required && a.selection == Multiple) <==>
              HeldRule(RowFor(c, a), CountGroup(opts, a.group)).None?
    {
      RuleMeans(c, a, opts, ids);
    }
    var r := HeldRules(rows, opts);
    if r.Some? {
      var row :| row in rows && HeldRule(row, CountGroup(opts, row.group)) == r;
      var a :| a in c.assignments && Applies(c, tenant, product, a) && row == RowFor(c, a);
      RuleMeans(c, a, opts, ids);
    }
  }

  // ---------- one line ----------

  /** The cart's read loads an option of a group assigned to any of its products. */
  ghost predicate Loaded(c: Catalog, tenant: Id, ids: set<Id>, option: Id) {
    LiveOption(c, tenant, option)
    && exists a <- c.assignments :: a.product in ids && Applies(c, tenant, a.product, a) && a.group == c.options[option].group
  }

  lemma {:induction false} RowsStayInCart(c: Catalog, tenant: Id, ids: set<Id>, table: seq<Assignment>)
    ensures forall r <- ReadAssignments(c, tenant, ids, table) :: r.product in ids
  {
    if table != [] {
      RowsStayInCart(c, tenant, ids, table[1..]);
    }
  }

  lemma LoadedExact(c: Catalog, tenant: Id, ids: set<Id>, option: Id)
    ensures option in ReadOptionsOfGroups(c, tenant, GroupsOf(ReadAssignments(c, tenant, ids, c.assignments))) <==>
            Loaded(c, tenant, ids, option)
  {
    var rows := ReadAssignments(c, tenant, ids, c.assignments);
    RowsStayInCart(c, tenant, ids, c.assignments);
    if LiveOption(c, tenant, option) {
      var g := c.options[option].group;
      if i :| 0 <= i < |rows| && rows[i].group == g {
        assert rows[i] in rows;
        RowsExact(c, tenant, ids, c.assignments, rows[i].product, rows[i]);
        var a :| ReadFrom(c, tenant, c.assignments, rows[i].product, a, rows[i]);
        assert Applies(c, tenant, a.product, a);
      }
      if a :| a in c.assignments && a.product in ids && Applies(c, tenant, a.product, a) && a.group == g {
        RowsExact(c, tenant, ids, c.assignments, a.product, RowFor(c, a));
        assert ReadFrom(c, tenant, c.assignments, a.product, a, RowFor(c, a));
        var i :| 0 <= i < |rows| && rows[i] == RowFor(c, a);
        assert rows[i].group == g;
      }
    }
  }

  /** Option k is the first that cannot be chosen. */
  ghost predicate FirstUnchoosable(c: Catalog, tenant: Id, item: LineReq, k: nat) {
    && k < |item.options| && !Choosable(c, tenant, item.product, item.options[k])
    && forall j :: 0 <= j < k ==> Choosable(c, tenant, item.product, item.options[j])
  }

  ghost predicate NoOptionBad(c: Catalog, tenant: Id, item: LineReq) {
    forall o <- item.options :: Choosable(c, tenant, item.product, o)
  }

  /** Why the sale core refuses a line of offered products: its first option that cannot be chosen, or a rule it breaks. */
  ghost predicate SaleFault(c: Catalog, tenant: Id, ids: set<Id>, item: LineReq, e: Reason) {
    || (exists k: nat :: FirstUnchoosable(c, tenant, item, k)
          && e == if Loaded(c, tenant, ids, item.options[k]) then ModifierGroupNotAssigned else ModifierOptionNotFound)
    || (NoOptionBad(c, tenant, item) && SomeBreaks(c, tenant, item.product, item.options, e)
        && (e == RequiredSingleMissing <==> item.options == []))
  }

  /** The same for held orders, where an option is loaded by its own id and a line can be out of range. */
  ghost predicate HeldFault(c: Catalog, tenant: Id, item: LineReq, e: Reason) {
    || (exists k: nat :: FirstUnchoosable(c, tenant, item, k)
          && e == if LiveOption(c, tenant, item.options[k]) then ModifierGroupNotAssigned else ModifierOptionNotFound)
    || (NoOptionBad(c, tenant, item) && SomeBreaks(c, tenant, item.product, item.options, e))
    || (Holds(c, tenant, item) && UnitPrice(c, item) * item.quantity > 9007199254740991 && e == HeldOrderTotalOutOfRange)
  }

  ghost predicate Orderable(item: LineReq) {
    item.quantity >= 1 && Core.Distinct(item.options)
  }

  lemma ReadsForSale(c: Catalog, tenant: Id, ids: set<Id>, item: LineReq)
    requires item.product in ids
    ensures OptionsAre(c, tenant, item.product, ReadOptionsOfGroups(c, tenant, GroupsOf(ReadAssignments(c, tenant, ids, c.assignments))),
                       item.options)
  {
    forall o <- item.options | Choosable(c, tenant, item.product, o)
      ensures o in ReadOptionsOfGroups(c, tenant, GroupsOf(ReadAssignments(c, tenant, ids, c.assignments)))
    {
      LoadedExact(c, tenant, ids, o);
    }
  }

  lemma SaleLineExact(c: Catalog, tenant: Id, ids: set<Id>, products: map<Id, Product>, item: LineReq)
    requires CatalogOk(c) && Orderable(item) && item.product in ids && Offered(c, tenant, item.product)
    requires item.product in products && products[item.product] == c.products[item.product]
    ensures var rows := ReadAssignments(c, tenant, ids, c.assignments);
            var r := SaleLine(products, rows, ReadOptionsOfGroups(c, tenant, GroupsOf(rows)), item);
            && (r.Ok? <==> Sells(c, tenant, item))
            && (r.Ok? ==> r.value.effectivePrice == UnitPrice(c, item) && r.value.quantity == item.quantity)
            && (r.Err? ==> SaleFault(c, tenant, ids, item, r.error))
  {
    hide CatalogOk, RowsAre, OptionsAre, Choosable, Resolves, RuleHolds, SaleLineRules, SomeBreaks, Loaded, ReadOptionsOfGroups, GroupsOf;
    var rows := ReadAssignments(c, tenant, ids, c.assignments);
    var options := ReadOptionsOfGroups(c, tenant, GroupsOf(rows));
    var mine := RowsOf(rows, item.product);
    RowsOfCart(c, tenant, ids, item.product);
    ReadsForSale(c, tenant, ids, item);
    SaleOptionsExact(c, tenant, item.product, mine, options, item.options);
    var opts := Pricing.SaleOptions(mine, options, item.options);
    if opts.Ok? {
      SaleLineRulesExact(c, tenant, item.product, mine, opts.value, item.options);
      SumsDeltas(c, opts.value, item.options);
    } else {
      var k :| 0 <= k < |item.options| && BadAt(c, tenant, item.product, options, item.options, k, opts.error);
      LoadedExact(c, tenant, ids, item.options[k]);
      assert FirstUnchoosable(c, tenant, item, k);
    }
  }

  lemma ReadsForHold(c: Catalog, tenant: Id, items: seq<LineReq>, i: nat)
    requires i < |items|
    ensures var options := ReadOptionsById(c, tenant, RequestedOptions(items));
            && OptionsAre(c, tenant, items[i].product, options, items[i].options)
            && forall o <- items[i].options :: o in options <==> LiveOption(c, tenant, o)
  {
    forall o <- items[i].options ensures o in RequestedOptions(items) {
      var j :| 0 <= j < |items[i].options| && items[i].options[j] == o;
    }
  }

  lemma {:induction false} DeltasAreNonNegative(c: Catalog, options: seq<Id>)
    requires CatalogOk(c)
    ensures Deltas(c, options) >= 0
  {
    if options != [] {
      DeltasAreNonNegative(c, options[1..]);
    }
  }

  lemma PriceBelowLine(c: Catalog, item: LineReq)
    requires CatalogOk(c) && item.quantity >= 1
    ensures 0 <= UnitPrice(c, item) <= UnitPrice(c, item) * item.quantity
  {
    DeltasAreNonNegative(c, item.options);
    ProductNonNegative(UnitPrice(c, item), item.quantity);
  }

  lemma HeldLineExact(c: Catalog, tenant: Id, ids: set<Id>, products: map<Id, Product>, options: map<Id, ModOption>, item: LineReq)
    requires CatalogOk(c) && Orderable(item) && item.product in ids && Offered(c, tenant, item.product)
    requires item.product in products && products[item.product] == c.products[item.product]
    requires OptionsAre(c, tenant, item.product, options, item.options)
    requires forall o <- item.options :: o in options <==> LiveOption(c, tenant, o)
    ensures var r := HeldLine(products, ReadAssignments(c, tenant, ids, c.assignments), options, item);
            && (r.Ok? <==> Holds(c, tenant, item) && UnitPrice(c, item) * item.quantity <= 9007199254740991)
            && (r.Ok? ==> r.value.effectivePrice == UnitPrice(c, item) && r.value.quantity == item.quantity)
            && (r.Err? ==> HeldFault(c, tenant, item, r.error))
  {
    hide CatalogOk, RowsAre, OptionsAre, Choosable, Resolves, RuleHolds, HeldRules, SomeBreaks, LiveOption;
    var mine := RowsOf(ReadAssignments(c, tenant, ids, c.assignments), item.product);
    RowsOfCart(c, tenant, ids, item.product);
    HeldOptionsExact(c, tenant, item.product, mine, options, item.options);
    PriceBelowLine(c, item);
    var opts := Pricing.HeldOptions(mine, options, item.options);
    if opts.Ok? {
      HeldLineRulesExact(c, tenant, item.product, mine, opts.value, item.options);
      SumsDeltas(c, opts.value, item.options);
    } else {
      var k :| 0 <= k < |item.options| && BadAt(c, tenant, item.product, options, item.options, k, opts.error);
      assert item.options[k] in item.options;
      assert FirstUnchoosable(c, tenant, item, k);
    }
  }

  // ---------- all lines ----------

  ghost predicate AllOrderable(items: seq<LineReq>) {
    forall i :: 0 <= i < |items| ==> Orderable(items[i])
  }

  ghost predicate AllOffered(c: Catalog, tenant: Id, items: seq<LineReq>) {
    forall i :: 0 <= i < |items| ==> Offered(c, tenant, items[i].product)
  }

  /** Products of the cart as they are, all of them in the map. */
  ghost predicate ProductsAre(c: Catalog, tenant: Id, products: map<Id, Product>, ids: set<Id>, items: seq<LineReq>) {
    forall i :: 0 <= i < |items| ==>
      && items[i].product in ids && Offered(c, tenant, items[i].product)
      && items[i].product in products && products[items[i].product] == c.products[items[i].product]
  }

  ghost predicate PricedAt(c: Catalog, items: seq<LineReq>, lines: seq<PricedLine>) {
    |lines| == |items|
    && forall i :: 0 <= i < |items| ==>
         lines[i].effectivePrice == UnitPrice(c, items[i]) && lines[i].quantity == items[i].quantity
  }

  ghost predicate FirstSaleFault(c: Catalog, tenant: Id, ids: set<Id>, items: seq<LineReq>, i: nat, e: Reason) {
    && i < |items| && !Sells(c, tenant, items[i]) && SaleFault(c, tenant, ids, items[i], e)
    && forall j :: 0 <= j < i ==> Sells(c, tenant, items[j])
  }

  ghost predicate LineHolds(c: Catalog, tenant: Id, item: LineReq) {
    Holds(c, tenant, item) && UnitPrice(c, item) * item.quantity <= 9007199254740991
  }

  ghost predicate FirstHeldFault(c: Catalog, tenant: Id, items: seq<LineReq>, i: nat, e: Reason) {
    && i < |items| && !LineHolds(c, tenant, items[i]) && HeldFault(c, tenant, items[i], e)
    && forall j :: 0 <= j < i ==> LineHolds(c, tenant, items[j])
  }

  lemma {:induction false} SaleLinesExact(c: Catalog, tenant: Id, ids: set<Id>, products: map<Id, Product>, items: seq<LineReq>)
    requires CatalogOk(c) && AllOrderable(items) && ProductsAre(c, tenant, products, ids, items)
    ensures var rows := ReadAssignments(c, tenant, ids, c.assignments);
            var r := SaleLines(products, rows, ReadOptionsOfGroups(c, tenant, GroupsOf(rows)), items);
            && (r.Ok? <==> AllSell(c, tenant, items))
            && (r.Ok? ==> PricedAt(c, items, r.value))
            && (r.Err? ==> exists i: nat :: FirstSaleFault(c, tenant, ids, items, i, r.error))
  {
    hide CatalogOk, Orderable, Sells, SaleFault, ReadAssignments, ReadOptionsOfGroups, GroupsOf, SaleLine, Offered;
    if items != [] {
      var rows := ReadAssignments(c, tenant, ids, c.assignments);
      var options := ReadOptionsOfGroups(c, tenant, GroupsOf(rows));
      assert forall i :: 0 < i < |items| ==> items[i] == items[1..][i - 1];
      SaleLineExact(c, tenant, ids, products, items[0]);
      SaleLinesExact(c, tenant, ids, products, items[1..]);
      var r := SaleLines(products, rows, options, items);
      if r.Err? {
        if Sells(c, tenant, items[0]) {
          var i: nat :| FirstSaleFault(c, tenant, ids, items[1..], i, r.error);
          assert FirstSaleFault(c, tenant, ids, items, i + 1, r.error);
        } else {
          assert FirstSaleFault(c, tenant, ids, items, 0, r.error);
        }
      }
    }
  }

  ghost predicate HeldReadable(c: Catalog, tenant: Id, options: map<Id, ModOption>, items: seq<LineReq>) {
    forall i :: 0 <= i < |items| ==>
      && OptionsAre(c, tenant, items[i].product, options, items[i].options)
      && forall o <- items[i].options :: o in options <==> LiveOption(c, tenant, o)
  }

  lemma {:induction false} HeldLinesExact(c: Catalog, tenant: Id, ids: set<Id>, products: map<Id, Product>, options: map<Id, ModOption>,
                                          items: seq<LineReq>)
    requires CatalogOk(c) && AllOrderable(items) && ProductsAre(c, tenant, products, ids, items)
    requires HeldReadable(c, tenant, options, items) && ProductIds(items) <= products.Keys
    ensures var r := HeldLines(products, ReadAssignments(c, tenant, ids, c.assignments), options, items);
            && (r.Ok? <==> forall i :: 0 <= i < |items| ==> LineHolds(c, tenant, items[i]))
            && (r.Ok? ==> PricedAt(c, items, r.value))
            && (r.Err? ==> exists i: nat :: FirstHeldFault(c, tenant, items, i, r.error))
  {
    hide CatalogOk, Orderable, Holds, HeldFault, ReadAssignments, HeldLine, Offered, OptionsAre;
    if items != [] {
      assert items[0].product in ProductIds(items) && ProductIds(items[1..]) <= ProductIds(items);
      assert forall i :: 0 < i < |items| ==> items[i] == items[1..][i - 1];
      HeldLineExact(c, tenant, ids, products, options, items[0]);
      HeldLinesExact(c, tenant, ids, products, options, items[1..]);
      var r := HeldLines(products, ReadAssignments(c, tenant, ids, c.assignments), options, items);
      if r.Err? {
        if LineHolds(c, tenant, items[0]) {
          var i: nat :| FirstHeldFault(c, tenant, items[1..], i, r.error);
          assert FirstHeldFault(c, tenant, items, i + 1, r.error);
        } else {
          assert FirstHeldFault(c, tenant, items, 0, r.error);
        }
      }
    }
  }

  // ---------- the cart ----------

  lemma {:induction false} SubtotalIsWorth(c: Catalog, items: seq<LineReq>, lines: seq<PricedLine>)
    requires PricedAt(c, items, lines)
    ensures Subtotal(lines) == Worth(c, items)
  {
    if items != [] {
      var n := |items| - 1;
      SubtotalIsWorth(c, items[..n], lines[..n]);
    }
  }

  lemma {:induction false} LinesBelowWorth(c: Catalog, items: seq<LineReq>)
    requires CatalogOk(c) && AllOrderable(items)
    ensures Worth(c, items) >= 0
    ensures forall i :: 0 <= i < |items| ==> UnitPrice(c, items[i]) * items[i].quantity <= Worth(c, items)
  {
    if items != [] {
      var n := |items| - 1;
      LinesBelowWorth(c, items[..n]);
      PriceBelowLine(c, items[n]);
      assert forall i :: 0 <= i < n ==> items[i] == items[..n][i];
    }
  }

  lemma OfferedIsRead(c: Catalog, tenant: Id, items: seq<LineReq>)
    ensures ReadProducts(c, tenant, ProductIds(items)).Keys == ProductIds(items) <==> AllOffered(c, tenant, items)
    ensures AllOffered(c, tenant, items) ==>
              ProductsAre(c, tenant, ReadProducts(c, tenant, ProductIds(items)), ProductIds(items), items)
  {
    var ids := ProductIds(items);
    var products := ReadProducts(c, tenant, ids);
    forall i | 0 <= i < |items| ensures items[i].product in ids {
    }
    if AllOffered(c, tenant, items) {
      forall p <- ids ensures p in products {
        var i :| 0 <= i < |items| && items[i].product == p;
      }
    } else {
      var i :| 0 <= i < |items| && !Offered(c, tenant, items[i].product);
      assert items[i].product in ids && items[i].product !in products;
    }
  }

  /** The undiscounted worth and, after the discount, what it comes to with tax are amounts the program can carry. */
  predicate InReach(worth: int, discount: int, enabled: bool, rate: nat) {
    0 <= discount <= worth <= 9007199254740991
    && worth - discount + TaxDue(enabled, rate, worth - discount) <= 9007199254740991
  }

  /** Why a cart is refused: a product that is not offered, else the first line's fault, else discount or range. */
  ghost predicate CartFault(c: Catalog, tenant: Id, items: seq<LineReq>, discount: int, e: Reason) {
    if !AllOffered(c, tenant, items) then e == ProductNotFound
    else if !AllSell(c, tenant, items) then exists i: nat :: FirstSaleFault(c, tenant, ProductIds(items), items, i, e)
    else e == if discount > Worth(c, items) then DiscountExceedsSubtotal else InvalidAmount
  }

  lemma SaleTotalsExact(lines: seq<PricedLine>, discount: nat, enabled: bool, rate: nat)
    requires Subtotal(lines) >= 0
    ensures var r, worth := SaleTotals(lines, discount, TaxConfig(enabled, rate)), Subtotal(lines);
            && (r.Ok? <==> InReach(worth, discount, enabled, rate))
            && (r.Ok? ==> var due := TaxDue(enabled, rate, worth - discount);
                          r.value == Totals(worth, discount, due, worth - discount + due))
            && (r.Err? ==> r.error == if discount > worth then DiscountExceedsSubtotal else InvalidAmount)
  {
    if discount <= Subtotal(lines) {
      TaxDueIsCharged(enabled, rate, Subtotal(lines) - discount);
    }
  }

  lemma SellsIsOffered(c: Catalog, tenant: Id, items: seq<LineReq>)
    ensures AllSell(c, tenant, items) ==> AllOffered(c, tenant, items)
  {
  }

  /**
   The sale core's pricing, exactly: a cart passes when every line sells and discount, worth and total are in reach; its
   lines are then priced at the catalog's price plus the chosen deltas and its totals are the worth, the discount and the
   tax due on the rest; and otherwise it is refused for the first thing wrong with it.
   */
  lemma SaleExact(c: Catalog, tenant: Id, items: seq<LineReq>, discount: nat, enabled: bool, rate: nat)
    requires CatalogOk(c) && AllOrderable(items)
    ensures var r, worth := PriceSale(c, tenant, items, discount, TaxConfig(enabled, rate)), Worth(c, items);
            && (r.Ok? <==> AllSell(c, tenant, items) && InReach(worth, discount, enabled, rate))
            && (r.Ok? ==>
                  && PricedAt(c, items, r.value.lines)
                  && var due := TaxDue(enabled, rate, worth - discount);
                  r.value.totals == Totals(worth, discount, due, worth - discount + due))
            && (r.Err? ==> CartFault(c, tenant, items, discount, r.error))
  {
    hide CatalogOk, Orderable, Sells, SaleLines, SaleTotals, Subtotal, FirstSaleFault, Offered, InReach, ReadAssignments,
      ReadOptionsOfGroups, ProductIds, ReadProducts, ProductsAre;
    LinesBelowWorth(c, items);
    OfferedIsRead(c, tenant, items);
    if AllOffered(c, tenant, items) {
      var ids := ProductIds(items);
      var products, rows := ReadProducts(c, tenant, ids), ReadAssignments(c, tenant, ids, c.assignments);
      SaleLinesExact(c, tenant, ids, products, items);
      var lines := SaleLines(products, rows, ReadOptionsOfGroups(c, tenant, GroupsOf(rows)), items);
      if lines.Ok? {
        SubtotalIsWorth(c, items, lines.value);
        SaleTotalsExact(lines.value, discount, enabled, rate);
      }
    } else {
      SellsIsOffered(c, tenant, items);
    }
  }

  /** Why a held order's cart is refused. */
  ghost predicate HeldCartFault(c: Catalog, tenant: Id, items: seq<LineReq>, e: Reason) {
    if !AllOffered(c, tenant, items) then e == CatalogConflict
    else if exists i :: 0 <= i < |items| && !LineHolds(c, tenant, items[i]) then
      exists i: nat :: FirstHeldFault(c, tenant, items, i, e)
    else e == HeldOrderTotalOutOfRange
  }

  lemma HeldTotalsExact(lines: seq<PricedLine>, enabled: bool, rate: nat)
    requires Subtotal(lines) >= 0
    ensures var r, worth := HeldTotals(lines, TaxConfig(enabled, rate)), Subtotal(lines);
            && (r.Ok? <==> InReach(worth, 0, enabled, rate))
            && (r.Ok? ==> r.value == Totals(worth, 0, TaxDue(enabled, rate, worth), worth + TaxDue(enabled, rate, worth)))
            && (r.Err? ==> r.error == HeldOrderTotalOutOfRange)
  {
    TaxDueIsCharged(enabled, rate, Subtotal(lines));
  }

  lemma HoldsInReach(c: Catalog, tenant: Id, items: seq<LineReq>)
    requires CatalogOk(c) && AllOrderable(items)
    ensures (forall i :: 0 <= i < |items| ==> LineHolds(c, tenant, items[i])) && Worth(c, items) <= 9007199254740991 <==>
            AllHold(c, tenant, items) && Worth(c, items) <= 9007199254740991
    ensures AllHold(c, tenant, items) ==> AllOffered(c, tenant, items)
  {
    LinesBelowWorth(c, items);
  }

  lemma HeldReads(c: Catalog, tenant: Id, items: seq<LineReq>)
    ensures HeldReadable(c, tenant, ReadOptionsById(c, tenant, RequestedOptions(items)), items)
  {
    forall i | 0 <= i < |items|
      ensures var options := ReadOptionsById(c, tenant, RequestedOptions(items));
              && OptionsAre(c, tenant, items[i].product, options, items[i].options)
              && forall o <- items[i].options :: o in options <==> LiveOption(c, tenant, o)
    {
      ReadsForHold(c, tenant, items, i);
    }
  }

  /** The held orders' pricing, exactly, in the same terms. */
  lemma HoldExact(c: Catalog, tenant: Id, items: seq<LineReq>, enabled: bool, rate: nat)
    requires CatalogOk(c) && AllOrderable(items)
    ensures var r, worth := PriceHeld(c, tenant, items, TaxConfig(enabled, rate)), Worth(c, items);
            && (r.Ok? <==> AllHold(c, tenant, items) && InReach(worth, 0, enabled, rate))
            && (r.Ok? ==>
                  && PricedAt(c, items, r.value.lines)
                  && r.value.totals == Totals(worth, 0, TaxDue(enabled, rate, worth), worth + TaxDue(enabled, rate, worth)))
            && (r.Err? ==> HeldCartFault(c, tenant, items, r.error))
  {
    hide CatalogOk, Orderable, LineHolds, AllHold, HeldLines, HeldTotals, Subtotal, FirstHeldFault, Offered, ReadAssignments,
      ReadOptionsById, RequestedOptions, ProductIds, ReadProducts, ProductsAre, HeldReadable;
    LinesBelowWorth(c, items);
    OfferedIsRead(c, tenant, items);
    HoldsInReach(c, tenant, items);
    if AllOffered(c, tenant, items) {
      var ids := ProductIds(items);
      var products, options := ReadProducts(c, tenant, ids), ReadOptionsById(c, tenant, RequestedOptions(items));
      HeldReads(c, tenant, items);
      HeldLinesExact(c, tenant, ids, products, options, items);
      var lines := HeldLines(products, ReadAssignments(c, tenant, ids, c.assignments), options, items);
      if lines.Ok? {
        SubtotalIsWorth(c, items, lines.value);
        HeldTotalsExact(lines.value, enabled, rate);
      }
    }
  }
}
