/**
 The two pricing routines: the loop of the sale core and, written independently, the one of held orders.
 Each is a function here; module PricingLoops has them as the loops they are, and module PricingAgreement compares them.
 */
module Pricing {
  import opened Base
  import opened Schema
  import opened Tax

  // ---------- catalog queries ----------

  /** product_modifier_groups joined with the active group it points to. */
  datatype AssignRow = AssignRow(product: Id, group: Id, required: bool, selection: Selection, groupName: string)

  function ProductIds(items: seq<LineReq>): set<Id> {
    set i | 0 <= i < |items| :: items[i].product
  }

  function RequestedOptions(items: seq<LineReq>): set<Id> {
    set i, j | 0 <= i < |items| && 0 <= j < |items[i].options| :: items[i].options[j]
  }

  function ReadProducts(c: Catalog, tenant: Id, ids: set<Id>): map<Id, Product> {
    map p | p in ids && p in c.products && c.products[p].tenant == tenant && c.products[p].active :: c.products[p]
  }

  predicate Joins(c: Catalog, tenant: Id, ids: set<Id>, a: Assignment) {
    && a.tenant == tenant && a.product in ids
    && a.group in c.groups && c.groups[a.group].active
  }

  function ReadAssignments(c: Catalog, tenant: Id, ids: set<Id>, table: seq<Assignment>): seq<AssignRow> {
    if table == [] then []
    else
      var a := table[0];
      (if Joins(c, tenant, ids, a)
       then [AssignRow(a.product, a.group, a.required, a.selection, c.groups[a.group].name)] else [])
      + ReadAssignments(c, tenant, ids, table[1..])
  }

  function GroupsOf(rows: seq<AssignRow>): set<Id> {
    set i | 0 <= i < |rows| :: rows[i].group
  }

  /** The sale core loads every active option of every assigned group. */
  function ReadOptionsOfGroups(c: Catalog, tenant: Id, groups: set<Id>): map<Id, ModOption> {
    map o | o in c.options && c.options[o].tenant == tenant && c.options[o].group in groups && c.options[o].active
      :: c.options[o]
  }

  /** Held orders load the active options the request names. */
  function ReadOptionsById(c: Catalog, tenant: Id, ids: set<Id>): map<Id, ModOption> {
    map o | o in ids && o in c.options && c.options[o].tenant == tenant && c.options[o].active :: c.options[o]
  }

  function RowsOf(rows: seq<AssignRow>, product: Id): seq<AssignRow> {
    if rows == [] then []
    else (if rows[0].product == product then [rows[0]] else []) + RowsOf(rows[1..], product)
  }

  // ---------- pieces both routines use ----------

  datatype ResolvedOption = ResolvedOption(id: Id, group: Id, groupName: string, optionName: string, delta: int)
  datatype PricedLine = PricedLine(
    product: Id, row: Product, options: seq<ResolvedOption>, effectivePrice: int, quantity: int, note: Option<string>)
  datatype TaxConfig = TaxConfig(enabled: bool, rate: nat)
  datatype Totals = Totals(subtotal: int, discount: int, tax: int, total: int)

  function Prepend<T>(done: seq<T>, r: Result<seq<T>, Reason>): Result<seq<T>, Reason> {
    match r case Ok(v) => Ok(done + v) case Err(e) => Err(e)
  }

  function CountGroup(opts: seq<ResolvedOption>, g: Id): nat {
    if opts == [] then 0 else (if opts[0].group == g then 1 else 0) + CountGroup(opts[1..], g)
  }

  function DeltaSum(opts: seq<ResolvedOption>): int {
    if opts == [] then 0 else DeltaSum(opts[..|opts| - 1]) + opts[|opts| - 1].delta
  }

  function Subtotal(lines: seq<PricedLine>): int {
    if lines == [] then 0
    else Subtotal(lines[..|lines| - 1]) + lines[|lines| - 1].effectivePrice * lines[|lines| - 1].quantity
  }

  predicate MoneyOk(v: int) {
    0 <= v <= MAX_SAFE
  }

  // ---------- the sale core's routine ----------

  /** The first row of the group. */
  function FirstRow(rows: seq<AssignRow>, g: Id): Option<AssignRow> {
    if rows == [] then None else if rows[0].group == g then Some(rows[0]) else FirstRow(rows[1..], g)
  }

  function Resolved(id: Id, o: ModOption, a: AssignRow): ResolvedOption {
    ResolvedOption(id, o.group, a.groupName, o.name, o.delta)
  }

  function SaleOption(rows: seq<AssignRow>, options: map<Id, ModOption>, id: Id): Result<ResolvedOption, Reason> {
    if id !in options then Err(ModifierOptionNotFound)
    else match FirstRow(rows, options[id].group)
      case None => Err(ModifierGroupNotAssigned)
      case Some(a) =>
        if a.groupName == "" then Err(ModifierSnapshotInvariantViolation) else Ok(Resolved(id, options[id], a))
  }

  function SaleOptions(rows: seq<AssignRow>, options: map<Id, ModOption>, ids: seq<Id>): Result<seq<ResolvedOption>, Reason> {
    if ids == [] then Ok([])
    else match SaleOption(rows, options, ids[0])
      case Err(e) => Err(e)
      case Ok(o) => Prepend([o], SaleOptions(rows, options, ids[1..]))
  }

  /** The rule of one assigned group when the line selects something. */
  function SaleRule(a: AssignRow, count: nat): Option<Reason> {
    if a.required && a.selection == Single && count != 1 then Some(RequiredSingleViolation)
    else if !a.required && a.selection == Single && count > 1 then Some(OptionalSingleViolation)
    else if a.selection == Multiple && a.required then Some(RequiredMultipleNotSupported)
    else None
  }

  function SaleRules(rows: seq<AssignRow>, opts: seq<ResolvedOption>): Option<Reason> {
    if rows == [] then None
    else match SaleRule(rows[0], CountGroup(opts, rows[0].group))
      case Some(e) => Some(e)
      case None => SaleRules(rows[1..], opts)
  }

  function SaleRulesNoSelection(rows: seq<AssignRow>): Option<Reason> {
    if rows == [] then None
    else if rows[0].required && rows[0].selection == Single then Some(RequiredSingleMissing)
    else SaleRulesNoSelection(rows[1..])
  }

  function SaleLineRules(rows: seq<AssignRow>, opts: seq<ResolvedOption>, ids: seq<Id>): Option<Reason> {
    if ids != [] then SaleRules(rows, opts) else SaleRulesNoSelection(rows)
  }

  function SaleLine(products: map<Id, Product>, rows: seq<AssignRow>, options: map<Id, ModOption>, item: LineReq)
    : Result<PricedLine, Reason>
  {
    if item.product !in products then Err(ProductNotFound)
    else
      var itemRows := RowsOf(rows, item.product);
      match SaleOptions(itemRows, options, item.options)
      case Err(e) => Err(e)
      case Ok(opts) =>
        match SaleLineRules(itemRows, opts, item.options)
        case Some(e) => Err(e)
        case None =>
          var p := products[item.product];
          Ok(PricedLine(item.product, p, opts, p.price + DeltaSum(opts), item.quantity, item.note))
  }

  function SaleLines(products: map<Id, Product>, rows: seq<AssignRow>, options: map<Id, ModOption>, items: seq<LineReq>)
    : Result<seq<PricedLine>, Reason>
  {
    if items == [] then Ok([])
    else match SaleLine(products, rows, options, items[0])
      case Err(e) => Err(e)
      case Ok(l) => Prepend([l], SaleLines(products, rows, options, items[1..]))
  }

  /** Subtotal, discount, tax and total, with the range checks, before positivity and tender. */
  function SaleTotals(lines: seq<PricedLine>, discount: int, tax: TaxConfig): Result<Totals, Reason> {
    var subtotal := Subtotal(lines);
    if discount > subtotal then Err(DiscountExceedsSubtotal)
    else
      var (t, total) := CalculateTax(tax.enabled, tax.rate, subtotal - discount);
      if MoneyOk(subtotal) && MoneyOk(t) && MoneyOk(total) then Ok(Totals(subtotal, discount, t, total))
      else Err(InvalidAmount)
  }

  // ---------- the held-order routine ----------

  /** Indexing rows by group: a later row replaces an earlier one. */
  function LastRow(rows: seq<AssignRow>, g: Id): Option<AssignRow> {
    if rows == [] then None
    else if rows[|rows| - 1].group == g then Some(rows[|rows| - 1])
    else LastRow(rows[..|rows| - 1], g)
  }

  function HeldOption(rows: seq<AssignRow>, options: map<Id, ModOption>, id: Id): Result<ResolvedOption, Reason> {
    if id !in options then Err(ModifierOptionNotFound)
    else match LastRow(rows, options[id].group)
      case None => Err(ModifierGroupNotAssigned)
      case Some(a) => Ok(Resolved(id, options[id], a))
  }

  function HeldOptions(rows: seq<AssignRow>, options: map<Id, ModOption>, ids: seq<Id>): Result<seq<ResolvedOption>, Reason> {
    if ids == [] then Ok([])
    else match HeldOption(rows, options, ids[0])
      case Err(e) => Err(e)
      case Ok(o) => Prepend([o], HeldOptions(rows, options, ids[1..]))
  }

  function HeldRule(a: AssignRow, count: nat): Option<Reason> {
    if a.required && a.selection == Single && count == 0 then Some(RequiredSingleMissing)
    else if a.required && a.selection == Single && count != 1 then Some(RequiredSingleViolation)
    else if !a.required && a.selection == Single && count > 1 then Some(OptionalSingleViolation)
    else if a.required && a.selection == Multiple then Some(RequiredMultipleNotSupported)
    else None
  }

  function HeldRules(rows: seq<AssignRow>, opts: seq<ResolvedOption>): Option<Reason> {
    if rows == [] then None
    else match HeldRule(rows[0], CountGroup(opts, rows[0].group))
      case Some(e) => Some(e)
      case None => HeldRules(rows[1..], opts)
  }

  /** An empty note is stored as null. */
  function HeldNote(note: Option<string>): Option<string> {
    if note == Some("") then None else note
  }

  function HeldLine(products: map<Id, Product>, rows: seq<AssignRow>, options: map<Id, ModOption>, item: LineReq)
    : Result<PricedLine, Reason>
    requires item.product in products
  {
    var itemRows := RowsOf(rows, item.product);
    match HeldOptions(itemRows, options, item.options)
    case Err(e) => Err(e)
    case Ok(opts) =>
      match HeldRules(itemRows, opts)
      case Some(e) => Err(e)
      case None =>
        var p := products[item.product];
        var price := p.price + DeltaSum(opts);
        if MoneyOk(price) && MoneyOk(price * item.quantity)
        then Ok(PricedLine(item.product, p, opts, price, item.quantity, HeldNote(item.note)))
        else Err(HeldOrderTotalOutOfRange)
  }

  function HeldLines(products: map<Id, Product>, rows: seq<AssignRow>, options: map<Id, ModOption>, items: seq<LineReq>)
    : Result<seq<PricedLine>, Reason>
    requires ProductIds(items) <= products.Keys
  {
    if items == [] then Ok([])
    else
      assert items[0].product in ProductIds(items);
      assert ProductIds(items[1..]) <= ProductIds(items);
      match HeldLine(products, rows, options, items[0])
      case Err(e) => Err(e)
      case Ok(l) => Prepend([l], HeldLines(products, rows, options, items[1..]))
  }

  function HeldTotals(lines: seq<PricedLine>, tax: TaxConfig): Result<Totals, Reason> {
    var subtotal := Subtotal(lines);
    var (t, total) := CalculateTax(tax.enabled, tax.rate, subtotal);
    if MoneyOk(subtotal) && MoneyOk(t) && MoneyOk(total) then Ok(Totals(subtotal, 0, t, total))
    else Err(HeldOrderTotalOutOfRange)
  }

  // ---------- the whole routines over one catalog ----------

  datatype Priced = Priced(lines: seq<PricedLine>, totals: Totals)

  function PriceSaleFrom(products: map<Id, Product>, rows: seq<AssignRow>, options: map<Id, ModOption>,
                         items: seq<LineReq>, discount: int, tax: TaxConfig): Result<Priced, Reason> {
    if products.Keys != ProductIds(items) then Err(ProductNotFound)
    else match SaleLines(products, rows, options, items)
      case Err(e) => Err(e)
      case Ok(lines) =>
        match SaleTotals(lines, discount, tax)
        case Err(e) => Err(e)
        case Ok(t) => Ok(Priced(lines, t))
  }

  function PriceSale(c: Catalog, tenant: Id, items: seq<LineReq>, discount: int, tax: TaxConfig): Result<Priced, Reason> {
    var ids := ProductIds(items);
    var rows := ReadAssignments(c, tenant, ids, c.assignments);
    PriceSaleFrom(ReadProducts(c, tenant, ids), rows, ReadOptionsOfGroups(c, tenant, GroupsOf(rows)), items, discount, tax)
  }

  function PriceHeldFrom(products: map<Id, Product>, rows: seq<AssignRow>, options: map<Id, ModOption>,
                         items: seq<LineReq>, tax: TaxConfig): Result<Priced, Reason> {
    if products.Keys != ProductIds(items) then Err(CatalogConflict)
    else match HeldLines(products, rows, options, items)
      case Err(e) => Err(e)
      case Ok(lines) =>
        match HeldTotals(lines, tax)
        case Err(e) => Err(e)
        case Ok(t) => Ok(Priced(lines, t))
  }

  function PriceHeld(c: Catalog, tenant: Id, items: seq<LineReq>, tax: TaxConfig): Result<Priced, Reason> {
    var ids := ProductIds(items);
    PriceHeldFrom(ReadProducts(c, tenant, ids), ReadAssignments(c, tenant, ids, c.assignments),
                  ReadOptionsById(c, tenant, RequestedOptions(items)), items, tax)
  }
}
