/** Assigning modifier groups to products: the writes that keep required MULTIPLE groups out of the catalog. */
module CatalogWrites {
  import opened Base
  import opened Schema
  import opened Pricing
  import opened PricingAgreement

  // ---------- the requests and their checks ----------

  /** A selection type that is neither of the two texts is None. */
  datatype AssignReq = AssignReq(group: Id, required: bool, selection: Option<Selection>, displayOrder: int)

  function RowOf(tenant: Id, product: Id, r: AssignReq): Assignment
    requires r.selection.Some?
  {
    Assignment(tenant, product, r.group, r.required, r.selection.value, r.displayOrder)
  }

  /** The request that would store this row. */
  function RequestOf(a: Assignment): AssignReq {
    AssignReq(a.group, a.required, Some(a.selection), a.displayOrder)
  }

  predicate Of(a: Assignment, tenant: Id, product: Id) {
    a.tenant == tenant && a.product == product
  }

  predicate OwnsProduct(c: Catalog, tenant: Id, product: Id) {
    product in c.products && c.products[product].tenant == tenant
  }

  predicate ActiveGroup(c: Catalog, tenant: Id, group: Id) {
    group in c.groups && c.groups[group].tenant == tenant && c.groups[group].active
  }

  function SelectionProblem(r: AssignReq): (problem: Option<Reason>)
    ensures problem.None? <==> r.selection.Some? && !(r.required && r.selection == Some(Multiple))
  {
    if r.selection.None? then Some(InvalidModifierSelectionType)
    else if r.required && r.selection.value == Multiple then Some(RequiredMultipleNotSupported)
    else None
  }

  /** The seen loop: a repeated group, then the selection type, request by request. */
  function ScanProblem(reqs: seq<AssignReq>, seen: set<Id>): (problem: Option<Reason>)
    ensures problem.None? ==> forall r <- reqs :: r.selection.Some?
  {
    if reqs == [] then None
    else if reqs[0].group in seen then Some(DuplicateModifierGroupAssignment)
    else if SelectionProblem(reqs[0]).Some? then SelectionProblem(reqs[0])
    else ScanProblem(reqs[1..], seen + {reqs[0].group})
  }

  function ReplaceProblem(c: Catalog, tenant: Id, product: Id, reqs: seq<AssignReq>): Option<Reason> {
    if !OwnsProduct(c, tenant, product) then Some(ProductNotFound)
    else if ScanProblem(reqs, {}).Some? then ScanProblem(reqs, {})
    else if exists i :: 0 <= i < |reqs| && !ActiveGroup(c, tenant, reqs[i].group) then Some(ModifierGroupNotFound)
    else None
  }

  /** The row under a primary key, by its position. */
  function Find(table: seq<Assignment>, tenant: Id, product: Id, group: Id): (r: Option<nat>)
    ensures r.Some? ==> r.value < |table| && Keyed(table[r.value], tenant, product, group)
    ensures r.None? ==> forall i :: 0 <= i < |table| ==> !Keyed(table[i], tenant, product, group)
  {
    if table == [] then None
    else if Keyed(table[|table| - 1], tenant, product, group) then Some(|table| - 1)
    else Find(table[..|table| - 1], tenant, product, group)
  }

  function AssignProblem(c: Catalog, tenant: Id, product: Id, r: AssignReq): Option<Reason> {
    if !OwnsProduct(c, tenant, product) then Some(ProductNotFound)
    else if SelectionProblem(r).Some? then SelectionProblem(r)
    else if !ActiveGroup(c, tenant, r.group) then Some(ModifierGroupNotFound)
    else if Find(c.assignments, tenant, product, r.group).Some? then Some(ModifierGroupAlreadyAssigned)
    else None
  }

  function UpdateProblem(c: Catalog, tenant: Id, product: Id, group: Id, r: AssignReq): Option<Reason> {
    if !OwnsProduct(c, tenant, product) then Some(ProductNotFound)
    else if SelectionProblem(r).Some? then SelectionProblem(r)
    else if Find(c.assignments, tenant, product, group).None? then Some(AssignmentNotFound)
    else if !ActiveGroup(c, tenant, r.group) then Some(ModifierGroupNotFound)
    else if r.group != group && Find(c.assignments, tenant, product, r.group).Some? then Some(ModifierGroupAlreadyAssigned)
    else None
  }

  function RemoveProblem(c: Catalog, tenant: Id, product: Id, group: Id): Option<Reason> {
    if !OwnsProduct(c, tenant, product) then Some(ProductNotFound)
    else if Find(c.assignments, tenant, product, group).None? then Some(AssignmentNotFound)
    else None
  }

  // ---------- the writes ----------

  datatype Write =
    | Replace(tenant: Id, product: Id, reqs: seq<AssignReq>)
    | Assign(tenant: Id, product: Id, req: AssignReq)
    | Update(tenant: Id, product: Id, group: Id, req: AssignReq)
    | Remove(tenant: Id, product: Id, group: Id)

  function Problem(c: Catalog, w: Write): Option<Reason> {
    match w
    case Replace(t, p, reqs) => ReplaceProblem(c, t, p, reqs)
    case Assign(t, p, r) => AssignProblem(c, t, p, r)
    case Update(t, p, g, r) => UpdateProblem(c, t, p, g, r)
    case Remove(t, p, g) => RemoveProblem(c, t, p, g)
  }

  function Others(table: seq<Assignment>, tenant: Id, product: Id): seq<Assignment> {
    if table == [] then []
    else (if Of(table[0], tenant, product) then [] else [table[0]]) + Others(table[1..], tenant, product)
  }

  function RowsFor(tenant: Id, product: Id, reqs: seq<AssignReq>): (rows: seq<Assignment>)
    requires forall r <- reqs :: r.selection.Some?
  {
    seq(|reqs|, i requires 0 <= i < |reqs| => RowOf(tenant, product, reqs[i]))
  }

  /** The table after an accepted write. */
  function Table(c: Catalog, w: Write): seq<Assignment>
    requires Problem(c, w).None?
  {
    match w
    case Replace(t, p, reqs) => Others(c.assignments, t, p) + RowsFor(t, p, reqs)
    case Assign(t, p, r) => c.assignments + [RowOf(t, p, r)]
    case Update(t, p, g, r) => c.assignments[Find(c.assignments, t, p, g).value := RowOf(t, p, r)]
    case Remove(t, p, g) => Without(c.assignments, Find(c.assignments, t, p, g).value)
  }

  function Written(c: Catalog, w: Write): Catalog {
    if Problem(c, w).None? then c.(assignments := Table(c, w)) else c
  }

  // ---------- the table as it is updated ----------

  class ProductCatalog {
    var catalog: Catalog

    constructor (catalog: Catalog)
      ensures this.catalog == catalog
    {
      this.catalog := catalog;
    }

    method Scan(reqs: seq<AssignReq>) returns (r: Option<Reason>)
      ensures r == ScanProblem(reqs, {})
    {
      var seen: set<Id> := {};
      var i := 0;
      assert reqs[0..] == reqs;
      while i < |reqs|
        invariant 0 <= i <= |reqs|
        invariant ScanProblem(reqs, {}) == ScanProblem(reqs[i..], seen)
      {
        assert reqs[i..][0] == reqs[i] && reqs[i..][1..] == reqs[i + 1..];
        if reqs[i].group in seen {
          return Some(DuplicateModifierGroupAssignment);
        }
        seen := seen + {reqs[i].group};
        if reqs[i].selection.None? {
          return Some(InvalidModifierSelectionType);
        }
        if reqs[i].required && reqs[i].selection.value == Multiple {
          return Some(RequiredMultipleNotSupported);
        }
        i := i + 1;
      }
      r := None;
    }

    method ReplaceModifierGroups(tenant: Id, product: Id, reqs: seq<AssignReq>) returns (r: Option<Reason>)
      modifies this
      ensures r == ReplaceProblem(old(catalog), tenant, product, reqs)
      ensures catalog == Written(old(catalog), Replace(tenant, product, reqs))
    {
      if !OwnsProduct(catalog, tenant, product) {
        return Some(ProductNotFound);
      }
      r := Scan(reqs);
      if r.Some? {
        return;
      }
      if exists i :: 0 <= i < |reqs| && !ActiveGroup(catalog, tenant, reqs[i].group) {
        return Some(ModifierGroupNotFound);
      }
      catalog := catalog.(assignments := Others(catalog.assignments, tenant, product));
      catalog := catalog.(assignments := catalog.assignments + RowsFor(tenant, product, reqs));
    }

    method AssignModifierGroup(tenant: Id, product: Id, req: AssignReq) returns (r: Option<Reason>)
      modifies this
      ensures r == AssignProblem(old(catalog), tenant, product, req)
      ensures catalog == Written(old(catalog), Assign(tenant, product, req))
    {
      if !OwnsProduct(catalog, tenant, product) {
        return Some(ProductNotFound);
      }
      if req.selection.None? {
        return Some(InvalidModifierSelectionType);
      }
      if req.required && req.selection.value == Multiple {
        return Some(RequiredMultipleNotSupported);
      }
      if !ActiveGroup(catalog, tenant, req.group) {
        return Some(ModifierGroupNotFound);
      }
      var taken := Find(catalog.assignments, tenant, product, req.group);
      if taken.Some? {
        return Some(ModifierGroupAlreadyAssigned);
      }
      var row := Assignment(tenant, product, req.group, req.required, req.selection.value, req.displayOrder);
      catalog := catalog.(assignments := catalog.assignments + [row]);
      r := None;
    }

    method UpdateModifierGroupAssignment(tenant: Id, product: Id, group: Id, req: AssignReq) returns (r: Option<Reason>)
      modifies this
      ensures r == UpdateProblem(old(catalog), tenant, product, group, req)
      ensures catalog == Written(old(catalog), Update(tenant, product, group, req))
    {
      if !OwnsProduct(catalog, tenant, product) {
        return Some(ProductNotFound);
      }
      if req.selection.None? {
        return Some(InvalidModifierSelectionType);
      }
      if req.required && req.selection.value == Multiple {
        return Some(RequiredMultipleNotSupported);
      }
      var at := Find(catalog.assignments, tenant, product, group);
      if at.None? {
        return Some(AssignmentNotFound);
      }
      if !ActiveGroup(catalog, tenant, req.group) {
        return Some(ModifierGroupNotFound);
      }
      if req.group != group {
        var taken := Find(catalog.assignments, tenant, product, req.group);
        if taken.Some? {
          return Some(ModifierGroupAlreadyAssigned);
        }
      }
      var row := catalog.assignments[at.value].(group := req.group, required := req.required,
                                                selection := req.selection.value, displayOrder := req.displayOrder);
      catalog := catalog.(assignments := catalog.assignments[at.value := row]);
      r := None;
    }

    method RemoveModifierGroup(tenant: Id, product: Id, group: Id) returns (r: Option<Reason>)
      modifies this
      ensures r == RemoveProblem(old(catalog), tenant, product, group)
      ensures catalog == Written(old(catalog), Remove(tenant, product, group))
    {
      if !OwnsProduct(catalog, tenant, product) {
        return Some(ProductNotFound);
      }
      var at := Find(catalog.assignments, tenant, product, group);
      if at.None? {
        return Some(AssignmentNotFound);
      }
      catalog := catalog.(assignments := catalog.assignments[..at.value] + catalog.assignments[at.value + 1..]);
      r := None;
    }
  }

  // ---------- what the scan accepts ----------

  /** The loop accepts exactly the lists of known selection types without a repeated group or a required MULTIPLE one. */
  lemma {:induction false} ScanExact(reqs: seq<AssignReq>, seen: set<Id>)
    ensures ScanProblem(reqs, seen).None? <==>
            && (forall i :: 0 <= i < |reqs| ==> reqs[i].selection.Some? && !(reqs[i].required && reqs[i].selection == Some(Multiple)))
            && (forall i :: 0 <= i < |reqs| ==> reqs[i].group !in seen)
            && (forall i, j :: 0 <= i < j < |reqs| ==> reqs[i].group != reqs[j].group)
  {
    if reqs != [] {
      var rest := reqs[1..];
      ScanExact(rest, seen + {reqs[0].group});
      assert forall i :: 0 < i < |reqs| ==> reqs[i] == rest[i - 1];
      if ScanProblem(reqs, seen).None? {
        forall i, j | 0 <= i < j < |reqs| ensures reqs[i].group != reqs[j].group {
          assert reqs[j] == rest[j - 1];
          if i > 0 {
            assert rest[i - 1].group != rest[j - 1].group;
          }
        }
      } else if reqs[0].group !in seen && SelectionProblem(reqs[0]).None? {
        if k :| 0 <= k < |rest| && (SelectionProblem(rest[k]).Some? || rest[k].group in seen + {reqs[0].group}) {
          assert reqs[k + 1] == rest[k];
        } else {
          var i, j :| 0 <= i < j < |rest| && rest[i].group == rest[j].group;
          assert reqs[i + 1].group == reqs[j + 1].group;
        }
      }
    }
  }

  // ---------- what a write leaves ----------

  lemma {:induction false} OthersFacts(table: seq<Assignment>, tenant: Id, product: Id)
    requires UniqueKeys(table)
    ensures UniqueKeys(Others(table, tenant, product))
    ensures forall a :: a in Others(table, tenant, product) <==> a in table && !Of(a, tenant, product)
  {
    if table != [] {
      var rest := Others(table[1..], tenant, product);
      OthersFacts(table[1..], tenant, product);
      assert forall a :: a in table <==> a == table[0] || a in table[1..];
      forall k | 0 <= k < |rest| ensures !Keyed(rest[k], table[0].tenant, table[0].product, table[0].group) {
        assert rest[k] in table[1..];
        var n :| 0 <= n < |table| - 1 && table[1..][n] == rest[k];
        assert table[n + 1] == rest[k];
      }
    }
  }

  /** A replacement leaves exactly the requested assignments of that product, and everybody else's alone. */
  lemma ReplacedExactly(c: Catalog, tenant: Id, product: Id, reqs: seq<AssignReq>, a: Assignment)
    requires CatalogOk(c) && ReplaceProblem(c, tenant, product, reqs).None?
    ensures a in Table(c, Replace(tenant, product, reqs)) <==>
            if Of(a, tenant, product) then RequestOf(a) in reqs else a in c.assignments
  {
    OthersFacts(c.assignments, tenant, product);
    var rows := RowsFor(tenant, product, reqs);
    if Of(a, tenant, product) && RequestOf(a) in reqs {
      var i :| 0 <= i < |reqs| && reqs[i] == RequestOf(a);
      assert rows[i] == a;
    }
  }

  /** The row is there after the write: the requested row under its key, and no row under a key the write gave up. */
  ghost predicate Leaves(c: Catalog, w: Write, a: Assignment)
    requires Problem(c, w).None?
  {
    match w
    case Replace(t, p, reqs) => if Of(a, t, p) then RequestOf(a) in reqs else a in c.assignments
    case Assign(t, p, r) => if Keyed(a, t, p, r.group) then a == RowOf(t, p, r) else a in c.assignments
    case Update(t, p, g, r) =>
      if Keyed(a, t, p, r.group) then a == RowOf(t, p, r) else a in c.assignments && !Keyed(a, t, p, g)
    case Remove(t, p, g) => a in c.assignments && !Keyed(a, t, p, g)
  }

  lemma OtherRowsStay(table: seq<Assignment>, at: nat, row: Assignment, a: Assignment)
    requires at < |table| && UniqueKeys(table)
    ensures a in table[at := row] <==>
            a == row || (a in table && !Keyed(a, table[at].tenant, table[at].product, table[at].group))
    ensures a in Without(table, at) <==>
            a in table && !Keyed(a, table[at].tenant, table[at].product, table[at].group)
  {
    assert table[at := row][at] == row;
    if i :| 0 <= i < |table| && table[i] == a && i != at {
      assert table[at := row][i] == a;
      assert Without(table, at)[if i < at then i else i - 1] == a;
    }
    if a in Without(table, at) {
      var k :| 0 <= k < |table| - 1 && Without(table, at)[k] == a;
      assert table[if k < at then k else k + 1] == a;
    }
    if a in table[at := row] && a != row {
      var k :| 0 <= k < |table| && table[at := row][k] == a;
      assert k != at && table[k] == a;
    }
  }

  /** A known selection type, and not a required MULTIPLE. */
  predicate Supported(r: AssignReq) {
    match r.selection
    case None => false
    case Some(Single) => true
    case Some(Multiple) => !r.required
  }

  /** The group can be assigned: the tenant's and active. */
  predicate Assignable(c: Catalog, tenant: Id, group: Id) {
    group in c.groups && c.groups[group].tenant == tenant && c.groups[group].active
  }

  predicate IsAssigned(c: Catalog, tenant: Id, product: Id, group: Id) {
    exists a <- c.assignments :: a.tenant == tenant && a.product == product && a.group == group
  }

  /** What a write needs of the rows: the tenant's product, supported requests, live groups, the keys free or taken. */
  predicate MayWrite(c: Catalog, w: Write) {
    && w.product in c.products && c.products[w.product].tenant == w.tenant
    && match w
       case Replace(t, p, reqs) =>
         && (forall i :: 0 <= i < |reqs| ==> Supported(reqs[i]) && Assignable(c, t, reqs[i].group))
         && (forall i, j :: 0 <= i < j < |reqs| ==> reqs[i].group != reqs[j].group)
       case Assign(t, p, r) => Supported(r) && Assignable(c, t, r.group) && !IsAssigned(c, t, p, r.group)
       case Update(t, p, g, r) =>
         && Supported(r) && IsAssigned(c, t, p, g) && Assignable(c, t, r.group)
         && (r.group == g || !IsAssigned(c, t, p, r.group))
       case Remove(t, p, g) => IsAssigned(c, t, p, g)
  }

  lemma FindExact(c: Catalog, tenant: Id, product: Id, group: Id)
    ensures Find(c.assignments, tenant, product, group).Some? <==> IsAssigned(c, tenant, product, group)
  {
    var r := Find(c.assignments, tenant, product, group);
    if r.Some? {
      assert c.assignments[r.value] in c.assignments;
    }
  }

  /** A write is accepted exactly when it may be made. */
  lemma AcceptedExactly(c: Catalog, w: Write)
    ensures Problem(c, w).None? <==> MayWrite(c, w)
  {
    match w {
      case Replace(t, p, reqs) =>
        ScanExact(reqs, {});
        assert forall i :: 0 <= i < |reqs| ==> (Supported(reqs[i]) <==> SelectionProblem(reqs[i]).None?);
        assert forall i :: 0 <= i < |reqs| ==> (Assignable(c, t, reqs[i].group) <==> ActiveGroup(c, t, reqs[i].group));
      case Assign(t, p, r) => FindExact(c, t, p, r.group);
      case Update(t, p, g, r) =>
        FindExact(c, t, p, g);
        FindExact(c, t, p, r.group);
      case Remove(t, p, g) => FindExact(c, t, p, g);
    }
  }

  /** An accepted write leaves exactly the rows it should, and the rest of the catalog alone; a rejected one changes nothing. */
  lemma WrittenExactly(c: Catalog, w: Write, a: Assignment)
    requires CatalogOk(c)
    ensures a in Written(c, w).assignments <==> if Problem(c, w).None? then Leaves(c, w, a) else a in c.assignments
    ensures Written(c, w).(assignments := c.assignments) == c
  {
    if Problem(c, w).None? {
      match w {
        case Replace(t, p, reqs) => ReplacedExactly(c, t, p, reqs, a);
        case Assign(t, p, r) =>
        case Update(t, p, g, r) => OtherRowsStay(c.assignments, Find(c.assignments, t, p, g).value, RowOf(t, p, r), a);
        case Remove(t, p, g) =>
          var at := Find(c.assignments, t, p, g).value;
          OtherRowsStay(c.assignments, at, c.assignments[at], a);
      }
    }
  }

  // ---------- the invariant ----------

  ghost predicate NoRequiredMultiple(c: Catalog) {
    forall a <- c.assignments :: !(a.required && a.selection == Multiple)
  }

  /** What the database guarantees of the rest of the catalog, and the writes of the assignments. */
  ghost predicate Sellable(c: Catalog) {
    CatalogOk(c) && NoRequiredMultiple(c)
  }

  lemma ReplaceKeeps(c: Catalog, tenant: Id, product: Id, reqs: seq<AssignReq>)
    requires Sellable(c) && ReplaceProblem(c, tenant, product, reqs).None?
    ensures UniqueKeys(Table(c, Replace(tenant, product, reqs)))
  {
    ScanExact(reqs, {});
    OthersFacts(c.assignments, tenant, product);
    var others, rows := Others(c.assignments, tenant, product), RowsFor(tenant, product, reqs);
    var table := others + rows;
    forall i, j | 0 <= i < j < |table| ensures !Keyed(table[j], table[i].tenant, table[i].product, table[i].group) {
      if i < |others| && j >= |others| {
        assert others[i] in others && table[j] == rows[j - |others|];
      } else if i >= |others| {
        assert table[i] == rows[i - |others|] && table[j] == rows[j - |others|];
      }
    }
  }

  /** Every write keeps the keys distinct and required MULTIPLE groups out. */
  lemma WriteKeeps(c: Catalog, w: Write)
    requires Sellable(c)
    ensures Sellable(Written(c, w))
  {
    if Problem(c, w).None? {
      if w.Replace? {
        ReplaceKeeps(c, w.tenant, w.product, w.reqs);
        ScanExact(w.reqs, {});
      }
      forall a <- Table(c, w) ensures !(a.required && a.selection == Multiple) {
        WrittenExactly(c, w, a);
      }
    }
  }

  function AllWritten(c: Catalog, ws: seq<Write>): Catalog {
    if ws == [] then c else Written(AllWritten(c, ws[..|ws| - 1]), ws[|ws| - 1])
  }

  lemma {:induction false} WritesKeep(c: Catalog, ws: seq<Write>)
    requires Sellable(c)
    ensures Sellable(AllWritten(c, ws))
  {
    if ws != [] {
      WritesKeep(c, ws[..|ws| - 1]);
      WriteKeeps(AllWritten(c, ws[..|ws| - 1]), ws[|ws| - 1]);
    }
  }

  // ---------- the two pricing routines on reachable catalogs ----------

  lemma {:induction false} RowsSupported(c: Catalog, tenant: Id, ids: set<Id>, table: seq<Assignment>)
    requires forall a <- table :: !(a.required && a.selection == Multiple)
    ensures forall r <- ReadAssignments(c, tenant, ids, table) :: !(r.required && r.selection == Multiple)
  {
    if table != [] {
      RowsSupported(c, tenant, ids, table[1..]);
    }
  }

  lemma {:induction false} RowsOfSupported(rows: seq<AssignRow>, product: Id)
    requires forall r <- rows :: !(r.required && r.selection == Multiple)
    ensures !RequiresMultiple(RowsOf(rows, product))
  {
    if rows != [] {
      RowsOfSupported(rows[1..], product);
    }
  }

  /** On every catalog the writes can produce, the two routines accept the same carts, at the same prices and totals. */
  lemma AcceptanceAgrees(c0: Catalog, ws: seq<Write>, tenant: Id, items: seq<LineReq>, tax: TaxConfig)
    requires Sellable(c0) && forall i :: 0 <= i < |items| ==> items[i].quantity >= 1
    ensures var c := AllWritten(c0, ws);
            var s, h := PriceSale(c, tenant, items, 0, tax), PriceHeld(c, tenant, items, tax);
            && (h.Ok? <==> s.Ok?)
            && (h.Ok? ==> SamePrices(s.value.lines, h.value.lines) && s.value.totals == h.value.totals)
  {
    WritesKeep(c0, ws);
    var c := AllWritten(c0, ws);
    PricingAgrees(c, tenant, items, tax);
    var rows := ReadAssignments(c, tenant, ProductIds(items), c.assignments);
    RowsSupported(c, tenant, ProductIds(items), c.assignments);
    forall i | 0 <= i < |items| ensures !BareRequiredMultiple(rows, items[i]) {
      RowsOfSupported(rows, items[i].product);
    }
  }

  // ---------- the disagreement the writes keep out ----------

  const COFFEE := Product("t", true, "Coffee", "C-1", 20000, 8000, false)

  /** One product with one required MULTIPLE group, as only a direct database write could leave it. */
  const LEGACY := Catalog(
    map["p" := COFFEE], map["g" := Group("t", true, "Toppings")],
    [Assignment("t", "p", "g", true, Multiple, 0)], map[])

  /** A cart with nothing selected is sold at the base price by the sale core and refused by the held-order routine. */
  lemma RoutinesDisagree(tax: TaxConfig)
    requires !tax.enabled
    ensures CatalogOk(LEGACY)
    ensures var items := [LineReq("p", 1, [], None)];
            && PriceSale(LEGACY, "t", items, 0, tax).Ok?
            && PriceSale(LEGACY, "t", items, 0, tax).value.totals.total == 20000
            && PriceHeld(LEGACY, "t", items, tax) == Err(RequiredMultipleNotSupported)
  {
    var items := [LineReq("p", 1, [], None)];
    var row := AssignRow("p", "g", true, Multiple, "Toppings");
    assert items[0].product in ProductIds(items) && ProductIds(items) == {"p"};
    var products := ReadProducts(LEGACY, "t", {"p"});
    assert products == map["p" := COFFEE];
    assert LEGACY.assignments[1..] == [];
    var rows := ReadAssignments(LEGACY, "t", {"p"}, LEGACY.assignments);
    assert Joins(LEGACY, "t", {"p"}, LEGACY.assignments[0]);
    assert ReadAssignments(LEGACY, "t", {"p"}, []) == [];
    assert rows == [row];
    assert rows[1..] == [] && RowsOf([], "p") == [] && RowsOf(rows, "p") == [row];
    assert items[1..] == [];
    assert CountGroup([], "g") == 0;
    var options := ReadOptionsOfGroups(LEGACY, "t", GroupsOf(rows));
    var line := PricedLine("p", COFFEE, [], 20000, 1, None);
    assert DeltaSum([]) == 0 && Pricing.SaleOptions([row], options, []) == Ok([]);
    assert SaleRulesNoSelection([row][1..]) == None && SaleLineRules([row], [], []) == None;
    assert SaleLine(products, rows, options, items[0]) == Ok(line);
    assert SaleLines(products, rows, options, items[1..]) == Ok([]) && [line] + [] == [line];
    assert SaleLines(products, rows, options, items) == Ok([line]);
    assert [line][..0] == [] && Subtotal([line]) == 20000;
    assert HeldRules([row], []) == Some(RequiredMultipleNotSupported);
  }
}
