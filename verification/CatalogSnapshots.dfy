/** What a written sale copies from the catalog it was priced against, and what a held order keeps of its request. */
module CatalogSnapshots {
  import opened Base
  import opened Schema
  import opened Pricing
  import opened PricingAgreement
  import opened Core
  import opened CoreFacts
  import opened HeldOrders
  import opened HeldOrderFacts
  import opened Solo

  // ---------- resolved options are the rows they name ----------

  ghost predicate ResolvedFrom(options: map<Id, ModOption>, o: ResolvedOption, id: Id) {
    id in options && o.id == id
    && o.group == options[id].group && o.optionName == options[id].name && o.delta == options[id].delta
  }

  lemma {:induction false} OptionsResolved(rows: seq<AssignRow>, options: map<Id, ModOption>, ids: seq<Id>)
    ensures var r := Pricing.SaleOptions(rows, options, ids);
            r.Ok? ==>
              && |r.value| == |ids|
              && (forall k :: 0 <= k < |ids| ==> ResolvedFrom(options, r.value[k], ids[k]))
              && (forall k :: 0 <= k < |ids| ==>
                    exists a :: a in rows && a.group == r.value[k].group && a.groupName == r.value[k].groupName)
  {
    if ids != [] {
      OptionsResolved(rows, options, ids[1..]);
      var o := SaleOption(rows, options, ids[0]);
      if o.Ok? {
        FirstRowFinds(rows, options[ids[0]].group);
        var a := FirstRow(rows, options[ids[0]].group).value;
        assert a in rows && a.group == o.value.group && a.groupName == o.value.groupName;
      }
    }
  }

  lemma {:induction false} RowsAreAssignments(c: Catalog, tenant: Id, ids: set<Id>, table: seq<Assignment>)
    ensures forall a <- ReadAssignments(c, tenant, ids, table) ::
              a.group in c.groups && c.groups[a.group].active && a.groupName == c.groups[a.group].name
  {
    if table != [] {
      RowsAreAssignments(c, tenant, ids, table[1..]);
    }
  }

  /** A modifier row as the catalog has the option now. */
  ghost predicate Copies(c: Catalog, tenant: Id, m: Modifier, option: Id) {
    && option in c.options && c.options[option].tenant == tenant && c.options[option].active
    && c.options[option].group in c.groups && c.groups[c.options[option].group].active
    && m == Modifier(c.options[option].group, Some(option), c.groups[c.options[option].group].name,
                     c.options[option].name, c.options[option].delta)
  }

  /** A line that was priced against this catalog. */
  ghost predicate PricedFromCatalog(c: Catalog, tenant: Id, l: PricedLine, item: LineReq) {
    && item.product in c.products && c.products[item.product].tenant == tenant && c.products[item.product].active
    && l.product == item.product && l.row == c.products[item.product]
    && |l.options| == |item.options|
    && forall k :: 0 <= k < |item.options| ==> Copies(c, tenant, ModifierOf(l.options[k]), item.options[k])
  }

  lemma LineFromCatalog(c: Catalog, tenant: Id, ids: set<Id>, item: LineReq)
    ensures var rows := ReadAssignments(c, tenant, ids, c.assignments);
            var r := SaleLine(ReadProducts(c, tenant, ids), rows, ReadOptionsOfGroups(c, tenant, GroupsOf(rows)), item);
            r.Ok? ==> PricedFromCatalog(c, tenant, r.value, item)
  {
    var rows := ReadAssignments(c, tenant, ids, c.assignments);
    var options := ReadOptionsOfGroups(c, tenant, GroupsOf(rows));
    var r := SaleLine(ReadProducts(c, tenant, ids), rows, options, item);
    if r.Ok? {
      var itemRows := RowsOf(rows, item.product);
      OptionsResolved(itemRows, options, item.options);
      RowsOfProduct(rows, item.product);
      RowsAreAssignments(c, tenant, ids, c.assignments);
      forall k | 0 <= k < |item.options| ensures Copies(c, tenant, ModifierOf(r.value.options[k]), item.options[k]) {
        var o := r.value.options[k];
        assert ResolvedFrom(options, o, item.options[k]);
        var a :| a in itemRows && a.group == o.group && a.groupName == o.groupName;
      }
    }
  }

  lemma {:induction false} LinesFromCatalog(c: Catalog, tenant: Id, ids: set<Id>, items: seq<LineReq>)
    ensures var rows := ReadAssignments(c, tenant, ids, c.assignments);
            var r := SaleLines(ReadProducts(c, tenant, ids), rows, ReadOptionsOfGroups(c, tenant, GroupsOf(rows)), items);
            r.Ok? ==> |r.value| == |items| && forall i :: 0 <= i < |items| ==> PricedFromCatalog(c, tenant, r.value[i], items[i])
  {
    if items != [] {
      LineFromCatalog(c, tenant, ids, items[0]);
      LinesFromCatalog(c, tenant, ids, items[1..]);
    }
  }

  // ---------- the sale ----------

  /** An item row as the catalog has its product and options now. */
  ghost predicate ItemCopies(c: Catalog, tenant: Id, it: SaleItem, item: LineReq) {
    && item.product in c.products && c.products[item.product].tenant == tenant && c.products[item.product].active
    && var p := c.products[item.product];
    && it.product == item.product && it.quantity == item.quantity && it.note == item.note
    && it.name == Some(p.name) && it.sku == Some(p.sku) && it.unitCost == p.cost && it.basePrice == Some(p.price)
    && |it.modifiers| == |item.options|
    && forall k :: 0 <= k < |item.options| ==> Copies(c, tenant, it.modifiers[k], item.options[k])
  }

  lemma ItemsCopy(c: Catalog, tenant: Id, lines: seq<PricedLine>, items: seq<LineReq>, products: map<Id, Product>)
    requires |lines| == |items|
    requires forall i :: 0 <= i < |items| ==>
               PricedFromCatalog(c, tenant, lines[i], items[i]) && LineMatches(products, lines[i], items[i])
    ensures forall i :: 0 <= i < |items| ==> ItemCopies(c, tenant, Map(SaleItemOf, lines)[i], items[i])
  {
  }

  lemma TrackedProducts(c: Catalog, tenant: Id, ids: set<Id>)
    requires ReadProducts(c, tenant, ids).Keys == ids
    ensures TrackedOf(ReadProducts(c, tenant, ids)) == set p | p in ids && p in c.products && c.products[p].trackStock :: p
  {
    forall p <- ids ensures p in c.products && ReadProducts(c, tenant, ids)[p] == c.products[p] {
      assert p in ReadProducts(c, tenant, ids).Keys;
    }
  }

  /**
   A sale priced against one view of the catalog snapshots it line by line, in request order: names, SKU, cost, base
   price and every option's group, name and delta, all active and of the tenant; and the stock it takes is that of the
   requested products whose stock that catalog tracks.
   */
  lemma WrittenSaleCopiesCatalog(db: Store, actor: Actor, req: SaleReq, mode: Mode, now: int, sale: Sale, tracked: set<Id>)
    requires CatalogOk(db.catalog)
    requires CorePlan(actor, req, mode, ReadAll(db, actor, req), now) == Write(sale, tracked)
    ensures |sale.items| == |req.items|
    ensures forall i :: 0 <= i < |req.items| ==> ItemCopies(db.catalog, actor.tenant, sale.items[i], req.items[i])
    ensures tracked == set p | p in ProductIds(req.items) && p in db.catalog.products && db.catalog.products[p].trackStock :: p
    ensures sale.createdAt == now
  {
    var rd := ReadAll(db, actor, req);
    ReadAllOk(db, actor, req);
    var p := WriteCameFrom(actor, req, mode, rd, now, sale, tracked);
    PricedLinesMatch(rd, req.items, req.discount, rd.tenant.value, p);
    LinesFromCatalog(db.catalog, actor.tenant, ProductIds(req.items), req.items);
    ItemsCopy(db.catalog, actor.tenant, p.lines, req.items, rd.products);
    TrackedProducts(db.catalog, actor.tenant, ProductIds(req.items));
  }

  // ---------- the held order ----------

  /** A created order holds exactly the requested lines, in request order, for its creator's own open session. */
  lemma CreatedHoldsRequest(db: Store, actor: Actor, req: HoldReq, id: Id)
    requires HoldAnswer(db, actor, req, id).Ok?
    ensures HoldAnswer(db, actor, req, id).value.HeldCreated?
    ensures var order := HoldAnswer(db, actor, req, id).value.order;
            && RequestLines(order.items) == Map(NormalNote, req.items)
            && order.title == Title(req.title) && order.tenant == actor.tenant && order.cashier == actor.sub
            && order.session == req.session && order.outlet == req.outlet
            && ReadSession(db, actor, Some(req.session)).Some?
  {
    var rd := HoldReadAll(db, actor, req);
    var order := HoldAnswer(db, actor, req, id).value.order;
    var tax, p := CreateCameFrom(actor, req, rd, order);
    PricedHeld(rd.products, rd.rows, rd.options, req.items, tax, p);
    RowsReadBack(req.items, p);
  }

  /** An update replaces exactly what it was sent: the items in request order, or the label, or both. */
  lemma UpdatedHoldsRequest(db: Store, actor: Actor, id: Id, req: EditReq)
    requires EditAnswer(db, actor, id, req).Ok?
    ensures EditAnswer(db, actor, id, req).value.HeldUpdated? && id in db.orders
    ensures var before, after := db.orders[id], EditAnswer(db, actor, id, req).value.order;
            && before.status == Open && before.version == req.expected && after.version == req.expected + 1
            && after.title == (match req.title case None => before.title case Some(t) => Title(t))
            && (req.items.None? ==> after.items == before.items && after.subtotal == before.subtotal
                                    && after.tax == before.tax && after.total == before.total)
            && (req.items.Some? ==> RequestLines(after.items) == Map(NormalNote, req.items.value))
  {
    var rd := EditReadAll(db, actor, id, if req.items.Some? then req.items.value else []);
    var priced := UpdatePlan(actor, req, rd).value;
    if priced.Some? {
      PricedHeld(rd.products, rd.rows, rd.options, req.items.value, rd.tenant.value, priced.value);
      RowsReadBack(req.items.value, priced.value);
    }
  }
}
