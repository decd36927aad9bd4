/** The idempotency arbiter: when is a stored sale the answer to this request? */
module SameRequest {
  import opened Base
  import opened Schema
  import opened Sorting
  import Json

  /** What a line means to the client: item order and option order carry no information. */
  datatype LineValue = LineValue(product: Id, quantity: int, note: Option<string>, options: multiset<Id>)

  function ValueOf(l: LineReq): LineValue {
    LineValue(l.product, l.quantity, l.note, multiset(l.options))
  }

  /** The option ids of stored modifiers; NULL ids of legacy rows are dropped. */
  function OptionIds(ms: seq<Modifier>): seq<Id> {
    if ms == [] then []
    else (match ms[0].option case None => [] case Some(id) => [id]) + OptionIds(ms[1..])
  }

  function PersistedLine(item: SaleItem): LineReq {
    LineReq(item.product, item.quantity, OptionIds(item.modifiers), item.note)
  }

  /** The canonical key of a line: the JSON text of its fields, options sorted. */
  function LineText(l: LineReq): string {
    Json.LineObject(Json.LineKey(l.product, l.quantity, l.note, Sort(l.options)))
  }

  function CanonicalLines(ls: seq<LineReq>): string {
    Json.StringArray(Sort(Map(LineText, ls)))
  }

  function ResolveTender(p: PaymentReq): Option<int> {
    if p.paidBy != Cash then None
    else if p.received.Some? then p.received
    else p.amount
  }

  function PersistedTender(p: Payment): int {
    match p.received case Some(r) => r case None => p.amount
  }

  predicate SamePayment(p: Payment, req: PaymentReq) {
    && p.paidBy == req.paidBy
    && (match req.paidBy
        case Cash => ResolveTender(req) == Some(PersistedTender(p))
        case _ => p.received.None? && p.change.None?)
  }

  predicate SameHeader(sale: Sale, actor: Actor, req: SaleReq) {
    && sale.user == actor.sub
    && sale.outlet == req.outlet
    && sale.session == req.session
    && sale.customer == req.customer
    && sale.discount == req.discount
  }

  predicate AssertSameRequest(sale: Sale, actor: Actor, req: SaleReq) {
    && SameHeader(sale, actor, req)
    && |sale.payments| == 1
    && SamePayment(sale.payments[0], req.payment)
    && CanonicalLines(Map(PersistedLine, sale.items)) == CanonicalLines(req.items)
  }

  /** Two lines share a canonical key exactly when they mean the same. */
  lemma LineTextExact(a: LineReq, b: LineReq)
    ensures LineText(a) == LineText(b) <==> ValueOf(a) == ValueOf(b)
  {
    SortIsCanonical(a.options, b.options);
    if LineText(a) == LineText(b) {
      Json.LineObjectInjective(
        Json.LineKey(a.product, a.quantity, a.note, Sort(a.options)),
        Json.LineKey(b.product, b.quantity, b.note, Sort(b.options)));
    }
  }

  ghost function LineBag(ls: seq<LineReq>): multiset<LineValue> {
    multiset(Map(ValueOf, ls))
  }

  /** Sort-then-compare of the canonical texts decides equality of the line bags, multiplicities included. */
  lemma CanonicalLinesExact(xs: seq<LineReq>, ys: seq<LineReq>)
    ensures CanonicalLines(xs) == CanonicalLines(ys) <==> LineBag(xs) == LineBag(ys)
  {
    var tx, ty := Map(LineText, xs), Map(LineText, ys);
    SortIsCanonical(tx, ty);
    forall a, b ensures LineText(a) == LineText(b) <==> ValueOf(a) == ValueOf(b) {
      LineTextExact(a, b);
    }
    if CanonicalLines(xs) == CanonicalLines(ys) {
      assert Json.StringArray(Sort(tx)) + "" == Json.StringArray(Sort(ty)) + "";
      Json.StringArrayInjective(Sort(tx), Sort(ty), "", "");
      ImageTransfer(LineText, ValueOf, xs, ys);
    }
    if LineBag(xs) == LineBag(ys) {
      ImageTransfer(ValueOf, LineText, xs, ys);
    }
  }

  // ---------- lines in any order ----------

  /** The same product, quantity, note and options, the options in any order. */
  predicate Alike(a: LineReq, b: LineReq) {
    a.product == b.product && a.quantity == b.quantity && a.note == b.note && multiset(a.options) == multiset(b.options)
  }

  /** Line i of xs is line p[i] of ys, and no line of ys is used twice. */
  predicate Pairs(xs: seq<LineReq>, ys: seq<LineReq>, p: seq<nat>) {
    && |p| == |xs| == |ys|
    && (forall i, j :: 0 <= i < j < |p| ==> p[i] != p[j])
    && forall i :: 0 <= i < |p| ==> p[i] < |ys| && Alike(xs[i], ys[p[i]])
  }

  ghost predicate Rearranged(xs: seq<LineReq>, ys: seq<LineReq>) {
    exists p :: Pairs(xs, ys, p)
  }

  /** The pairing of the rest, with ys[j] put back and paired first. */
  function Paired(j: nat, q: seq<nat>): (p: seq<nat>)
    ensures |p| == |q| + 1 && p[0] == j
    ensures forall i :: 0 <= i < |q| ==> p[i + 1] == if q[i] < j then q[i] else q[i] + 1
  {
    [j] + seq(|q|, i requires 0 <= i < |q| => if q[i] < j then q[i] else q[i] + 1)
  }

  lemma PairFirst(xs: seq<LineReq>, ys: seq<LineReq>, j: nat, q: seq<nat>)
    requires xs != [] && j < |ys| && Alike(xs[0], ys[j]) && Pairs(xs[1..], Without(ys, j), q)
    ensures Pairs(xs, ys, Paired(j, q))
  {
    hide Alike;
    var p := Paired(j, q);
    forall i | 0 <= i < |p| ensures p[i] < |ys| && Alike(xs[i], ys[p[i]]) {
      if i > 0 {
        assert xs[i] == xs[1..][i - 1] && ys[p[i]] == Without(ys, j)[q[i - 1]];
      }
    }
    forall i, k | 0 <= i < k < |p| ensures p[i] != p[k] {
      if i > 0 {
        assert q[i - 1] != q[k - 1];
      }
    }
  }

  lemma {:induction false} BagsPair(xs: seq<LineReq>, ys: seq<LineReq>) returns (p: seq<nat>)
    requires LineBag(xs) == LineBag(ys)
    ensures Pairs(xs, ys, p)
  {
    if xs == [] {
      assert |multiset(Map(ValueOf, ys))| == |ys|;
      p := [];
    } else {
      assert Map(ValueOf, xs)[0] in multiset(Map(ValueOf, ys));
      var j :| 0 <= j < |ys| && Map(ValueOf, ys)[j] == Map(ValueOf, xs)[0];
      MatchedPair(ValueOf, xs, ys, j);
      var q := BagsPair(xs[1..], Without(ys, j));
      PairFirst(xs, ys, j, q);
      p := Paired(j, q);
    }
  }

  /** The pairing of the rest, with the line paired first taken out of ys. */
  function Unpaired(p: seq<nat>): (q: seq<nat>)
    requires p != [] && forall i :: 0 < i < |p| ==> p[i] != p[0]
    ensures |q| == |p| - 1
    ensures forall i :: 0 <= i < |q| ==> q[i] == if p[i + 1] < p[0] then p[i + 1] else p[i + 1] - 1
  {
    seq(|p| - 1, i requires 0 <= i < |p| - 1 => if p[i + 1] < p[0] then p[i + 1] else p[i + 1] - 1)
  }

  lemma PairRest(xs: seq<LineReq>, ys: seq<LineReq>, p: seq<nat>)
    requires xs != [] && Pairs(xs, ys, p)
    ensures Pairs(xs[1..], Without(ys, p[0]), Unpaired(p))
  {
    hide Alike;
    var q := Unpaired(p);
    forall i | 0 <= i < |q| ensures q[i] < |ys| - 1 && Alike(xs[1..][i], Without(ys, p[0])[q[i]]) {
      assert p[0] != p[i + 1] && Without(ys, p[0])[q[i]] == ys[p[i + 1]];
    }
    forall i, k | 0 <= i < k < |q| ensures q[i] != q[k] {
      assert p[i + 1] != p[k + 1] && p[0] != p[i + 1] && p[0] != p[k + 1];
    }
  }

  lemma {:induction false} PairsBag(xs: seq<LineReq>, ys: seq<LineReq>, p: seq<nat>)
    requires Pairs(xs, ys, p)
    ensures LineBag(xs) == LineBag(ys)
  {
    if xs != [] {
      assert Alike(xs[0], ys[p[0]]);
      PairRest(xs, ys, p);
      PairsBag(xs[1..], Without(ys, p[0]), Unpaired(p));
      MatchedPair(ValueOf, xs, ys, p[0]);
    }
  }

  /** The bags are equal exactly when one list is the other rearranged. */
  lemma LineBagExact(xs: seq<LineReq>, ys: seq<LineReq>)
    ensures LineBag(xs) == LineBag(ys) <==> Rearranged(xs, ys)
  {
    if LineBag(xs) == LineBag(ys) {
      var p := BagsPair(xs, ys);
    }
    if p :| Pairs(xs, ys, p) {
      PairsBag(xs, ys, p);
    }
  }

  // ---------- the arbiter ----------

  /** The payment row is what this payment would have left: its method, and for cash what was handed over. */
  predicate PaidAs(p: Payment, req: PaymentReq) {
    && p.paidBy == req.paidBy
    && if p.paidBy == Cash
       then (if req.received.Some? then req.received else req.amount) == Some(if p.received.Some? then p.received.value else p.amount)
       else p.received == None && p.change == None
  }

  /**
   The arbiter accepts exactly the requests of the same seller, outlet, session, customer and discount, paid by the same
   method and, for cash, with the same amount handed over, whose lines are the stored ones in some order.
   */
  lemma AssertSameRequestExact(sale: Sale, actor: Actor, req: SaleReq)
    ensures AssertSameRequest(sale, actor, req) <==>
            && sale.user == actor.sub && sale.outlet == req.outlet && sale.session == req.session
            && sale.customer == req.customer && sale.discount == req.discount
            && |sale.payments| == 1 && PaidAs(sale.payments[0], req.payment)
            && Rearranged(Map(PersistedLine, sale.items), req.items)
  {
    hide CanonicalLines, LineBag, Rearranged, PersistedLine;
    CanonicalLinesExact(Map(PersistedLine, sale.items), req.items);
    LineBagExact(Map(PersistedLine, sale.items), req.items);
  }

  /** The same in terms of bags. */
  lemma SameRequestBags(sale: Sale, actor: Actor, req: SaleReq)
    ensures AssertSameRequest(sale, actor, req) <==>
            && SameHeader(sale, actor, req)
            && |sale.payments| == 1
            && SamePayment(sale.payments[0], req.payment)
            && LineBag(Map(PersistedLine, sale.items)) == LineBag(req.items)
  {
    CanonicalLinesExact(Map(PersistedLine, sale.items), req.items);
  }
}
