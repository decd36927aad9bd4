/**
 JSON.stringify on the two shapes the idempotency check builds: a line object with fixed keys, and an array of
 strings. Each encoder has a scanner that recovers the value and the exact remainder, so every encoding is injective
 even when it is embedded in a longer text.
 */
module Json {
  import opened Base

  lemma Cancel(p: string, a: string, b: string)
    requires p + a == p + b
    ensures a == b
  {
    assert (p + a)[|p|..] == a && (p + b)[|p|..] == b;
  }

  function HexDigit(n: int): char
    requires 0 <= n < 16
  {
    if n < 10 then (n + '0' as int) as char else (n - 10 + 'a' as int) as char
  }

  /** One character inside a JSON string: short escapes, \u00xx for other controls, everything else as it is. */
  function EscapeChar(c: char): string {
    match c
    case '\"' => "\\\""
    case '\\' => "\\\\"
    case '\n' => "\\n"
    case '\r' => "\\r"
    case '\t' => "\\t"
    case _ =>
      var n := c as int;
      if n == 8 then "\\b"
      else if n == 12 then "\\f"
      else if n < 32 then "\\u00" + [HexDigit(n / 16), HexDigit(n % 16)]
      else [c]
  }

  function Escape(s: string): string {
    if s == "" then "" else EscapeChar(s[0]) + Escape(s[1..])
  }

  function Quote(s: string): string {
    "\"" + Escape(s) + "\""
  }

  function HexValue(c: char): int {
    if '0' <= c <= '9' then c as int - '0' as int
    else if 'a' <= c <= 'f' then c as int - 'a' as int + 10
    else 0
  }

  /** Reads one escaped character; the remainder starts right after it. */
  function ScanChar(t: string): Option<(char, string)> {
    if t == "" then None
    else if t[0] != '\\' then Some((t[0], t[1..]))
    else if |t| < 2 then None
    else match t[1]
      case '\"' => Some(('\"', t[2..]))
      case '\\' => Some(('\\', t[2..]))
      case 'n' => Some(('\n', t[2..]))
      case 'r' => Some(('\r', t[2..]))
      case 't' => Some(('\t', t[2..]))
      case 'b' => Some((8 as char, t[2..]))
      case 'f' => Some((12 as char, t[2..]))
      case _ =>
        if |t| < 6 then None
        else Some(((HexValue(t[4]) * 16 + HexValue(t[5])) as char, t[6..]))
  }

  lemma ScanEscapedChar(c: char, rest: string)
    ensures EscapeChar(c)[0] != '\"'
    ensures ScanChar(EscapeChar(c) + rest) == Some((c, rest))
  {
    var e, n := EscapeChar(c), c as int;
    assert (e + rest)[|e|..] == rest;
    if n < 32 && |e| == 6 {
      assert (e + rest)[4] == HexDigit(n / 16) && (e + rest)[5] == HexDigit(n % 16);
      assert HexValue(HexDigit(n / 16)) == n / 16 && HexValue(HexDigit(n % 16)) == n % 16;
    }
  }

  /** Reads escaped characters up to the closing quote. */
  function ScanString(t: string): Option<(string, string)> {
    if t == "" then None
    else if t[0] == '\"' then Some(("", t[1..]))
    else match ScanChar(t)
      case None => None
      case Some((c, rest)) =>
        match ScanString(rest)
        case None => None
        case Some((s, tail)) => Some(([c] + s, tail))
  }

  lemma {:induction false} ScanEscaped(s: string, rest: string)
    ensures ScanString(Escape(s) + "\"" + rest) == Some((s, rest))
  {
    hide ScanChar;
    if s == "" {
      assert Escape(s) + "\"" + rest == "\"" + rest;
    } else {
      var tail := Escape(s[1..]) + "\"" + rest;
      assert Escape(s) + "\"" + rest == EscapeChar(s[0]) + tail;
      ScanEscapedChar(s[0], tail);
      ScanEscaped(s[1..], rest);
      assert [s[0]] + s[1..] == s;
    }
  }

  lemma ScanQuoted(s: string, rest: string)
    ensures Quote(s) + rest != "" && ScanString((Quote(s) + rest)[1..]) == Some((s, rest))
  {
    assert (Quote(s) + rest)[1..] == Escape(s) + "\"" + rest;
    ScanEscaped(s, rest);
  }

  /** A quoted string is self-delimiting: it can be read back, with its remainder, from any longer text. */
  lemma QuoteInjective(a: string, b: string, restA: string, restB: string)
    requires Quote(a) + restA == Quote(b) + restB
    ensures a == b && restA == restB
  {
    ScanQuoted(a, restA);
    ScanQuoted(b, restB);
  }

  /** Decimal text of a natural number, no leading zeros. */
  function Decimal(n: nat): string {
    if n < 10 then [HexDigit(n)] else Decimal(n / 10) + [HexDigit(n % 10)]
  }

  function ScanNat(acc: nat, t: string): (nat, string)
    decreases |t|
  {
    if t != "" && '0' <= t[0] <= '9' then ScanNat(acc * 10 + HexValue(t[0]), t[1..]) else (acc, t)
  }

  lemma {:induction false} ScanDecimal(n: nat, rest: string)
    ensures ScanNat(0, Decimal(n) + rest) == ScanNat(n, rest)
  {
    if n < 10 {
      assert (Decimal(n) + rest)[1..] == rest;
    } else {
      var d := [HexDigit(n % 10)];
      assert Decimal(n) + rest == Decimal(n / 10) + (d + rest);
      ScanDecimal(n / 10, d + rest);
      assert (d + rest)[1..] == rest;
    }
  }

  lemma DecimalInjective(a: nat, b: nat, restA: string, restB: string)
    requires restA != "" && !('0' <= restA[0] <= '9')
    requires restB != "" && !('0' <= restB[0] <= '9')
    requires Decimal(a) + restA == Decimal(b) + restB
    ensures a == b && restA == restB
  {
    ScanDecimal(a, restA);
    ScanDecimal(b, restB);
  }

  /** An integer as JSON prints it. */
  function Number(n: int): string {
    if n < 0 then "-" + Decimal(-n) else Decimal(n)
  }

  lemma {:induction false} DecimalStartsWithDigit(n: nat, rest: string)
    ensures Decimal(n) + rest != "" && '0' <= (Decimal(n) + rest)[0] <= '9'
  {
    if n >= 10 {
      DecimalStartsWithDigit(n / 10, [HexDigit(n % 10)] + rest);
      assert Decimal(n) + rest == Decimal(n / 10) + ([HexDigit(n % 10)] + rest);
    }
  }

  lemma NumberInjective(a: int, b: int, restA: string, restB: string)
    requires restA != "" && !('0' <= restA[0] <= '9')
    requires restB != "" && !('0' <= restB[0] <= '9')
    requires Number(a) + restA == Number(b) + restB
    ensures a == b && restA == restB
  {
    if a >= 0 { DecimalStartsWithDigit(a, restA); }
    if b >= 0 { DecimalStartsWithDigit(b, restB); }
    assert a < 0 ==> Number(a) + restA == "-" + (Decimal(-a) + restA);
    assert b < 0 ==> Number(b) + restB == "-" + (Decimal(-b) + restB);
    if a < 0 {
      Cancel("-", Decimal(-a) + restA, Decimal(-b) + restB);
      DecimalInjective(-a, -b, restA, restB);
    } else {
      DecimalInjective(a, b, restA, restB);
    }
  }

  function QuoteOrNull(s: Option<string>): string {
    match s
    case None => "null"
    case Some(v) => Quote(v)
  }

  lemma QuoteOrNullInjective(a: Option<string>, b: Option<string>, restA: string, restB: string)
    requires QuoteOrNull(a) + restA == QuoteOrNull(b) + restB
    ensures a == b && restA == restB
  {
    assert (QuoteOrNull(a) + restA)[0] == if a.None? then 'n' else '\"';
    assert (QuoteOrNull(b) + restB)[0] == if b.None? then 'n' else '\"';
    match a
    case None =>
      assert (QuoteOrNull(a) + restA)[4..] == restA && (QuoteOrNull(b) + restB)[4..] == restB;
    case Some(v) =>
      QuoteInjective(v, b.value, restA, restB);
  }

  /** The elements after the first one, each preceded by a comma, then the closing bracket. */
  function Tail(xs: seq<string>): string {
    if xs == [] then "]" else "," + Quote(xs[0]) + Tail(xs[1..])
  }

  function StringArray(xs: seq<string>): string {
    if xs == [] then "[]" else "[" + Quote(xs[0]) + Tail(xs[1..])
  }

  lemma TailUnfold(xs: seq<string>, rest: string)
    requires xs != []
    ensures Tail(xs) + rest == "," + (Quote(xs[0]) + (Tail(xs[1..]) + rest))
  {
  }

  lemma {:induction false} TailInjective(a: seq<string>, b: seq<string>, restA: string, restB: string)
    requires Tail(a) + restA == Tail(b) + restB
    ensures a == b && restA == restB
    decreases |a|, 1
  {
    assert (Tail(a) + restA)[0] == if a == [] then ']' else ',';
    assert (Tail(b) + restB)[0] == if b == [] then ']' else ',';
    if a == [] {
      Cancel("]", restA, restB);
    } else {
      TailUnfold(a, restA);
      TailUnfold(b, restB);
      ListInjective(a, b, restA, restB);
    }
  }

  /** The step TailInjective and StringArrayInjective share: a quoted element followed by a tail. */
  lemma {:induction false} ListInjective(a: seq<string>, b: seq<string>, restA: string, restB: string)
    requires a != [] && b != []
    requires "," + (Quote(a[0]) + (Tail(a[1..]) + restA)) == "," + (Quote(b[0]) + (Tail(b[1..]) + restB))
    ensures a == b && restA == restB
    decreases |a|, 0
  {
    Cancel(",", Quote(a[0]) + (Tail(a[1..]) + restA), Quote(b[0]) + (Tail(b[1..]) + restB));
    QuoteInjective(a[0], b[0], Tail(a[1..]) + restA, Tail(b[1..]) + restB);
    TailInjective(a[1..], b[1..], restA, restB);
    assert a == [a[0]] + a[1..] && b == [b[0]] + b[1..];
  }

  lemma StringArrayUnfold(xs: seq<string>, rest: string)
    requires xs != []
    ensures StringArray(xs) + rest == "[" + (Quote(xs[0]) + (Tail(xs[1..]) + rest))
  {
  }

  lemma StringArrayInjective(a: seq<string>, b: seq<string>, restA: string, restB: string)
    requires StringArray(a) + restA == StringArray(b) + restB
    ensures a == b && restA == restB
  {
    assert (StringArray(a) + restA)[1] == if a == [] then ']' else '\"';
    assert (StringArray(b) + restB)[1] == if b == [] then ']' else '\"';
    if a == [] {
      Cancel("[]", restA, restB);
    } else {
      StringArrayUnfold(a, restA);
      StringArrayUnfold(b, restB);
      Cancel("[", Quote(a[0]) + (Tail(a[1..]) + restA), Quote(b[0]) + (Tail(b[1..]) + restB));
      ListInjective(a, b, restA, restB);
    }
  }

  /** The object literal of one line, keys in the order the program writes them. */
  datatype LineKey = LineKey(product: Id, quantity: int, note: Option<string>, options: seq<Id>)

  const K1 := "{\"product_id\":"
  const K2 := ",\"quantity\":"
  const K3 := ",\"note\":"
  const K4 := ",\"modifier_option_ids\":"

  function AfterQuantity(k: LineKey): string {
    K3 + (QuoteOrNull(k.note) + (K4 + (StringArray(k.options) + "}")))
  }

  function LineObject(k: LineKey): string {
    K1 + (Quote(k.product) + (K2 + (Number(k.quantity) + AfterQuantity(k))))
  }

  /** Two lines have the same text exactly when they have the same key. */
  lemma LineObjectInjective(a: LineKey, b: LineKey)
    requires LineObject(a) == LineObject(b)
    ensures a == b
  {
    var qa, qb := Number(a.quantity) + AfterQuantity(a), Number(b.quantity) + AfterQuantity(b);
    var na, nb := K4 + (StringArray(a.options) + "}"), K4 + (StringArray(b.options) + "}");
    Cancel(K1, Quote(a.product) + (K2 + qa), Quote(b.product) + (K2 + qb));
    QuoteInjective(a.product, b.product, K2 + qa, K2 + qb);
    Cancel(K2, qa, qb);
    NumberInjective(a.quantity, b.quantity, AfterQuantity(a), AfterQuantity(b));
    Cancel(K3, QuoteOrNull(a.note) + na, QuoteOrNull(b.note) + nb);
    QuoteOrNullInjective(a.note, b.note, na, nb);
    Cancel(K4, StringArray(a.options) + "}", StringArray(b.options) + "}");
    StringArrayInjective(a.options, b.options, "}", "}");
  }
}
