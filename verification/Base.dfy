/** Shared vocabulary: optional values, results, and the few sequence facts every other module uses. */
module Base {

  /** Identifiers are lower-case UUID text; the model only ever compares them. */
  type Id = string

  datatype Option<+T> = None | Some(value: T)

  datatype Result<+T, +E> = Ok(value: T) | Err(error: E)

  /** Number.MAX_SAFE_INTEGER. */
  const MAX_SAFE: int := 0x1F_FFFF_FFFF_FFFF

  /** The largest PostgreSQL int4. */
  const INT4_MAX: int := 0x7FFF_FFFF

  /** A JavaScript number that holds an integer exactly. A value outside the range could be rounded. */
  type SafeInteger = x: int | -MAX_SAFE <= x <= MAX_SAFE

  function Map<A, B>(f: A -> B, xs: seq<A>): (ys: seq<B>)
    ensures |ys| == |xs|
    ensures forall i :: 0 <= i < |xs| ==> ys[i] == f(xs[i])
  {
    seq(|xs|, i requires 0 <= i < |xs| => f(xs[i]))
  }

  function Without<A>(xs: seq<A>, j: nat): seq<A>
    requires j < |xs|
  {
    xs[..j] + xs[j + 1..]
  }

  lemma WithoutMultiset<A>(xs: seq<A>, j: nat)
    requires j < |xs|
    ensures multiset(xs) == multiset(Without(xs, j)) + multiset{xs[j]}
    ensures multiset(Without(xs, j)) == multiset(xs) - multiset{xs[j]}
  {
    assert xs == xs[..j] + [xs[j]] + xs[j + 1..];
  }

  lemma HeadMultiset<A>(xs: seq<A>)
    requires |xs| > 0
    ensures multiset(xs) == multiset{xs[0]} + multiset(xs[1..])
    ensures multiset(xs[1..]) == multiset(xs) - multiset{xs[0]}
  {
    assert xs == [xs[0]] + xs[1..];
  }

  /** Removing one matching pair of elements keeps "same images, as multisets". */
  lemma MatchedPair<A, B>(f: A -> B, xs: seq<A>, ys: seq<A>, j: nat)
    requires |xs| > 0 && j < |ys| && f(xs[0]) == f(ys[j])
    ensures multiset(Map(f, xs)) == multiset(Map(f, ys))
       <==> multiset(Map(f, xs[1..])) == multiset(Map(f, Without(ys, j)))
  {
    assert Map(f, xs[1..]) == Map(f, xs)[1..];
    assert Map(f, Without(ys, j)) == Without(Map(f, ys), j);
    HeadMultiset(Map(f, xs));
    WithoutMultiset(Map(f, ys), j);
  }

  /** If f determines g, then sequences with the same f-images (as multisets) have the same g-images. */
  lemma {:induction false} ImageTransfer<A(!new), B, C>(f: A -> B, g: A -> C, xs: seq<A>, ys: seq<A>)
    requires forall a, b :: f(a) == f(b) ==> g(a) == g(b)
    requires multiset(Map(f, xs)) == multiset(Map(f, ys))
    ensures multiset(Map(g, xs)) == multiset(Map(g, ys))
  {
    if xs == [] {
      assert |multiset(Map(f, ys))| == |ys|;
    } else {
      assert Map(f, xs)[0] in multiset(Map(f, ys));
      var j :| 0 <= j < |ys| && Map(f, ys)[j] == Map(f, xs)[0];
      assert f(xs[0]) == f(ys[j]);
      MatchedPair(f, xs, ys, j);
      MatchedPair(g, xs, ys, j);
      ImageTransfer(f, g, xs[1..], Without(ys, j));
    }
  }

  // ---------- arithmetic ----------

  lemma Scaled(a: int, b: int, m: nat)
    requires a <= b
    ensures a * m <= b * m
  {
    assert (b - a) * m >= 0;
  }

  /** The quotient is the one integer whose multiple is at most a divisor below. */
  lemma Quotient(x: int, d: nat, q: int)
    requires d >= 1 && q * d <= x < q * d + d
    ensures x / d == q
  {
    var other := x / d;
    assert other * d <= x < other * d + d;
    if other < q {
      Scaled(other + 1, q, d);
    } else if other > q {
      Scaled(q + 1, other, d);
    }
  }
}
