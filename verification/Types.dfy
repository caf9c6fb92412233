/** Scalars shared by the serving modules. */
module Types {
  type Token = int
  type Salt = int

  /** A 64-bit chained block hash; the value 0 is reserved for "not registered". */
  type Hash = nat
  const HASH_NONE: Hash := 0

  ghost predicate NoDup<T>(s: seq<T>) {
    forall i, j :: 0 <= i < j < |s| ==> s[i] != s[j]
  }

  function Min(a: int, b: int): int { if a <= b then a else b }

  function Max(a: int, b: int): int { if a <= b then b else a }

  lemma MulMono(a: int, b: int, d: nat)
    requires a <= b
    ensures a * d <= b * d
  {
    assert 0 <= (b - a) * d;
  }

  /** The number of cells in n blocks: n * size, as a repeated sum so that the solver meets no products. */
  function Times(n: nat, size: nat): (p: nat) {
    if n == 0 then 0 else Times(n - 1, size) + size
  }

  lemma {:induction false} TimesIsMul(n: nat, size: nat)
    ensures Times(n, size) == n * size
  {
    if n > 0 {
      TimesIsMul(n - 1, size);
      assert n * size == (n - 1) * size + size;
    }
  }

  lemma {:induction false} TimesMono(a: nat, b: nat, size: nat)
    requires a <= b
    ensures Times(a, size) <= Times(b, size)
    decreases b
  {
    if a < b { TimesMono(a, b - 1, size); }
  }

  lemma TimesDivMod(q: nat, r: nat, size: nat)
    requires r < size
    ensures (Times(q, size) + r) / size == q && (Times(q, size) + r) % size == r
  {
    TimesIsMul(q, size);
    MulDivMod(q, r, size);
  }

  lemma DivTimes(n: nat, size: nat)
    requires size > 0
    ensures Times(n / size, size) <= n < Times(n / size, size) + size
  {
    TimesIsMul(n / size, size);
  }

  lemma MulSmall(x: int, d: int)
    requires 0 <= d && -d < x * d < d
    ensures x == 0
  {
    if x >= 1 { MulMono(1, x, d); }
    if x <= -1 { MulMono(x, -1, d); }
  }

  lemma MulDivMod(q: int, r: nat, d: nat)
    requires r < d
    ensures (q * d + r) / d == q && (q * d + r) % d == r
  {
    var n := q * d + r;
    var e, m := n / d, n % d;
    assert n == e * d + m;
    assert (q - e) * d == m - r;
    MulSmall(q - e, d);
  }

  /** Blocks needed for n cells: the ceiling of n / size. */
  function CeilDiv(n: nat, size: nat): (k: nat)
    requires size > 0
    ensures n <= Times(k, size) && (k == 0 || Times(k - 1, size) < n)
  {
    DivTimes(n + size - 1, size);
    (n + size - 1) / size
  }

  // ---- predicates that stay closed ----
  // Dafny opens a predicate wherever its name occurs. A predicate that most proofs only pass along is wrapped in an
  // arbitrary number of layers: it says the same, but it is opened only by the lemma made for that.

  /** Layers around a predicate; each layer says what the predicate under it says. */
  datatype Layers = Bare | Over(under: Layers)

  /** An arbitrary number of layers, for predicates that are to stay closed. */
  ghost function Depth(): (n: Layers) {
    assert Over(Over(Bare)).Over? && Over(Over(Bare)).under.Over?;
    var n: Layers :| n.Over? && n.under.Over?; n
  }
}
