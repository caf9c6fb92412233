/** Why the token check of a cache hit does not make up for collisions of the block hash, and that there always are some. */
module Collisions {
  import opened Types
  import opened KvSpec
  import opened SchedulerSpec

  // ---- what a collision leads to ----

  lemma NextBlock(mix: Mix, bs: nat, salt: Salt, t: seq<Token>, z: seq<Token>)
    requires bs > 0 && |z| == bs
    ensures ChainHash(mix, bs, Chain(salt, t + z)) == HashBlock(mix, ChainHash(mix, bs, Chain(salt, t)), z, salt)
    ensures LastBlock(bs, Chain(salt, t + z)) == z
  {
    assert (t + z)[..|t|] == t && (t + z)[|t|..] == z;
  }

  lemma FirstBlock(mix: Mix, bs: nat, salt: Salt, x: seq<Token>)
    requires bs > 0 && |x| == bs
    ensures ChainHash(mix, bs, Chain(salt, x)) == HashBlock(mix, HASH_NONE, x, salt)
  {
    assert [] + x == x;
    NextBlock(mix, bs, salt, [], x);
  }

  lemma EntryAt(t: seq<Token>, n: nat)
    requires n < |t|
    ensures Ctx(t)[n] == KV(Ctx(t[..n]), t[n])
  {
    CtxAt(t, n);
    CtxPrefix(t, n);
  }

  lemma EntriesDiffer(t: seq<Token>, t': seq<Token>, n: nat, n': nat)
    requires n < |t| && n' < |t'| && t[..n] != t'[..n']
    ensures Ctx(t)[n] != Ctx(t')[n']
  {
    EntryAt(t, n);
    EntryAt(t', n');
    if Ctx(t[..n]) == Ctx(t'[..n']) { CtxInjective(t[..n], t'[..n']); }
  }

  lemma PrefixesDiffer(a: seq<Token>, b: seq<Token>, z: seq<Token>, i: nat)
    requires a != b && i <= |z|
    ensures (a + z)[..|a| + i] != (b + z)[..|b| + i]
  {
    var p, p' := (a + z)[..|a| + i], (b + z)[..|b| + i];
    assert p[..|a|] == a && p'[..|b|] == b;
  }

  /** The KV entries of token i of block z differ after a and after b. */
  ghost predicate Wrong(a: seq<Token>, b: seq<Token>, z: seq<Token>, i: nat) {
    i < |z| && Ctx(a + z)[|a| + i] != Ctx(b + z)[|b| + i]
  }

  /** Comparing only the block's own tokens does not make up for a collision: whatever the hash and the block size, two
      prefixes with the same hash pass each other's test at every block that may follow, and all KV entries of that block
      differ. */
  lemma TokenCheckIsNotEnough(mix: Mix, bs: nat, salt: Salt, a: seq<Token>, b: seq<Token>, z: seq<Token>)
    requires bs > 0 && |z| == bs && a != b && ChainHash(mix, bs, Chain(salt, a)) == ChainHash(mix, bs, Chain(salt, b))
    ensures Matches(mix, bs, Chain(salt, a + z), Chain(salt, b + z))
    ensures forall i :: 0 <= i < bs ==> Wrong(a, b, z, i)
  {
    NextBlock(mix, bs, salt, a, z);
    NextBlock(mix, bs, salt, b, z);
    forall i | 0 <= i < bs ensures Wrong(a, b, z, i) {
      PrefixesDiffer(a, b, z, i);
      EntriesDiffer(a + z, b + z, |a| + i, |b| + i);
    }
  }

  // ---- there are more blocks than hashes ----

  function Pow(v: nat, n: nat): (p: nat) { if n == 0 then 1 else Pow(v, n - 1) * v }

  /** The k-th block of n tokens below v. */
  function BlockOf(v: nat, n: nat, k: nat): (b: seq<Token>)
    requires v > 0
    ensures |b| == n && forall i :: 0 <= i < n ==> 0 <= b[i] < v
  {
    if n == 0 then [] else BlockOf(v, n - 1, k / v) + [k % v]
  }

  lemma DivShrinks(k: nat, v: nat, p: nat)
    requires v > 0 && k < p * v
    ensures k / v < p
  {
    assert k == (k / v) * v + k % v;
    if k / v >= p { MulMono(p, k / v, v); }
  }

  lemma DivModDiffer(j: nat, k: nat, v: nat)
    requires v > 0 && j != k
    ensures j / v != k / v || j % v != k % v
  {
    assert j == (j / v) * v + j % v && k == (k / v) * v + k % v;
  }

  lemma AppendDiffers(b: seq<Token>, b': seq<Token>, x: Token, x': Token)
    requires |b| == |b'| && (b != b' || x != x')
    ensures b + [x] != b' + [x']
  {
    assert (b + [x])[..|b|] == b && (b' + [x'])[..|b|] == b';
    assert (b + [x])[|b|] == x && (b' + [x'])[|b|] == x';
  }

  lemma {:induction false} BlocksDiffer(v: nat, n: nat, j: nat, k: nat)
    requires v > 0 && j < Pow(v, n) && k < Pow(v, n) && j != k
    ensures BlockOf(v, n, j) != BlockOf(v, n, k)
    decreases n
  {
    DivModDiffer(j, k, v);
    if j / v != k / v {
      DivShrinks(j, v, Pow(v, n - 1));
      DivShrinks(k, v, Pow(v, n - 1));
      BlocksDiffer(v, n - 1, j / v, k / v);
    }
    AppendDiffers(BlockOf(v, n - 1, j / v), BlockOf(v, n - 1, k / v), j % v, k % v);
  }

  /** The hash of the k-th block as a first block. */
  function FirstHash(mix: Mix, bs: nat, salt: Salt, v: nat, k: nat): (h: Hash)
    requires v > 0
  {
    HashBlock(mix, HASH_NONE, BlockOf(v, bs, k), salt)
  }

  ghost function Hashes(mix: Mix, bs: nat, salt: Salt, v: nat, n: nat): (s: set<nat>)
    requires v > 0
  {
    if n == 0 then {} else Hashes(mix, bs, salt, v, n - 1) + {FirstHash(mix, bs, salt, v, n - 1)}
  }

  lemma {:induction false} HashOf(mix: Mix, bs: nat, salt: Salt, v: nat, n: nat, h: nat) returns (k: nat)
    requires v > 0 && h in Hashes(mix, bs, salt, v, n)
    ensures k < n && h == FirstHash(mix, bs, salt, v, k)
  {
    k := n - 1;
    if h != FirstHash(mix, bs, salt, v, n - 1) { k := HashOf(mix, bs, salt, v, n - 1, h); }
  }

  lemma {:induction false} AllDifferent(mix: Mix, bs: nat, salt: Salt, v: nat, n: nat)
    requires v > 0
    requires forall j, k :: 0 <= j < k < n ==> FirstHash(mix, bs, salt, v, j) != FirstHash(mix, bs, salt, v, k)
    ensures |Hashes(mix, bs, salt, v, n)| == n
  {
    if n > 0 {
      AllDifferent(mix, bs, salt, v, n - 1);
      var h := FirstHash(mix, bs, salt, v, n - 1);
      assert h !in Hashes(mix, bs, salt, v, n - 1) by {
        if h in Hashes(mix, bs, salt, v, n - 1) { var k := HashOf(mix, bs, salt, v, n - 1, h); }
      }
    }
  }

  /** The hash has fewer than m values. */
  ghost predicate Bounded(mix: Mix, m: nat) {
    forall p: Hash, t: seq<Token>, s: Salt :: mix(p, t, s) < m
  }

  lemma HashesInRange(mix: Mix, bs: nat, salt: Salt, v: nat, m: nat)
    requires Bounded(mix, m) && m >= 2 && v > 0
    ensures |Hashes(mix, bs, salt, v, m)| < m
  {
    var s := Hashes(mix, bs, salt, v, m);
    forall h | h in s ensures h in Below(m) - {0} { var k := HashOf(mix, bs, salt, v, m, h); }
    SubsetSize(s, Below(m) - {0});
  }

  /** Two different first blocks with the same hash exist whenever there are as many blocks as hash values. */
  lemma FirstBlocksCollide(mix: Mix, bs: nat, salt: Salt, v: nat, m: nat) returns (x: seq<Token>, y: seq<Token>)
    requires Bounded(mix, m) && 2 <= m <= Pow(v, bs) && v > 0
    ensures |x| == |y| == bs && x != y && (forall i :: 0 <= i < bs ==> 0 <= x[i] < v && 0 <= y[i] < v)
    ensures HashBlock(mix, HASH_NONE, x, salt) == HashBlock(mix, HASH_NONE, y, salt)
  {
    if forall j, k :: 0 <= j < k < m ==> FirstHash(mix, bs, salt, v, j) != FirstHash(mix, bs, salt, v, k) {
      AllDifferent(mix, bs, salt, v, m);
      HashesInRange(mix, bs, salt, v, m);
      assert false;
    }
    var j: nat, k: nat :| j < k < m && FirstHash(mix, bs, salt, v, j) == FirstHash(mix, bs, salt, v, k);
    BlocksDiffer(v, bs, j, k);
    x, y := BlockOf(v, bs, j), BlockOf(v, bs, k);
  }

  /** For every hash with fewer values than there are blocks over the vocabulary: two prefixes of two blocks each pass each
      other's test, and the KV entries of their second blocks differ throughout. */
  lemma SomeHitIsWrong(mix: Mix, bs: nat, salt: Salt, v: nat, m: nat, z: seq<Token>) returns (x: seq<Token>, y: seq<Token>)
    requires Bounded(mix, m) && 2 <= m <= Pow(v, bs) && v > 0 && bs > 0 && |z| == bs
    ensures |x| == |y| == bs && (forall i :: 0 <= i < bs ==> 0 <= x[i] < v && 0 <= y[i] < v)
    ensures Matches(mix, bs, Chain(salt, x + z), Chain(salt, y + z))
    ensures forall i :: 0 <= i < bs ==> Wrong(x, y, z, i)
  {
    x, y := FirstBlocksCollide(mix, bs, salt, v, m);
    FirstBlock(mix, bs, salt, x);
    FirstBlock(mix, bs, salt, y);
    TokenCheckIsNotEnough(mix, bs, salt, x, y, z);
  }

  // ---- 64-bit hashes and the default block size ----

  const TWO_64 := 0x1_0000_0000_0000_0000

  lemma {:induction false} PowMono(v: nat, v': nat, n: nat)
    requires v <= v'
    ensures Pow(v, n) <= Pow(v', n)
  {
    if n > 0 {
      PowMono(v, v', n - 1);
      MulMono(Pow(v, n - 1), Pow(v', n - 1), v);
      assert Pow(v', n - 1) * v <= Pow(v', n - 1) * v';
    }
  }

  lemma {:induction false} PowGrows(v: nat, n: nat, n': nat)
    requires v > 0 && n <= n'
    ensures Pow(v, n) <= Pow(v, n')
    decreases n'
  {
    if n < n' {
      PowGrows(v, n, n' - 1);
      assert Pow(v, n' - 1) <= Pow(v, n' - 1) * v;
    }
  }

  lemma SixteenSixteens()
    ensures Pow(16, 16) == TWO_64
  {
    assert Pow(16, 2) == 256;
    assert Pow(16, 4) == 0x1_0000;
    assert Pow(16, 6) == 0x100_0000;
    assert Pow(16, 8) == 0x1_0000_0000;
    assert Pow(16, 10) == 0x100_0000_0000;
    assert Pow(16, 12) == 0x1_0000_0000_0000;
    assert Pow(16, 14) == 0x100_0000_0000_0000;
  }

  /** Every 64-bit hash gives wrong hits from the default block size of 16 on, as soon as there are 16 tokens. */
  lemma DefaultBlocksCollide(mix: Mix, bs: nat, salt: Salt, v: nat, z: seq<Token>) returns (x: seq<Token>, y: seq<Token>)
    requires Bounded(mix, TWO_64) && bs >= 16 && v >= 16 && |z| == bs
    ensures |x| == |y| == bs && (forall i :: 0 <= i < bs ==> 0 <= x[i] < v && 0 <= y[i] < v)
    ensures Matches(mix, bs, Chain(salt, x + z), Chain(salt, y + z))
    ensures forall i :: 0 <= i < bs ==> Wrong(x, y, z, i)
  {
    SixteenSixteens();
    PowMono(16, v, 16);
    PowGrows(v, 16, bs);
    x, y := SomeHitIsWrong(mix, bs, salt, v, TWO_64, z);
  }
}
