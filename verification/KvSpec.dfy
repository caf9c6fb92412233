/** What a KV cell holds, how prefixes are named by chained hashes, and when a hash hit is trustworthy. */
module KvSpec {
  import opened Types

  /** The K/V entry of one token, recorded as the term of everything it was computed from: the entries of the
      positions before it and the token itself. Any concrete model is an interpretation of these terms. */
  datatype KV = Blank | KV(ctx: seq<KV>, tok: Token)

  /** The entries of a whole prefix, computed in isolation. */
  function Ctx(t: seq<Token>): (c: seq<KV>)
    ensures |c| == |t|
    decreases |t|
  {
    if t == [] then [] else
    var p := Ctx(t[..|t| - 1]);
    p + [KV(p, t[|t| - 1])]
  }

  lemma {:induction false} CtxPrefix(t: seq<Token>, k: nat)
    requires k <= |t|
    ensures Ctx(t)[..k] == Ctx(t[..k])
    decreases |t|
  {
    if k < |t| {
      var p := t[..|t| - 1];
      CtxPrefix(p, k);
      assert p[..k] == t[..k];
      assert Ctx(t)[..k] == Ctx(p)[..k];
    } else {
      assert t[..k] == t;
    }
  }

  lemma CtxAt(t: seq<Token>, i: nat)
    requires i < |t|
    ensures Ctx(t)[i] == KV(Ctx(t)[..i], t[i])
  {
    CtxPrefix(t, i + 1);
    CtxPrefix(t, i);
    assert t[..i + 1][..i] == t[..i];
    assert Ctx(t)[i] == Ctx(t)[..i + 1][i];
  }

  lemma CtxAgree(a: seq<Token>, b: seq<Token>, k: nat)
    requires k <= |a| && k <= |b| && a[..k] == b[..k]
    ensures Ctx(a)[..k] == Ctx(b)[..k]
    ensures forall i :: 0 <= i < k ==> Ctx(a)[i] == Ctx(b)[i]
  {
    CtxPrefix(a, k);
    CtxPrefix(b, k);
    forall i | 0 <= i < k ensures Ctx(a)[i] == Ctx(b)[i] {
      assert Ctx(a)[i] == Ctx(a)[..k][i];
    }
  }

  lemma {:induction false} CtxInjective(a: seq<Token>, b: seq<Token>)
    requires Ctx(a) == Ctx(b)
    ensures a == b
    decreases |a|
  {
    if a != [] {
      var n := |a| - 1;
      CtxAt(a, n);
      CtxAt(b, n);
      CtxPrefix(a, n);
      CtxPrefix(b, n);
      CtxInjective(a[..n], b[..n]);
      assert a == a[..n] + [a[n]] && b == b[..n] + [b[n]];
    }
  }

  // ---- chained hashes ----

  type Mix = (Hash, seq<Token>, Salt) -> Hash

  /** hash_block: the mixing rounds are a parameter; the result is never the reserved value. */
  function HashBlock(mix: Mix, parent: Hash, tokens: seq<Token>, extra: Salt): (h: Hash)
    ensures h != HASH_NONE
  {
    var h := mix(parent, tokens, extra);
    if h == HASH_NONE then 1 else h
  }

  /** A prefix of whole blocks, in the cache namespace of a salt. */
  datatype Chain = Chain(salt: Salt, toks: seq<Token>)

  ghost predicate Whole(bs: nat, c: Chain) {
    bs > 0 && |c.toks| > 0 && |c.toks| % bs == 0
  }

  function ChainHash(mix: Mix, bs: nat, c: Chain): (h: Hash)
    requires bs > 0
    ensures |c.toks| >= bs <==> h != HASH_NONE
    decreases |c.toks|
  {
    if |c.toks| < bs then HASH_NONE
    else
      var k := |c.toks| - bs;
      HashBlock(mix, ChainHash(mix, bs, c.(toks := c.toks[..k])), c.toks[k..], c.salt)
  }

  function LastBlock(bs: nat, c: Chain): (t: seq<Token>) {
    if |c.toks| < bs then [] else c.toks[|c.toks| - bs..]
  }

  /** The whole test of a cache hit: equal chained hash and equal tokens of the block itself. */
  ghost predicate Matches(mix: Mix, bs: nat, stored: Chain, wanted: Chain)
    requires bs > 0
  {
    ChainHash(mix, bs, stored) == ChainHash(mix, bs, wanted) && LastBlock(bs, stored) == LastBlock(bs, wanted)
  }

  /** No two of the given prefixes pass each other's test. */
  ghost predicate CollisionFree(mix: Mix, bs: nat, among: iset<Chain>)
    requires bs > 0
  {
    forall a: Chain, b: Chain :: a in among && b in among && Whole(bs, a) && Whole(bs, b) && Matches(mix, bs, a, b) ==> a == b
  }

  /** The mixing rounds tell parents, tokens and salts apart, and do not give the reserved value. */
  ghost predicate Injective(mix: Mix) {
    && (forall p, t, s, p', t', s' :: mix(p, t, s) == mix(p', t', s') ==> p == p' && t == t' && s == s')
    && (forall p, t, s :: mix(p, t, s) != HASH_NONE)
  }

  /** Then there are no collisions among any prefixes. */
  lemma InjectiveIsCollisionFree(mix: Mix, bs: nat, among: iset<Chain>)
    requires Injective(mix) && bs > 0
    ensures CollisionFree(mix, bs, among)
  {
    forall a: Chain, b: Chain | Whole(bs, a) && Whole(bs, b) && Matches(mix, bs, a, b) ensures a == b {
      InjectiveChains(mix, bs, a, b);
    }
  }

  lemma {:induction false} InjectiveChains(mix: Mix, bs: nat, a: Chain, b: Chain)
    requires Injective(mix) && Whole(bs, a) && Whole(bs, b)
    requires ChainHash(mix, bs, a) == ChainHash(mix, bs, b)
    ensures a == b
    decreases |a.toks|
  {
    WholeSplit(mix, bs, a);
    WholeSplit(mix, bs, b);
    var a', b' := Parent(bs, a), Parent(bs, b);
    if a'.toks != [] {
      InjectiveChains(mix, bs, a', b');
    }
  }

  function Parent(bs: nat, c: Chain): (p: Chain)
    requires bs <= |c.toks|
  {
    c.(toks := c.toks[..|c.toks| - bs])
  }

  lemma WholeSplit(mix: Mix, bs: nat, c: Chain)
    requires Whole(bs, c)
    ensures |c.toks| >= bs && c.toks == Parent(bs, c).toks + LastBlock(bs, c)
    ensures Parent(bs, c).toks == [] || Whole(bs, Parent(bs, c))
    ensures ChainHash(mix, bs, c) == HashBlock(mix, ChainHash(mix, bs, Parent(bs, c)), LastBlock(bs, c), c.salt)
    ensures ChainHash(mix, bs, Parent(bs, c)) == HASH_NONE <==> Parent(bs, c).toks == []
  {
    AtLeastOne(|c.toks|, bs);
    SubMod(|c.toks|, bs);
    assert c.toks == c.toks[..|c.toks| - bs] + c.toks[|c.toks| - bs..];
  }

  lemma AtLeastOne(n: nat, bs: nat)
    requires 0 < bs && 0 < n && n % bs == 0
    ensures bs <= n
  {
    if n < bs { MulDivMod(0, n, bs); }
  }

  lemma SubMod(n: nat, bs: nat)
    requires 0 < bs <= n && n % bs == 0
    ensures (n - bs) % bs == 0
  {
    var q := n / bs;
    assert n == q * bs;
    assert n - bs == (q - 1) * bs + 0;
    MulDivMod(q - 1, 0, bs);
  }
}
