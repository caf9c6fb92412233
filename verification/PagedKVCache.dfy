/** The paged cache: block tables, slot allocation, prefix lookup and registration. */
module PagedKV {
  import opened Types
  import opened PoolSpec
  import opened KvSpec
  import opened BlockPools

  /** Per-request KV state: the block table and how many leading blocks are registered. */
  datatype KvState = KvState(blockIds: seq<nat>, numCached: nat)

  const NO_BLOCKS := KvState([], 0)

  /** Cell o of block b. */
  function Slot(bs: nat, b: nat, o: nat): (c: nat) {
    Times(b, bs) + o
  }

  /** i / bs and i % bs, by repeated subtraction: the solver then meets no division among the products. */
  function BlockNo(bs: nat, i: nat): (q: nat)
    requires bs > 0
  {
    if i < bs then 0 else 1 + BlockNo(bs, i - bs)
  }

  function Offset(bs: nat, i: nat): (o: nat)
    requires bs > 0
    ensures o < bs
  {
    if i < bs then i else Offset(bs, i - bs)
  }

  lemma {:induction false} BlockSplit(bs: nat, i: nat)
    requires bs > 0
    ensures i == Times(BlockNo(bs, i), bs) + Offset(bs, i)
  {
    if i >= bs { BlockSplit(bs, i - bs); }
  }

  lemma BlockNoIsDiv(bs: nat, i: nat)
    requires bs > 0
    ensures BlockNo(bs, i) == i / bs && Offset(bs, i) == i % bs
  {
    BlockSplit(bs, i);
    TimesDivMod(BlockNo(bs, i), Offset(bs, i), bs);
  }

  lemma {:induction false} BlockNoOf(bs: nat, b: nat, o: nat)
    requires o < bs
    ensures BlockNo(bs, Times(b, bs) + o) == b && Offset(bs, Times(b, bs) + o) == o
  {
    if b > 0 { BlockNoOf(bs, b - 1, o); }
  }

  /** Token i of a request lives in this cell. */
  function CellOf(bs: nat, table: seq<nat>, i: nat): (c: nat)
    requires bs > 0 && BlockNo(bs, i) < |table|
  {
    Slot(bs, table[BlockNo(bs, i)], Offset(bs, i))
  }

  lemma SlotInjective(bs: nat, b: nat, o: nat, b': nat, o': nat)
    requires o < bs && o' < bs && Slot(bs, b, o) == Slot(bs, b', o')
    ensures b == b' && o == o'
  {
    BlockNoOf(bs, b, o);
    BlockNoOf(bs, b', o');
  }

  lemma SlotBound(bs: nat, b: nat, o: nat, n: nat)
    requires o < bs && b < n
    ensures Slot(bs, b, o) < Times(n, bs)
  {
    TimesMono(b + 1, n, bs);
  }

  lemma BlockIndex(bs: nat, i: nat, n: nat)
    requires bs > 0 && i < Times(n, bs)
    ensures BlockNo(bs, i) < n && i == Times(BlockNo(bs, i), bs) + Offset(bs, i)
  {
    BlockSplit(bs, i);
    if BlockNo(bs, i) >= n { TimesMono(n, BlockNo(bs, i), bs); }
  }

  ghost predicate InRange(bs: seq<nat>, n: nat) {
    forall i :: 0 <= i < |bs| ==> bs[i] < n
  }

  // ---- allocate_slots as a function ----

  function Touched(st: KvState, computed: seq<nat>): (t: seq<nat>) {
    if st.blockIds == [] then computed else []
  }

  function NewCount(bs: nat, st: KvState, nTotal: nat, computed: seq<nat>): (n: nat)
    requires bs > 0
  {
    var need, have := CeilDiv(nTotal, bs), |st.blockIds| + |Touched(st, computed)|;
    if need > have then need - have else 0
  }

  function Fits(v: View, bs: nat, st: KvState, nTotal: nat, computed: seq<nat>): (ok: bool)
    requires bs > 0 && InRange(computed, |v.ref|)
  {
    NewCount(bs, st, nTotal, computed) + FreeCount(v.ref, Touched(st, computed)) <= |v.free|
  }

  /** n is the number of new blocks, closed. */
  ghost predicate Sized(bs: nat, st: KvState, nTotal: nat, computed: seq<nat>, n: nat) {
    WrapSized(bs, st, nTotal, computed, n, Depth())
  }

  ghost predicate WrapSized(bs: nat, st: KvState, nTotal: nat, computed: seq<nat>, n: nat, l: Layers)
    decreases l
  {
    match l
    case Bare => bs > 0 && n == NewCount(bs, st, nTotal, computed)
    case Over(m) => WrapSized(bs, st, nTotal, computed, n, m)
  }

  lemma {:induction false} OpenSized(bs: nat, st: KvState, nTotal: nat, computed: seq<nat>, n: nat, l: Layers)
    ensures WrapSized(bs, st, nTotal, computed, n, l) <==> bs > 0 && n == NewCount(bs, st, nTotal, computed)
  {
    if l.Over? { OpenSized(bs, st, nTotal, computed, n, l.under); }
  }

  datatype Alloc = Alloc(pool: View, st: KvState, popped: seq<nat>)

  ghost function Allocate(v: View, bs: nat, st: KvState, nTotal: nat, computed: seq<nat>): (a: Alloc)
    requires bs > 0 && InRange(computed, |v.ref|) && PoolOk(v) && Fits(v, bs, st, nTotal, computed)
  {
    TouchAllFacts(v, Touched(st, computed));
    var t, n := TouchAll(v, Touched(st, computed)), NewCount(bs, st, nTotal, computed);
    Alloc(Take(t, n),
          KvState(st.blockIds + Touched(st, computed) + t.free[..n],
                  if Touched(st, computed) != [] then |computed| else st.numCached),
          t.free[..n])
  }

  /** What allocation means for the pool: one more reference per listed block, hits keep their registration, and
      the popped blocks were unreferenced and come back unregistered. */
  ghost predicate Grown(v: View, v': View, hits: seq<nat>, popped: seq<nat>) {
    && |v.ref| == |v.hash| == |v.toks| && PoolOk(v') && |v'.ref| == |v.ref| && v'.toks == v.toks
    && NoDup(popped) && InRange(popped, |v.ref|) && InRange(hits, |v.ref|)
    && popped + v'.free == TouchAll(v, hits).free
    && (forall b :: 0 <= b < |v.ref| ==> v'.ref[b] == v.ref[b] + multiset(hits + popped)[b])
    && (forall b :: b in popped ==>
         b < |v.ref| && v.ref[b] == 0 && v'.ref[b] == 1 && v'.hash[b] == HASH_NONE && b !in hits)
    && (forall b :: 0 <= b < |v.ref| && b !in popped ==> v'.hash[b] == v.hash[b])
  }

  lemma TakeGrows(v: View, hits: seq<nat>, n: nat)
    requires PoolOk(v) && InRange(hits, |v.ref|) && n <= |TouchAll(v, hits).free|
    ensures Grown(v, Take(TouchAll(v, hits), n), hits, TouchAll(v, hits).free[..n])
  {
    var tv, popped: seq<nat> := TouchAll(v, hits), TouchAll(v, hits).free[..n];
    TouchAllFacts(v, hits);
    TakeOk(tv, n);
    assert popped + tv.free[n..] == tv.free;
    TakeRefs(v, hits, n);
    PoppedAllFresh(v, hits, n);
    forall b | 0 <= b < |v.ref| && b !in popped ensures Take(tv, n).hash[b] == v.hash[b] { assert tv.hash[b] == v.hash[b]; }
  }

  lemma PoppedAllFresh(v: View, hits: seq<nat>, n: nat)
    requires PoolOk(v) && InRange(hits, |v.ref|) && n <= |TouchAll(v, hits).free|
    ensures var tv := TouchAll(v, hits);
      && (forall b :: b in tv.free[..n] ==> b < |v.ref| && v.ref[b] == 0 && b !in hits && Take(tv, n).ref[b] == 1)
      && InRange(tv.free[..n], |v.ref|)
  {
    var tv, popped: seq<nat> := TouchAll(v, hits), TouchAll(v, hits).free[..n];
    forall b | b in popped ensures b < |v.ref| && v.ref[b] == 0 && b !in hits && Take(tv, n).ref[b] == 1 {
      PoppedFresh(v, hits, n, b);
    }
    forall i | 0 <= i < |popped| ensures popped[i] < |v.ref| { assert popped[i] in popped; }
  }

  lemma TakeRefs(v: View, hits: seq<nat>, n: nat)
    requires PoolOk(v) && InRange(hits, |v.ref|) && n <= |TouchAll(v, hits).free|
    ensures var tv := TouchAll(v, hits);
      && |tv.ref| == |Take(tv, n).ref| == |v.ref|
      && forall b :: 0 <= b < |v.ref| ==> Take(tv, n).ref[b] == v.ref[b] + multiset(hits + tv.free[..n])[b]
  {
    var tv := TouchAll(v, hits);
    TouchAllFacts(v, hits);
    TakeOk(tv, n);
    forall b | 0 <= b < |v.ref| ensures Take(tv, n).ref[b] == v.ref[b] + multiset(hits + tv.free[..n])[b] { TakeRef(v, hits, n, b); }
  }

  lemma CountBoth(a: seq<nat>, b: seq<nat>)
    ensures forall x: nat :: multiset(a + b)[x] == multiset(a)[x] + multiset(b)[x]
  {
  }

  lemma TakeRef(v: View, hits: seq<nat>, n: nat, b: nat)
    requires PoolOk(v) && InRange(hits, |v.ref|) && n <= |TouchAll(v, hits).free| && b < |v.ref|
    ensures var tv := TouchAll(v, hits); Take(tv, n).ref[b] == v.ref[b] + multiset(hits + tv.free[..n])[b]
  {
    var tv := TouchAll(v, hits);
    TouchAllFacts(v, hits);
    TakeOk(tv, n);
    CountBoth(hits, tv.free[..n]);
  }

  lemma PoppedFresh(v: View, hits: seq<nat>, n: nat, b: nat)
    requires PoolOk(v) && InRange(hits, |v.ref|) && n <= |TouchAll(v, hits).free| && b in TouchAll(v, hits).free[..n]
    ensures b < |v.ref| && v.ref[b] == 0 && b !in hits && Take(TouchAll(v, hits), n).ref[b] == 1
  {
    TouchAllFacts(v, hits);
    assert b in TouchAll(v, hits).free;
    assert TouchAll(v, hits).ref[b] == v.ref[b] + multiset(hits)[b];
  }

  lemma AllocateFacts(v: View, bs: nat, st: KvState, nTotal: nat, computed: seq<nat>)
    requires bs > 0 && InRange(computed, |v.ref|) && PoolOk(v) && Fits(v, bs, st, nTotal, computed)
    ensures var a, hits := Allocate(v, bs, st, nTotal, computed), Touched(st, computed);
      && Grown(v, a.pool, hits, a.popped)
      && a.st.blockIds == st.blockIds + hits + a.popped && nTotal <= Times(|a.st.blockIds|, bs)
      && a.st.numCached == (if hits != [] then |hits| else st.numCached) && |a.popped| == NewCount(bs, st, nTotal, computed)
  {
    TouchAllFacts(v, Touched(st, computed));
    TakeGrows(v, Touched(st, computed), NewCount(bs, st, nTotal, computed));
    var a := Allocate(v, bs, st, nTotal, computed);
    assert |a.popped| == NewCount(bs, st, nTotal, computed);
    TimesMono(CeilDiv(nTotal, bs), |a.st.blockIds|, bs);
  }

  /** What giving a table back means for the pool: counts drop, registrations stay. */
  ghost predicate Shrunk(v: View, v': View, table: seq<nat>) {
    && |v.ref| == |v.hash| == |v.toks| && PoolOk(v') && |v'.ref| == |v.ref| && v'.toks == v.toks && v'.hash == v.hash
    && (forall b :: 0 <= b < |v.ref| ==> v'.ref[b] + multiset(table)[b] == v.ref[b])
  }

  lemma FreeFacts(v: View, caching: bool, table: seq<nat>)
    requires PoolOk(v) && CanRelease(v.ref, table)
    ensures CanRelease(v.ref, Reverse(table)) && Shrunk(v, PoolSpec.Free(v, caching, Reverse(table)), table)
  {
    ReverseFacts(table);
    FreeOk(v, caching, Reverse(table));
  }

  // ---- hashes, registration ----

  function BlockToks(bs: nat, toks: seq<Token>, i: nat): (t: seq<Token>)
    requires Times(i + 1, bs) <= |toks|
  {
    TimesMono(i, i + 1, bs);
    toks[Times(i, bs)..Times(i + 1, bs)]
  }

  /** The prefix that block i of a token sequence completes. */
  function ChainOf(bs: nat, salt: Salt, toks: seq<Token>, i: nat): (c: Chain)
    requires Times(i + 1, bs) <= |toks|
  {
    Chain(salt, toks[..Times(i + 1, bs)])
  }

  ghost predicate HashesOk(mix: Mix, bs: nat, salt: Salt, toks: seq<Token>, hashes: seq<Hash>)
    requires bs > 0
  {
    && Times(|hashes|, bs) <= |toks|
    && forall i :: 0 <= i < |hashes| ==> HashIs(mix, bs, salt, toks, hashes[i], i)
  }

  /** h is the chained hash of block i of the tokens. */
  ghost predicate HashIs(mix: Mix, bs: nat, salt: Salt, toks: seq<Token>, h: Hash, i: nat)
    requires bs > 0
  {
    InBlocks(bs, toks, i) && h == ChainHash(mix, bs, ChainOf(bs, salt, toks, i))
  }

  /** Block i is full. */
  predicate InBlocks(bs: nat, toks: seq<Token>, i: nat) {
    Times(i + 1, bs) <= |toks|
  }

  lemma BlockFits(bs: nat, toks: seq<Token>, n: nat, i: nat)
    requires Times(n, bs) <= |toks| && i < n
    ensures InBlocks(bs, toks, i)
  {
    TimesMono(i + 1, n, bs);
  }

  lemma ChainOfFacts(mix: Mix, bs: nat, salt: Salt, toks: seq<Token>, i: nat)
    requires bs > 0 && Times(i + 1, bs) <= |toks|
    ensures Whole(bs, ChainOf(bs, salt, toks, i))
    ensures LastBlock(bs, ChainOf(bs, salt, toks, i)) == BlockToks(bs, toks, i)
    ensures Times(i, bs) <= |toks| && Parent(bs, ChainOf(bs, salt, toks, i)).toks == toks[..Times(i, bs)]
    ensures ChainHash(mix, bs, ChainOf(bs, salt, toks, i))
         == HashBlock(mix, ChainHash(mix, bs, Chain(salt, toks[..Times(i, bs)])), BlockToks(bs, toks, i), salt)
  {
    TimesDivMod(i + 1, 0, bs);
    TimesMono(1, i + 1, bs);
    var c := ChainOf(bs, salt, toks, i);
    assert c.toks[..Times(i, bs)] == toks[..Times(i, bs)];
    assert Parent(bs, c) == Chain(salt, toks[..Times(i, bs)]);
    WholeSplit(mix, bs, c);
  }

  /** More tokens leave the hashes of the blocks already hashed as they are. */
  lemma HashesGrow(mix: Mix, bs: nat, salt: Salt, toks: seq<Token>, toks': seq<Token>, hashes: seq<Hash>)
    requires bs > 0 && toks <= toks' && HashesOk(mix, bs, salt, toks, hashes)
    ensures HashesOk(mix, bs, salt, toks', hashes)
  {
    forall i | 0 <= i < |hashes| ensures HashIs(mix, bs, salt, toks', hashes[i], i) {
      HashAt(mix, bs, salt, toks, hashes, i);
      assert toks'[..Times(i + 1, bs)] == toks[..Times(i + 1, bs)];
    }
  }

  lemma HashesBound(mix: Mix, bs: nat, salt: Salt, toks: seq<Token>, hashes: seq<Hash>)
    requires bs > 0 && HashesOk(mix, bs, salt, toks, hashes)
    ensures |hashes| <= |toks| / bs && Times(|toks| / bs, bs) <= |toks|
  {
    DivTimes(|toks|, bs);
    if |hashes| > |toks| / bs { TimesMono(|toks| / bs + 1, |hashes|, bs); }
  }

  lemma HashAt(mix: Mix, bs: nat, salt: Salt, toks: seq<Token>, hashes: seq<Hash>, i: nat)
    requires bs > 0 && HashesOk(mix, bs, salt, toks, hashes) && i < |hashes|
    ensures InBlocks(bs, toks, i) && hashes[i] != HASH_NONE
    ensures hashes[i] == ChainHash(mix, bs, ChainOf(bs, salt, toks, i))
  {
    assert HashIs(mix, bs, salt, toks, hashes[i], i);
    ChainOfFacts(mix, bs, salt, toks, i);
  }

  lemma HashesExtend(mix: Mix, bs: nat, salt: Salt, toks: seq<Token>, hashes: seq<Hash>)
    requires bs > 0 && HashesOk(mix, bs, salt, toks, hashes) && |hashes| < |toks| / bs
    ensures Times(|hashes| + 1, bs) <= |toks|
    ensures var parent := if hashes == [] then HASH_NONE else hashes[|hashes| - 1];
      HashesOk(mix, bs, salt, toks, hashes + [HashBlock(mix, parent, BlockToks(bs, toks, |hashes|), salt)])
  {
    var i := |hashes|;
    HashesBound(mix, bs, salt, toks, hashes);
    TimesMono(i + 1, |toks| / bs, bs);
    ChainOfFacts(mix, bs, salt, toks, i);
    if i > 0 { HashAt(mix, bs, salt, toks, hashes, i - 1); }
    HashesSnoc(mix, bs, salt, toks, hashes,
               HashBlock(mix, if i == 0 then HASH_NONE else hashes[i - 1], BlockToks(bs, toks, i), salt));
  }

  lemma HashesSnoc(mix: Mix, bs: nat, salt: Salt, toks: seq<Token>, hashes: seq<Hash>, h: Hash)
    requires bs > 0 && HashesOk(mix, bs, salt, toks, hashes) && Times(|hashes| + 1, bs) <= |toks|
    requires h == ChainHash(mix, bs, ChainOf(bs, salt, toks, |hashes|))
    ensures HashesOk(mix, bs, salt, toks, hashes + [h])
  {
    var hs := hashes + [h];
    forall j | 0 <= j < |hs| ensures HashIs(mix, bs, salt, toks, hs[j], j) {
      if j < |hashes| { assert HashIs(mix, bs, salt, toks, hashes[j], j); }
    }
  }

  /** Every found block is registered under the wanted hash and stores exactly the wanted block's tokens. */
  ghost predicate HitsOk(v: View, bs: nat, toks: seq<Token>, hashes: seq<Hash>, found: seq<nat>) {
    && |v.ref| == |v.hash| == |v.toks| && |found| <= |hashes| && InRange(found, |v.ref|)
    && forall i :: 0 <= i < |found| ==> HitIs(v, bs, toks, hashes[i], found[i], i)
  }

  ghost predicate HitIs(v: View, bs: nat, toks: seq<Token>, h: Hash, b: nat, i: nat)
    requires b < |v.hash| == |v.toks|
  {
    InBlocks(bs, toks, i) && v.hash[b] == h && v.toks[b] == BlockToks(bs, toks, i)
  }

  ghost predicate NoHit(v: View, h: Hash, toks: seq<Token>)
    requires |v.ref| == |v.hash| == |v.toks|
  {
    forall b :: 0 <= b < |v.ref| && v.hash[b] == h ==> v.toks[b] != toks
  }

  /** From block i on: the first block that the cache does not hold under its chained hash, or the last one to look at. */
  ghost function CachedRun(mix: Mix, bs: nat, v: View, salt: Salt, toks: seq<Token>, i: nat, nMax: nat): (n: nat)
    requires bs > 0 && |v.ref| == |v.hash| == |v.toks|
    decreases if i < nMax then nMax - i else 0
  {
    if i < nMax && InBlocks(bs, toks, i) && !NoHit(v, ChainHash(mix, bs, ChainOf(bs, salt, toks, i)), BlockToks(bs, toks, i))
    then CachedRun(mix, bs, v, salt, toks, i + 1, nMax) else i
  }

  /** The tokens of a prompt that need not be computed: whole leading blocks in the cache, short of the last token. */
  ghost function CachedTokens(caching: bool, mix: Mix, bs: nat, v: View, salt: Salt, toks: seq<Token>): (n: nat)
    requires bs > 0 && |v.ref| == |v.hash| == |v.toks|
  {
    if !caching || |toks| < 2 then 0 else Times(CachedRun(mix, bs, v, salt, toks, 0, (|toks| - 1) / bs), bs)
  }

  lemma DivBelow(a: nat, b: nat, bs: nat)
    requires a <= b && bs > 0
    ensures a / bs <= b / bs
  {
    DivTimes(a, bs);
    DivTimes(b, bs);
    if b / bs < a / bs { TimesMono(b / bs + 1, a / bs, bs); }
  }

  lemma LongestRun(mix: Mix, bs: nat, v: View, salt: Salt, toks: seq<Token>, hashes: seq<Hash>, found: seq<nat>)
    requires bs > 0 && |toks| >= 2 && HashesOk(mix, bs, salt, toks, hashes) && HitsOk(v, bs, toks, hashes, found)
    requires |hashes| == |toks| / bs && |found| <= (|toks| - 1) / bs
    requires |found| < |hashes| && |found| < (|toks| - 1) / bs ==>
      InBlocks(bs, toks, |found|) && NoHit(v, hashes[|found|], BlockToks(bs, toks, |found|))
    ensures Times(|found|, bs) == CachedTokens(true, mix, bs, v, salt, toks)
  {
    DivBelow(|toks| - 1, |toks|, bs);
    RunIs(mix, bs, v, salt, toks, hashes, found, 0, (|toks| - 1) / bs);
  }

  /** A run of hits that stops at a miss or at the last block to look at is the longest one. */
  lemma {:induction false} RunIs(mix: Mix, bs: nat, v: View, salt: Salt, toks: seq<Token>, hashes: seq<Hash>, found: seq<nat>, i: nat, nMax: nat)
    requires bs > 0 && HashesOk(mix, bs, salt, toks, hashes) && HitsOk(v, bs, toks, hashes, found) && i <= |found| <= nMax
    requires |found| < nMax ==> |found| < |hashes| && InBlocks(bs, toks, |found|) &&
                                NoHit(v, hashes[|found|], BlockToks(bs, toks, |found|))
    ensures CachedRun(mix, bs, v, salt, toks, i, nMax) == |found|
    decreases |found| - i
  {
    if i < |found| {
      assert HitIs(v, bs, toks, hashes[i], found[i], i);
      HashAt(mix, bs, salt, toks, hashes, i);
      RunIs(mix, bs, v, salt, toks, hashes, found, i + 1, nMax);
    } else if i < nMax {
      HashAt(mix, bs, salt, toks, hashes, i);
    }
  }

  lemma HitLength(bs: nat, nTokens: nat, k: nat)
    requires bs > 0 && nTokens >= 1 && k <= (nTokens - 1) / bs
    ensures Times(k, bs) < nTokens
  {
    DivTimes(nTokens - 1, bs);
    TimesMono(k, (nTokens - 1) / bs, bs);
  }

  /** The pool together with the prefix each block was last registered under. */
  datatype Registry = Registry(pool: View, chains: seq<Chain>)

  function Register(g: Registry, caching: bool, b: nat, h: Hash, toks: seq<Token>, c: Chain): (r: Registry)
    requires b < |g.pool.ref| == |g.pool.hash| == |g.pool.toks| == |g.chains|
  {
    Registry(Cache(g.pool, caching, b, h, toks),
             if caching && g.pool.hash[b] == HASH_NONE then g.chains[b := c] else g.chains)
  }

  ghost predicate Registrable(g: Registry, bs: nat, table: seq<nat>, hashes: seq<Hash>, toks: seq<Token>, hi: nat) {
    && |g.pool.ref| == |g.pool.hash| == |g.pool.toks| == |g.chains|
    && InRange(table, |g.pool.ref|) && hi <= |table| && hi <= |hashes| && Times(hi, bs) <= |toks|
  }

  /** Registers blocks lo..hi of a table under their own prefixes. */
  function RegisterRange(g: Registry, caching: bool, bs: nat, salt: Salt, table: seq<nat>, hashes: seq<Hash>,
                         toks: seq<Token>, lo: nat, hi: nat): (r: Registry)
    requires Registrable(g, bs, table, hashes, toks, hi)
    ensures |r.pool.ref| == |r.pool.hash| == |r.pool.toks| == |r.chains| == |g.pool.ref|
    ensures r.pool.ref == g.pool.ref && r.pool.free == g.pool.free
    decreases hi
  {
    if hi <= lo then g
    else
      BlockFits(bs, toks, hi, hi - 1);
      TimesMono(hi - 1, hi, bs);
      Register(RegisterRange(g, caching, bs, salt, table, hashes, toks, lo, hi - 1), caching, table[hi - 1],
               hashes[hi - 1], BlockToks(bs, toks, hi - 1), ChainOf(bs, salt, toks, hi - 1))
  }

  // ---- which blocks get registered ----

  /** Block i of the table holds nothing but the first n tokens, all of its cells, and has a hash. */
  predicate FullBlock(bs: nat, st: KvState, hashes: seq<Hash>, n: nat, i: nat) {
    i < |st.blockIds| && i < |hashes| && Times(i + 1, bs) <= n
  }

  /** From g to g' block b of the table's i-th place has become registered under its own prefix, if it was not before. */
  ghost predicate FiledAt(g: Registry, g': Registry, bs: nat, salt: Salt, b: nat, h: Hash, toks: seq<Token>, i: nat)
    requires b < |g.pool.hash| == |g.pool.toks| == |g.chains| && b < |g'.pool.hash| == |g'.pool.toks| == |g'.chains|
  {
    if g.pool.hash[b] != HASH_NONE then SameAt(g, g', b)
    else InBlocks(bs, toks, i) && g'.pool.hash[b] == h != HASH_NONE &&
         g'.pool.toks[b] == BlockToks(bs, toks, i) && g'.chains[b] == ChainOf(bs, salt, toks, i)
  }

  ghost predicate SameAt(g: Registry, g': Registry, b: nat)
    requires b < |g.pool.hash| == |g.pool.toks| == |g.chains| && b < |g'.pool.hash| == |g'.pool.toks| == |g'.chains|
  {
    g'.pool.hash[b] == g.pool.hash[b] && g'.pool.toks[b] == g.pool.toks[b] && g'.chains[b] == g.chains[b]
  }

  ghost predicate SameShape(g: Registry, g': Registry) {
    && |g.pool.ref| == |g.pool.hash| == |g.pool.toks| == |g.chains| == |g'.pool.hash| == |g'.pool.toks| == |g'.chains|
    && g'.pool.ref == g.pool.ref && g'.pool.free == g.pool.free
  }

  /** Registering one block more. */
  lemma RegisterFiles(g: Registry, g1: Registry, bs: nat, salt: Salt, b: nat, h: Hash, toks: seq<Token>, i: nat)
    requires SameShape(g, g1) && b < |g.chains| && SameAt(g, g1, b) && InBlocks(bs, toks, i) && h != HASH_NONE
    ensures var g' := Register(g1, true, b, h, BlockToks(bs, toks, i), ChainOf(bs, salt, toks, i));
      && SameShape(g, g') && FiledAt(g, g', bs, salt, b, h, toks, i)
      && (forall x :: 0 <= x < |g.chains| && x != b ==> SameAt(g1, g', x))
  {
  }

  /** b is in none of the table's places lo..hi. */
  ghost predicate Outside(table: seq<nat>, lo: nat, hi: nat, b: nat) {
    forall i :: lo <= i < hi && i < |table| ==> table[i] != b
  }

  /** Place i is the first one from lo on with its block. */
  ghost predicate FirstPlace(table: seq<nat>, lo: nat, i: nat) {
    lo <= i < |table| && Outside(table, lo, i, table[i])
  }

  lemma {:induction false} PlaceOf(table: seq<nat>, lo: nat, hi: nat, b: nat) returns (i: nat)
    requires lo <= hi <= |table| && !Outside(table, lo, hi, b)
    ensures i < hi && FirstPlace(table, lo, i) && table[i] == b
    decreases hi
  {
    if Outside(table, lo, hi - 1, b) { i := hi - 1; } else { i := PlaceOf(table, lo, hi - 1, b); }
  }

  ghost predicate RangeFiled(g: Registry, g': Registry, bs: nat, salt: Salt, table: seq<nat>, hashes: seq<Hash>, toks: seq<Token>, lo: nat, hi: nat) {
    && SameShape(g, g') && InRange(table, |g.chains|) && hi <= |table| && hi <= |hashes|
    && (forall i: nat :: i < hi && FirstPlace(table, lo, i) ==> FiledAt(g, g', bs, salt, table[i], hashes[i], toks, i))
    && (forall b :: 0 <= b < |g.chains| && Outside(table, lo, hi, b) ==> SameAt(g, g', b))
  }

  lemma RangeFiledMore(g: Registry, g1: Registry, g': Registry, bs: nat, salt: Salt, table: seq<nat>, hashes: seq<Hash>, toks: seq<Token>, lo: nat, hi: nat)
    requires RangeFiled(g, g1, bs, salt, table, hashes, toks, lo, hi) && lo <= hi < |table| && hi < |hashes|
    requires InBlocks(bs, toks, hi) && hashes[hi] != HASH_NONE
    requires g' == Register(g1, true, table[hi], hashes[hi], BlockToks(bs, toks, hi), ChainOf(bs, salt, toks, hi))
    ensures RangeFiled(g, g', bs, salt, table, hashes, toks, lo, hi + 1)
  {
    var last := table[hi];
    if Outside(table, lo, hi, last) {
      RegisterFiles(g, g1, bs, salt, last, hashes[hi], toks, hi);
    } else {
      var j := PlaceOf(table, lo, hi, last);
      assert FiledAt(g, g1, bs, salt, table[j], hashes[j], toks, j);
      assert g' == g1;
    }
    forall i: nat | i < hi + 1 && FirstPlace(table, lo, i) ensures FiledAt(g, g', bs, salt, table[i], hashes[i], toks, i) {
      if i < hi { assert FiledAt(g, g1, bs, salt, table[i], hashes[i], toks, i) && SameAt(g1, g', table[i]); }
    }
    forall b | 0 <= b < |g.chains| && Outside(table, lo, hi + 1, b) ensures SameAt(g, g', b) {
      assert Outside(table, lo, hi, b) && b != last;
      assert SameAt(g, g1, b) && SameAt(g1, g', b);
    }
  }

  /** Blocks lo..hi of the table are registered, each under its own prefix, and no others. */
  lemma {:induction false} RangeFiles(g: Registry, mix: Mix, bs: nat, salt: Salt, table: seq<nat>, hashes: seq<Hash>,
                                      toks: seq<Token>, lo: nat, hi: nat)
    requires bs > 0 && Registrable(g, bs, table, hashes, toks, hi) && HashesOk(mix, bs, salt, toks, hashes)
    ensures RangeFiled(g, RegisterRange(g, true, bs, salt, table, hashes, toks, lo, hi), bs, salt, table, hashes, toks, lo, hi)
    decreases hi
  {
    if lo < hi {
      TimesMono(hi - 1, hi, bs);
      RangeFiles(g, mix, bs, salt, table, hashes, toks, lo, hi - 1);
      HashAt(mix, bs, salt, toks, hashes, hi - 1);
      RangeFiledMore(g, RegisterRange(g, true, bs, salt, table, hashes, toks, lo, hi - 1),
                     RegisterRange(g, true, bs, salt, table, hashes, toks, lo, hi), bs, salt, table, hashes, toks, lo, hi - 1);
    }
  }

  /** What registering up to token n does: with caching every full block from numCached on is registered from now on, under
      its own prefix unless it was registered already; nothing else changes. */
  ghost predicate Files(g: Registry, g': Registry, caching: bool, bs: nat, salt: Salt, st: KvState, hashes: seq<Hash>, toks: seq<Token>, n: nat) {
    && SameShape(g, g') && InRange(st.blockIds, |g.chains|) && (!caching ==> g' == g)
    && (caching ==> forall i :: st.numCached <= i && FullBlock(bs, st, hashes, n, i) ==>
         g'.pool.hash[st.blockIds[i]] != HASH_NONE)
    && (caching ==> forall i: nat :: FirstPlace(st.blockIds, st.numCached, i) && FullBlock(bs, st, hashes, n, i) ==>
         FiledAt(g, g', bs, salt, st.blockIds[i], hashes[i], toks, i))
    && (caching ==> forall b :: 0 <= b < |g.chains| && Unfilled(bs, st, hashes, n, b) ==> SameAt(g, g', b))
  }

  /** b is not one of the full blocks from numCached on. */
  ghost predicate Unfilled(bs: nat, st: KvState, hashes: seq<Hash>, n: nat, b: nat) {
    forall i :: st.numCached <= i && FullBlock(bs, st, hashes, n, i) ==> st.blockIds[i] != b
  }

  /** numCached counts all full blocks, and no others besides those counted before. */
  ghost predicate CountsFull(caching: bool, bs: nat, st: KvState, st': KvState, hashes: seq<Hash>, n: nat) {
    && st'.blockIds == st.blockIds && st.numCached <= st'.numCached && (!caching ==> st' == st)
    && (caching ==> forall i: nat :: FullBlock(bs, st, hashes, n, i) ==> i < st'.numCached)
    && forall i: nat :: st.numCached <= i < st'.numCached ==> FullBlock(bs, st, hashes, n, i)
  }

  lemma UptoFiles(g: Registry, g': Registry, mix: Mix, caching: bool, bs: nat, salt: Salt, st: KvState, hashes: seq<Hash>, toks: seq<Token>, n: nat)
    requires bs > 0 && RegisteredUpto(g, g', caching, bs, salt, st, hashes, toks, n) && HashesOk(mix, bs, salt, toks, hashes)
    ensures Files(g, g', caching, bs, salt, st, hashes, toks, n)
  {
    if caching {
      var hi := CacheUpto(bs, caching, st, hashes, n);
      RangeFiles(g, mix, bs, salt, st.blockIds, hashes, toks, st.numCached, hi);
      forall i | st.numCached <= i && FullBlock(bs, st, hashes, n, i)
        ensures i < hi && g'.pool.hash[st.blockIds[i]] != HASH_NONE
      {
        UptoIff(bs, st, hashes, n, i);
        var j := PlaceOf(st.blockIds, st.numCached, i + 1, st.blockIds[i]);
        assert FiledAt(g, g', bs, salt, st.blockIds[j], hashes[j], toks, j);
      }
      forall b | 0 <= b < |g.chains| && Unfilled(bs, st, hashes, n, b) ensures SameAt(g, g', b) {
        forall i | st.numCached <= i < hi && i < |st.blockIds| ensures st.blockIds[i] != b { UptoIff(bs, st, hashes, n, i); }
        assert Outside(st.blockIds, st.numCached, hi, b);
      }
    }
  }

  lemma UptoCounts(caching: bool, bs: nat, st: KvState, st': KvState, hashes: seq<Hash>, n: nat)
    requires bs > 0 && st' == st.(numCached := Max(st.numCached, CacheUpto(bs, caching, st, hashes, n)))
    ensures CountsFull(caching, bs, st, st', hashes, n)
  {
    forall i: nat ensures caching ==> (i < CacheUpto(bs, caching, st, hashes, n) <==> FullBlock(bs, st, hashes, n, i)) {
      UptoIff(bs, st, hashes, n, i);
    }
  }

  lemma UptoIff(bs: nat, st: KvState, hashes: seq<Hash>, n: nat, i: nat)
    requires bs > 0
    ensures i < CacheUpto(bs, true, st, hashes, n) <==> FullBlock(bs, st, hashes, n, i)
  {
    DivTimes(n, bs);
    if i < n / bs { TimesMono(i + 1, n / bs, bs); } else { TimesMono(n / bs + 1, i + 1, bs); }
  }

  class PagedKVCache {
    const mix: Mix
    const blockSize: nat
    const caching: bool
    const pool: BlockPool
    var cells: seq<KV>
    ghost var reg: Registry      // the pool as a value, and the prefix each block was last registered under

    ghost predicate Repr()
      reads this, pool
    {
      && blockSize > 0 && pool.Valid() && pool.caching == caching && reg.pool == pool.Value()
      && |reg.chains| == |pool.blocks| && |cells| == Times(|pool.blocks|, blockSize)
    }

    ghost predicate Wrapped(n: Layers)
      reads this, pool
      decreases n
    {
      match n case Bare => Repr() case Over(m) => Wrapped(m)
    }

    /** Repr behind a recursive wrapping: callers pass it along without opening it. */
    ghost predicate Valid()
      reads this, pool
    {
      Wrapped(Depth())
    }

    lemma {:induction false} Unwrap(n: Layers)
      ensures Wrapped(n) <==> Repr()
    {
      if n.Over? { Unwrap(n.under); }
    }

    lemma Open()
      ensures Valid() <==> Repr()
    {
      Unwrap(Depth());
    }

    constructor (mix: Mix, numBlocks: nat, blockSize: nat, caching: bool)
      requires blockSize > 0
      ensures Valid() && fresh(pool)
      ensures this.mix == mix && this.blockSize == blockSize && this.caching == caching
      ensures PoolOk(reg.pool) && |reg.pool.ref| == |reg.chains| == numBlocks && |cells| == Times(numBlocks, blockSize)
      ensures forall b :: 0 <= b < numBlocks ==> reg.pool.ref[b] == 0 && reg.pool.hash[b] == HASH_NONE
    {
      this.mix, this.blockSize, this.caching := mix, blockSize, caching;
      var p := new BlockPool(numBlocks, blockSize, caching);
      pool := p;
      cells := seq(Times(numBlocks, blockSize), _ => Blank);
      reg := Registry(p.Value(), seq(numBlocks, _ => Chain(0, [])));
      new;
      Open();
    }

    method Store(slot: nat, entry: KV)
      requires Valid() && slot < |cells|
      modifies this`cells
      ensures Valid() && cells == old(cells)[slot := entry]
    {
      Open();
      cells := cells[slot := entry];
      Open();
    }

    /** Extends the chained hashes to every full block of `tokens`. */
    method UpdateHashes(hashes: seq<Hash>, tokens: seq<Token>, extra: Salt) returns (h: seq<Hash>)
      requires blockSize > 0 && HashesOk(mix, blockSize, extra, tokens, hashes)
      ensures HashesOk(mix, blockSize, extra, tokens, h) && |h| == |tokens| / blockSize && hashes <= h
    {
      var nFull := |tokens| / blockSize;
      HashesBound(mix, blockSize, extra, tokens, hashes);
      h := hashes;
      while |h| < nFull
        invariant hashes <= h && |h| <= nFull && HashesOk(mix, blockSize, extra, tokens, h)
      {
        var i := |h|;
        HashesExtend(mix, blockSize, extra, tokens, h);
        var parent := if i == 0 then HASH_NONE else h[i - 1];
        h := h + [HashBlock(mix, parent, BlockToks(blockSize, tokens, i), extra)];
      }
    }

    /** The longest run of leading full blocks found in the cache, never reaching the last token. */
    method GetComputedBlocks(tokens: seq<Token>, hashes: seq<Hash>, extra: Salt) returns (n: nat, found: seq<nat>)
      requires Valid() && blockSize > 0 && HashesOk(mix, blockSize, extra, tokens, hashes)
      ensures n == Times(|found|, blockSize) && (n == 0 || n < |tokens|)
      ensures HitsOk(reg.pool, blockSize, tokens, hashes, found)
      ensures caching && |tokens| >= 2 && |found| < |hashes| && |found| < (|tokens| - 1) / blockSize ==>
        InBlocks(blockSize, tokens, |found|) &&
        NoHit(reg.pool, hashes[|found|], BlockToks(blockSize, tokens, |found|))
      ensures !caching ==> found == []
      ensures |reg.pool.ref| == |reg.pool.hash| == |reg.pool.toks|
      ensures |hashes| == |tokens| / blockSize ==> n == CachedTokens(caching, mix, blockSize, reg.pool, extra, tokens)
    {
      Open();
      n, found := 0, [];
      if !caching || |tokens| < 2 { return; }
      found := LeadingHits(tokens, hashes, extra, (|tokens| - 1) / blockSize);
      n := Times(|found|, blockSize);
      HitLength(blockSize, |tokens|, |found|);
      if |hashes| == |tokens| / blockSize { LongestRun(mix, blockSize, reg.pool, extra, tokens, hashes, found); }
    }

    method LeadingHits(tokens: seq<Token>, hashes: seq<Hash>, ghost extra: Salt, nMax: nat) returns (found: seq<nat>)
      requires Repr() && HashesOk(mix, blockSize, extra, tokens, hashes)
      ensures |found| <= nMax && HitsOk(reg.pool, blockSize, tokens, hashes, found)
      ensures caching && |found| < nMax && |found| < |hashes| ==>
        InBlocks(blockSize, tokens, |found|) &&
        NoHit(reg.pool, hashes[|found|], BlockToks(blockSize, tokens, |found|))
    {
      found := [];
      for i := 0 to Min(nMax, |hashes|)
        invariant i == |found| && HitsOk(reg.pool, blockSize, tokens, hashes, found)
      {
        HashAt(mix, blockSize, extra, tokens, hashes, i);
        var b := pool.GetCachedBlock(hashes[i], BlockToks(blockSize, tokens, i));
        if b < 0 { return; }
        found := found + [b];
      }
    }

    /** Gives the request cells for nTotal tokens, or refuses and changes nothing. */
    method AllocateSlots(st: KvState, nTotal: nat, computed: seq<nat>)
      returns (ok: bool, st': KvState, ghost popped: seq<nat>)
      requires Valid() && blockSize > 0 && InRange(computed, |reg.pool.ref|)
      modifies this`reg, pool
      ensures Valid() && reg.chains == old(reg.chains)
      ensures ok == Fits(old(reg.pool), blockSize, st, nTotal, computed)
      ensures ok ==>
        && Grown(old(reg.pool), reg.pool, Touched(st, computed), popped)
        && st'.blockIds == st.blockIds + Touched(st, computed) + popped && nTotal <= Times(|st'.blockIds|, blockSize)
        && st'.numCached == (if Touched(st, computed) != [] then |computed| else st.numCached)
        && Sized(blockSize, st, nTotal, computed, |popped|)
      ensures !ok ==> reg == old(reg) && st' == st
    {
      Open();
      ok, st' := AllocateRaw(st, nTotal, computed);
      popped := [];
      if ok {
        AllocateFacts(old(reg.pool), blockSize, st, nTotal, computed);
        popped := Allocate(old(reg.pool), blockSize, st, nTotal, computed).popped;
        OpenSized(blockSize, st, nTotal, computed, |popped|, Depth());
      }
      Open();
    }

    method AllocateRaw(st: KvState, nTotal: nat, computed: seq<nat>) returns (ok: bool, st': KvState)
      requires Repr() && InRange(computed, |pool.blocks|)
      modifies this`reg, pool
      ensures Repr() && reg.chains == old(reg.chains)
      ensures ok == Fits(old(reg.pool), blockSize, st, nTotal, computed)
      ensures ok ==> var a := Allocate(old(reg.pool), blockSize, st, nTotal, computed);
        reg.pool == a.pool && st' == a.st
      ensures !ok ==> reg == old(reg) && st' == st
    {
      var need := CeilDiv(nTotal, blockSize);
      var have := |st.blockIds| + (if st.blockIds == [] then |computed| else 0);
      var nNew := if need > have then need - have else 0;
      var nTouchFree := 0;
      if st.blockIds == [] { nTouchFree := CountFree(computed); }
      st', ok := st, nNew + nTouchFree <= pool.nFree;
      if !ok { return; }
      TouchAllFacts(reg.pool, Touched(st, computed));
      st' := Claim(st, computed, nNew);
    }

    /** Takes the hit blocks and then nNew blocks off the front of the free list. */
    method Claim(st: KvState, computed: seq<nat>, nNew: nat) returns (st': KvState)
      requires Repr() && InRange(computed, |pool.blocks|)
      requires nNew <= |TouchAll(reg.pool, Touched(st, computed)).free|
      modifies this`reg, pool
      ensures Repr() && reg.chains == old(reg.chains)
      ensures var t := TouchAll(old(reg.pool), Touched(st, computed));
        && reg.pool == Take(t, nNew)
        && st' == KvState(st.blockIds + Touched(st, computed) + t.free[..nNew],
                          if Touched(st, computed) != [] then |computed| else st.numCached)
    {
      TouchAllFacts(reg.pool, Touched(st, computed));
      st' := TouchHits(st, computed);
      st' := PopBlocks(st', nNew);
      reg := reg.(pool := pool.Value());
    }

    method TouchHits(st: KvState, computed: seq<nat>) returns (st': KvState)
      requires pool.Valid() && InRange(computed, |pool.blocks|)
      modifies pool
      ensures pool.Valid() && pool.Value() == TouchAll(old(pool.Value()), Touched(st, computed))
      ensures st' == KvState(st.blockIds + Touched(st, computed), if Touched(st, computed) != [] then |computed| else st.numCached)
    {
      st' := st;
      if st.blockIds == [] && computed != [] {
        var ids := TouchBlocks(computed);
        st' := KvState(ids, |computed|);
      }
    }

    method PopBlocks(st: KvState, nNew: nat) returns (st': KvState)
      requires pool.Valid() && nNew <= |pool.Value().free|
      modifies pool
      ensures pool.Valid() && pool.Value() == Take(old(pool.Value()), nNew)
      ensures st' == st.(blockIds := st.blockIds + old(pool.Value()).free[..nNew])
    {
      st' := st;
      if nNew > 0 {
        var popped, ids := pool.GetNewBlocks(nNew, st.blockIds);
        assert popped;
        st' := st.(blockIds := ids);
      } else {
        assert Take(pool.Value(), 0) == pool.Value();
      }
    }

    method CountFree(computed: seq<nat>) returns (n: nat)
      requires pool.Valid() && InRange(computed, |pool.blocks|)
      ensures n == FreeCount(pool.Value().ref, computed)
    {
      n := 0;
      for i := 0 to |computed|
        invariant n == FreeCount(pool.Value().ref, computed[..i])
      {
        assert computed[..i + 1][..i] == computed[..i];
        if pool.blocks[computed[i]].refCnt == 0 { n := n + 1; }
      }
      assert computed[..|computed|] == computed;
    }

    method TouchBlocks(computed: seq<nat>) returns (ids: seq<nat>)
      requires pool.Valid() && InRange(computed, |pool.blocks|)
      modifies pool
      ensures pool.Valid() && ids == computed
      ensures pool.Value() == TouchAll(old(pool.Value()), computed)
    {
      ids := [];
      for i := 0 to |computed|
        invariant pool.Valid() && |pool.blocks| == |old(pool.blocks)| && ids == computed[..i]
        invariant pool.Value() == TouchAll(old(pool.Value()), computed[..i])
      {
        assert computed[..i + 1][..i] == computed[..i];
        pool.Touch(computed[i]);
        ids := ids + [computed[i]];
        assert |pool.Value().ref| == |old(pool.Value()).ref|;
      }
      assert computed[..|computed|] == computed;
    }

    /** Registers the request's full blocks up to token nToCache that are not registered yet. */
    method CacheBlocks(st: KvState, tokens: seq<Token>, nToCache: nat, hashes: seq<Hash>, ghost salt: Salt)
      returns (st': KvState)
      requires Valid() && blockSize > 0 && InRange(st.blockIds, |reg.pool.ref|)
      requires HashesOk(mix, blockSize, salt, tokens, hashes)
      modifies this`reg, pool
      ensures Valid() && RegisteredUpto(old(reg), reg, caching, blockSize, salt, st, hashes, tokens, nToCache)
      ensures st' == st.(numCached := Max(st.numCached, CacheUpto(blockSize, caching, st, hashes, nToCache)))
      ensures Files(old(reg), reg, caching, blockSize, salt, st, hashes, tokens, nToCache)
      ensures CountsFull(caching, blockSize, st, st', hashes, nToCache)
    {
      ghost var g := reg;
      Open();
      st' := st;
      if caching {
        var nFull := Min(nToCache / blockSize, |hashes|);
        TimesMono(Min(nFull, |st.blockIds|), |hashes|, blockSize);
        CacheLoop(st, tokens, Min(nFull, |st.blockIds|), hashes, salt);
        st' := st.(numCached := Max(st.numCached, Min(nFull, |st.blockIds|)));
      }
      UptoFiles(g, reg, mix, caching, blockSize, salt, st, hashes, tokens, nToCache);
      UptoCounts(caching, blockSize, st, st', hashes, nToCache);
      Open();
    }

    method CacheLoop(st: KvState, tokens: seq<Token>, hi: nat, hashes: seq<Hash>, ghost salt: Salt)
      requires Repr() && HashesOk(mix, blockSize, salt, tokens, hashes)
      requires Registrable(reg, blockSize, st.blockIds, hashes, tokens, hi)
      modifies this`reg, pool
      ensures Repr()
      ensures reg == RegisterRange(old(reg), caching, blockSize, salt, st.blockIds, hashes, tokens, st.numCached, hi)
    {
      if hi <= st.numCached { return; }
      ghost var g := reg;
      TimesMono(st.numCached, hi, blockSize);
      for i := st.numCached to hi
        invariant Repr() && |pool.blocks| == |g.pool.ref|
        invariant Registrable(g, blockSize, st.blockIds, hashes, tokens, i)
        invariant reg == RegisterRange(g, caching, blockSize, salt, st.blockIds, hashes, tokens, st.numCached, i)
      {
        TimesMono(i + 1, hi, blockSize);
        CacheNext(g, st, tokens, i, hashes, salt);
      }
    }

    method CacheNext(ghost g: Registry, st: KvState, tokens: seq<Token>, i: nat, hashes: seq<Hash>, ghost salt: Salt)
      requires Repr() && HashesOk(mix, blockSize, salt, tokens, hashes) && |pool.blocks| == |g.pool.ref| && st.numCached <= i
      requires Registrable(g, blockSize, st.blockIds, hashes, tokens, i) && Registrable(g, blockSize, st.blockIds, hashes, tokens, i + 1)
      requires reg == RegisterRange(g, caching, blockSize, salt, st.blockIds, hashes, tokens, st.numCached, i)
      modifies this`reg, pool
      ensures Repr() && |pool.blocks| == |old(pool.blocks)|
      ensures reg == RegisterRange(g, caching, blockSize, salt, st.blockIds, hashes, tokens, st.numCached, i + 1)
    {
      HashAt(mix, blockSize, salt, tokens, hashes, i);
      RegisterBlock(st.blockIds[i], hashes[i], BlockToks(blockSize, tokens, i), ChainOf(blockSize, salt, tokens, i));
    }

    method RegisterBlock(b: nat, hash: Hash, tokens: seq<Token>, ghost chain: Chain)
      requires Repr() && b < |pool.blocks| && hash != HASH_NONE
      modifies this`reg, pool
      ensures Repr() && |pool.blocks| == |old(pool.blocks)|
      ensures reg == Register(old(reg), caching, b, hash, tokens, chain)
    {
      pool.CacheBlock(b, hash, tokens);
      reg := Register(reg, caching, b, hash, tokens, chain);
      assert |pool.Value().ref| == |old(pool.Value().ref)|;
    }

    /** Returns the request's blocks, last block first. */
    method Free(st: KvState) returns (st': KvState)
      requires Valid() && PoolOk(reg.pool) && CanRelease(reg.pool.ref, st.blockIds)
      modifies this`reg, pool
      ensures Valid() && st' == NO_BLOCKS && reg.chains == old(reg.chains)
      ensures Returned(old(reg.pool), reg.pool, caching, st.blockIds)
    {
      Open();
      ReverseFacts(st.blockIds);
      FreeFacts(reg.pool, caching, st.blockIds);
      st' := NO_BLOCKS;
      if st.blockIds == [] {
        assert Reverse(st.blockIds) == [];
        assert [] + pool.free + [] == pool.free;
      } else {
        var ok := pool.FreeBlocks(Reverse(st.blockIds));
        assert ok;
      }
      reg := reg.(pool := pool.Value());
      Open();
    }
  }

  ghost predicate RegisteredUpto(g: Registry, g': Registry, caching: bool, bs: nat, salt: Salt, st: KvState,
                                 hashes: seq<Hash>, toks: seq<Token>, nToCache: nat)
    requires bs > 0
  {
    var hi := CacheUpto(bs, caching, st, hashes, nToCache);
    && Registrable(g, bs, st.blockIds, hashes, toks, hi)
    && g' == RegisterRange(g, caching, bs, salt, st.blockIds, hashes, toks, st.numCached, hi)
  }

  /** A table given back, last block first: unregistered blocks to the front, registered ones to the back. */
  ghost predicate Returned(v: View, v': View, caching: bool, table: seq<nat>) {
    && |v.ref| == |v.hash| && CanRelease(v.ref, Reverse(table))
    && v' == PoolSpec.Free(v, caching, Reverse(table)) && Shrunk(v, v', table)
  }

  function CacheUpto(bs: nat, caching: bool, st: KvState, hashes: seq<Hash>, nToCache: nat): (hi: nat)
    requires bs > 0
  {
    if caching then Min(Min(nToCache / bs, |hashes|), |st.blockIds|) else 0
  }

  function Reverse(s: seq<nat>): (r: seq<nat>) {
    seq(|s|, i requires 0 <= i < |s| => s[|s| - 1 - i])
  }

  lemma {:induction false} ReverseFacts(s: seq<nat>)
    ensures multiset(Reverse(s)) == multiset(s)
  {
    if s != [] {
      var init, last := s[..|s| - 1], s[|s| - 1];
      ReverseFacts(init);
      assert Reverse(s) == [last] + Reverse(init);
      assert s == init + [last];
    }
  }
}
