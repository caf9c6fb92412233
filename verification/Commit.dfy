/** After the forward pass: the windows are counted and full blocks are registered under their prefixes. */
module Commit {
  import opened Types
  import opened KvSpec
  import opened PagedKV
  import opened PrefixClosure
  import opened Serving
  import opened KvInvariant
  import opened Steps
  import opened Forward

  /** Running request r with its first n blocks registered. */
  function Cached(r: Request, n: nat): (r': Request) {
    r.(kv := r.kv.(numCached := n))
  }

  /** Block n of the request's table, registered under the first n + 1 blocks of its tokens. */
  ghost function RegisterNext(c: Cfg, g: Registry, r: Request, n: nat, h: Hash): (g': Registry)
    requires n < |r.kv.blockIds| && Times(n + 1, c.bs) <= |r.gen.tokens|
    requires r.kv.blockIds[n] < |g.pool.ref| == |g.pool.hash| == |g.pool.toks| == |g.chains|
  {
    Register(g, c.caching, r.kv.blockIds[n], h, BlockToks(c.bs, r.gen.tokens, n), ChainOf(c.bs, r.salt, r.gen.tokens, n))
  }

  /** The next block to register is full, computed and exclusively the request's. */
  ghost predicate NextFull(c: Cfg, s: Sys, k: nat, h: Hash) {
    && k < |s.running| && Known(s.reqs, s.running) && c.caching && c.bs > 0
    && var r := ReqAt(s, k); var n := r.kv.numCached;
    && n < |r.kv.blockIds| && Times(n + 1, c.bs) <= r.computed && Times(n + 1, c.bs) <= |r.gen.tokens|
    && r.kv.blockIds[n] < |s.reg.pool.ref| == |s.reg.pool.hash| == |s.reg.pool.toks| == |s.reg.chains|
    && h == ChainHash(c.mix, c.bs, ChainOf(c.bs, r.salt, r.gen.tokens, n))
  }

  lemma BlockCellIs(bs: nat, table: seq<nat>, n: nat, o: nat)
    requires n < |table| && o < bs
    ensures BlockNo(bs, Times(n, bs) + o) == n && CellOf(bs, table, Times(n, bs) + o) == Slot(bs, table[n], o)
  {
    BlockNoOf(bs, n, o);
  }

  /** The registered block holds the entries of its prefix's last block. */
  lemma FullBlockKv(c: Cfg, g: Registry, cells: seq<KV>, r: Request, f: Feed, n: nat, o: nat)
    requires c.bs > 0 && n < |r.kv.blockIds| && Times(n + 1, c.bs) <= |r.gen.tokens| && Times(n + 1, c.bs) <= f.n && o < c.bs
    requires r.gen.tokens <= f.toks && CellsHold(c, cells, r.kv.blockIds, f.n, f.toks)
    ensures var ch := ChainOf(c.bs, r.salt, r.gen.tokens, n);
      && Slot(c.bs, r.kv.blockIds[n], o) < |cells| && |ch.toks| >= c.bs
      && cells[Slot(c.bs, r.kv.blockIds[n], o)] == Ctx(ch.toks)[|ch.toks| - c.bs + o]
  {
    var m := Times(n + 1, c.bs);
    assert m == Times(n, c.bs) + c.bs;
    var i := Times(n, c.bs) + o;
    BlockCellIs(c.bs, r.kv.blockIds, n, o);
    assert CellHolds(c, cells, r.kv.blockIds, i, f.toks);
    assert r.gen.tokens[..m] == f.toks[..m];
    CtxPrefix(f.toks, m);
    assert Ctx(f.toks)[..m][i] == Ctx(f.toks)[i];
  }

  ghost predicate Holds(bs: nat, cells: seq<KV>, b: nat, ch: Chain) {
    && |ch.toks| >= bs
    && forall o {:trigger Slot(bs, b, o)} :: 0 <= o < bs ==>
      Slot(bs, b, o) < |cells| && cells[Slot(bs, b, o)] == Ctx(ch.toks)[|ch.toks| - bs + o]
  }

  lemma FullHolds(c: Cfg, g: Registry, cells: seq<KV>, r: Request, f: Feed, n: nat)
    requires c.bs > 0 && n < |r.kv.blockIds| && Times(n + 1, c.bs) <= |r.gen.tokens| && Times(n + 1, c.bs) <= f.n
    requires r.gen.tokens <= f.toks && CellsHold(c, cells, r.kv.blockIds, f.n, f.toks)
    ensures Holds(c.bs, cells, r.kv.blockIds[n], ChainOf(c.bs, r.salt, r.gen.tokens, n))
  {
    var ch := ChainOf(c.bs, r.salt, r.gen.tokens, n);
    FullBlockKv(c, g, cells, r, f, n, 0);
    forall o | 0 <= o < c.bs
      ensures Slot(c.bs, r.kv.blockIds[n], o) < |cells|
      ensures cells[Slot(c.bs, r.kv.blockIds[n], o)] == Ctx(ch.toks)[|ch.toks| - c.bs + o]
    {
      FullBlockKv(c, g, cells, r, f, n, o);
    }
  }

  lemma NewBlock(c: Cfg, g: Registry, cells: seq<KV>, b: nat, toks: seq<Token>, ch: Chain)
    requires c.bs > 0 && c.caching && b < |g.pool.ref| == |g.pool.hash| == |g.pool.toks| == |g.chains|
    requires g.pool.hash[b] == HASH_NONE && ch in c.trusted && Whole(c.bs, ch) && toks == LastBlock(c.bs, ch) && Holds(c.bs, cells, b, ch)
    ensures BlockKv(c, Register(g, c.caching, b, ChainHash(c.mix, c.bs, ch), toks, ch), cells, b)
  {
  }

  lemma OtherBlock(c: Cfg, g: Registry, cells: seq<KV>, b: nat, b': nat, h: Hash, toks: seq<Token>, ch: Chain)
    requires c.bs > 0 && b < |g.pool.ref| == |g.pool.hash| == |g.pool.toks| == |g.chains| && b' < |g.pool.ref| && b' != b
    requires BlockKv(c, g, cells, b')
    ensures BlockKv(c, Register(g, c.caching, b, h, toks, ch), cells, b')
  {
  }

  lemma RegisteredBlock(c: Cfg, s: Sys, fed: map<Id, Feed>, k: nat, h: Hash, b: nat)
    requires Inv(c, s) && KvInv(c, s, fed) && NextFull(c, s, k, h) && b < c.numBlocks
    requires s.reg.pool.hash[TableOf(s, k)[ReqAt(s, k).kv.numCached]] == HASH_NONE
    ensures BlockKv(c, RegisterNext(c, s.reg, ReqAt(s, k), ReqAt(s, k).kv.numCached, h), s.cells, b)
  {
    var r := ReqAt(s, k);
    var n := r.kv.numCached;
    assert BlockKv(c, s.reg, s.cells, b) && ReqKv(c, s.reg, s.cells, r, fed[s.running[k]]);
    if b == r.kv.blockIds[n] {
      FullHolds(c, s.reg, s.cells, r, fed[s.running[k]], n);
      ChainOfFacts(c.mix, c.bs, r.salt, r.gen.tokens, n);
      TrackedTokens(c, r);
      assert InBlocks(c.bs, r.gen.tokens, n);
      NewBlock(c, s.reg, s.cells, b, BlockToks(c.bs, r.gen.tokens, n), ChainOf(c.bs, r.salt, r.gen.tokens, n));
    } else {
      OtherBlock(c, s.reg, s.cells, r.kv.blockIds[n], b, h, BlockToks(c.bs, r.gen.tokens, n), ChainOf(c.bs, r.salt, r.gen.tokens, n));
    }
  }

  /** The next block of the table is full, not registered and only there. */
  ghost predicate NextReady(c: Cfg, g: Registry, r: Request) {
    && c.bs > 0 && |g.pool.ref| == |g.pool.hash| == |g.pool.toks| == |g.chains| == c.numBlocks && c.caching
    && InRange(r.kv.blockIds, c.numBlocks) && Table(c, g, r) && r.kv.numCached < |r.kv.blockIds|
    && Times(r.kv.numCached + 1, c.bs) <= |r.gen.tokens| && Sole(r.kv.blockIds, r.kv.numCached)
    && g.pool.hash[r.kv.blockIds[r.kv.numCached]] == HASH_NONE
  }

  /** The request's own table, with one more block registered. */
  lemma NextTable(c: Cfg, g: Registry, r: Request, h: Hash)
    requires NextReady(c, g, r) && h != HASH_NONE
    ensures Table(c, RegisterNext(c, g, r, r.kv.numCached, h), Cached(r, r.kv.numCached + 1))
  {
    var t, n := r.kv.blockIds, r.kv.numCached;
    var g' := RegisterNext(c, g, r, n, h);
    forall j | n + 1 <= j < |t| ensures Owned(g', t[j]) { assert Owned(g, t[j]) && t[j] != t[n]; }
    forall j | 0 <= j < n + 1 ensures Led(c, g', t[j], r.salt, r.gen.tokens, j) {
      if j < n { KeptRung(c, g, r, j, t[n], h, BlockToks(c.bs, r.gen.tokens, n), ChainOf(c.bs, r.salt, r.gen.tokens, n)); }
    }
  }

  /** Another request's table does not hold the block. */
  lemma SameTable(c: Cfg, g: Registry, r: Request, b: nat, h: Hash, toks: seq<Token>, ch: Chain)
    requires c.bs > 0 && b < |g.pool.ref| == |g.pool.hash| == |g.pool.toks| == |g.chains| == c.numBlocks
    requires InRange(r.kv.blockIds, c.numBlocks) && Table(c, g, r) && b !in r.kv.blockIds && g.pool.hash[b] == HASH_NONE
    ensures Table(c, Register(g, c.caching, b, h, toks, ch), r)
  {
    var t, n := r.kv.blockIds, r.kv.numCached;
    var g' := Register(g, c.caching, b, h, toks, ch);
    forall j | n <= j < |t| ensures Owned(g', t[j]) { assert Owned(g, t[j]) && t[j] in t; }
    forall j | 0 <= j < n ensures Led(c, g', t[j], r.salt, r.gen.tokens, j) {
      KeptRung(c, g, r, j, b, h, toks, ch);
    }
  }

  /** A block registered earlier keeps its registration. */
  lemma KeptRung(c: Cfg, g: Registry, r: Request, j: nat, b: nat, h: Hash, toks: seq<Token>, ch: Chain)
    requires c.bs > 0 && b < |g.pool.ref| == |g.pool.hash| == |g.pool.toks| == |g.chains| == c.numBlocks
    requires InRange(r.kv.blockIds, c.numBlocks) && Table(c, g, r) && j < r.kv.numCached && g.pool.hash[b] == HASH_NONE
    ensures Led(c, Register(g, c.caching, b, h, toks, ch), r.kv.blockIds[j], r.salt, r.gen.tokens, j)
  {
    assert Led(c, g, r.kv.blockIds[j], r.salt, r.gen.tokens, j);
  }

  ghost function Registered(c: Cfg, s: Sys, k: nat, h: Hash): (s': Sys)
    requires NextFull(c, s, k, h)
  {
    var r := ReqAt(s, k);
    SetAll(s, s.running[k], Cached(r, r.kv.numCached + 1), RegisterNext(c, s.reg, r, r.kv.numCached, h))
  }

  lemma ReqKvOver(c: Cfg, g: Registry, g': Registry, cells: seq<KV>, r: Request, r': Request, f: Feed)
    requires c.bs > 0 && |g.pool.ref| == |g.pool.hash| == |g.pool.toks| == |g.chains| == c.numBlocks
    requires |g'.pool.ref| == |g'.pool.hash| == |g'.pool.toks| == |g'.chains| == c.numBlocks
    requires InRange(r.kv.blockIds, c.numBlocks) && ReqKv(c, g, cells, r, f)
    requires r'.gen == r.gen && r'.computed == r.computed && r'.kv.blockIds == r.kv.blockIds && Table(c, g', r')
    requires Times(r'.kv.numCached, c.bs) <= r'.computed
    ensures ReqKv(c, g', cells, r', f)
  {
  }

  lemma TableNow(c: Cfg, s: Sys, fed: map<Id, Feed>, k: nat)
    requires Inv(c, s) && KvInv(c, s, fed) && k < |s.running|
    ensures Table(c, s.reg, ReqAt(s, k))
  {
    assert ReqKv(c, s.reg, s.cells, ReqAt(s, k), fed[s.running[k]]);
  }

  lemma OwnReady(c: Cfg, s: Sys, fed: map<Id, Feed>, k: nat, h: Hash)
    requires Inv(c, s) && KvInv(c, s, fed) && NextFull(c, s, k, h)
    ensures NextReady(c, s.reg, ReqAt(s, k))
  {
    OwnAt(c, s, fed, k, ReqAt(s, k).kv.numCached);
    TableNow(c, s, fed, k);
  }

  lemma OtherTable(c: Cfg, s: Sys, fed: map<Id, Feed>, k: nat, h: Hash, k': nat)
    requires Inv(c, s) && KvInv(c, s, fed) && NextFull(c, s, k, h) && k' < |s.running| && k' != k
    ensures Table(c, RegisterNext(c, s.reg, ReqAt(s, k), ReqAt(s, k).kv.numCached, h), ReqAt(s, k'))
  {
    var r, n := ReqAt(s, k), ReqAt(s, k).kv.numCached;
    OwnAt(c, s, fed, k, n);
    assert r.kv.blockIds[n] !in TableOf(s, k');
    TableNow(c, s, fed, k');
    SameTable(c, s.reg, ReqAt(s, k'), r.kv.blockIds[n], h, BlockToks(c.bs, r.gen.tokens, n), ChainOf(c.bs, r.salt, r.gen.tokens, n));
  }

  lemma RegisteredReq(c: Cfg, s: Sys, fed: map<Id, Feed>, k: nat, h: Hash, k': nat)
    requires Inv(c, s) && KvInv(c, s, fed) && NextFull(c, s, k, h) && k' < |s.running| && h != HASH_NONE
    ensures var s' := Registered(c, s, k, h); ReqKv(c, s'.reg, s'.cells, s'.reqs[s.running[k']], fed[s.running[k']])
  {
    var s', n := Registered(c, s, k, h), ReqAt(s, k).kv.numCached;
    var r := ReqAt(s, k');
    var r' := if k' == k then Cached(r, n + 1) else r;
    assert ReqKv(c, s.reg, s.cells, r, fed[s.running[k']]);
    assert s'.reqs[s.running[k']] == r' by { assert k' != k ==> s.running[k'] != s.running[k]; }
    if k' == k {
      OwnReady(c, s, fed, k, h);
      NextTable(c, s.reg, r, h);
    } else {
      OtherTable(c, s, fed, k, h, k');
    }
    ReqKvOver(c, s.reg, s'.reg, s.cells, r, r', fed[s.running[k']]);
  }

  lemma RegisteredInv(c: Cfg, s: Sys, k: nat, h: Hash)
    requires Inv(c, s) && NextFull(c, s, k, h)
    ensures Inv(c, Registered(c, s, k, h))
  {
    var r := ReqAt(s, k);
    SetInv(c, s, k, Cached(r, r.kv.numCached + 1), RegisterNext(c, s.reg, r, r.kv.numCached, h));
  }

  lemma RegisteredClosed(c: Cfg, s: Sys, fed: map<Id, Feed>, k: nat, h: Hash)
    requires Inv(c, s) && KvInv(c, s, fed) && NextFull(c, s, k, h) && h != HASH_NONE
    ensures FreeClosed(c.bs, Registered(c, s, k, h).reg)
  {
    var r, n := ReqAt(s, k), ReqAt(s, k).kv.numCached;
    OwnAt(c, s, fed, k, n);
    RegisterClosed(c.bs, s.reg, c.caching, r.kv.blockIds[n], h, BlockToks(c.bs, r.gen.tokens, n), ChainOf(c.bs, r.salt, r.gen.tokens, n));
  }

  /** Registering the next full block keeps KV integrity and the prefix closure. */
  lemma RegisterNextKv(c: Cfg, s: Sys, fed: map<Id, Feed>, k: nat, h: Hash)
    requires Inv(c, s) && KvInv(c, s, fed) && NextFull(c, s, k, h)
    ensures var s' := Registered(c, s, k, h); Inv(c, s') && KvInv(c, s', fed)
  {
    var r := ReqAt(s, k);
    var n, s' := r.kv.numCached, Registered(c, s, k, h);
    assert h != HASH_NONE && s.reg.pool.hash[r.kv.blockIds[n]] == HASH_NONE by {
      ChainOfFacts(c.mix, c.bs, r.salt, r.gen.tokens, n);
      OwnAt(c, s, fed, k, n);
    }
    RegisteredInv(c, s, k, h);
    forall k' | 0 <= k' < |s.running| ensures ReqKv(c, s'.reg, s'.cells, s'.reqs[s.running[k']], fed[s.running[k']]) {
      RegisteredReq(c, s, fed, k, h, k');
    }
    forall b | 0 <= b < c.numBlocks ensures BlockKv(c, s'.reg, s'.cells, b) {
      RegisteredBlock(c, s, fed, k, h, b);
    }
    RegisteredClosed(c, s, fed, k, h);
    assert Tracked(c, r);
    Assemble(c, s', fed);
  }

  lemma SetTwice(s: Sys, id: Id, r1: Request, g1: Registry, r2: Request, g2: Registry)
    ensures SetAll(SetAll(s, id, r1, g1), id, r2, g2) == SetAll(s, id, r2, g2)
    ensures id in s.reqs ==> SetAll(s, id, s.reqs[id], s.reg) == s
  {
  }

  lemma RegisterNextClosed(c: Cfg, s: Sys, fed: map<Id, Feed>, k: nat, h: Hash)
    requires KvOk(c, s, fed) && NextFull(c, s, k, h)
    ensures KvOk(c, Registered(c, s, k, h), fed)
  {
    OpenKvOk(c, s, fed);
    RegisterNextKv(c, s, fed, k, h);
    OpenKvOk(c, Registered(c, s, k, h), fed);
  }

  /** What cache_blocks may be asked for: full, computed blocks of running request k with known hashes. */
  ghost predicate Commitable(c: Cfg, s: Sys, k: nat, hashes: seq<Hash>, hi: nat) {
    && k < |s.running| && Known(s.reqs, s.running) && c.bs > 0 && c.caching
    && var r := ReqAt(s, k);
    && Registrable(s.reg, c.bs, r.kv.blockIds, hashes, r.gen.tokens, hi)
    && HashesOk(c.mix, c.bs, r.salt, r.gen.tokens, hashes)
    && r.kv.numCached <= hi && Times(hi, c.bs) <= r.computed
  }

  ghost function Committed(c: Cfg, s: Sys, k: nat, hashes: seq<Hash>, hi: nat): (s': Sys)
    requires Commitable(c, s, k, hashes, hi)
  {
    var r := ReqAt(s, k);
    SetAll(s, s.running[k], Cached(r, hi),
           RegisterRange(s.reg, c.caching, c.bs, r.salt, r.kv.blockIds, hashes, r.gen.tokens, r.kv.numCached, hi))
  }

  lemma CommitStep(c: Cfg, s: Sys, k: nat, hashes: seq<Hash>, hi: nat)
    requires Commitable(c, s, k, hashes, hi) && ReqAt(s, k).kv.numCached < hi
    ensures Commitable(c, s, k, hashes, hi - 1)
    ensures var s1 := Committed(c, s, k, hashes, hi - 1);
      NextFull(c, s1, k, hashes[hi - 1]) && Registered(c, s1, k, hashes[hi - 1]) == Committed(c, s, k, hashes, hi)
  {
    var r, id := ReqAt(s, k), s.running[k];
    TimesMono(hi - 1, hi, c.bs);
    HashAt(c.mix, c.bs, r.salt, r.gen.tokens, hashes, hi - 1);
    var s1 := Committed(c, s, k, hashes, hi - 1);
    var g1 := s1.reg;
    assert Times((hi - 1) + 1, c.bs) == Times(hi, c.bs);
    assert ReqAt(s1, k) == Cached(r, hi - 1);
    SetTwice(s, id, Cached(r, hi - 1), g1, Cached(r, hi), RegisterNext(c, g1, r, hi - 1, hashes[hi - 1]));
  }

  /** Registering a whole range of full blocks. */
  lemma {:induction false} CommitKv(c: Cfg, s: Sys, fed: map<Id, Feed>, k: nat, hashes: seq<Hash>, hi: nat)
    requires KvOk(c, s, fed) && Commitable(c, s, k, hashes, hi)
    ensures KvOk(c, Committed(c, s, k, hashes, hi), fed)
    decreases hi
  {
    var r := ReqAt(s, k);
    if r.kv.numCached == hi {
      SetTwice(s, s.running[k], r, s.reg, r, s.reg);
    } else {
      CommitStep(c, s, k, hashes, hi);
      CommitKv(c, s, fed, k, hashes, hi - 1);
      RegisterNextClosed(c, Committed(c, s, k, hashes, hi - 1), fed, k, hashes[hi - 1]);
    }
  }
}
