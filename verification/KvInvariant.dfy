/** KV integrity: every computed cell of a running request holds the entry of exactly that request's prefix, and
    every registered block holds the entries of exactly the prefix it is registered under. */
module KvInvariant {
  import opened Types
  import opened PoolSpec
  import opened KvSpec
  import opened PagedKV
  import opened Generation
  import opened Serving
  import opened PrefixClosure

  ghost predicate BlockKv(c: Cfg, g: Registry, cells: seq<KV>, b: nat)
    requires c.bs > 0 && b < |g.pool.ref| == |g.pool.hash| == |g.pool.toks| == |g.chains|
  {
    g.pool.hash[b] != HASH_NONE ==>
      && c.caching && g.chains[b] in c.trusted && Whole(c.bs, g.chains[b]) && |g.chains[b].toks| >= c.bs
      && g.pool.hash[b] == ChainHash(c.mix, c.bs, g.chains[b])
      && g.pool.toks[b] == LastBlock(c.bs, g.chains[b])
      && forall o {:trigger Slot(c.bs, b, o)} :: 0 <= o < c.bs ==>
        Slot(c.bs, b, o) < |cells| && cells[Slot(c.bs, b, o)] == Ctx(g.chains[b].toks)[|g.chains[b].toks| - c.bs + o]
  }

  /** The tokens whose entries a request's cells hold: its own tokens, followed during a step by the draft tokens
      fed to the model; the first n of them have been computed. */
  datatype Feed = Feed(toks: seq<Token>, n: nat)

  /** Registered blocks lead the table; the others are unregistered and referenced by this request alone. */
  ghost predicate Table(c: Cfg, g: Registry, r: Request)
    requires c.bs > 0 && |g.pool.ref| == |g.pool.hash| == |g.pool.toks| == |g.chains| == c.numBlocks
    requires InRange(r.kv.blockIds, c.numBlocks)
  {
    var t, n := r.kv.blockIds, r.kv.numCached;
    && n <= |t| && Times(n, c.bs) <= |r.gen.tokens|
    && (forall j :: 0 <= j < n ==> Led(c, g, t[j], r.salt, r.gen.tokens, j))
    && (forall j :: n <= j < |t| ==> Owned(g, t[j]))
  }

  /** b is registered under the first j + 1 blocks of the tokens. */
  ghost predicate Led(c: Cfg, g: Registry, b: nat, salt: Salt, toks: seq<Token>, j: nat)
    requires b < |g.pool.hash| == |g.chains|
  {
    InBlocks(c.bs, toks, j) && g.pool.hash[b] != HASH_NONE && g.chains[b] == ChainOf(c.bs, salt, toks, j)
  }

  /** b is unregistered and in one table only. */
  ghost predicate Owned(g: Registry, b: nat)
    requires b < |g.pool.hash| == |g.pool.ref|
  {
    g.pool.hash[b] == HASH_NONE && g.pool.ref[b] == 1
  }

  /** Position i's cell holds the entry of token i of that prefix. */
  ghost predicate CellHolds(c: Cfg, cells: seq<KV>, table: seq<nat>, i: nat, fed: seq<Token>)
    requires c.bs > 0 && i < |fed|
  {
    BlockNo(c.bs, i) < |table| && CellOf(c.bs, table, i) < |cells| && cells[CellOf(c.bs, table, i)] == Ctx(fed)[i]
  }

  ghost predicate CellsHold(c: Cfg, cells: seq<KV>, table: seq<nat>, n: nat, fed: seq<Token>)
    requires c.bs > 0
  {
    && n <= |fed| && n <= Times(|table|, c.bs)
    && forall i :: 0 <= i < n ==> CellHolds(c, cells, table, i, fed)
  }

  ghost predicate ReqKv(c: Cfg, g: Registry, cells: seq<KV>, r: Request, f: Feed)
    requires c.bs > 0 && |g.pool.ref| == |g.pool.hash| == |g.pool.toks| == |g.chains| == c.numBlocks
    requires InRange(r.kv.blockIds, c.numBlocks)
  {
    && Table(c, g, r) && r.gen.tokens <= f.toks
    && Times(r.kv.numCached, c.bs) <= r.computed <= f.n && CellsHold(c, cells, r.kv.blockIds, f.n, f.toks)
  }

  // ---- which prefixes the hash has to tell apart ----

  /** The prefix cache is off, or the hash has no collisions among the trusted prefixes. */
  ghost predicate HashSound(c: Cfg)
    requires c.bs > 0
  {
    c.caching ==> CollisionFree(c.mix, c.bs, c.trusted)
  }

  /** With the prefix cache on, the prefixes these tokens are looked up and registered under are trusted. */
  ghost predicate TrustedAt(c: Cfg, salt: Salt, toks: seq<Token>) {
    c.caching ==> forall i: nat :: InBlocks(c.bs, toks, i) ==> ChainOf(c.bs, salt, toks, i) in c.trusted
  }

  /** However long the isolated run of a submission is, its prefixes are trusted. */
  ghost predicate TrustedRun(c: Cfg, p: Params, g0: Gen, salt: Salt) {
    forall n: nat :: TrustedAt(c, salt, Isolated(c.env, p, |g0.tokens|, g0, n).tokens)
  }

  ghost predicate WrapTrusted(c: Cfg, p: Params, g0: Gen, salt: Salt, n: Layers)
    decreases n
  {
    match n case Bare => TrustedRun(c, p, g0, salt) case Over(m) => WrapTrusted(c, p, g0, salt, m)
  }

  /** TrustedRun, closed. */
  ghost predicate Trusted(c: Cfg, p: Params, g0: Gen, salt: Salt) {
    WrapTrusted(c, p, g0, salt, Depth())
  }

  lemma {:induction false} UnwrapTrusted(c: Cfg, p: Params, g0: Gen, salt: Salt, n: Layers)
    ensures WrapTrusted(c, p, g0, salt, n) <==> TrustedRun(c, p, g0, salt)
  {
    if n.Over? { UnwrapTrusted(c, p, g0, salt, n.under); }
  }

  /** Without the prefix cache, or with a hash that is trusted everywhere, there is nothing to ask of a submission. */
  lemma AlwaysTrusted(c: Cfg, p: Params, g0: Gen, salt: Salt)
    requires !c.caching || forall ch :: ch in c.trusted
    ensures Trusted(c, p, g0, salt)
  {
    UnwrapTrusted(c, p, g0, salt, Depth());
  }

  /** A request stands on its isolated run, and that run is trusted. */
  ghost predicate Tracked(c: Cfg, r: Request) {
    WrapTracked(c, r.params, r.init, r.gen, r.salt, Depth())
  }

  ghost predicate WrapTracked(c: Cfg, p: Params, g0: Gen, g: Gen, salt: Salt, n: Layers)
    decreases n
  {
    match n
    case Bare => Traced(c.env, p, g0, g) && Trusted(c, p, g0, salt)
    case Over(m) => WrapTracked(c, p, g0, g, salt, m)
  }

  lemma {:induction false} UnwrapTracked(c: Cfg, p: Params, g0: Gen, g: Gen, salt: Salt, n: Layers)
    ensures WrapTracked(c, p, g0, g, salt, n) <==> Traced(c.env, p, g0, g) && Trusted(c, p, g0, salt)
  {
    if n.Over? { UnwrapTracked(c, p, g0, g, salt, n.under); }
  }

  lemma OpenTracked(c: Cfg, r: Request)
    ensures Tracked(c, r) <==> Traced(c.env, r.params, r.init, r.gen) && Trusted(c, r.params, r.init, r.salt)
  {
    UnwrapTracked(c, r.params, r.init, r.gen, r.salt, Depth());
  }

  lemma TrackedTokens(c: Cfg, r: Request)
    requires Tracked(c, r)
    ensures TrustedAt(c, r.salt, r.gen.tokens)
  {
    OpenTracked(c, r);
    UnwrapTrusted(c, r.params, r.init, r.salt, Depth());
    var n := |r.gen.tokens| - |r.init.tokens|;
    assert TrustedAt(c, r.salt, Isolated(c.env, r.params, |r.init.tokens|, r.init, n).tokens);
  }

  /** The same submission. */
  ghost predicate SameOrigin(r: Request, r': Request) {
    && r'.params == r.params && r'.init == r.init && r'.salt == r.salt
    && r'.priority == r.priority && r'.arrival == r.arrival
  }

  ghost predicate KvInv(c: Cfg, s: Sys, fed: map<Id, Feed>)
    requires Inv(c, s)
  {
    && HashSound(c)
    && (forall k :: 0 <= k < |s.running| ==>
         s.running[k] in fed && ReqKv(c, s.reg, s.cells, s.reqs[s.running[k]], fed[s.running[k]]))
    && (forall b :: 0 <= b < c.numBlocks ==> BlockKv(c, s.reg, s.cells, b))
    && FreeClosed(c.bs, s.reg)
    && (forall id :: id in s.reqs ==> Tracked(c, s.reqs[id]))
  }

  // ---- frames ----

  /** A pool change that keeps the registration of every referenced block and registers nothing new. */
  ghost predicate Gentle(v: View, v': View) {
    && |v.ref| == |v.hash| == |v.toks| == |v'.ref| == |v'.hash| && v'.toks == v.toks
    && forall b {:trigger v'.hash[b]} :: 0 <= b < |v.ref| ==>
      (v'.hash[b] == v.hash[b] || (v'.hash[b] == HASH_NONE && v.ref[b] == 0))
  }

  lemma BlockKvGentle(c: Cfg, g: Registry, v: View, cells: seq<KV>, b: nat)
    requires c.bs > 0 && b < |g.pool.ref| == |g.chains| && Gentle(g.pool, v) && BlockKv(c, g, cells, b)
    ensures BlockKv(c, g.(pool := v), cells, b)
  {
  }

  lemma TableGentle(c: Cfg, g: Registry, v: View, r: Request)
    requires c.bs > 0 && |g.pool.ref| == |g.chains| == c.numBlocks && Gentle(g.pool, v) && InRange(r.kv.blockIds, c.numBlocks)
    requires Table(c, g, r)
    requires forall j {:trigger r.kv.blockIds[j]} :: 0 <= j < |r.kv.blockIds| ==>
      var b := r.kv.blockIds[j];
      g.pool.ref[b] > 0 && (g.pool.ref[b] == 1 && g.pool.hash[b] == HASH_NONE ==> v.ref[b] == 1)
    ensures Table(c, g.(pool := v), r)
  {
  }

  /** An unregistered block that only request k uses is still its own after the pool change. */
  ghost predicate KeepsSole(c: Cfg, s: Sys, k: nat, v: View)
    requires Inv(c, s) && k < |s.running| && |v.ref| == c.numBlocks
  {
    forall j {:trigger TableOf(s, k)[j]} :: 0 <= j < |TableOf(s, k)| ==>
      var b := TableOf(s, k)[j];
      b < c.numBlocks && (s.reg.pool.ref[b] == 1 && s.reg.pool.hash[b] == HASH_NONE ==> v.ref[b] == 1)
  }

  lemma KeepReq(c: Cfg, s: Sys, fed: map<Id, Feed>, k: nat, v: View)
    requires Inv(c, s) && KvInv(c, s, fed) && k < |s.running|
    requires Gentle(s.reg.pool, v) && KeepsSole(c, s, k, v)
    ensures ReqKv(c, s.reg.(pool := v), s.cells, s.reqs[s.running[k]], fed[s.running[k]])
  {
    var r := s.reqs[s.running[k]];
    forall j | 0 <= j < |r.kv.blockIds| ensures s.reg.pool.ref[r.kv.blockIds[j]] > 0 {
      RunningRef(c, s, k, j);
    }
    assert r.kv.blockIds == TableOf(s, k);
    TableGentle(c, s.reg, v, r);
  }

  // ---- allocation ----

  lemma GrownGentle(v: View, v': View, hits: seq<nat>, popped: seq<nat>)
    requires Grown(v, v', hits, popped)
    ensures Gentle(v, v')
  {
  }

  lemma GrownKeepsSole(c: Cfg, s: Sys, k: nat, v: View, hits: seq<nat>, popped: seq<nat>)
    requires Inv(c, s) && k < |s.running| && Grown(s.reg.pool, v, hits, popped)
    requires forall b :: b in hits ==> b < c.numBlocks && s.reg.pool.hash[b] != HASH_NONE
    ensures KeepsSole(c, s, k, v)
  {
    var t := TableOf(s, k);
    forall j | 0 <= j < |t| && s.reg.pool.ref[t[j]] == 1 && s.reg.pool.hash[t[j]] == HASH_NONE
      ensures v.ref[t[j]] == 1
    {
      assert t[j] !in hits && t[j] !in popped;
      assert t[j] !in hits + popped;
    }
  }

  /** Running request k with more blocks at the end of its table. */
  ghost function Extended(s: Sys, k: nat, popped: seq<nat>): (r: Request)
    requires k < |s.running| && Known(s.reqs, s.running)
  {
    var r := s.reqs[s.running[k]];
    r.(kv := r.kv.(blockIds := r.kv.blockIds + popped))
  }

  lemma GrowInv(c: Cfg, s: Sys, k: nat, v: View, popped: seq<nat>)
    requires Inv(c, s) && k < |s.running| && Grown(s.reg.pool, v, [], popped)
    ensures Inv(c, SetReq(s, s.running[k], Extended(s, k, popped), v))
  {
    var r := Extended(s, k, popped);
    assert [] + popped == popped;
    TimesMono(|TableOf(s, k)|, |r.kv.blockIds|, c.bs);
    UpdateRunning(c, s, k, r, v);
  }

  /** A running request gets more blocks. */
  lemma GrowKv(c: Cfg, s: Sys, fed: map<Id, Feed>, k: nat, v: View, popped: seq<nat>)
    requires Inv(c, s) && KvInv(c, s, fed) && k < |s.running| && Grown(s.reg.pool, v, [], popped)
    ensures var s' := SetReq(s, s.running[k], Extended(s, k, popped), v);
      Inv(c, s') && KvInv(c, s', fed)
  {
    var s' := SetReq(s, s.running[k], Extended(s, k, popped), v);
    GrowInv(c, s, k, v, popped);
    GrownClosed(c.bs, s.reg, v, [], popped);
    GrownGentle(s.reg.pool, v, [], popped);
    forall k' | 0 <= k' < |s.running| ensures ReqKv(c, s'.reg, s'.cells, s'.reqs[s.running[k']], fed[s.running[k']]) {
      GrowReqKv(c, s, fed, k, v, popped, k');
    }
    forall b | 0 <= b < c.numBlocks ensures BlockKv(c, s'.reg, s'.cells, b) {
      BlockKvGentle(c, s.reg, v, s.cells, b);
    }
  }

  /** Fresh exclusive blocks at the end of the table. */
  lemma GrowReqKv(c: Cfg, s: Sys, fed: map<Id, Feed>, k: nat, v: View, popped: seq<nat>, k': nat)
    requires Inv(c, s) && KvInv(c, s, fed) && k < |s.running| && Grown(s.reg.pool, v, [], popped) && k' < |s.running|
    requires Inv(c, SetReq(s, s.running[k], Extended(s, k, popped), v)) && Gentle(s.reg.pool, v)
    ensures var s' := SetReq(s, s.running[k], Extended(s, k, popped), v);
      ReqKv(c, s'.reg, s'.cells, s'.reqs[s.running[k']], fed[s.running[k']])
  {
    GrownKeepsSole(c, s, k', v, [], popped);
    KeepReq(c, s, fed, k', v);
    if k' == k { ExtendTable(c, s.reg.(pool := v), s.cells, s.reqs[s.running[k]], fed[s.running[k]], popped); }
  }

  lemma ExtendTable(c: Cfg, g: Registry, cells: seq<KV>, r: Request, f: Feed, more: seq<nat>)
    requires c.bs > 0 && |g.pool.ref| == |g.pool.hash| == |g.pool.toks| == |g.chains| == c.numBlocks
    requires InRange(r.kv.blockIds, c.numBlocks) && InRange(more, c.numBlocks) && ReqKv(c, g, cells, r, f)
    requires forall b :: b in more ==> g.pool.hash[b] == HASH_NONE && g.pool.ref[b] == 1
    ensures var r' := r.(kv := r.kv.(blockIds := r.kv.blockIds + more));
      InRange(r'.kv.blockIds, c.numBlocks) && ReqKv(c, g, cells, r', f)
  {
    var t, t' := r.kv.blockIds, r.kv.blockIds + more;
    forall j | r.kv.numCached <= j < |t'| ensures Owned(g, t'[j]) {
      if j < |t| { assert t'[j] == t[j]; } else { assert t'[j] in more; }
    }
    forall j | 0 <= j < r.kv.numCached ensures Led(c, g, t'[j], r.salt, r.gen.tokens, j) {
      assert t'[j] == t[j];
    }
    CellsExtend(c, cells, t, more, f.n, f.toks);
  }

  lemma CellsExtend(c: Cfg, cells: seq<KV>, t: seq<nat>, more: seq<nat>, n: nat, fed: seq<Token>)
    requires c.bs > 0 && CellsHold(c, cells, t, n, fed)
    ensures CellsHold(c, cells, t + more, n, fed)
  {
    var t' := t + more;
    TimesMono(|t|, |t'|, c.bs);
    forall i | 0 <= i < n ensures CellHolds(c, cells, t', i, fed) {
      assert CellHolds(c, cells, t, i, fed);
    }
  }

  // ---- prefix hits ----

  ghost predicate RegistryKv(c: Cfg, g: Registry, cells: seq<KV>)
    requires c.bs > 0 && |g.pool.ref| == |g.pool.hash| == |g.pool.toks| == |g.chains|
  {
    forall b :: 0 <= b < |g.pool.ref| ==> BlockKv(c, g, cells, b)
  }

  /** Prefix hits are sound: a found block was computed under the same whole prefix and salt. */
  lemma HitChain(c: Cfg, g: Registry, cells: seq<KV>, salt: Salt, toks: seq<Token>, h: seq<Hash>, found: seq<nat>, i: nat)
    requires c.bs > 0 && HashSound(c) && TrustedAt(c, salt, toks)
    requires |g.pool.ref| == |g.pool.hash| == |g.pool.toks| == |g.chains| && RegistryKv(c, g, cells)
    requires HashesOk(c.mix, c.bs, salt, toks, h) && HitsOk(g.pool, c.bs, toks, h, found) && i < |found|
    ensures Led(c, g, found[i], salt, toks, i)
  {
    HashAt(c.mix, c.bs, salt, toks, h, i);
    ChainOfFacts(c.mix, c.bs, salt, toks, i);
    var b := found[i];
    assert HitIs(g.pool, c.bs, toks, h[i], b, i);
    assert BlockKv(c, g, cells, b);
    assert Matches(c.mix, c.bs, g.chains[b], ChainOf(c.bs, salt, toks, i));
  }

  lemma HitCells(c: Cfg, g: Registry, cells: seq<KV>, salt: Salt, toks: seq<Token>, h: seq<Hash>, found: seq<nat>)
    requires c.bs > 0 && HashSound(c) && TrustedAt(c, salt, toks)
    requires |g.pool.ref| == |g.pool.hash| == |g.pool.toks| == |g.chains| && RegistryKv(c, g, cells)
    requires HashesOk(c.mix, c.bs, salt, toks, h) && HitsOk(g.pool, c.bs, toks, h, found)
    ensures Times(|found|, c.bs) <= |toks| && CellsHold(c, cells, found, Times(|found|, c.bs), toks)
  {
    TimesMono(|found|, |h|, c.bs);
    forall i | 0 <= i < Times(|found|, c.bs) ensures CellHolds(c, cells, found, i, toks) {
      HitAt(c, g, cells, salt, toks, h, found, i);
    }
  }

  lemma HitAt(c: Cfg, g: Registry, cells: seq<KV>, salt: Salt, toks: seq<Token>, h: seq<Hash>, found: seq<nat>, i: nat)
    requires c.bs > 0 && HashSound(c) && TrustedAt(c, salt, toks) && i < Times(|found|, c.bs)
    requires |g.pool.ref| == |g.pool.hash| == |g.pool.toks| == |g.chains| && RegistryKv(c, g, cells)
    requires HashesOk(c.mix, c.bs, salt, toks, h) && HitsOk(g.pool, c.bs, toks, h, found)
    ensures i < |toks| && CellHolds(c, cells, found, i, toks)
  {
    BlockIndex(c.bs, i, |found|);
    HitBlock(c, g, cells, salt, toks, h, found, BlockNo(c.bs, i), Offset(c.bs, i));
  }

  lemma HitBlock(c: Cfg, g: Registry, cells: seq<KV>, salt: Salt, toks: seq<Token>, h: seq<Hash>, found: seq<nat>, q: nat, o: nat)
    requires o < c.bs && q < |found| && HashSound(c) && TrustedAt(c, salt, toks)
    requires |g.pool.ref| == |g.pool.hash| == |g.pool.toks| == |g.chains| && RegistryKv(c, g, cells)
    requires HashesOk(c.mix, c.bs, salt, toks, h) && HitsOk(g.pool, c.bs, toks, h, found)
    ensures Times(q, c.bs) + o < |toks| && Slot(c.bs, found[q], o) < |cells|
    ensures cells[Slot(c.bs, found[q], o)] == Ctx(toks)[Times(q, c.bs) + o]
  {
    HitChain(c, g, cells, salt, toks, h, found, q);
    BlockCell(c, g, cells, salt, toks, found[q], q, o);
  }

  /** Cell o of a block registered under the first q + 1 blocks of toks. */
  lemma BlockCell(c: Cfg, g: Registry, cells: seq<KV>, salt: Salt, toks: seq<Token>, b: nat, q: nat, o: nat)
    requires o < c.bs && Times(q + 1, c.bs) <= |toks|
    requires b < |g.pool.ref| == |g.pool.hash| == |g.pool.toks| == |g.chains| && BlockKv(c, g, cells, b)
    requires g.pool.hash[b] != HASH_NONE && g.chains[b] == ChainOf(c.bs, salt, toks, q)
    ensures Times(q, c.bs) + o < |toks| && Slot(c.bs, b, o) < |cells|
    ensures cells[Slot(c.bs, b, o)] == Ctx(toks)[Times(q, c.bs) + o]
  {
    var m := Times(q + 1, c.bs);
    assert m == Times(q, c.bs) + c.bs;
    CtxPrefix(toks, m);
    assert Ctx(toks)[..m][Times(q, c.bs) + o] == Ctx(toks)[Times(q, c.bs) + o];
  }

  /** The record of a request admitted with the given hits. */
  function Admitted(r: Request, h: seq<Hash>, bs: nat, found: seq<nat>, popped: seq<nat>): (r': Request) {
    r.(status := RUNNING, computed := Times(|found|, bs), kv := KvState(found + popped, |found|), hashes := h)
  }

  lemma HitReqKv(c: Cfg, g: Registry, cells: seq<KV>, r: Request, h: seq<Hash>, found: seq<nat>)
    requires c.bs > 0 && HashSound(c) && TrustedAt(c, r.salt, r.gen.tokens)
    requires |g.pool.ref| == |g.pool.hash| == |g.pool.toks| == |g.chains| == c.numBlocks && RegistryKv(c, g, cells)
    requires HashesOk(c.mix, c.bs, r.salt, r.gen.tokens, h) && HitsOk(g.pool, c.bs, r.gen.tokens, h, found)
    ensures ReqKv(c, g, cells, Admitted(r, h, c.bs, found, []), Feed(r.gen.tokens, Times(|found|, c.bs)))
  {
    HitCells(c, g, cells, r.salt, r.gen.tokens, h, found);
    assert found + [] == found;
    forall j | 0 <= j < |found| ensures Led(c, g, found[j], r.salt, r.gen.tokens, j) {
      HitChain(c, g, cells, r.salt, r.gen.tokens, h, found, j);
    }
  }

  lemma StartInv(c: Cfg, s: Sys, h: seq<Hash>, found: seq<nat>, v: View, popped: seq<nat>)
    requires Inv(c, s) && s.waiting != [] && |s.running| < c.maxSeqs
    requires HashesOk(c.mix, c.bs, s.reqs[s.waiting[0]].salt, s.reqs[s.waiting[0]].gen.tokens, h)
    requires InRange(found, c.numBlocks) && Grown(s.reg.pool, v, found, popped)
    ensures Inv(c, Start(s, Admitted(s.reqs[s.waiting[0]], h, c.bs, found, popped), v))
  {
    var r := Admitted(s.reqs[s.waiting[0]], h, c.bs, found, popped);
    TimesMono(|found|, |r.kv.blockIds|, c.bs);
    HistRehash(c, s.reqs[s.waiting[0]], r);
    StartOk(c, s, r, v);
  }

  /** Admission of the head of the waiting queue on top of its prefix hits. */
  lemma StartKv(c: Cfg, s: Sys, fed: map<Id, Feed>, h: seq<Hash>, found: seq<nat>, v: View, popped: seq<nat>)
    requires Inv(c, s) && KvInv(c, s, fed) && s.waiting != [] && |s.running| < c.maxSeqs
    requires HashesOk(c.mix, c.bs, s.reqs[s.waiting[0]].salt, s.reqs[s.waiting[0]].gen.tokens, h)
    requires HitsOk(s.reg.pool, c.bs, s.reqs[s.waiting[0]].gen.tokens, h, found)
    requires Grown(s.reg.pool, v, found, popped)
    ensures var s' := Start(s, Admitted(s.reqs[s.waiting[0]], h, c.bs, found, popped), v);
      Inv(c, s') && KvInv(c, s', fed[s.waiting[0] := Feed(s.reqs[s.waiting[0]].gen.tokens, Times(|found|, c.bs))])
  {
    var id := s.waiting[0];
    var s' := Start(s, Admitted(s.reqs[id], h, c.bs, found, popped), v);
    var fed' := fed[id := Feed(s.reqs[id].gen.tokens, Times(|found|, c.bs))];
    StartInv(c, s, h, found, v, popped);
    GrownClosed(c.bs, s.reg, v, found, popped);
    GrownGentle(s.reg.pool, v, found, popped);
    TrackedTokens(c, s.reqs[id]);
    StartReqKv(c, s.reg, s.cells, s.reqs[id], h, found, v, popped);
    forall k | 0 <= k < |s.running|
      ensures s.running[k] != id && s.running[k] in fed
      ensures ReqKv(c, s'.reg, s'.cells, s.reqs[s.running[k]], fed[s.running[k]])
    {
      StartOther(c, s, fed, h, found, v, popped, k);
    }
    forall b | 0 <= b < c.numBlocks ensures BlockKv(c, s'.reg, s'.cells, b) {
      BlockKvGentle(c, s.reg, v, s.cells, b);
    }
    StartAssemble(c, s, fed, Admitted(s.reqs[id], h, c.bs, found, popped), v, Feed(s.reqs[id].gen.tokens, Times(|found|, c.bs)));
  }

  lemma StartAssemble(c: Cfg, s: Sys, fed: map<Id, Feed>, r: Request, v: View, f: Feed)
    requires s.waiting != [] && Inv(c, s) && KvInv(c, s, fed) && Inv(c, Start(s, r, v))
    requires r.gen == s.reqs[s.waiting[0]].gen && SameOrigin(s.reqs[s.waiting[0]], r)
    requires InRange(r.kv.blockIds, c.numBlocks) && ReqKv(c, s.reg.(pool := v), s.cells, r, f)
    requires forall k :: 0 <= k < |s.running| ==> s.running[k] != s.waiting[0] && s.running[k] in fed
    requires forall k :: 0 <= k < |s.running| ==> ReqKv(c, s.reg.(pool := v), s.cells, s.reqs[s.running[k]], fed[s.running[k]])
    requires forall b :: 0 <= b < c.numBlocks ==> BlockKv(c, s.reg.(pool := v), s.cells, b)
    requires FreeClosed(c.bs, s.reg.(pool := v))
    ensures KvInv(c, Start(s, r, v), fed[s.waiting[0] := f])
  {
    var s', fed' := Start(s, r, v), fed[s.waiting[0] := f];
    forall k | 0 <= k < |s'.running|
      ensures s'.running[k] in fed' && ReqKv(c, s'.reg, s'.cells, s'.reqs[s'.running[k]], fed'[s'.running[k]])
    {
      if k < |s.running| { assert s'.running[k] == s.running[k]; } else { assert s'.running[k] == s.waiting[0]; }
    }
    Assemble(c, s', fed');
  }

  lemma StartOther(c: Cfg, s: Sys, fed: map<Id, Feed>, h: seq<Hash>, found: seq<nat>, v: View, popped: seq<nat>, k: nat)
    requires Inv(c, s) && KvInv(c, s, fed) && s.waiting != [] && k < |s.running|
    requires HashesOk(c.mix, c.bs, s.reqs[s.waiting[0]].salt, s.reqs[s.waiting[0]].gen.tokens, h)
    requires HitsOk(s.reg.pool, c.bs, s.reqs[s.waiting[0]].gen.tokens, h, found)
    requires Grown(s.reg.pool, v, found, popped)
    ensures s.running[k] != s.waiting[0] && s.running[k] in fed
    ensures ReqKv(c, s.reg.(pool := v), s.cells, s.reqs[s.running[k]], fed[s.running[k]])
  {
    GrownGentle(s.reg.pool, v, found, popped);
    HitsRegistered(c, s, h, found);
    GrownKeepsSole(c, s, k, v, found, popped);
    KeepReq(c, s, fed, k, v);
  }

  lemma HitsRegistered(c: Cfg, s: Sys, h: seq<Hash>, found: seq<nat>)
    requires Inv(c, s) && s.waiting != []
    requires HashesOk(c.mix, c.bs, s.reqs[s.waiting[0]].salt, s.reqs[s.waiting[0]].gen.tokens, h)
    requires HitsOk(s.reg.pool, c.bs, s.reqs[s.waiting[0]].gen.tokens, h, found)
    ensures forall b :: b in found ==> b < c.numBlocks && s.reg.pool.hash[b] != HASH_NONE
  {
    forall i | 0 <= i < |found| ensures s.reg.pool.hash[found[i]] != HASH_NONE {
      HashAt(c.mix, c.bs, s.reqs[s.waiting[0]].salt, s.reqs[s.waiting[0]].gen.tokens, h, i);
      assert HitIs(s.reg.pool, c.bs, s.reqs[s.waiting[0]].gen.tokens, h[i], found[i], i);
    }
  }

  lemma StartReqKv(c: Cfg, g: Registry, cells: seq<KV>, r: Request, h: seq<Hash>, found: seq<nat>, v: View, popped: seq<nat>)
    requires c.bs > 0 && HashSound(c) && TrustedAt(c, r.salt, r.gen.tokens)
    requires |g.pool.ref| == |g.pool.hash| == |g.pool.toks| == |g.chains| == c.numBlocks && RegistryKv(c, g, cells)
    requires HashesOk(c.mix, c.bs, r.salt, r.gen.tokens, h) && HitsOk(g.pool, c.bs, r.gen.tokens, h, found)
    requires Grown(g.pool, v, found, popped)
    ensures var r' := Admitted(r, h, c.bs, found, popped);
      InRange(r'.kv.blockIds, c.numBlocks) && ReqKv(c, g.(pool := v), cells, r', Feed(r.gen.tokens, Times(|found|, c.bs)))
  {
    HitReqKv(c, g, cells, r, h, found);
    var r0 := Admitted(r, h, c.bs, found, []);
    assert found + [] == found;
    forall j | 0 <= j < |found| ensures v.hash[found[j]] == g.pool.hash[found[j]] {
      assert found[j] in found;
    }
    ExtendTable(c, g.(pool := v), cells, r0, Feed(r.gen.tokens, Times(|found|, c.bs)), popped);
  }

  /** The head of the waiting queue with its block hashes brought up to date. */
  function Rehash(s: Sys, h: seq<Hash>): (s': Sys)
    requires s.waiting != [] && s.waiting[0] in s.reqs
  {
    s.(reqs := s.reqs[s.waiting[0] := s.reqs[s.waiting[0]].(hashes := h)])
  }

  // ---- giving blocks back ----

  lemma ShrunkKeepsSole(c: Cfg, s: Sys, k: nat, k': nat, v: View)
    requires Inv(c, s) && k < |s.running| && k' < |s.running| && k' != k && Shrunk(s.reg.pool, v, TableOf(s, k))
    ensures KeepsSole(c, s, k', v)
  {
    var t := TableOf(s, k');
    forall j | 0 <= j < |t| && s.reg.pool.ref[t[j]] == 1 ensures v.ref[t[j]] == 1 {
      SoleOwner(s.reqs, s.running, k', j);
      assert t[j] !in TableOf(s, k);
    }
  }

  lemma ChainStep(bs: nat, salt: Salt, toks: seq<Token>, j: nat)
    requires bs > 0 && Times(j + 1, bs) <= |toks|
    ensures |ChainOf(bs, salt, toks, j).toks| == Times(j + 1, bs) >= bs
    ensures j > 0 && Times((j - 1) + 1, bs) <= |toks| ==>
      ChainOf(bs, salt, toks, j - 1) == Parent(bs, ChainOf(bs, salt, toks, j))
  {
    var m := Times(j + 1, bs);
    assert m == Times(j, bs) + bs;
    if j > 0 { assert toks[..m][..m - bs] == toks[..m - bs]; }
  }

  lemma TableLadder(c: Cfg, g: Registry, r: Request)
    requires c.bs > 0 && |g.pool.ref| == |g.pool.hash| == |g.pool.toks| == |g.chains| == c.numBlocks
    requires InRange(r.kv.blockIds, c.numBlocks) && Table(c, g, r)
    ensures Ladder(c.bs, g, r.kv.blockIds, r.kv.numCached)
  {
    var t := r.kv.blockIds;
    forall j | 0 <= j < r.kv.numCached ensures Rung(c.bs, g, t, j) {
      assert Led(c, g, t[j], r.salt, r.gen.tokens, j);
      ChainStep(c.bs, r.salt, r.gen.tokens, j);
      if j > 0 { assert Led(c, g, t[j - 1], r.salt, r.gen.tokens, j - 1); }
    }
  }

  /** A table given back keeps the prefix closure. */
  lemma TableReturned(c: Cfg, s: Sys, fed: map<Id, Feed>, k: nat, v: View)
    requires Inv(c, s) && KvInv(c, s, fed) && k < |s.running| && Returned(s.reg.pool, v, c.caching, TableOf(s, k))
    ensures FreeClosed(c.bs, s.reg.(pool := v))
  {
    RequestLadder(c, s, fed, k);
    RegisteredCaching(c, s, fed);
    ReturnedClosed(c.bs, s.reg, v, c.caching, TableOf(s, k), s.reqs[s.running[k]].kv.numCached);
  }

  lemma RequestLadder(c: Cfg, s: Sys, fed: map<Id, Feed>, k: nat)
    requires Inv(c, s) && KvInv(c, s, fed) && k < |s.running|
    ensures InRange(TableOf(s, k), c.numBlocks) && Ladder(c.bs, s.reg, TableOf(s, k), s.reqs[s.running[k]].kv.numCached)
  {
    var r := s.reqs[s.running[k]];
    assert ReqKv(c, s.reg, s.cells, r, fed[s.running[k]]);
    TableLadder(c, s.reg, r);
  }

  lemma RegisteredCaching(c: Cfg, s: Sys, fed: map<Id, Feed>)
    requires Inv(c, s) && KvInv(c, s, fed)
    ensures c.caching || forall b :: 0 <= b < |s.reg.pool.hash| ==> s.reg.pool.hash[b] == HASH_NONE
  {
    forall b | 0 <= b < |s.reg.pool.hash| ensures c.caching || s.reg.pool.hash[b] == HASH_NONE {
      assert BlockKv(c, s.reg, s.cells, b);
    }
  }

  /** The empty system is in order. */
  lemma EmptyKv(c: Cfg, g: Registry, cells: seq<KV>)
    requires CfgOk(c) && PoolShape(c, g) && |cells| == Times(c.numBlocks, c.bs)
    requires forall b :: 0 <= b < c.numBlocks ==> g.pool.ref[b] == 0 && g.pool.hash[b] == HASH_NONE
    ensures Ok(c, Sys(g, cells, map[], [], []))
    ensures HashSound(c) ==> KvSteady(c, Sys(g, cells, map[], [], []))
  {
    var s := Sys(g, cells, map[], [], []);
    OpenOk(c, s);
    OpenKvOk(c, s, FedOf(map[]));
    assert Inv(c, s);
    forall b | 0 <= b < c.numBlocks ensures BlockKv(c, g, cells, b) && !Continues(c.bs, g, b) {
      assert g.pool.ref[b] == 0;
    }
  }

  lemma ShrunkKeeps(c: Cfg, s: Sys, fed: map<Id, Feed>, k: nat, v: View)
    requires Inv(c, s) && KvInv(c, s, fed) && k < |s.running| && Shrunk(s.reg.pool, v, TableOf(s, k))
    ensures forall k' :: 0 <= k' < |s.running| && k' != k ==>
      ReqKv(c, s.reg.(pool := v), s.cells, s.reqs[s.running[k']], fed[s.running[k']])
    ensures forall b :: 0 <= b < c.numBlocks ==> BlockKv(c, s.reg.(pool := v), s.cells, b)
  {
    forall k' | 0 <= k' < |s.running| && k' != k
      ensures ReqKv(c, s.reg.(pool := v), s.cells, s.reqs[s.running[k']], fed[s.running[k']])
    {
      ShrunkKeepsSole(c, s, k, k', v);
      KeepReq(c, s, fed, k', v);
    }
    forall b | 0 <= b < c.numBlocks ensures BlockKv(c, s.reg.(pool := v), s.cells, b) {
      BlockKvGentle(c, s.reg, v, s.cells, b);
    }
  }

  function Preempted(r: Request): (r': Request) {
    r.(kv := NO_BLOCKS, status := PREEMPTED, computed := 0)
  }

  lemma RequeueKv(c: Cfg, s: Sys, fed: map<Id, Feed>, pos: nat, v: View)
    requires Inv(c, s) && KvInv(c, s, fed) && s.running != [] && pos <= |s.waiting|
    requires Returned(s.reg.pool, v, c.caching, TableOf(s, |s.running| - 1))
    ensures var s' := Requeue(s, pos, Preempted(s.reqs[s.running[|s.running| - 1]]), v);
      Inv(c, s') && KvInv(c, s', fed)
  {
    var k := |s.running| - 1;
    var r := Preempted(s.reqs[s.running[k]]);
    RequeueOk(c, s, pos, r, v);
    TableReturned(c, s, fed, k, v);
    ShrunkKeeps(c, s, fed, k, v);
    var s' := Requeue(s, pos, r, v);
    forall i | 0 <= i < |s'.running|
      ensures s'.running[i] in fed && ReqKv(c, s'.reg, s'.cells, s'.reqs[s'.running[i]], fed[s'.running[i]])
    {
      assert s'.running[i] == s.running[i] != s.running[k];
    }
    assert Tracked(c, s.reqs[s.running[k]]);
    Assemble(c, s', fed);
  }

  function Finished(r: Request, why: FinishReason): (r': Request) {
    r.(kv := NO_BLOCKS, status := FINISHED, finish := why)
  }

  lemma LeaveReqs(c: Cfg, s: Sys, fed: map<Id, Feed>, k: nat, r: Request, v: View, i: nat)
    requires Inv(c, s) && KvInv(c, s, fed) && k < |s.running| && Shrunk(s.reg.pool, v, TableOf(s, k)) && i < |s.running| - 1
    ensures var s' := Leave(s, k, r, v); var id := s'.running[i];
      && id in s.reqs && s'.reqs[id] == s.reqs[id] && InRange(s.reqs[id].kv.blockIds, c.numBlocks)
      && id in fed && ReqKv(c, s.reg.(pool := v), s.cells, s.reqs[id], fed[id])
  {
    var k' := if i < k then i else i + 1;
    LeftAt(s.running, k, i);
    LeaveKeeps(c, s, fed, k, v, k');
  }

  lemma LeaveKeeps(c: Cfg, s: Sys, fed: map<Id, Feed>, k: nat, v: View, k': nat)
    requires Inv(c, s) && KvInv(c, s, fed) && k < |s.running| && Shrunk(s.reg.pool, v, TableOf(s, k))
    requires k' < |s.running| && k' != k
    ensures var id := s.running[k'];
      && id in s.reqs && InRange(s.reqs[id].kv.blockIds, c.numBlocks)
      && id in fed && ReqKv(c, s.reg.(pool := v), s.cells, s.reqs[id], fed[id])
  {
    ShrunkKeepsSole(c, s, k, k', v);
    KeepReq(c, s, fed, k', v);
  }

  lemma LeftAt(q: seq<Id>, k: nat, i: nat)
    requires NoDup(q) && k < |q| && i < |q| - 1
    ensures var k' := if i < k then i else i + 1; Without(q, k)[i] == q[k'] && q[k'] != q[k]
  {
  }

  /** Request k leaves with record r, which may say more than s about what it generated. */
  lemma LeaveKv(c: Cfg, s: Sys, fed: map<Id, Feed>, k: nat, r: Request, v: View)
    requires Inv(c, s) && KvInv(c, s, fed) && k < |s.running| && DoneOk(r) && HistOk(c, r)
    requires Tracked(c, r) && Returned(s.reg.pool, v, c.caching, TableOf(s, k))
    ensures Inv(c, Leave(s, k, r, v)) && KvInv(c, Leave(s, k, r, v), fed)
  {
    var s' := Leave(s, k, r, v);
    LeaveOk(c, s, k, r, v);
    TableReturned(c, s, fed, k, v);
    forall i | 0 <= i < |s'.running|
      ensures s'.running[i] in fed && ReqKv(c, s'.reg, s'.cells, s'.reqs[s'.running[i]], fed[s'.running[i]])
    {
      LeaveReqs(c, s, fed, k, r, v, i);
    }
    forall b | 0 <= b < c.numBlocks ensures BlockKv(c, s'.reg, s'.cells, b) {
      BlockKvGentle(c, s.reg, v, s.cells, b);
    }
    Assemble(c, s', fed);
  }

  lemma Assemble(c: Cfg, s: Sys, fed: map<Id, Feed>)
    requires Inv(c, s) && HashSound(c) && FreeClosed(c.bs, s.reg)
    requires forall k :: 0 <= k < |s.running| ==>
      s.running[k] in fed && ReqKv(c, s.reg, s.cells, s.reqs[s.running[k]], fed[s.running[k]])
    requires forall b :: 0 <= b < c.numBlocks ==> BlockKv(c, s.reg, s.cells, b)
    requires forall id :: id in s.reqs ==> Tracked(c, s.reqs[id])
    ensures KvInv(c, s, fed)
  {
  }

  lemma LeaveWaitingKv(c: Cfg, s: Sys, fed: map<Id, Feed>, k: nat, why: FinishReason)
    requires Inv(c, s) && KvInv(c, s, fed) && k < |s.waiting| && (why == ABORT || why == ERROR)
    ensures var s' := LeaveWaiting(s, k, Finished(s.reqs[s.waiting[k]], why));
      Inv(c, s') && KvInv(c, s', fed)
  {
    LeaveWaitingOk(c, s, k, Finished(s.reqs[s.waiting[k]], why));
    assert Tracked(c, s.reqs[s.waiting[k]]);
    FrameKv(c, s, LeaveWaiting(s, k, Finished(s.reqs[s.waiting[k]], why)), fed);
  }

  /** Records of requests that do not run may change, as long as they stay on track. */
  lemma FrameKv(c: Cfg, s: Sys, s': Sys, fed: map<Id, Feed>)
    requires Inv(c, s) && KvInv(c, s, fed) && Inv(c, s') && s'.reg == s.reg && s'.cells == s.cells && s'.running == s.running
    requires forall k :: 0 <= k < |s.running| ==> s'.reqs[s.running[k]] == s.reqs[s.running[k]]
    requires forall id :: id in s'.reqs ==> Tracked(c, s'.reqs[id])
    ensures KvInv(c, s', fed)
  {
    forall k | 0 <= k < |s.running|
      ensures s.running[k] in fed && ReqKv(c, s'.reg, s'.cells, s'.reqs[s.running[k]], fed[s.running[k]])
    {
      assert ReqKv(c, s.reg, s.cells, s.reqs[s.running[k]], fed[s.running[k]]);
    }
    Assemble(c, s', fed);
  }

  lemma JoinKv(c: Cfg, s: Sys, fed: map<Id, Feed>, pos: nat, id: Id, r: Request)
    requires Inv(c, s) && KvInv(c, s, fed) && pos <= |s.waiting| && id !in s.reqs && WaitOk(c, r) && HistOk(c, r)
    requires r.gen == r.init && Trusted(c, r.params, r.init, r.salt)
    ensures Inv(c, Join(s, pos, id, r)) && KvInv(c, Join(s, pos, id, r), fed)
  {
    OpenTracked(c, r);
    JoinOk(c, s, pos, id, r);
    FrameKv(c, s, Join(s, pos, id, r), fed);
  }

  // ---- the two invariants as closed names ----

  ghost predicate WrapOk(c: Cfg, s: Sys, n: Layers)
    decreases n
  {
    match n case Bare => Inv(c, s) && Behind(s) case Over(m) => WrapOk(c, s, m)
  }

  /** The structural invariant between steps. */
  ghost predicate Ok(c: Cfg, s: Sys) {
    WrapOk(c, s, Depth())
  }

  lemma {:induction false} UnwrapOk(c: Cfg, s: Sys, n: Layers)
    ensures WrapOk(c, s, n) <==> Inv(c, s) && Behind(s)
  {
    if n.Over? { UnwrapOk(c, s, n.under); }
  }

  lemma OpenOk(c: Cfg, s: Sys)
    ensures Ok(c, s) <==> Inv(c, s) && Behind(s)
  {
    UnwrapOk(c, s, Depth());
  }

  ghost predicate WrapKv(c: Cfg, s: Sys, fed: map<Id, Feed>, n: Layers)
    decreases n
  {
    match n case Bare => Inv(c, s) && KvInv(c, s, fed) case Over(m) => WrapKv(c, s, fed, m)
  }

  /** KV integrity while the model has been fed the given tokens. */
  ghost predicate KvOk(c: Cfg, s: Sys, fed: map<Id, Feed>) {
    WrapKv(c, s, fed, Depth())
  }

  lemma {:induction false} UnwrapKv(c: Cfg, s: Sys, fed: map<Id, Feed>, n: Layers)
    ensures WrapKv(c, s, fed, n) <==> Inv(c, s) && KvInv(c, s, fed)
  {
    if n.Over? { UnwrapKv(c, s, fed, n.under); }
  }

  lemma OpenKvOk(c: Cfg, s: Sys, fed: map<Id, Feed>)
    ensures KvOk(c, s, fed) <==> Inv(c, s) && KvInv(c, s, fed)
  {
    UnwrapKv(c, s, fed, Depth());
  }

  /** What is recorded as fed matters for running requests only. */
  lemma FedAgree(c: Cfg, s: Sys, fed: map<Id, Feed>, fed': map<Id, Feed>)
    requires KvOk(c, s, fed)
    requires forall i :: 0 <= i < |s.running| && s.running[i] in fed ==>
      s.running[i] in fed' && fed'[s.running[i]] == fed[s.running[i]]
    ensures KvOk(c, s, fed')
  {
    OpenKvOk(c, s, fed);
    OpenKvOk(c, s, fed');
  }

  lemma GrowClosed(c: Cfg, s: Sys, fed: map<Id, Feed>, k: nat, v: View, popped: seq<nat>)
    requires KvOk(c, s, fed) && k < |s.running| && Known(s.reqs, s.running) && Grown(s.reg.pool, v, [], popped)
    ensures KvOk(c, SetReq(s, s.running[k], Extended(s, k, popped), v), fed)
  {
    OpenKvOk(c, s, fed);
    GrowKv(c, s, fed, k, v, popped);
    OpenKvOk(c, SetReq(s, s.running[k], Extended(s, k, popped), v), fed);
  }

  lemma RequeueClosed(c: Cfg, s: Sys, fed: map<Id, Feed>, pos: nat, v: View)
    requires KvOk(c, s, fed) && s.running != [] && pos <= |s.waiting| && Known(s.reqs, s.running)
    requires Returned(s.reg.pool, v, c.caching, TableOf(s, |s.running| - 1))
    ensures KvOk(c, Requeue(s, pos, Preempted(s.reqs[s.running[|s.running| - 1]]), v), fed)
  {
    OpenKvOk(c, s, fed);
    RequeueKv(c, s, fed, pos, v);
    OpenKvOk(c, Requeue(s, pos, Preempted(s.reqs[s.running[|s.running| - 1]]), v), fed);
  }

  lemma StartClosed(c: Cfg, s: Sys, fed: map<Id, Feed>, h: seq<Hash>, found: seq<nat>, v: View, popped: seq<nat>)
    requires KvOk(c, s, fed) && s.waiting != [] && |s.running| < c.maxSeqs && c.bs > 0 && Known(s.reqs, s.waiting)
    requires HashesOk(c.mix, c.bs, s.reqs[s.waiting[0]].salt, s.reqs[s.waiting[0]].gen.tokens, h)
    requires HitsOk(s.reg.pool, c.bs, s.reqs[s.waiting[0]].gen.tokens, h, found)
    requires Grown(s.reg.pool, v, found, popped)
    ensures KvOk(c, Start(s, Admitted(s.reqs[s.waiting[0]], h, c.bs, found, popped), v),
                 fed[s.waiting[0] := Feed(s.reqs[s.waiting[0]].gen.tokens, Times(|found|, c.bs))])
  {
    OpenKvOk(c, s, fed);
    StartKv(c, s, fed, h, found, v, popped);
    OpenKvOk(c, Start(s, Admitted(s.reqs[s.waiting[0]], h, c.bs, found, popped), v),
             fed[s.waiting[0] := Feed(s.reqs[s.waiting[0]].gen.tokens, Times(|found|, c.bs))]);
  }

  lemma RehashClosed(c: Cfg, s: Sys, fed: map<Id, Feed>, h: seq<Hash>)
    requires KvOk(c, s, fed) && s.waiting != [] && c.bs > 0 && Known(s.reqs, s.waiting)
    requires HashesOk(c.mix, c.bs, s.reqs[s.waiting[0]].salt, s.reqs[s.waiting[0]].gen.tokens, h)
    ensures KvOk(c, Rehash(s, h), fed)
  {
    OpenKvOk(c, s, fed);
    HistRehash(c, s.reqs[s.waiting[0]], s.reqs[s.waiting[0]].(hashes := h));
    UpdateWaiting(c, s, 0, s.reqs[s.waiting[0]].(hashes := h));
    var s' := Rehash(s, h);
    assert forall k :: 0 <= k < |s.running| ==> s'.reqs[s.running[k]] == s.reqs[s.running[k]];
    assert Tracked(c, s.reqs[s.waiting[0]]);
    FrameKv(c, s, s', fed);
    OpenKvOk(c, s', fed);
  }

  /** Between steps the model has been fed nothing but the requests' own tokens. */
  ghost function FedOf(reqs: map<Id, Request>): (f: map<Id, Feed>) {
    map id | id in reqs :: Feed(reqs[id].gen.tokens, reqs[id].computed)
  }

  lemma FedUpdate(reqs: map<Id, Request>, id: Id, r: Request)
    requires id in reqs && r.gen.tokens == reqs[id].gen.tokens && r.computed == reqs[id].computed
    ensures FedOf(reqs[id := r]) == FedOf(reqs)
  {
  }

  /** KV integrity between steps. */
  ghost predicate KvSteady(c: Cfg, s: Sys) {
    KvOk(c, s, FedOf(s.reqs))
  }
}
