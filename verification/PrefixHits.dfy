/** Prefix hits are sound and complete: a lookup finds exactly the leading blocks of a prompt that are in the cache. */
module PrefixHits {
  import opened Types
  import opened PoolSpec
  import opened KvSpec
  import opened PagedKV
  import opened Serving
  import opened PrefixClosure
  import opened KvInvariant

  ghost predicate Holds(g: Registry, b: nat, ch: Chain) {
    b < |g.pool.hash| && b < |g.chains| && g.pool.hash[b] != HASH_NONE && g.chains[b] == ch
  }

  /** Block i of the prompt is in the cache, registered under the prompt's first i + 1 blocks. */
  ghost predicate InCache(bs: nat, g: Registry, salt: Salt, toks: seq<Token>, i: nat) {
    InBlocks(bs, toks, i) && exists b :: Holds(g, b, ChainOf(bs, salt, toks, i))
  }

  lemma {:induction false} HeldBy(reqs: map<Id, Request>, ids: seq<Id>, b: nat) returns (k: nat)
    requires Known(reqs, ids) && Held(reqs, ids)[b] > 0
    ensures k < |ids| && b in reqs[ids[k]].kv.blockIds
    decreases |ids|
  {
    if b in multiset(reqs[ids[|ids| - 1]].kv.blockIds) {
      k := |ids| - 1;
    } else {
      k := HeldBy(reqs, ids[..|ids| - 1], b);
    }
  }

  lemma ParentOf(mix: Mix, bs: nat, salt: Salt, toks: seq<Token>, i: nat)
    requires bs > 0 && i > 0 && InBlocks(bs, toks, i)
    ensures InBlocks(bs, toks, i - 1) && bs < |ChainOf(bs, salt, toks, i).toks|
    ensures Parent(bs, ChainOf(bs, salt, toks, i)) == ChainOf(bs, salt, toks, i - 1)
  {
    ChainOfFacts(mix, bs, salt, toks, i);
    TimesMono(1, i, bs);
  }

  lemma SameLength(bs: nat, salt: Salt, toks: seq<Token>, i: nat, salt': Salt, toks': seq<Token>, j: nat)
    requires bs > 0 && InBlocks(bs, toks, i) && InBlocks(bs, toks', j) && ChainOf(bs, salt, toks, i) == ChainOf(bs, salt', toks', j)
    ensures i == j
  {
    assert |ChainOf(bs, salt, toks, i).toks| == Times(i + 1, bs) && |ChainOf(bs, salt', toks', j).toks| == Times(j + 1, bs);
    TimesDivMod(i + 1, 0, bs);
    TimesDivMod(j + 1, 0, bs);
  }

  /** A referenced block's prefix is held by the table it is in. */
  lemma InTable(c: Cfg, s: Sys, fed: map<Id, Feed>, b: nat, salt: Salt, toks: seq<Token>, i: nat) returns (p: nat)
    requires Inv(c, s) && KvInv(c, s, fed) && b < c.numBlocks && s.reg.pool.ref[b] > 0 && i > 0 && InBlocks(c.bs, toks, i)
    requires Holds(s.reg, b, ChainOf(c.bs, salt, toks, i))
    ensures InBlocks(c.bs, toks, i - 1) && Holds(s.reg, p, ChainOf(c.bs, salt, toks, i - 1))
  {
    var k := HeldBy(s.reqs, s.running, b);
    var r := s.reqs[s.running[k]];
    assert ReqKv(c, s.reg, s.cells, r, fed[s.running[k]]);
    var j :| 0 <= j < |r.kv.blockIds| && r.kv.blockIds[j] == b;
    assert !Owned(s.reg, r.kv.blockIds[j]);
    assert Led(c, s.reg, b, r.salt, r.gen.tokens, j);
    SameLength(c.bs, salt, toks, i, r.salt, r.gen.tokens, j);
    ParentOf(c.mix, c.bs, salt, toks, i);
    ParentOf(c.mix, c.bs, r.salt, r.gen.tokens, j);
    p := r.kv.blockIds[j - 1];
    assert Led(c, s.reg, p, r.salt, r.gen.tokens, j - 1);
  }

  /** Whoever holds a prefix of i + 1 blocks has someone who holds the first i. */
  lemma ParentHeld(c: Cfg, s: Sys, fed: map<Id, Feed>, b: nat, salt: Salt, toks: seq<Token>, i: nat) returns (p: nat)
    requires Inv(c, s) && KvInv(c, s, fed) && i > 0 && InBlocks(c.bs, toks, i) && Holds(s.reg, b, ChainOf(c.bs, salt, toks, i))
    ensures InBlocks(c.bs, toks, i - 1) && Holds(s.reg, p, ChainOf(c.bs, salt, toks, i - 1))
  {
    ParentOf(c.mix, c.bs, salt, toks, i);
    if s.reg.pool.ref[b] > 0 {
      p := InTable(c, s, fed, b, salt, toks, i);
    } else {
      assert Continues(c.bs, s.reg, b);
      assert s.reg.chains[b] == ChainOf(c.bs, salt, toks, i);
      p :| Backs(c.bs, s.reg, b, p);
    }
  }

  lemma {:induction false} PrefixInCache(c: Cfg, s: Sys, fed: map<Id, Feed>, salt: Salt, toks: seq<Token>, i: nat, j: nat)
    requires Inv(c, s) && KvInv(c, s, fed) && InCache(c.bs, s.reg, salt, toks, i) && j <= i
    ensures InCache(c.bs, s.reg, salt, toks, j)
    decreases i
  {
    if j < i {
      var b: nat :| Holds(s.reg, b, ChainOf(c.bs, salt, toks, i));
      var p := ParentHeld(c, s, fed, b, salt, toks, i);
      PrefixInCache(c, s, fed, salt, toks, i - 1, j);
    }
  }

  /** The hit test at block i answers whether the block is in the cache. */
  lemma HitIffCached(c: Cfg, s: Sys, fed: map<Id, Feed>, salt: Salt, toks: seq<Token>, i: nat)
    requires Inv(c, s) && KvInv(c, s, fed) && InBlocks(c.bs, toks, i) && TrustedAt(c, salt, toks)
    ensures var ch := ChainOf(c.bs, salt, toks, i);
      NoHit(s.reg.pool, ChainHash(c.mix, c.bs, ch), BlockToks(c.bs, toks, i)) <==> !InCache(c.bs, s.reg, salt, toks, i)
  {
    var ch, v := ChainOf(c.bs, salt, toks, i), s.reg.pool;
    ChainOfFacts(c.mix, c.bs, salt, toks, i);
    if InCache(c.bs, s.reg, salt, toks, i) {
      var b: nat :| Holds(s.reg, b, ch);
      assert BlockKv(c, s.reg, s.cells, b);
    }
    if !NoHit(v, ChainHash(c.mix, c.bs, ch), BlockToks(c.bs, toks, i)) {
      var b :| 0 <= b < |v.ref| && v.hash[b] == ChainHash(c.mix, c.bs, ch) && v.toks[b] == BlockToks(c.bs, toks, i);
      assert BlockKv(c, s.reg, s.cells, b);
      assert Matches(c.mix, c.bs, s.reg.chains[b], ch);
      assert Holds(s.reg, b, ch);
    }
  }

  ghost predicate Lookable(c: Cfg, s: Sys) {
    c.bs > 0 && |s.reg.pool.ref| == |s.reg.pool.hash| == |s.reg.pool.toks|
  }

  lemma RunStep(c: Cfg, s: Sys, fed: map<Id, Feed>, salt: Salt, toks: seq<Token>, i: nat, nMax: nat)
    requires KvOk(c, s, fed) && Lookable(c, s) && TrustedAt(c, salt, toks)
    ensures CachedRun(c.mix, c.bs, s.reg.pool, salt, toks, i, nMax) ==
      if i < nMax && InCache(c.bs, s.reg, salt, toks, i) then CachedRun(c.mix, c.bs, s.reg.pool, salt, toks, i + 1, nMax) else i
  {
    OpenKvOk(c, s, fed);
    if InBlocks(c.bs, toks, i) { HitIffCached(c, s, fed, salt, toks, i); }
  }

  lemma EarlierInCache(c: Cfg, s: Sys, fed: map<Id, Feed>, salt: Salt, toks: seq<Token>, i: nat, j: nat)
    requires KvOk(c, s, fed) && c.bs > 0 && InCache(c.bs, s.reg, salt, toks, i) && j <= i
    ensures InCache(c.bs, s.reg, salt, toks, j)
  {
    OpenKvOk(c, s, fed);
    PrefixInCache(c, s, fed, salt, toks, i, j);
  }

  lemma {:induction false} RunReaches(c: Cfg, s: Sys, fed: map<Id, Feed>, salt: Salt, toks: seq<Token>, i: nat, j: nat, nMax: nat)
    requires KvOk(c, s, fed) && Lookable(c, s) && TrustedAt(c, salt, toks) && i <= j < nMax
    ensures j < CachedRun(c.mix, c.bs, s.reg.pool, salt, toks, i, nMax) <==> InCache(c.bs, s.reg, salt, toks, j)
    decreases j - i
  {
    RunStep(c, s, fed, salt, toks, i, nMax);
    if i < j {
      if InCache(c.bs, s.reg, salt, toks, j) { EarlierInCache(c, s, fed, salt, toks, j, i); }
      RunReaches(c, s, fed, salt, toks, i + 1, j, nMax);
    } else {
      RunGrows(c, s, salt, toks, i + 1, nMax);
    }
  }

  lemma {:induction false} RunGrows(c: Cfg, s: Sys, salt: Salt, toks: seq<Token>, i: nat, nMax: nat)
    requires Lookable(c, s)
    ensures CachedRun(c.mix, c.bs, s.reg.pool, salt, toks, i, nMax) >= i
    decreases if i < nMax then nMax - i else 0
  {
    if i < nMax { RunGrows(c, s, salt, toks, i + 1, nMax); }
  }

  /** In every state with KV integrity, a lookup of tokens whose prefixes the hash keeps apart passes block j exactly when
      block j's whole prefix is in the cache: nothing wrong is found, and nothing that could be reused is missed. */
  lemma LookupExact(c: Cfg, s: Sys, salt: Salt, toks: seq<Token>, j: nat, nMax: nat)
    requires KvSteady(c, s) && TrustedAt(c, salt, toks) && j < nMax
    ensures Lookable(c, s)
    ensures j < CachedRun(c.mix, c.bs, s.reg.pool, salt, toks, 0, nMax) <==> InCache(c.bs, s.reg, salt, toks, j)
  {
    OpenKvOk(c, s, FedOf(s.reqs));
    RunReaches(c, s, FedOf(s.reqs), salt, toks, 0, j, nMax);
  }

  // ---- what has been computed is found again ----

  /** Every full block of computed, real tokens counts as registered. */
  ghost predicate Stored(c: Cfg, r: Request) {
    c.caching ==> forall j: nat :: IsFull(c, r, j) ==> j < r.kv.numCached
  }

  ghost predicate IsFull(c: Cfg, r: Request, j: nat) {
    j < |r.kv.blockIds| && Times(j + 1, c.bs) <= Min(r.computed, |r.gen.tokens|)
  }

  /** It is then in the cache, under the request's own prefix. */
  lemma StoredInCache(c: Cfg, s: Sys, fed: map<Id, Feed>, k: nat, j: nat)
    requires KvOk(c, s, fed) && k < |s.running| && Known(s.reqs, s.running) && c.caching && c.bs > 0
    requires Stored(c, ReqAt(s, k)) && IsFull(c, ReqAt(s, k), j)
    ensures InCache(c.bs, s.reg, ReqAt(s, k).salt, ReqAt(s, k).gen.tokens, j)
  {
    OpenKvOk(c, s, fed);
    var r := ReqAt(s, k);
    assert ReqKv(c, s.reg, s.cells, r, fed[s.running[k]]);
    assert Led(c, s.reg, r.kv.blockIds[j], r.salt, r.gen.tokens, j);
    assert Holds(s.reg, r.kv.blockIds[j], ChainOf(c.bs, r.salt, r.gen.tokens, j));
  }

  lemma {:induction false} RunEnds(c: Cfg, s: Sys, salt: Salt, toks: seq<Token>, i: nat, nMax: nat)
    requires Lookable(c, s) && i <= nMax
    ensures CachedRun(c.mix, c.bs, s.reg.pool, salt, toks, i, nMax) <= nMax
    decreases nMax - i
  {
    if i < nMax { RunEnds(c, s, salt, toks, i + 1, nMax); }
  }

  lemma SteadyLookable(c: Cfg, s: Sys)
    requires KvSteady(c, s)
    ensures Lookable(c, s)
  {
    OpenKvOk(c, s, FedOf(s.reqs));
  }

  /** A prompt whose last block to look at is in the cache is found up to there. */
  lemma FoundToTheEnd(c: Cfg, s: Sys, salt: Salt, prompt: seq<Token>, n: nat)
    requires KvSteady(c, s) && Lookable(c, s) && c.caching && TrustedAt(c, salt, prompt) && |prompt| >= 2
    requires n == (|prompt| - 1) / c.bs && (n > 0 ==> InCache(c.bs, s.reg, salt, prompt, n - 1))
    ensures CachedTokens(c.caching, c.mix, c.bs, s.reg.pool, salt, prompt) == Times(n, c.bs)
  {
    assert CachedRun(c.mix, c.bs, s.reg.pool, salt, prompt, 0, n) == n by {
      RunEnds(c, s, salt, prompt, 0, n);
      if n > 0 { LookupExact(c, s, salt, prompt, n - 1, n); }
    }
  }

  lemma PrefixTrusted(c: Cfg, salt: Salt, toks: seq<Token>, prompt: seq<Token>)
    requires prompt <= toks && TrustedAt(c, salt, toks)
    ensures TrustedAt(c, salt, prompt)
  {
    forall i: nat | c.caching && InBlocks(c.bs, prompt, i) ensures ChainOf(c.bs, salt, prompt, i) in c.trusted {
      assert InBlocks(c.bs, toks, i) && ChainOf(c.bs, salt, prompt, i) == ChainOf(c.bs, salt, toks, i);
    }
  }

  /** A prompt that a running request begins with, and has computed short of its last token, is found as far as it may be:
      resubmitting it costs only the tokens from the last block boundary on. */
  lemma ResubmittedIsFound(c: Cfg, s: Sys, k: nat, prompt: seq<Token>, n: nat)
    requires Ok(c, s) && KvSteady(c, s) && Lookable(c, s) && c.caching && k < |s.running| && Known(s.reqs, s.running)
    requires Stored(c, ReqAt(s, k)) && 2 <= |prompt| <= ReqAt(s, k).computed + 1 && prompt <= ReqAt(s, k).gen.tokens
    requires n == (|prompt| - 1) / c.bs
    ensures CachedTokens(c.caching, c.mix, c.bs, s.reg.pool, ReqAt(s, k).salt, prompt) == Times(n, c.bs)
  {
    PromptTrusted(c, s, k, prompt);
    assert Times(n, c.bs) <= |prompt| - 1 by { DivTimes(|prompt| - 1, c.bs); }
    if n > 0 { LastBlockHeld(c, s, k, prompt, n); }
    FoundToTheEnd(c, s, ReqAt(s, k).salt, prompt, n);
  }

  lemma PromptTrusted(c: Cfg, s: Sys, k: nat, prompt: seq<Token>)
    requires KvSteady(c, s) && k < |s.running| && Known(s.reqs, s.running) && prompt <= ReqAt(s, k).gen.tokens
    ensures TrustedAt(c, ReqAt(s, k).salt, prompt)
  {
    var r := ReqAt(s, k);
    assert Tracked(c, r) by { OpenKvOk(c, s, FedOf(s.reqs)); }
    TrackedTokens(c, r);
    PrefixTrusted(c, r.salt, r.gen.tokens, prompt);
  }

  lemma LastBlockHeld(c: Cfg, s: Sys, k: nat, prompt: seq<Token>, n: nat)
    requires Ok(c, s) && KvSteady(c, s) && c.caching && k < |s.running| && Known(s.reqs, s.running) && Stored(c, ReqAt(s, k))
    requires prompt <= ReqAt(s, k).gen.tokens && n > 0 && Times(n, c.bs) <= Min(|prompt|, ReqAt(s, k).computed)
    ensures InCache(c.bs, s.reg, ReqAt(s, k).salt, prompt, n - 1)
  {
    var r := ReqAt(s, k);
    HasBlock(c, s, k, n);
    assert IsFull(c, r, n - 1);
    StoredInCache(c, s, FedOf(s.reqs), k, n - 1);
    PrefixHeld(c, s.reg, r.salt, r.gen.tokens, prompt, n - 1);
  }

  lemma HasBlock(c: Cfg, s: Sys, k: nat, n: nat)
    requires Ok(c, s) && k < |s.running| && Known(s.reqs, s.running) && Times(n, c.bs) <= ReqAt(s, k).computed && n > 0
    ensures c.bs > 0 && n <= |ReqAt(s, k).kv.blockIds|
  {
    OpenOk(c, s);
    var r := ReqAt(s, k);
    assert RunOk(c, r);
    if n > |r.kv.blockIds| { TimesMono(|r.kv.blockIds| + 1, n, c.bs); }
  }

  lemma PrefixHeld(c: Cfg, g: Registry, salt: Salt, toks: seq<Token>, prompt: seq<Token>, i: nat)
    requires prompt <= toks && InBlocks(c.bs, prompt, i) && InCache(c.bs, g, salt, toks, i)
    ensures InCache(c.bs, g, salt, prompt, i)
  {
    assert ChainOf(c.bs, salt, prompt, i) == ChainOf(c.bs, salt, toks, i);
    var b :| Holds(g, b, ChainOf(c.bs, salt, toks, i));
    assert Holds(g, b, ChainOf(c.bs, salt, prompt, i));
  }

  /** And it is still found after the request has left, as returning blocks keeps their registration. */
  lemma StaysInCache(c: Cfg, g: Registry, v: View, table: seq<nat>, salt: Salt, toks: seq<Token>, i: nat)
    requires InCache(c.bs, g, salt, toks, i) && Returned(g.pool, v, c.caching, table)
    ensures InCache(c.bs, g.(pool := v), salt, toks, i)
  {
    var b :| Holds(g, b, ChainOf(c.bs, salt, toks, i));
    assert Holds(g.(pool := v), b, ChainOf(c.bs, salt, toks, i));
  }
}
