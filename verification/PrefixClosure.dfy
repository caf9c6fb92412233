/** Eviction order: the free list never loses the start of a cached prefix before its continuation. */
module PrefixClosure {
  import opened Types
  import opened PoolSpec
  import opened KvSpec
  import opened PagedKV

  /** p stands behind b, so b is evicted first. */
  ghost predicate After(free: seq<nat>, b: nat, p: nat) {
    exists i, j :: 0 <= i < j < |free| && free[i] == b && free[j] == p
  }

  ghost predicate Continues(bs: nat, g: Registry, b: nat)
    requires b < |g.pool.ref| == |g.pool.hash| == |g.chains|
  {
    g.pool.hash[b] != HASH_NONE && |g.chains[b].toks| > bs
  }

  /** p holds the prefix that b continues, and is in use or evicted later than b. */
  ghost predicate Backs(bs: nat, g: Registry, b: nat, p: nat)
    requires b < |g.pool.ref| == |g.pool.hash| == |g.chains| && Continues(bs, g, b)
  {
    && p < |g.pool.ref| && g.pool.hash[p] != HASH_NONE && g.chains[p] == Parent(bs, g.chains[b])
    && (g.pool.ref[p] > 0 || After(g.pool.free, b, p))
  }

  /** Every unreferenced registered block that continues a prefix is backed by a block of that prefix. */
  ghost predicate FreeClosed(bs: nat, g: Registry)
    requires |g.pool.ref| == |g.pool.hash| == |g.chains|
  {
    forall b {:trigger g.chains[b]} :: 0 <= b < |g.pool.ref| && g.pool.ref[b] == 0 && Continues(bs, g, b) ==> exists p :: Backs(bs, g, b, p)
  }

  // ---- order in the free list ----

  lemma AfterRemove(free: seq<nat>, x: nat, b: nat, p: nat)
    requires NoDup(free) && x in free && b != x && p != x && After(free, b, p)
    ensures After(Remove(free, x), b, p)
  {
    var i, j :| 0 <= i < j < |free| && free[i] == b && free[j] == p;
    var k: nat :| k < |free| && free[k] == x;
    RemoveSkips(free, k);
    var r := Remove(free, x);
    assert r[if i < k then i else i - 1] == b && r[if j < k then j else j - 1] == p;
  }

  lemma {:induction false} AfterTouch(v: View, hits: seq<nat>, b: nat, p: nat)
    requires PoolOk(v) && InRange(hits, |v.ref|) && b !in hits && p !in hits && After(v.free, b, p)
    ensures After(TouchAll(v, hits).free, b, p)
    decreases |hits|
  {
    if hits != [] {
      var pre, x := hits[..|hits| - 1], hits[|hits| - 1];
      AfterTouch(v, pre, b, p);
      TouchAllFacts(v, pre);
      var t := TouchAll(v, pre);
      if t.ref[x] == 0 { AfterRemove(t.free, x, b, p); }
    }
  }

  lemma AfterSuffix(front: seq<nat>, rest: seq<nat>, b: nat, p: nat)
    requires After(front + rest, b, p) && b !in front
    ensures After(rest, b, p)
  {
    var s := front + rest;
    var i, j :| 0 <= i < j < |s| && s[i] == b && s[j] == p;
    assert forall t :: 0 <= t < |front| ==> s[t] in front;
    assert rest[i - |front|] == b && rest[j - |front|] == p;
  }

  lemma AfterMiddle(u: seq<nat>, free: seq<nat>, c: seq<nat>, b: nat, p: nat)
    requires After(free, b, p) || (b in free && p in c) || After(c, b, p)
    ensures After(u + free + c, b, p)
  {
    var s := u + free + c;
    if After(free, b, p) {
      var i, j :| 0 <= i < j < |free| && free[i] == b && free[j] == p;
      assert s[|u| + i] == b && s[|u| + j] == p;
    } else if After(c, b, p) {
      var i, j :| 0 <= i < j < |c| && c[i] == b && c[j] == p;
      assert s[|u| + |free| + i] == b && s[|u| + |free| + j] == p;
    } else {
      var i :| 0 <= i < |free| && free[i] == b;
      var j :| 0 <= j < |c| && c[j] == p;
      assert s[|u| + i] == b && s[|u| + |free| + j] == p;
    }
  }

  // ---- allocation ----

  lemma GrownKeepsBacking(bs: nat, g: Registry, v: View, hits: seq<nat>, popped: seq<nat>, b: nat, p: nat)
    requires PoolOk(g.pool) && Grown(g.pool, v, hits, popped)
    requires b < |g.pool.ref| == |g.chains| && v.ref[b] == 0 && v.hash[b] != HASH_NONE
    requires Continues(bs, g, b) && Backs(bs, g, b, p)
    ensures Backs(bs, g.(pool := v), b, p)
  {
    assert b !in popped;
    assert b !in hits + popped;
    assert b !in hits;
    if g.pool.ref[p] > 0 {
      assert p !in popped;
    } else if p in hits {
      assert multiset(hits + popped)[p] > 0;
      assert p !in popped;
    } else {
      AfterTouch(g.pool, hits, b, p);
      AfterSuffix(popped, v.free, b, p);
      assert p in v.free;
    }
  }

  /** Taking hits and popping the front of the free list keeps the closure. */
  lemma GrownClosed(bs: nat, g: Registry, v: View, hits: seq<nat>, popped: seq<nat>)
    requires PoolOk(g.pool) && |g.pool.ref| == |g.chains| && FreeClosed(bs, g) && Grown(g.pool, v, hits, popped)
    ensures FreeClosed(bs, g.(pool := v))
  {
    var g' := g.(pool := v);
    forall b | 0 <= b < |v.ref| && v.ref[b] == 0 && Continues(bs, g', b) ensures exists p :: Backs(bs, g', b, p) {
      assert b !in popped && g.pool.ref[b] == 0;
      assert g.chains[b] == g'.chains[b];
      var p :| Backs(bs, g, b, p);
      GrownKeepsBacking(bs, g, v, hits, popped, b, p);
    }
  }

  // ---- release ----

  /** The released blocks that go to the front of the free list, or to its back. */
  function Leaving(r: Released, front: bool): (q: seq<nat>) { if front then r.uncached else r.cached }

  /** Blocks listed once leave in list order, at either end. */
  lemma {:induction false} ReleaseOrder(ref: seq<nat>, hash: seq<Hash>, caching: bool, order: seq<nat>, front: bool, i: nat, j: nat)
    requires |hash| == |ref| && CanRelease(ref, order) && i < j < |order|
    requires multiset(order)[order[i]] == 1 && multiset(order)[order[j]] == 1
    requires var q := Leaving(Release(ref, hash, caching, order), front); order[i] in q && order[j] in q
    ensures After(Leaving(Release(ref, hash, caching, order), front), order[i], order[j])
    decreases |order|
  {
    var n := |order| - 1;
    var pre, last, x, y := order[..n], order[n], order[i], order[j];
    LeavingGrows(ref, hash, caching, order, front);
    var q, r := Leaving(Release(ref, hash, caching, pre), front), Leaving(Release(ref, hash, caching, order), front);
    Listed(order, i);
    Listed(order, j);
    assert x in q && (j < n ==> y in q);
    if j < n {
      assert pre[i] == x && pre[j] == y;
      ReleaseOrder(ref, hash, caching, pre, front, i, j);
    }
    AfterGrows(q, r, last, x, y);
  }

  lemma AfterGrows(q: seq<nat>, r: seq<nat>, last: nat, x: nat, y: nat)
    requires (r == q || r == q + [last]) && x in q && y in r && (y in q ==> After(q, x, y)) && (y !in q ==> y == last)
    ensures After(r, x, y)
  {
    if y in q {
      var k, l :| 0 <= k < l < |q| && q[k] == x && q[l] == y;
      assert r[k] == x && r[l] == y;
    } else {
      var k :| 0 <= k < |q| && q[k] == x;
      assert r[k] == x && r[|q|] == y;
    }
  }

  /** A block listed once is either last or among the others, where it is listed once too. */
  lemma Listed(order: seq<nat>, i: nat)
    requires i < |order| && multiset(order)[order[i]] == 1
    ensures var n := |order| - 1;
      if i == n then order[i] !in order[..n] else order[i] != order[n] && multiset(order[..n])[order[i]] == 1
  {
    var n := |order| - 1;
    assert order == order[..n] + [order[n]];
    if i < n { assert order[..n][i] == order[i]; }
  }

  /** Releasing the last listed block adds it to a list or to none. */
  lemma LeavingGrows(ref: seq<nat>, hash: seq<Hash>, caching: bool, order: seq<nat>, front: bool)
    requires |hash| == |ref| && CanRelease(ref, order) && order != []
    ensures CanRelease(ref, order[..|order| - 1])
    ensures var q, r := Leaving(Release(ref, hash, caching, order[..|order| - 1]), front), Leaving(Release(ref, hash, caching, order), front);
      (r == q || r == q + [order[|order| - 1]]) && forall b :: b in q ==> b in order[..|order| - 1]
  {
    CanReleaseSplit(ref, order);
    ReleaseFacts(ref, hash, caching, order[..|order| - 1]);
  }

  /** Where returned blocks go: those that nobody references any more join the free list, unregistered ones in front of
      all that was free and registered ones behind it; nothing else moves. */
  lemma FreeLayout(v: View, caching: bool, order: seq<nat>) returns (front: seq<nat>, back: seq<nat>)
    requires |v.hash| == |v.ref| && CanRelease(v.ref, order)
    ensures var r := PoolSpec.Free(v, caching, order);
      && r.free == front + v.free + back && r.hash == v.hash && r.toks == v.toks && |r.ref| == |v.ref|
      && NoDup(front) && NoDup(back)
      && (forall b :: 0 <= b < |v.ref| ==> r.ref[b] == v.ref[b] - multiset(order)[b])
      && (forall b :: b in front <==> b in order && r.ref[b] == 0 && (v.hash[b] == HASH_NONE || !caching))
      && (forall b :: b in back <==> b in order && r.ref[b] == 0 && v.hash[b] != HASH_NONE && caching)
  {
    ReleaseFacts(v.ref, v.hash, caching, order);
    var p := Release(v.ref, v.hash, caching, order);
    front, back := p.uncached, p.cached;
  }

  ghost predicate Rung(bs: nat, g: Registry, table: seq<nat>, j: nat)
    requires |g.pool.ref| == |g.pool.hash| == |g.chains| && InRange(table, |g.pool.ref|) && j < |table|
  {
    && g.pool.hash[table[j]] != HASH_NONE && |g.chains[table[j]].toks| == Times(j + 1, bs) >= bs
    && (j > 0 ==> g.chains[table[j - 1]] == Parent(bs, g.chains[table[j]]))
  }

  /** A table whose leading n blocks are registered under successive prefixes and whose other blocks are not
      registered. */
  ghost predicate Ladder(bs: nat, g: Registry, table: seq<nat>, n: nat)
    requires |g.pool.ref| == |g.pool.hash| == |g.chains| && InRange(table, |g.pool.ref|)
  {
    && n <= |table|
    && (forall j :: 0 <= j < n ==> Rung(bs, g, table, j))
    && (forall j :: n <= j < |table| ==> g.pool.hash[table[j]] == HASH_NONE)
  }

  lemma LadderApart(bs: nat, g: Registry, table: seq<nat>, n: nat, i: nat, j: nat)
    requires bs > 0 && |g.pool.ref| == |g.pool.hash| == |g.chains| && InRange(table, |g.pool.ref|)
    requires Ladder(bs, g, table, n) && i < n && i < j < |table|
    ensures table[i] != table[j]
  {
    assert Rung(bs, g, table, i);
    if j < n {
      assert Rung(bs, g, table, j);
      StepsApart(i + 1, j + 1, bs);
    }
  }

  lemma LadderOnce(bs: nat, g: Registry, table: seq<nat>, n: nat, j: nat)
    requires bs > 0 && |g.pool.ref| == |g.pool.hash| == |g.chains| && InRange(table, |g.pool.ref|)
    requires Ladder(bs, g, table, n) && j < n
    ensures multiset(table)[table[j]] == 1
  {
    var x := table[j];
    forall i | 0 <= i < j ensures table[i] != x { LadderApart(bs, g, table, n, i, j); }
    forall i | j < i < |table| ensures table[i] != x { LadderApart(bs, g, table, n, j, i); }
    assert table == table[..j] + [x] + table[j + 1..];
    assert x !in table[..j] && x !in table[j + 1..];
  }

  lemma StepsApart(a: nat, b: nat, bs: nat)
    requires a < b && bs > 0
    ensures Times(a, bs) < Times(b, bs)
  {
    TimesMono(a + 1, b, bs);
  }

  /** The step of the ladder a continuing block stands on. */
  lemma LadderBelow(bs: nat, g: Registry, table: seq<nat>, n: nat, b: nat) returns (j: nat)
    requires bs > 0 && |g.pool.ref| == |g.pool.hash| == |g.chains| && InRange(table, |g.pool.ref|)
    requires Ladder(bs, g, table, n) && b in table && Continues(bs, g, b)
    ensures 0 < j < n && table[j] == b && g.chains[table[j - 1]] == Parent(bs, g.chains[b])
  {
    j :| 0 <= j < |table| && table[j] == b;
    assert j < n;
    assert Rung(bs, g, table, j);
    assert Times(1, bs) == bs;
  }

  /** Blocks freed together: the continuation goes in front of the prefix. */
  lemma ReturnedOrder(bs: nat, g: Registry, v: View, caching: bool, table: seq<nat>, n: nat, j: nat)
    requires bs > 0 && PoolOk(g.pool) && |g.pool.ref| == |g.chains| && InRange(table, |g.pool.ref|)
    requires Ladder(bs, g, table, n) && 0 < j < n && Returned(g.pool, v, caching, table) && caching
    requires v.ref[table[j]] == 0 && v.ref[table[j - 1]] == 0
    ensures After(v.free, table[j], table[j - 1])
  {
    var order := Reverse(table);
    var i := |table| - 1 - j;
    ReverseFacts(table);
    LadderOnce(bs, g, table, n, j);
    LadderOnce(bs, g, table, n, j - 1);
    assert Rung(bs, g, table, j) && Rung(bs, g, table, j - 1);
    assert order[i] == table[j] && order[i + 1] == table[j - 1];
    ReleaseFacts(g.pool.ref, g.pool.hash, caching, order);
    var r := Release(g.pool.ref, g.pool.hash, caching, order);
    assert order[i] in order && order[i + 1] in order;
    ReleaseOrder(g.pool.ref, g.pool.hash, caching, order, false, i, i + 1);
    AfterMiddle(r.uncached, g.pool.free, r.cached, table[j], table[j - 1]);
  }

  /** A block that was free already stays in front of a backing block, wherever that one is now. */
  lemma ReturnedKeepsBacking(bs: nat, g: Registry, v: View, caching: bool, table: seq<nat>, b: nat, p: nat)
    requires PoolOk(g.pool) && b < |g.pool.ref| == |g.chains| && Returned(g.pool, v, caching, table) && caching
    requires Continues(bs, g, b) && Backs(bs, g, b, p) && g.pool.ref[b] == 0
    ensures Backs(bs, g.(pool := v), b, p)
  {
    var order: seq<nat> := Reverse(table);
    ReleaseFacts(g.pool.ref, g.pool.hash, caching, order);
    var r := Release(g.pool.ref, g.pool.hash, caching, order);
    if v.ref[p] == 0 {
      if g.pool.ref[p] > 0 {
        assert multiset(order)[p] > 0;
        assert p in order;
        assert p in r.cached;
      }
      AfterMiddle(r.uncached, g.pool.free, r.cached, b, p);
    }
  }

  /** Giving a table back, last block first, keeps the closure. */
  lemma ReturnedClosed(bs: nat, g: Registry, v: View, caching: bool, table: seq<nat>, n: nat)
    requires bs > 0 && PoolOk(g.pool) && |g.pool.ref| == |g.chains| && InRange(table, |g.pool.ref|)
    requires FreeClosed(bs, g) && Ladder(bs, g, table, n) && Returned(g.pool, v, caching, table)
    requires caching || forall b :: 0 <= b < |g.pool.hash| ==> g.pool.hash[b] == HASH_NONE
    ensures FreeClosed(bs, g.(pool := v))
  {
    var g' := g.(pool := v);
    forall b | 0 <= b < |v.ref| && v.ref[b] == 0 && Continues(bs, g', b) ensures exists p :: Backs(bs, g', b, p) {
      assert Continues(bs, g, b);
      if g.pool.ref[b] == 0 {
        assert g.chains[b] == g'.chains[b];
        var p :| Backs(bs, g, b, p);
        ReturnedKeepsBacking(bs, g, v, caching, table, b, p);
      } else {
        assert multiset(table)[b] > 0;
        var j := LadderBelow(bs, g, table, n, b);
        assert Rung(bs, g, table, j - 1);
        if v.ref[table[j - 1]] == 0 { ReturnedOrder(bs, g, v, caching, table, n, j); }
        assert Backs(bs, g', b, table[j - 1]);
      }
    }
  }

  // ---- registration ----

  lemma RegisterClosed(bs: nat, g: Registry, caching: bool, b: nat, h: Hash, toks: seq<Token>, c: Chain)
    requires b < |g.pool.ref| == |g.pool.hash| == |g.pool.toks| == |g.chains| && h != HASH_NONE
    requires FreeClosed(bs, g) && g.pool.ref[b] > 0
    ensures FreeClosed(bs, Register(g, caching, b, h, toks, c))
  {
    var g' := Register(g, caching, b, h, toks, c);
    forall x | 0 <= x < |g'.pool.ref| && g'.pool.ref[x] == 0 && Continues(bs, g', x) ensures exists p :: Backs(bs, g', x, p) {
      assert g.chains[x] == g'.chains[x];
      var p :| Backs(bs, g, x, p);
      assert Backs(bs, g', x, p);
    }
  }
}
