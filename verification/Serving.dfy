/** The state of the serving loop as a value, and what every step keeps. */
module Serving {
  import opened Types
  import opened PoolSpec
  import opened KvSpec
  import opened PagedKV
  import opened Generation
  import opened Stopping

  type Id = nat

  /** What a request's drafter (n-gram lookup or a draft model) proposes to follow its tokens. */
  type Drafter = (Id, seq<Token>) -> seq<Token>

  datatype Status = WAITING | RUNNING | PREEMPTED | FINISHED

  /** A request; a pointer to it is its id. `init` is what was submitted, `gen` where its decode stands. */
  datatype Request = Request(
    init: Gen, params: Params, gen: Gen, status: Status, finish: FinishReason,
    computed: nat, spec: seq<Token>, kv: KvState, hashes: seq<Hash>,
    salt: Salt, priority: int, arrival: int)

  /** The engine's configuration. Nothing computes with `trusted`: it is the set of prefixes on which the block hash is
      relied on to have no collisions. */
  datatype Cfg = Cfg(
    mix: Mix, bs: nat, caching: bool, numBlocks: nat,
    maxSeqs: nat, maxBatched: nat, longThreshold: nat, chunked: bool, byPriority: bool, gather: bool, env: Env,
    ghost trusted: iset<Chain>)

  /** What engine construction establishes: the cache holds at least one context of maximal length. */
  ghost predicate CfgOk(c: Cfg) {
    c.bs > 0 && c.maxSeqs > 0 && c.maxBatched > 0 && c.env.maxLen <= Times(c.numBlocks, c.bs)
  }

  datatype Sys = Sys(reg: Registry, cells: seq<KV>, reqs: map<Id, Request>, running: seq<Id>, waiting: seq<Id>)

  // ---- references held by running requests ----

  ghost predicate Known(reqs: map<Id, Request>, ids: seq<Id>) {
    forall i :: 0 <= i < |ids| ==> ids[i] in reqs
  }

  /** All entries of the block tables of the given requests. */
  ghost function Held(reqs: map<Id, Request>, ids: seq<Id>): (m: multiset<nat>)
    requires Known(reqs, ids)
  {
    if ids == [] then multiset{} else Held(reqs, ids[..|ids| - 1]) + multiset(reqs[ids[|ids| - 1]].kv.blockIds)
  }

  lemma {:induction false} HeldConcat(reqs: map<Id, Request>, a: seq<Id>, b: seq<Id>)
    requires Known(reqs, a) && Known(reqs, b)
    ensures Known(reqs, a + b) && Held(reqs, a + b) == Held(reqs, a) + Held(reqs, b)
    decreases |b|
  {
    if b == [] {
      assert a + b == a;
    } else {
      HeldConcat(reqs, a, b[..|b| - 1]);
      assert (a + b)[..|a + b| - 1] == a + b[..|b| - 1];
    }
  }

  lemma {:induction false} HeldFrame(reqs: map<Id, Request>, reqs': map<Id, Request>, ids: seq<Id>)
    requires Known(reqs, ids) && Known(reqs', ids)
    requires forall i :: 0 <= i < |ids| ==> reqs'[ids[i]].kv.blockIds == reqs[ids[i]].kv.blockIds
    ensures Held(reqs', ids) == Held(reqs, ids)
    decreases |ids|
  {
    if ids != [] {
      HeldFrame(reqs, reqs', ids[..|ids| - 1]);
    }
  }

  /** Splitting off the k-th request's table. */
  lemma HeldSplit(reqs: map<Id, Request>, ids: seq<Id>, k: nat)
    requires Known(reqs, ids) && k < |ids|
    ensures Held(reqs, ids) == Held(reqs, ids[..k] + ids[k + 1..]) + multiset(reqs[ids[k]].kv.blockIds)
    ensures forall b: nat :: Held(reqs, ids)[b] == Held(reqs, ids[..k] + ids[k + 1..])[b] + multiset(reqs[ids[k]].kv.blockIds)[b]
  {
    var a, x, b := ids[..k], [ids[k]], ids[k + 1..];
    assert ids == (a + x) + b;
    HeldConcat(reqs, a, x);
    HeldConcat(reqs, a + x, b);
    HeldConcat(reqs, a, b);
    assert x[..0] == [];
    assert Held(reqs, x) == multiset(reqs[ids[k]].kv.blockIds);
  }

  /** Replacing the k-th request's record swaps its table's entries. */
  lemma HeldUpdate(reqs: map<Id, Request>, ids: seq<Id>, k: nat, r: Request)
    requires Known(reqs, ids) && k < |ids| && NoDup(ids)
    ensures Known(reqs[ids[k] := r], ids)
    ensures forall b: nat :: Held(reqs[ids[k] := r], ids)[b] + multiset(reqs[ids[k]].kv.blockIds)[b]
                          == Held(reqs, ids)[b] + multiset(r.kv.blockIds)[b]
  {
    var reqs' := reqs[ids[k] := r];
    var rest := ids[..k] + ids[k + 1..];
    HeldSplit(reqs, ids, k);
    HeldSplit(reqs', ids, k);
    forall i | 0 <= i < |rest| ensures rest[i] != ids[k] {
      if i < k { assert rest[i] == ids[i]; } else { assert rest[i] == ids[i + 1]; }
    }
    HeldFrame(reqs, reqs', rest);
  }

  lemma HeldMember(reqs: map<Id, Request>, ids: seq<Id>, k: nat, b: nat)
    requires Known(reqs, ids) && k < |ids| && b in reqs[ids[k]].kv.blockIds
    ensures Held(reqs, ids)[b] >= 1
  {
    HeldSplit(reqs, ids, k);
  }

  /** A block with a single reference is in one table only, and there once. */
  lemma SoleOwner(reqs: map<Id, Request>, ids: seq<Id>, k: nat, j: nat)
    requires Known(reqs, ids) && k < |ids| && j < |reqs[ids[k]].kv.blockIds|
    requires Held(reqs, ids)[reqs[ids[k]].kv.blockIds[j]] <= 1
    ensures var t := reqs[ids[k]].kv.blockIds;
      && (forall k' :: 0 <= k' < |ids| && k' != k ==> t[j] !in reqs[ids[k']].kv.blockIds)
      && (forall j' :: 0 <= j' < |t| && j' != j ==> t[j'] != t[j])
  {
    var t := reqs[ids[k]].kv.blockIds;
    var rest := ids[..k] + ids[k + 1..];
    HeldSplit(reqs, ids, k);
    assert t[j] in t;
    forall k' | 0 <= k' < |ids| && k' != k ensures t[j] !in reqs[ids[k']].kv.blockIds {
      var i := if k' < k then k' else k' - 1;
      assert rest[i] == ids[k'];
      if t[j] in reqs[ids[k']].kv.blockIds { HeldMember(reqs, rest, i, t[j]); }
    }
    assert t == t[..j] + [t[j]] + t[j + 1..];
    forall j' | 0 <= j' < |t| && j' != j ensures t[j'] != t[j] {
      if j' < j { assert t[..j][j'] == t[j']; } else { assert t[j + 1..][j' - j - 1] == t[j']; }
    }
  }

  // ---- the structural invariant (holds for any hash function) ----

  ghost predicate RunOk(c: Cfg, r: Request) {
    && r.status == RUNNING && r.finish == NONE && r.gen.reason == NONE && |r.gen.tokens| < c.env.maxLen
    && r.computed <= Times(|r.kv.blockIds|, c.bs) && r.kv.numCached <= |r.kv.blockIds|
    && InRange(r.kv.blockIds, c.numBlocks)
  }

  ghost predicate WaitOk(c: Cfg, r: Request) {
    && (r.status == WAITING || r.status == PREEMPTED) && r.finish == NONE && r.gen.reason == NONE && |r.gen.tokens| < c.env.maxLen
    && r.computed == 0 && r.kv == NO_BLOCKS && (r.status == WAITING ==> r.gen == r.init)
  }

  /** Finished requests hold no blocks; unless cut short from outside, the finish reason is the decode's own. */
  ghost predicate DoneOk(r: Request) {
    && r.status == FINISHED && r.finish != NONE && r.kv == NO_BLOCKS
    && (r.finish == ABORT || r.finish == ERROR || r.finish == r.gen.reason)
  }

  /** What a request has generated follows from its submission, and its hashes are those of its tokens. */
  ghost predicate History(c: Cfg, p: Params, init: Gen, gen: Gen, salt: Salt, hashes: seq<Hash>) {
    && c.bs > 0 && 0 < |init.tokens| <= |gen.tokens| && Logged(c.env, p, init, gen)
    && HashesOk(c.mix, c.bs, salt, gen.tokens, hashes)
  }

  ghost predicate WrapHistory(c: Cfg, p: Params, init: Gen, gen: Gen, salt: Salt, hashes: seq<Hash>, n: Layers)
    decreases n
  {
    match n case Bare => History(c, p, init, gen, salt, hashes) case Over(m) => WrapHistory(c, p, init, gen, salt, hashes, m)
  }

  /** History, closed. */
  ghost predicate HistOk(c: Cfg, r: Request) {
    WrapHistory(c, r.params, r.init, r.gen, r.salt, r.hashes, Depth())
  }

  lemma {:induction false} UnwrapHistory(c: Cfg, p: Params, init: Gen, gen: Gen, salt: Salt, hashes: seq<Hash>, n: Layers)
    ensures WrapHistory(c, p, init, gen, salt, hashes, n) <==> History(c, p, init, gen, salt, hashes)
  {
    if n.Over? { UnwrapHistory(c, p, init, gen, salt, hashes, n.under); }
  }

  lemma OpenHist(c: Cfg, r: Request)
    ensures HistOk(c, r) <==> History(c, r.params, r.init, r.gen, r.salt, r.hashes)
  {
    UnwrapHistory(c, r.params, r.init, r.gen, r.salt, r.hashes, Depth());
  }

  /** Hashes may be brought up to date. */
  lemma HistRehash(c: Cfg, r: Request, r': Request)
    requires HistOk(c, r) && c.bs > 0 && r'.params == r.params && r'.init == r.init && r'.gen == r.gen && r'.salt == r.salt
    requires HashesOk(c.mix, c.bs, r.salt, r.gen.tokens, r'.hashes)
    ensures HistOk(c, r')
  {
    OpenHist(c, r);
    OpenHist(c, r');
  }

  ghost predicate Apart(a: seq<Id>, b: seq<Id>) {
    forall i, j :: 0 <= i < |a| && 0 <= j < |b| ==> a[i] != b[j]
  }

  ghost predicate Queues(s: Sys) {
    && NoDup(s.running) && NoDup(s.waiting) && Apart(s.running, s.waiting)
    && Known(s.reqs, s.running) && Known(s.reqs, s.waiting)
  }

  ghost predicate Records(c: Cfg, s: Sys)
    requires c.bs > 0 && Known(s.reqs, s.running) && Known(s.reqs, s.waiting)
  {
    && (forall i :: 0 <= i < |s.running| ==> RunOk(c, s.reqs[s.running[i]]))
    && (forall i :: 0 <= i < |s.waiting| ==> WaitOk(c, s.reqs[s.waiting[i]]))
    && (forall id :: id in s.reqs && id !in s.running && id !in s.waiting ==> DoneOk(s.reqs[id]))
    && (forall id :: id in s.reqs ==> HistOk(c, s.reqs[id]))
  }

  ghost predicate PoolShape(c: Cfg, g: Registry) {
    PoolOk(g.pool) && |g.pool.ref| == |g.chains| == c.numBlocks
  }

  /** A block's reference count is its number of occurrences in the block tables of running requests. */
  ghost predicate Counted(c: Cfg, s: Sys)
    requires Known(s.reqs, s.running) && |s.reg.pool.ref| == c.numBlocks
  {
    forall b :: 0 <= b < c.numBlocks ==> s.reg.pool.ref[b] == Held(s.reqs, s.running)[b]
  }

  ghost predicate Inv(c: Cfg, s: Sys) {
    && CfgOk(c) && Queues(s) && |s.running| <= c.maxSeqs
    && Records(c, s) && PoolShape(c, s.reg) && Counted(c, s)
    && |s.cells| == Times(c.numBlocks, c.bs)
  }

  /** Between steps every running request has at least one token left to compute. */
  ghost predicate Behind(s: Sys)
    requires Known(s.reqs, s.running)
  {
    forall i :: 0 <= i < |s.running| ==> s.reqs[s.running[i]].computed < |s.reqs[s.running[i]].gen.tokens|
  }

  ghost function ReqAt(s: Sys, k: nat): (r: Request)
    requires k < |s.running| && Known(s.reqs, s.running)
  {
    s.reqs[s.running[k]]
  }

  ghost function TableOf(s: Sys, k: nat): (t: seq<nat>)
    requires k < |s.running| && Known(s.reqs, s.running)
  {
    s.reqs[s.running[k]].kv.blockIds
  }

  // ---- the transitions, each as one change to the records and the pool ----

  function SetReq(s: Sys, id: Id, r: Request, pool: View): (s': Sys) {
    s.(reqs := s.reqs[id := r], reg := s.reg.(pool := pool))
  }

  /** A running request changes its record, the pool's counts follow its table. */
  lemma UpdateRunning(c: Cfg, s: Sys, k: nat, r: Request, pool: View)
    requires Inv(c, s) && k < |s.running| && RunOk(c, r) && HistOk(c, r)
    requires PoolOk(pool) && |pool.ref| == c.numBlocks
    requires forall b :: 0 <= b < c.numBlocks ==>
      pool.ref[b] + multiset(s.reqs[s.running[k]].kv.blockIds)[b] == s.reg.pool.ref[b] + multiset(r.kv.blockIds)[b]
    ensures Inv(c, SetReq(s, s.running[k], r, pool))
  {
    UpdateRecords(c, s, k, r, pool);
    UpdateCounted(c, s, k, r, pool);
  }

  lemma UpdateRecords(c: Cfg, s: Sys, k: nat, r: Request, pool: View)
    requires c.bs > 0 && Queues(s) && Records(c, s) && k < |s.running| && RunOk(c, r) && HistOk(c, r)
    ensures Queues(SetReq(s, s.running[k], r, pool)) && Records(c, SetReq(s, s.running[k], r, pool))
  {
  }

  lemma UpdateCounted(c: Cfg, s: Sys, k: nat, r: Request, pool: View)
    requires Queues(s) && |s.reg.pool.ref| == |pool.ref| == c.numBlocks && Counted(c, s) && k < |s.running|
    requires forall b :: 0 <= b < c.numBlocks ==>
      pool.ref[b] + multiset(s.reqs[s.running[k]].kv.blockIds)[b] == s.reg.pool.ref[b] + multiset(r.kv.blockIds)[b]
    ensures Known(SetReq(s, s.running[k], r, pool).reqs, s.running) && Counted(c, SetReq(s, s.running[k], r, pool))
  {
    HeldUpdate(s.reqs, s.running, k, r);
  }

  /** The head of the waiting queue starts running. */
  function Start(s: Sys, r: Request, pool: View): (s': Sys)
    requires s.waiting != []
  {
    SetReq(s, s.waiting[0], r, pool).(running := s.running + [s.waiting[0]], waiting := s.waiting[1..])
  }

  lemma StartOk(c: Cfg, s: Sys, r: Request, pool: View)
    requires Inv(c, s) && s.waiting != [] && |s.running| < c.maxSeqs && RunOk(c, r) && HistOk(c, r)
    requires PoolOk(pool) && |pool.ref| == c.numBlocks
    requires forall b :: 0 <= b < c.numBlocks ==> pool.ref[b] == s.reg.pool.ref[b] + multiset(r.kv.blockIds)[b]
    ensures Inv(c, Start(s, r, pool))
  {
    StartRecords(c, s, r, pool);
    StartCounted(c, s, r, pool);
  }

  lemma StartRecords(c: Cfg, s: Sys, r: Request, pool: View)
    requires c.bs > 0 && Queues(s) && Records(c, s) && s.waiting != [] && RunOk(c, r) && HistOk(c, r)
    ensures Queues(Start(s, r, pool)) && Records(c, Start(s, r, pool))
  {
    var id, s' := s.waiting[0], Start(s, r, pool);
    assert s.waiting == [id] + s'.waiting;
    assert forall x :: x in s.waiting <==> x == id || x in s'.waiting;
    assert forall x :: x in s'.running <==> x == id || x in s.running;
  }

  lemma StartCounted(c: Cfg, s: Sys, r: Request, pool: View)
    requires Queues(s) && |s.reg.pool.ref| == |pool.ref| == c.numBlocks && Counted(c, s) && s.waiting != []
    requires forall b :: 0 <= b < c.numBlocks ==> pool.ref[b] == s.reg.pool.ref[b] + multiset(r.kv.blockIds)[b]
    ensures Known(Start(s, r, pool).reqs, Start(s, r, pool).running) && Counted(c, Start(s, r, pool))
  {
    var s' := Start(s, r, pool);
    HeldFrame(s.reqs, s'.reqs, s.running);
    assert s'.running[..|s.running|] == s.running;
    assert forall b: nat :: Held(s'.reqs, s'.running)[b] == Held(s.reqs, s.running)[b] + multiset(r.kv.blockIds)[b];
  }

  function InsertAt(q: seq<Id>, pos: nat, id: Id): (r: seq<Id>)
    requires pos <= |q|
  {
    q[..pos] + [id] + q[pos..]
  }

  lemma InsertAtFacts(q: seq<Id>, pos: nat, id: Id)
    requires pos <= |q| && NoDup(q) && id !in q
    ensures NoDup(InsertAt(q, pos, id))
    ensures forall x :: x in InsertAt(q, pos, id) <==> x == id || x in q
  {
    var r := InsertAt(q, pos, id);
    assert q == q[..pos] + q[pos..];
    forall i, j | 0 <= i < j < |r| ensures r[i] != r[j] {
      if i != pos { assert r[i] == q[if i < pos then i else i - 1]; }
      if j != pos { assert r[j] == q[if j < pos then j else j - 1]; }
    }
  }

  /** The last running request goes back to the waiting queue without its blocks. */
  function Requeue(s: Sys, pos: nat, r: Request, pool: View): (s': Sys)
    requires s.running != [] && pos <= |s.waiting|
  {
    var k := |s.running| - 1;
    SetReq(s, s.running[k], r, pool).(running := s.running[..k], waiting := InsertAt(s.waiting, pos, s.running[k]))
  }

  lemma RequeueOk(c: Cfg, s: Sys, pos: nat, r: Request, pool: View)
    requires Inv(c, s) && s.running != [] && pos <= |s.waiting| && WaitOk(c, r) && HistOk(c, r)
    requires PoolOk(pool) && |pool.ref| == c.numBlocks
    requires forall b :: 0 <= b < c.numBlocks ==>
      pool.ref[b] + multiset(TableOf(s, |s.running| - 1))[b] == s.reg.pool.ref[b]
    ensures Inv(c, Requeue(s, pos, r, pool))
  {
    RequeueRecords(c, s, pos, r, pool);
    RequeueCounted(c, s, pos, r, pool);
  }

  lemma RequeueRecords(c: Cfg, s: Sys, pos: nat, r: Request, pool: View)
    requires c.bs > 0 && Queues(s) && Records(c, s) && s.running != [] && pos <= |s.waiting|
    requires WaitOk(c, r) && HistOk(c, r)
    ensures Queues(Requeue(s, pos, r, pool)) && Records(c, Requeue(s, pos, r, pool))
  {
    RequeueQueues(s, pos, r, pool);
    var s' := Requeue(s, pos, r, pool);
    forall i | 0 <= i < |s'.waiting| ensures WaitOk(c, s'.reqs[s'.waiting[i]]) { RequeueWaits(c, s, pos, r, pool, i); }
    forall i | 0 <= i < |s'.running| ensures RunOk(c, s'.reqs[s'.running[i]]) {
      assert s'.running[i] == s.running[i] != s.running[|s.running| - 1];
    }
    forall x | x in s'.reqs && x !in s'.running && x !in s'.waiting ensures DoneOk(s'.reqs[x]) { RequeueDone(c, s, pos, r, pool, x); }
  }

  lemma RequeueWaits(c: Cfg, s: Sys, pos: nat, r: Request, pool: View, i: nat)
    requires c.bs > 0 && Queues(s) && Records(c, s) && s.running != [] && pos <= |s.waiting| && WaitOk(c, r)
    requires i < |Requeue(s, pos, r, pool).waiting|
    ensures var s' := Requeue(s, pos, r, pool); s'.waiting[i] in s'.reqs && WaitOk(c, s'.reqs[s'.waiting[i]])
  {
    var id, s' := s.running[|s.running| - 1], Requeue(s, pos, r, pool);
    InsertAtAt(s.waiting, pos, id);
    if i != pos {
      var k := if i < pos then i else i - 1;
      assert s'.waiting[i] == s.waiting[k] && WaitOk(c, s.reqs[s.waiting[k]]);
      assert s.running[|s.running| - 1] != s.waiting[k];
    }
  }

  lemma RequeueDone(c: Cfg, s: Sys, pos: nat, r: Request, pool: View, x: Id)
    requires c.bs > 0 && Queues(s) && Records(c, s) && s.running != [] && pos <= |s.waiting|
    requires var s' := Requeue(s, pos, r, pool); x in s'.reqs && x !in s'.running && x !in s'.waiting
    ensures DoneOk(Requeue(s, pos, r, pool).reqs[x])
  {
    NotMoved(s.running, s.waiting, pos, x);
  }

  // A request in neither queue after the last one of the first has moved into the second was in
  // neither before.
  lemma NotMoved(q: seq<Id>, w: seq<Id>, pos: nat, x: Id)
    requires q != [] && pos <= |w| && x !in q[..|q| - 1] && x !in InsertAt(w, pos, q[|q| - 1])
    ensures x != q[|q| - 1] && x !in q && x !in w
  {
    var id := q[|q| - 1];
    assert InsertAt(w, pos, id)[pos] == id;
    assert q == q[..|q| - 1] + [id];
    assert w == w[..pos] + w[pos..];
  }

  lemma RequeueQueues(s: Sys, pos: nat, r: Request, pool: View)
    requires Queues(s) && s.running != [] && pos <= |s.waiting|
    ensures Queues(Requeue(s, pos, r, pool))
  {
    var id, s' := s.running[|s.running| - 1], Requeue(s, pos, r, pool);
    assert forall j :: 0 <= j < |s.waiting| ==> s.waiting[j] != id;
    InsertAtFacts(s.waiting, pos, id);
    InsertAtAt(s.waiting, pos, id);
    forall i, j | 0 <= i < |s'.running| && 0 <= j < |s'.waiting| ensures s'.running[i] != s'.waiting[j] {
      if j != pos { assert s'.waiting[j] == s.waiting[if j < pos then j else j - 1]; }
    }
    forall j | 0 <= j < |s'.waiting| ensures s'.waiting[j] in s'.reqs {
      if j != pos { assert s'.waiting[j] == s.waiting[if j < pos then j else j - 1]; }
    }
  }

  lemma InsertAtAt(q: seq<Id>, pos: nat, id: Id)
    requires pos <= |q|
    ensures |InsertAt(q, pos, id)| == |q| + 1 && InsertAt(q, pos, id)[pos] == id
    ensures forall i :: 0 <= i < pos ==> InsertAt(q, pos, id)[i] == q[i]
    ensures forall i :: pos < i <= |q| ==> InsertAt(q, pos, id)[i] == q[i - 1]
  {
  }

  lemma RequeueCounted(c: Cfg, s: Sys, pos: nat, r: Request, pool: View)
    requires Queues(s) && |s.reg.pool.ref| == |pool.ref| == c.numBlocks && Counted(c, s)
    requires s.running != [] && pos <= |s.waiting|
    requires forall b :: 0 <= b < c.numBlocks ==>
      pool.ref[b] + multiset(TableOf(s, |s.running| - 1))[b] == s.reg.pool.ref[b]
    ensures Known(Requeue(s, pos, r, pool).reqs, Requeue(s, pos, r, pool).running) && Counted(c, Requeue(s, pos, r, pool))
  {
    var s' := Requeue(s, pos, r, pool);
    HeldFrame(s.reqs, s'.reqs, s'.running);
    assert forall b: nat :: Held(s.reqs, s.running)[b] == Held(s'.reqs, s'.running)[b] + multiset(TableOf(s, |s.running| - 1))[b];
  }

  function Without(q: seq<Id>, k: nat): (r: seq<Id>)
    requires k < |q|
  {
    q[..k] + q[k + 1..]
  }

  lemma WithoutFacts(q: seq<Id>, k: nat)
    requires k < |q| && NoDup(q)
    ensures NoDup(Without(q, k))
    ensures forall x :: x in Without(q, k) <==> x in q && x != q[k]
  {
    var r := Without(q, k);
    forall x | x in q && x != q[k] ensures x in r {
      var i :| 0 <= i < |q| && q[i] == x;
      assert r[if i < k then i else i - 1] == x;
    }
  }

  /** A running request leaves for good. */
  function Leave(s: Sys, k: nat, r: Request, pool: View): (s': Sys)
    requires k < |s.running|
  {
    SetReq(s, s.running[k], r, pool).(running := Without(s.running, k))
  }

  lemma LeaveOk(c: Cfg, s: Sys, k: nat, r: Request, pool: View)
    requires Inv(c, s) && k < |s.running| && DoneOk(r) && HistOk(c, r)
    requires PoolOk(pool) && |pool.ref| == c.numBlocks
    requires forall b :: 0 <= b < c.numBlocks ==> pool.ref[b] + multiset(TableOf(s, k))[b] == s.reg.pool.ref[b]
    ensures Inv(c, Leave(s, k, r, pool))
  {
    LeaveRecords(c, s, k, r, pool);
    LeaveCounted(c, s, k, r, pool);
  }

  lemma LeaveRecords(c: Cfg, s: Sys, k: nat, r: Request, pool: View)
    requires c.bs > 0 && Queues(s) && Records(c, s) && k < |s.running| && DoneOk(r) && HistOk(c, r)
    ensures Queues(Leave(s, k, r, pool)) && Records(c, Leave(s, k, r, pool))
  {
    var s' := Leave(s, k, r, pool);
    WithoutFacts(s.running, k);
    assert forall i :: 0 <= i < |s'.running| ==> s'.running[i] in s'.running;
  }

  lemma LeaveCounted(c: Cfg, s: Sys, k: nat, r: Request, pool: View)
    requires Queues(s) && |s.reg.pool.ref| == |pool.ref| == c.numBlocks && Counted(c, s) && k < |s.running|
    requires forall b :: 0 <= b < c.numBlocks ==> pool.ref[b] + multiset(TableOf(s, k))[b] == s.reg.pool.ref[b]
    ensures Known(Leave(s, k, r, pool).reqs, Leave(s, k, r, pool).running) && Counted(c, Leave(s, k, r, pool))
  {
    var s' := Leave(s, k, r, pool);
    HeldSplit(s.reqs, s.running, k);
    HeldFrame(s.reqs, s'.reqs, s'.running);
  }

  /** A waiting request leaves for good. */
  function LeaveWaiting(s: Sys, k: nat, r: Request): (s': Sys)
    requires k < |s.waiting|
  {
    s.(reqs := s.reqs[s.waiting[k] := r], waiting := Without(s.waiting, k))
  }

  lemma LeaveWaitingOk(c: Cfg, s: Sys, k: nat, r: Request)
    requires Inv(c, s) && k < |s.waiting| && DoneOk(r) && HistOk(c, r)
    ensures Inv(c, LeaveWaiting(s, k, r))
  {
    var id, s' := s.waiting[k], LeaveWaiting(s, k, r);
    WithoutFacts(s.waiting, k);
    assert forall i :: 0 <= i < |s'.waiting| ==> s'.waiting[i] in s'.waiting;
    HeldFrame(s.reqs, s'.reqs, s.running);
    assert Queues(s');
    assert Records(c, s');
    assert Counted(c, s');
  }

  /** A new request joins the waiting queue. */
  function Join(s: Sys, pos: nat, id: Id, r: Request): (s': Sys)
    requires pos <= |s.waiting|
  {
    s.(reqs := s.reqs[id := r], waiting := InsertAt(s.waiting, pos, id))
  }

  lemma JoinOk(c: Cfg, s: Sys, pos: nat, id: Id, r: Request)
    requires Inv(c, s) && pos <= |s.waiting| && id !in s.reqs && WaitOk(c, r) && HistOk(c, r)
    ensures Inv(c, Join(s, pos, id, r))
  {
    var s' := Join(s, pos, id, r);
    assert id !in s.waiting;
    InsertAtFacts(s.waiting, pos, id);
    assert forall i :: 0 <= i < |s'.waiting| ==> s'.waiting[i] in s'.waiting;
    HeldFrame(s.reqs, s'.reqs, s.running);
    assert Queues(s');
    assert Records(c, s');
    assert Counted(c, s');
  }

  /** A waiting request's record changes without touching the pool. */
  lemma UpdateWaiting(c: Cfg, s: Sys, k: nat, r: Request)
    requires Inv(c, s) && k < |s.waiting| && WaitOk(c, r) && HistOk(c, r)
    ensures Inv(c, s.(reqs := s.reqs[s.waiting[k] := r]))
  {
    var s' := s.(reqs := s.reqs[s.waiting[k] := r]);
    HeldFrame(s.reqs, s'.reqs, s.running);
    assert Records(c, s');
    assert Counted(c, s');
  }

  /** The tables' references are there to be released. */
  lemma Releasable(c: Cfg, s: Sys, k: nat)
    requires Inv(c, s) && k < |s.running|
    ensures CanRelease(s.reg.pool.ref, s.reqs[s.running[k]].kv.blockIds)
  {
    HeldSplit(s.reqs, s.running, k);
  }

  /** Blocks of running requests are referenced, so never in the free list. */
  lemma RunningRef(c: Cfg, s: Sys, k: nat, j: nat)
    requires Inv(c, s) && k < |s.running| && j < |s.reqs[s.running[k]].kv.blockIds|
    ensures var b := s.reqs[s.running[k]].kv.blockIds[j];
      b < c.numBlocks && s.reg.pool.ref[b] > 0 && b !in s.reg.pool.free
  {
    var b := s.reqs[s.running[k]].kv.blockIds[j];
    HeldMember(s.reqs, s.running, k, b);
  }
}
