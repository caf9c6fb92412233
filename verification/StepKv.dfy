/** KV integrity through one step: after the forward pass, while windows are counted and requests are answered. */
module StepKv {
  import opened Types
  import opened PoolSpec
  import opened KvSpec
  import opened PagedKV
  import opened Generation
  import opened Serving
  import opened KvInvariant
  import opened SchedulerSpec
  import opened Steps
  import opened Forward
  import opened Commit

  // ---- changing one running request's record ----

  /** Request k may take record r and feed f: its table is right for r, and its cells hold f. */
  ghost predicate Takes(c: Cfg, s: Sys, k: nat, r: Request, f: Feed)
    requires Inv(c, s) && k < |s.running|
  {
    && RunOk(c, r) && HistOk(c, r) && r.kv == ReqAt(s, k).kv && Tracked(c, r)
    && ReqKv(c, s.reg, s.cells, r, f)
  }

  lemma TakeKv(c: Cfg, s: Sys, fed: map<Id, Feed>, k: nat, r: Request, f: Feed)
    requires Inv(c, s) && KvInv(c, s, fed) && k < |s.running| && Takes(c, s, k, r, f)
    ensures var s' := SetAll(s, s.running[k], r, s.reg); Inv(c, s') && KvInv(c, s', fed[s.running[k] := f])
  {
    var s', fed' := SetAll(s, s.running[k], r, s.reg), fed[s.running[k] := f];
    SetInv(c, s, k, r, s.reg);
    forall k' | 0 <= k' < |s.running| ensures ReqKv(c, s'.reg, s'.cells, s'.reqs[s.running[k']], fed'[s.running[k']]) {
      if k' != k {
        assert s.running[k'] != s.running[k];
        assert ReqKv(c, s.reg, s.cells, s.reqs[s.running[k']], fed[s.running[k']]);
      }
    }
  }

  lemma TakeClosed(c: Cfg, s: Sys, fed: map<Id, Feed>, k: nat, r: Request, f: Feed)
    requires KvOk(c, s, fed) && Inv(c, s) && k < |s.running| && Takes(c, s, k, r, f)
    ensures KvOk(c, SetAll(s, s.running[k], r, s.reg), fed[s.running[k] := f])
  {
    OpenKvOk(c, s, fed);
    TakeKv(c, s, fed, k, r, f);
    OpenKvOk(c, SetAll(s, s.running[k], r, s.reg), fed[s.running[k] := f]);
  }

  // ---- counting ----

  /** The record of a scheduled request once its window is counted. */
  function Bumped(r: Request, e: Scheduled, h: seq<Hash>): (r': Request) {
    r.(computed := r.computed + e.nNew, hashes := h)
  }

  lemma BumpReq(c: Cfg, g: Registry, cells: seq<KV>, r: Request, e: Scheduled, h: seq<Hash>, f: Feed)
    requires c.bs > 0 && |g.pool.ref| == |g.pool.hash| == |g.pool.toks| == |g.chains| == c.numBlocks
    requires InRange(r.kv.blockIds, c.numBlocks) && ReqKv(c, g, cells, r, f) && r.computed + e.nNew == f.n
    ensures ReqKv(c, g, cells, Bumped(r, e, h), f) && f.n <= Times(|r.kv.blockIds|, c.bs)
  {
  }

  lemma CountKv(c: Cfg, s: Sys, fed: map<Id, Feed>, k: nat, e: Scheduled, h: seq<Hash>)
    requires KvOk(c, s, fed) && Active(c, s, k, e) && s.running[k] in fed
    requires ReqAt(s, k).computed + e.nNew == fed[s.running[k]].n
    requires HashesOk(c.mix, c.bs, ReqAt(s, k).salt, ReqAt(s, k).gen.tokens, h)
    ensures KvOk(c, SetAll(s, s.running[k], Bumped(ReqAt(s, k), e, h), s.reg), fed)
  {
    OpenKvOk(c, s, fed);
    var r, f := ReqAt(s, k), fed[s.running[k]];
    assert ReqKv(c, s.reg, s.cells, r, f);
    assert RunOk(c, r) && HistOk(c, r) && Tracked(c, r);
    BumpReq(c, s.reg, s.cells, r, e, h, f);
    HistRehash(c, r, Bumped(r, e, h));
    TakeClosed(c, s, fed, k, Bumped(r, e, h), f);
    Overwrite(fed, s.running[k], f, f);
  }

  lemma UptoFits(bs: nat, caching: bool, st: KvState, hashes: seq<Hash>, n: nat)
    requires bs > 0
    ensures Times(CacheUpto(bs, caching, st, hashes, n), bs) <= n
  {
    DivTimes(n, bs);
    TimesMono(CacheUpto(bs, caching, st, hashes, n), n / bs, bs);
  }

  /** Counting one window and registering the blocks it filled. */
  lemma AdvanceKv(c: Cfg, s: Sys, fed: map<Id, Feed>, k: nat, e: Scheduled, h: seq<Hash>, g: Registry)
    requires KvOk(c, s, fed) && Active(c, s, k, e) && s.running[k] in fed
    requires ReqAt(s, k).computed + e.nNew == fed[s.running[k]].n
    requires HashesOk(c.mix, c.bs, ReqAt(s, k).salt, ReqAt(s, k).gen.tokens, h)
    requires var r := ReqAt(s, k);
      RegisteredUpto(s.reg, g, c.caching, c.bs, r.salt, r.kv, h, r.gen.tokens, Min(r.computed + e.nNew, |r.gen.tokens|))
    ensures var r := ReqAt(s, k);
      var n := Max(r.kv.numCached, CacheUpto(c.bs, c.caching, r.kv, h, Min(r.computed + e.nNew, |r.gen.tokens|)));
      KvOk(c, SetAll(s, s.running[k], Cached(Bumped(r, e, h), n), g), fed)
  {
    var r, id := ReqAt(s, k), s.running[k];
    var r1 := Bumped(r, e, h);
    var hi := CacheUpto(c.bs, c.caching, r.kv, h, Min(r1.computed, |r.gen.tokens|));
    CountKv(c, s, fed, k, e, h);
    if hi <= r.kv.numCached {
      assert Cached(r1, r.kv.numCached) == r1;
    } else {
      UptoFits(c.bs, c.caching, r.kv, h, Min(r1.computed, |r.gen.tokens|));
      AdvanceCommit(c, s, fed, k, r1, h, hi, g);
    }
  }

  lemma AdvanceCommit(c: Cfg, s: Sys, fed: map<Id, Feed>, k: nat, r1: Request, h: seq<Hash>, hi: nat, g: Registry)
    requires k < |s.running| && KvOk(c, SetAll(s, s.running[k], r1, s.reg), fed)
    requires Commitable(c, SetAll(s, s.running[k], r1, s.reg), k, h, hi)
    requires g == RegisterRange(s.reg, c.caching, c.bs, r1.salt, r1.kv.blockIds, h, r1.gen.tokens, r1.kv.numCached, hi)
    ensures KvOk(c, SetAll(s, s.running[k], Cached(r1, hi), g), fed)
  {
    CommitUpto(c, SetAll(s, s.running[k], r1, s.reg), fed, k, h, hi, g);
    SetTwice(s, s.running[k], r1, s.reg, Cached(r1, hi), g);
  }

  lemma CommitUpto(c: Cfg, s: Sys, fed: map<Id, Feed>, k: nat, h: seq<Hash>, hi: nat, g: Registry)
    requires KvOk(c, s, fed) && Commitable(c, s, k, h, hi)
    requires var r := ReqAt(s, k);
      g == RegisterRange(s.reg, c.caching, c.bs, r.salt, r.kv.blockIds, h, r.gen.tokens, r.kv.numCached, hi)
    ensures KvOk(c, SetAll(s, s.running[k], Cached(ReqAt(s, k), hi), g), fed)
  {
    CommitKv(c, s, fed, k, h, hi);
  }

  // ---- what the requests of a step have been fed ----

  ghost predicate FedOk(s: Sys, out: seq<Scheduled>, lo: nat, hi: nat, fed: map<Id, Feed>) {
    && Known(s.reqs, s.running) && lo <= hi <= |out|
    && (forall k :: 0 <= k < |s.running| ==> s.running[k] in fed)
    && (forall i :: lo <= i < |out| ==> out[i].id in s.reqs && out[i].id in fed && out[i].nSpec <= |s.reqs[out[i].id].spec|)
    && (forall i :: lo <= i < |out| ==>
         fed[out[i].id] == Feed(FedToks(s.reqs[out[i].id], out[i]),
                                s.reqs[out[i].id].computed + (if i < hi then 0 else out[i].nNew)))
    && (forall k :: 0 <= k < |s.running| && !HasId(out, lo, |out|, s.running[k]) ==>
         fed[s.running[k]] == Feed(s.reqs[s.running[k]].gen.tokens, s.reqs[s.running[k]].computed))
  }

  /** Row j of the answer was computed from exactly the tokens and the first j drafts. */
  ghost predicate Right(r: Request, e: Scheduled, a: seq<seq<KV>>) {
    e.nSpec <= |r.spec| && forall j :: 0 <= j < |a| ==> RightRow(|r.gen.tokens|, FedToks(r, e), a[j], j)
  }

  ghost predicate RightRow(n: nat, fed: seq<Token>, row: seq<KV>, j: nat) {
    n + j <= |fed| && row == Ctx(fed)[..n + j]
  }

  ghost predicate AllRight(s: Sys, out: seq<Scheduled>, ans: Answers, lo: nat) {
    |ans| == |out| && forall i :: lo <= i < |out| ==> out[i].id in s.reqs && Right(s.reqs[out[i].id], out[i], ans[i])
  }

  ghost predicate Sound(c: Cfg, s: Sys, out: seq<Scheduled>, ans: Answers, lo: nat, hi: nat, fed: map<Id, Feed>) {
    KvOk(c, s, fed) && FedOk(s, out, lo, hi, fed) && AllRight(s, out, ans, lo)
  }

  ghost predicate WrapSound(c: Cfg, s: Sys, out: seq<Scheduled>, ans: Answers, lo: nat, hi: nat, n: Layers)
    decreases n
  {
    match n case Bare => exists fed :: Sound(c, s, out, ans, lo, hi, fed) case Over(m) => WrapSound(c, s, out, ans, lo, hi, m)
  }

  /** KV integrity in the middle of a step, closed. */
  ghost predicate KvMid(c: Cfg, s: Sys, out: seq<Scheduled>, ans: Answers, lo: nat, hi: nat) {
    WrapSound(c, s, out, ans, lo, hi, Depth())
  }

  lemma {:induction false} OpenSound(c: Cfg, s: Sys, out: seq<Scheduled>, ans: Answers, lo: nat, hi: nat, n: Layers) returns (fed: map<Id, Feed>)
    requires WrapSound(c, s, out, ans, lo, hi, n)
    ensures Sound(c, s, out, ans, lo, hi, fed)
  {
    if n.Over? {
      fed := OpenSound(c, s, out, ans, lo, hi, n.under);
    } else {
      fed :| Sound(c, s, out, ans, lo, hi, fed);
    }
  }

  lemma {:induction false} CloseSound(c: Cfg, s: Sys, out: seq<Scheduled>, ans: Answers, lo: nat, hi: nat, fed: map<Id, Feed>, n: Layers)
    requires Sound(c, s, out, ans, lo, hi, fed)
    ensures WrapSound(c, s, out, ans, lo, hi, n)
  {
    if n.Over? { CloseSound(c, s, out, ans, lo, hi, fed, n.under); }
  }

  lemma {:induction false} FedAtEntry(reqs: map<Id, Request>, out: seq<Scheduled>, m: nat, i: nat)
    requires i < m <= |out| && DistinctIds(out)
    requires forall j :: 0 <= j < |out| ==> out[j].id in reqs && out[j].nSpec <= |reqs[out[j].id].spec|
    ensures out[i].id in FedAll(reqs, out, m)
    ensures FedAll(reqs, out, m)[out[i].id] == Feed(FedToks(reqs[out[i].id], out[i]), reqs[out[i].id].computed + out[i].nNew)
    decreases m
  {
    if i < m - 1 { FedAtEntry(reqs, out, m - 1, i); }
  }

  lemma FedAllOk(c: Cfg, s: Sys, out: seq<Scheduled>)
    requires Ok(c, s) && Entries(c, s, out)
    ensures forall j :: 0 <= j < |out| ==> out[j].nSpec <= |s.reqs[out[j].id].spec|
    ensures FedOk(s, out, 0, 0, FedAll(s.reqs, out, |out|))
  {
    RunningPre(c, s);
    forall j | 0 <= j < |out| ensures out[j].nSpec <= |s.reqs[out[j].id].spec| {
      assert Entry(c, s.reqs[out[j].id], out[j].id, out[j]);
    }
    var fed := FedAll(s.reqs, out, |out|);
    forall i | 0 <= i < |out|
      ensures out[i].id in fed
      ensures fed[out[i].id] == Feed(FedToks(s.reqs[out[i].id], out[i]), s.reqs[out[i].id].computed + out[i].nNew)
    {
      FedAtEntry(s.reqs, out, |out|, i);
    }
    forall k | 0 <= k < |s.running|
      ensures s.running[k] in fed
      ensures !HasId(out, 0, |out|, s.running[k]) ==>
        fed[s.running[k]] == Feed(s.reqs[s.running[k]].gen.tokens, s.reqs[s.running[k]].computed)
    {
      if !HasId(out, 0, |out|, s.running[k]) { FedAt(s.reqs, out, |out|, s.running[k]); }
    }
  }

  // ---- logits ----

  /** The logits rows of one entry, read from the cells after the forward pass. */
  ghost function AnswerOf(cells: seq<KV>, bs: nat, r: Request, e: Scheduled): (a: seq<seq<KV>>)
    requires EntryOk(bs, r, e, |cells|) && e.nSpec < e.nNew
  {
    var n := if r.computed + e.nNew < |r.gen.tokens| then 0 else e.nSpec + 1;
    seq(n, j requires 0 <= j < n =>
      Attend(cells, EntryRow(bs, r, e, e.nNew - 1 - e.nSpec + j), r.computed + e.nNew - e.nSpec + j))
  }

  /** A row attends exactly its own prefix: never a gap, never another request's cells. */
  lemma AttendsPrefix(c: Cfg, s: Sys, fed: map<Id, Feed>, k: nat, e: Scheduled, i: nat)
    requires KvOk(c, s, fed) && Active(c, s, k, e) && i < e.nNew
    requires s.running[k] in fed && fed[s.running[k]] == Feed(FedToks(ReqAt(s, k), e), ReqAt(s, k).computed + e.nNew)
    ensures var r := ReqAt(s, k);
      && RowOk(EntryRow(c.bs, r, e, i), |s.cells|) && r.computed + i + 1 <= |FedToks(r, e)|
      && Attend(s.cells, EntryRow(c.bs, r, e, i), r.computed + i + 1) == Ctx(FedToks(r, e))[..r.computed + i + 1]
  {
    var r, f := ReqAt(s, k), fed[s.running[k]];
    OpenKvOk(c, s, fed);
    assert ReqKv(c, s.reg, s.cells, r, f);
    EntryRowFor(c, r, e, i, |s.cells|);
    HeldRow(c, s.cells, r.kv.blockIds, f.n, f.toks, EntryRow(c.bs, r, e, i), r.computed + i);
  }

  lemma HeldRow(c: Cfg, cells: seq<KV>, table: seq<nat>, n: nat, toks: seq<Token>, row: Row, p: nat)
    requires c.bs > 0 && CellsHold(c, cells, table, n, toks) && p < n && RowFor(c.bs, |cells|, table, p, row)
    ensures Attend(cells, row, p + 1) == Ctx(toks)[..p + 1]
  {
    var a := Attend(cells, row, p + 1);
    forall j | 0 <= j < p + 1 ensures a[j] == Ctx(toks)[j] {
      assert SameCell(c.bs, table, row, j) && CellHolds(c, cells, table, j, toks);
    }
  }

  lemma AnswerRight(c: Cfg, s: Sys, fed: map<Id, Feed>, k: nat, e: Scheduled)
    requires KvOk(c, s, fed) && Active(c, s, k, e) && EntryOk(c.bs, ReqAt(s, k), e, |s.cells|)
    requires s.running[k] in fed && fed[s.running[k]] == Feed(FedToks(ReqAt(s, k), e), ReqAt(s, k).computed + e.nNew)
    ensures Right(ReqAt(s, k), e, AnswerOf(s.cells, c.bs, ReqAt(s, k), e))
  {
    var r := ReqAt(s, k);
    var a := AnswerOf(s.cells, c.bs, r, e);
    forall j | 0 <= j < |a| ensures RightRow(|r.gen.tokens|, FedToks(r, e), a[j], j) {
      AnswerRow(c, s, fed, k, e, j);
    }
  }

  lemma AnswerRow(c: Cfg, s: Sys, fed: map<Id, Feed>, k: nat, e: Scheduled, j: nat)
    requires KvOk(c, s, fed) && Active(c, s, k, e) && EntryOk(c.bs, ReqAt(s, k), e, |s.cells|)
    requires s.running[k] in fed && fed[s.running[k]] == Feed(FedToks(ReqAt(s, k), e), ReqAt(s, k).computed + e.nNew)
    requires j < |AnswerOf(s.cells, c.bs, ReqAt(s, k), e)|
    ensures var r := ReqAt(s, k); RightRow(|r.gen.tokens|, FedToks(r, e), AnswerOf(s.cells, c.bs, r, e)[j], j)
  {
    AttendsPrefix(c, s, fed, k, e, e.nNew - 1 - e.nSpec + j);
  }

  lemma EntryIsOk(c: Cfg, s: Sys, out: seq<Scheduled>, i: nat)
    requires Ok(c, s) && Entries(c, s, out) && i < |out|
    ensures EntryOk(c.bs, s.reqs[out[i].id], out[i], |s.cells|) && out[i].nSpec < out[i].nNew
  {
    var k := MidActive(c, s, out, i);
    var r, e := s.reqs[out[i].id], out[i];
    forall j | 0 <= j < e.nNew ensures RowOk(EntryRow(c.bs, r, e, j), |s.cells|) { EntryRowFor(c, r, e, j, |s.cells|); }
  }

  /** The answers of a batch are what its rows read after the forward pass. */
  ghost predicate AnswersOf(c: Cfg, s: Sys, out: seq<Scheduled>, cells: seq<KV>, ans: Answers) {
    |ans| == |out| && |cells| == |s.cells| && forall i :: 0 <= i < |out| ==>
      && out[i].id in s.reqs && EntryOk(c.bs, s.reqs[out[i].id], out[i], |cells|) && out[i].nSpec < out[i].nNew
      && ans[i] == AnswerOf(cells, c.bs, s.reqs[out[i].id], out[i])
  }

  lemma ForwardRight(c: Cfg, s: Sys, out: seq<Scheduled>, cells: seq<KV>, ans: Answers, fed: map<Id, Feed>)
    requires Ok(c, s) && Entries(c, s, out) && AnswersOf(c, s, out, cells, ans)
    requires KvOk(c, s.(cells := cells), fed) && FedOk(s, out, 0, 0, fed)
    ensures AllRight(s, out, ans, 0)
  {
    forall i | 0 <= i < |out| ensures Right(s.reqs[out[i].id], out[i], ans[i]) {
      var k := MidActive(c, s, out, i);
      AnswerRight(c, s.(cells := cells), fed, k, out[i]);
    }
  }

  lemma SoundStart(c: Cfg, s: Sys, out: seq<Scheduled>, cells: seq<KV>, ans: Answers, fed: map<Id, Feed>)
    requires Ok(c, s) && Entries(c, s, out) && AnswersOf(c, s, out, cells, ans)
    requires KvOk(c, s.(cells := cells), fed) && FedOk(s, out, 0, 0, fed)
    ensures KvMid(c, s.(cells := cells), out, ans, 0, 0)
  {
    ForwardRight(c, s, out, cells, ans, fed);
    SameRecords(s, cells, out, ans, fed);
    CloseSound(c, s.(cells := cells), out, ans, 0, 0, fed, Depth());
  }

  lemma SameRecords(s: Sys, cells: seq<KV>, out: seq<Scheduled>, ans: Answers, fed: map<Id, Feed>)
    requires FedOk(s, out, 0, 0, fed) && AllRight(s, out, ans, 0)
    ensures FedOk(s.(cells := cells), out, 0, 0, fed) && AllRight(s.(cells := cells), out, ans, 0)
  {
  }

  /** After the forward pass KV integrity holds and every answer is right. */
  lemma ForwardSound(c: Cfg, s: Sys, out: seq<Scheduled>, cells: seq<KV>, ans: Answers)
    requires Ok(c, s) && Entries(c, s, out) && KvSteady(c, s) && AllReady(c.bs, s.reqs, out)
    requires RowsOk(BatchRows(c.bs, s.reqs, out, |out|), |s.cells|) && cells == Run(s.cells, BatchRows(c.bs, s.reqs, out, |out|))
    requires AnswersOf(c, s, out, cells, ans)
    ensures KvMid(c, s.(cells := cells), out, ans, 0, 0)
  {
    FedAllOk(c, s, out);
    BatchKv(c, s, out, |out|);
    SoundStart(c, s, out, cells, ans, FedAll(s.reqs, out, |out|));
  }

  // ---- transitions ----

  lemma SoundEnd(c: Cfg, s: Sys, out: seq<Scheduled>, ans: Answers)
    requires Ok(c, s) && KvMid(c, s, out, ans, |out|, |out|)
    ensures KvSteady(c, s)
  {
    var fed := OpenSound(c, s, out, ans, |out|, |out|, Depth());
    forall k | 0 <= k < |s.running| ensures fed[s.running[k]] == Feed(s.reqs[s.running[k]].gen.tokens, s.reqs[s.running[k]].computed) {
      assert !HasId(out, |out|, |out|, s.running[k]);
    }
    FedAgree(c, s, fed, FedOf(s.reqs));
  }

  lemma FedAdvance(s: Sys, out: seq<Scheduled>, hi: nat, r: Request, g: Registry, fed: map<Id, Feed>)
    requires FedOk(s, out, 0, hi, fed) && DistinctIds(out) && hi < |out|
    requires r.gen == s.reqs[out[hi].id].gen && r.spec == s.reqs[out[hi].id].spec
    requires r.computed == s.reqs[out[hi].id].computed + out[hi].nNew
    ensures FedOk(SetAll(s, out[hi].id, r, g), out, 0, hi + 1, fed)
  {
  }

  lemma RightAdvance(s: Sys, out: seq<Scheduled>, ans: Answers, lo: nat, i: nat, r: Request, g: Registry)
    requires AllRight(s, out, ans, lo) && DistinctIds(out) && lo <= i < |out|
    requires r.gen == s.reqs[out[i].id].gen && r.spec == s.reqs[out[i].id].spec
    ensures AllRight(SetAll(s, out[i].id, r, g), out, ans, lo)
  {
    forall j | lo <= j < |out| ensures Right(SetAll(s, out[i].id, r, g).reqs[out[j].id], out[j], ans[j]) {
      if out[j].id == out[i].id { RightSame(s.reqs[out[j].id], r, out[j], ans[j]); }
    }
  }

  lemma RightSame(r: Request, r': Request, e: Scheduled, a: seq<seq<KV>>)
    requires Right(r, e, a) && r'.gen == r.gen && r'.spec == r.spec
    ensures Right(r', e, a)
  {
    assert FedToks(r', e) == FedToks(r, e);
  }

  /** Counting entry hi and registering its full blocks keeps KV integrity. */
  lemma SoundAdvance(c: Cfg, s: Sys, out: seq<Scheduled>, ans: Answers, hi: nat, k: nat, h: seq<Hash>, g: Registry)
    requires KvMid(c, s, out, ans, 0, hi) && DistinctIds(out) && hi < |out|
    requires Active(c, s, k, out[hi]) && s.running[k] == out[hi].id
    requires HashesOk(c.mix, c.bs, ReqAt(s, k).salt, ReqAt(s, k).gen.tokens, h)
    requires var r := ReqAt(s, k);
      RegisteredUpto(s.reg, g, c.caching, c.bs, r.salt, r.kv, h, r.gen.tokens, Min(r.computed + out[hi].nNew, |r.gen.tokens|))
    ensures var r := ReqAt(s, k);
      var n := Max(r.kv.numCached, CacheUpto(c.bs, c.caching, r.kv, h, Min(r.computed + out[hi].nNew, |r.gen.tokens|)));
      KvMid(c, SetAll(s, out[hi].id, Cached(Bumped(r, out[hi], h), n), g), out, ans, 0, hi + 1)
  {
    var fed := OpenSound(c, s, out, ans, 0, hi, Depth());
    var r, e := ReqAt(s, k), out[hi];
    var n := Max(r.kv.numCached, CacheUpto(c.bs, c.caching, r.kv, h, Min(r.computed + e.nNew, |r.gen.tokens|)));
    AdvanceKv(c, s, fed, k, e, h, g);
    FedAdvance(s, out, hi, Cached(Bumped(r, e, h), n), g, fed);
    RightAdvance(s, out, ans, 0, hi, Cached(Bumped(r, e, h), n), g);
    CloseSound(c, SetAll(s, e.id, Cached(Bumped(r, e, h), n), g), out, ans, 0, hi + 1, fed, Depth());
  }

  lemma FedSkip(s: Sys, out: seq<Scheduled>, lo: nat, fed: map<Id, Feed>)
    requires FedOk(s, out, lo, |out|, fed) && lo < |out| && out[lo].nSpec == 0
    ensures FedOk(s, out, lo + 1, |out|, fed)
  {
    var r := s.reqs[out[lo].id];
    assert FedToks(r, out[lo]) == r.gen.tokens;
    forall k | 0 <= k < |s.running| && !HasId(out, lo + 1, |out|, s.running[k])
      ensures fed[s.running[k]] == Feed(s.reqs[s.running[k]].gen.tokens, s.reqs[s.running[k]].computed)
    {
      if s.running[k] != out[lo].id { NotLater(out, lo, s.running[k]); }
    }
  }

  lemma SoundSkip(c: Cfg, s: Sys, out: seq<Scheduled>, ans: Answers, lo: nat)
    requires KvMid(c, s, out, ans, lo, |out|) && lo < |out| && out[lo].nSpec == 0
    ensures KvMid(c, s, out, ans, lo + 1, |out|)
  {
    var fed := OpenSound(c, s, out, ans, lo, |out|, Depth());
    FedSkip(s, out, lo, fed);
    CloseSound(c, s, out, ans, lo + 1, |out|, fed, Depth());
  }

  lemma FedContinue(s: Sys, out: seq<Scheduled>, lo: nat, r: Request, fed: map<Id, Feed>)
    requires FedOk(s, out, lo, |out|, fed) && DistinctIds(out) && lo < |out|
    ensures FedOk(SetAll(s, out[lo].id, r, s.reg), out, lo + 1, |out|, fed[out[lo].id := Feed(r.gen.tokens, r.computed)])
  {
    forall k | 0 <= k < |s.running| && !HasId(out, lo + 1, |out|, s.running[k]) && s.running[k] != out[lo].id
      ensures !HasId(out, lo, |out|, s.running[k])
    {
      NotLater(out, lo, s.running[k]);
    }
  }

  /** The request's next record agrees with what was fed, as far as it counts as computed. */
  ghost predicate Follows(c: Cfg, r: Request, e: Scheduled, r': Request) {
    && e.nSpec <= |r.spec| && r'.kv == r.kv && SameOrigin(r, r') && r.gen.tokens <= r'.gen.tokens
    && |r.gen.tokens| <= r'.computed <= r.computed && r'.computed < |r'.gen.tokens| && r'.computed <= |FedToks(r, e)|
    && r'.gen.tokens[..r'.computed] == FedToks(r, e)[..r'.computed]
    && RunOk(c, r') && c.bs > 0 && HistOk(c, r') && Traced(c.env, r'.params, r'.init, r'.gen)
  }

  lemma FollowTable(c: Cfg, g: Registry, r: Request, r': Request)
    requires c.bs > 0 && |g.pool.ref| == |g.pool.hash| == |g.pool.toks| == |g.chains| == c.numBlocks
    requires InRange(r.kv.blockIds, c.numBlocks) && Table(c, g, r)
    requires r'.kv == r.kv && r'.salt == r.salt && r.gen.tokens <= r'.gen.tokens
    ensures Table(c, g, r')
  {
    var t, n := r.kv.blockIds, r.kv.numCached;
    forall j | 0 <= j < n ensures Led(c, g, t[j], r'.salt, r'.gen.tokens, j) {
      assert Led(c, g, t[j], r.salt, r.gen.tokens, j);
      var m := Times(j + 1, c.bs);
      assert r'.gen.tokens[..m] == r.gen.tokens[..m];
    }
  }

  lemma FollowCells(c: Cfg, cells: seq<KV>, table: seq<nat>, n: nat, toks: seq<Token>, n': nat, toks': seq<Token>)
    requires c.bs > 0 && CellsHold(c, cells, table, n, toks) && n' <= n && n' <= |toks'| && toks'[..n'] == toks[..n']
    ensures CellsHold(c, cells, table, n', toks')
  {
    CtxAgree(toks, toks', n');
    forall i | 0 <= i < n' ensures CellHolds(c, cells, table, i, toks') { assert CellHolds(c, cells, table, i, toks); }
  }

  lemma FollowTakes(c: Cfg, s: Sys, fed: map<Id, Feed>, k: nat, e: Scheduled, r': Request)
    requires Inv(c, s) && KvInv(c, s, fed) && k < |s.running| && Follows(c, ReqAt(s, k), e, r')
    requires fed[s.running[k]] == Feed(FedToks(ReqAt(s, k), e), ReqAt(s, k).computed)
    ensures Takes(c, s, k, r', Feed(r'.gen.tokens, r'.computed))
  {
    OpenTracked(c, ReqAt(s, k));
    OpenTracked(c, r');
    var r, f := ReqAt(s, k), fed[s.running[k]];
    assert ReqKv(c, s.reg, s.cells, r, f);
    FollowTable(c, s.reg, r, r');
    FollowCells(c, s.cells, r.kv.blockIds, f.n, f.toks, r'.computed, r'.gen.tokens);
  }

  lemma FollowKv(c: Cfg, s: Sys, fed: map<Id, Feed>, k: nat, e: Scheduled, r': Request)
    requires KvOk(c, s, fed) && k < |s.running| && Known(s.reqs, s.running) && Follows(c, ReqAt(s, k), e, r')
    requires s.running[k] in fed && fed[s.running[k]] == Feed(FedToks(ReqAt(s, k), e), ReqAt(s, k).computed)
    ensures KvOk(c, SetAll(s, s.running[k], r', s.reg), fed[s.running[k] := Feed(r'.gen.tokens, r'.computed)])
  {
    OpenKvOk(c, s, fed);
    FollowTakes(c, s, fed, k, e, r');
    TakeClosed(c, s, fed, k, r', Feed(r'.gen.tokens, r'.computed));
  }

  lemma RightLater(s: Sys, s': Sys, out: seq<Scheduled>, ans: Answers, lo: nat)
    requires AllRight(s, out, ans, lo) && lo < |out|
    requires forall i :: lo < i < |out| ==> out[i].id in s'.reqs && s'.reqs[out[i].id] == s.reqs[out[i].id]
    ensures AllRight(s', out, ans, lo + 1)
  {
    forall i | lo < i < |out| ensures Right(s'.reqs[out[i].id], out[i], ans[i]) {
      assert Right(s.reqs[out[i].id], out[i], ans[i]);
    }
  }

  /** Answering entry lo with a record that follows what was fed keeps KV integrity. */
  lemma SoundContinue(c: Cfg, s: Sys, out: seq<Scheduled>, ans: Answers, lo: nat, k: nat, r': Request)
    requires KvMid(c, s, out, ans, lo, |out|) && DistinctIds(out) && lo < |out|
    requires k < |s.running| && Known(s.reqs, s.running) && s.running[k] == out[lo].id && Follows(c, ReqAt(s, k), out[lo], r')
    ensures KvMid(c, SetAll(s, out[lo].id, r', s.reg), out, ans, lo + 1, |out|)
  {
    var fed := OpenSound(c, s, out, ans, lo, |out|, Depth());
    FollowKv(c, s, fed, k, out[lo], r');
    FedContinue(s, out, lo, r', fed);
    RightLater(s, SetAll(s, out[lo].id, r', s.reg), out, ans, lo);
    CloseSound(c, SetAll(s, out[lo].id, r', s.reg), out, ans, lo + 1, |out|, fed[out[lo].id := Feed(r'.gen.tokens, r'.computed)], Depth());
  }

  lemma FedLeave(s: Sys, out: seq<Scheduled>, lo: nat, k: nat, r: Request, v: View, fed: map<Id, Feed>)
    requires FedOk(s, out, lo, |out|, fed) && DistinctIds(out) && lo < |out| && NoDup(s.running)
    requires k < |s.running| && s.running[k] == out[lo].id
    ensures FedOk(Leave(s, k, r, v), out, lo + 1, |out|, fed)
  {
    var s' := Leave(s, k, r, v);
    forall i | 0 <= i < |s'.running|
      ensures s'.running[i] in s'.reqs && s'.running[i] in fed
      ensures !HasId(out, lo + 1, |out|, s'.running[i]) ==>
        fed[s'.running[i]] == Feed(s'.reqs[s'.running[i]].gen.tokens, s'.reqs[s'.running[i]].computed)
    {
      var i' := if i < k then i else i + 1;
      assert s'.running[i] == s.running[i'] && s.running[i'] != s.running[k];
      if !HasId(out, lo + 1, |out|, s.running[i']) { NotLater(out, lo, s.running[i']); }
    }
  }

  lemma LeaveClosed(c: Cfg, s: Sys, fed: map<Id, Feed>, k: nat, r: Request, v: View)
    requires KvOk(c, s, fed) && k < |s.running| && Known(s.reqs, s.running) && c.bs > 0 && DoneOk(r) && HistOk(c, r)
    requires Traced(c.env, r.params, r.init, r.gen) && SameOrigin(ReqAt(s, k), r)
    requires Returned(s.reg.pool, v, c.caching, TableOf(s, k))
    ensures KvOk(c, Leave(s, k, r, v), fed) && NoDup(s.running)
  {
    OpenKvOk(c, s, fed);
    OpenTracked(c, ReqAt(s, k));
    OpenTracked(c, r);
    LeaveKv(c, s, fed, k, r, v);
    OpenKvOk(c, Leave(s, k, r, v), fed);
  }

  /** Entry lo is answered for the last time and leaves. */
  lemma SoundLeave(c: Cfg, s: Sys, out: seq<Scheduled>, ans: Answers, lo: nat, k: nat, r: Request, v: View)
    requires KvMid(c, s, out, ans, lo, |out|) && DistinctIds(out) && lo < |out|
    requires k < |s.running| && Known(s.reqs, s.running) && s.running[k] == out[lo].id && c.bs > 0 && DoneOk(r) && HistOk(c, r)
    requires Traced(c.env, r.params, r.init, r.gen) && SameOrigin(ReqAt(s, k), r)
    requires Returned(s.reg.pool, v, c.caching, TableOf(s, k))
    ensures KvMid(c, Leave(s, k, r, v), out, ans, lo + 1, |out|)
  {
    var fed := OpenSound(c, s, out, ans, lo, |out|, Depth());
    LeaveClosed(c, s, fed, k, r, v);
    FedLeave(s, out, lo, k, r, v, fed);
    RightLater(s, Leave(s, k, r, v), out, ans, lo);
    CloseSound(c, Leave(s, k, r, v), out, ans, lo + 1, |out|, fed, Depth());
  }
}
