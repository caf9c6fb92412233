/** A step in progress: the structural invariant, the ledger and KV integrity, carried together from the forward pass
    to the last answer. */
module Turn {
  import opened Types
  import opened PoolSpec
  import opened KvSpec
  import opened PagedKV
  import opened Generation
  import opened Stopping
  import opened Serving
  import opened KvInvariant
  import opened PrefixHits
  import opened SchedulerSpec
  import opened Steps
  import opened Forward
  import opened Commit
  import opened StepKv
  import opened Progress
  import opened Speculation
  import opened Tally

  /** From scheduled state s0 to s: entries before lo are answered, entries before hi are counted. */
  ghost predicate During(c: Cfg, s0: Sys, s: Sys, out: seq<Scheduled>, ans: Answers, draft: Drafter, lo: nat, hi: nat) {
    && Middle(c, s, out, ans, lo, hi) && Booked(s0, s, out, lo, hi) && Tallied(s0, s, out, draft, lo)
    && (KvSteady(c, s0) ==> KvMid(c, s, out, ans, lo, hi))
  }

  // ---- after the forward pass ----

  lemma AskedByRows(c: Cfg, s: Sys, out: seq<Scheduled>, cells: seq<KV>, ans: Answers, i: nat)
    requires AnswersOf(c, s, out, cells, ans) && i < |out|
    ensures Asked(s.reqs[out[i].id], out[i], s.reqs[out[i].id].computed + out[i].nNew, ans[i])
  {
  }

  lemma TurnStart(c: Cfg, s: Sys, out: seq<Scheduled>, cells: seq<KV>, ans: Answers, draft: Drafter)
    requires Ok(c, s) && Entries(c, s, out) && AllReady(c.bs, s.reqs, out)
    requires RowsOk(BatchRows(c.bs, s.reqs, out, |out|), |s.cells|) && cells == Run(s.cells, BatchRows(c.bs, s.reqs, out, |out|))
    requires AnswersOf(c, s, out, cells, ans)
    ensures During(c, s, s.(cells := cells), out, ans, draft, 0, 0)
  {
    var s' := s.(cells := cells);
    CellsOk(c, s, out, cells);
    forall i | 0 <= i < |out| ensures Asked(s'.reqs[out[i].id], out[i], s'.reqs[out[i].id].computed + out[i].nNew, ans[i]) {
      AskedByRows(c, s, out, cells, ans, i);
    }
    MidStart(c, s', out, ans);
    CloseMid(c, s', out, ans, 0, 0, Depth());
    LedgerStart(c, s, out, cells);
    TallyStart(s, s', out, draft);
    if KvSteady(c, s) { ForwardSound(c, s, out, cells, ans); }
  }

  lemma CellsOk(c: Cfg, s: Sys, out: seq<Scheduled>, cells: seq<KV>)
    requires Ok(c, s) && Entries(c, s, out) && |cells| == |s.cells|
    ensures Ok(c, s.(cells := cells)) && Entries(c, s.(cells := cells), out)
  {
    OpenOk(c, s);
    OpenOk(c, s.(cells := cells));
  }

  // ---- counting ----

  lemma CountPre(c: Cfg, s: Sys, out: seq<Scheduled>, ans: Answers, hi: nat) returns (k: nat)
    requires Middle(c, s, out, ans, 0, hi) && hi < |out|
    ensures DistinctIds(out) && Active(c, s, k, out[hi]) && s.running[k] == out[hi].id
    ensures var r := ReqAt(s, k);
      && HashesOk(c.mix, c.bs, r.salt, r.gen.tokens, r.hashes) && |s.reg.pool.ref| == c.numBlocks && r.status == RUNNING
  {
    OpenMid(c, s, out, ans, 0, hi, Depth());
    k := IndexIn(s.running, out[hi].id);
    assert Entry(c, s.reqs[out[hi].id], out[hi].id, out[hi]);
    EntryReady(c, s.reqs[out[hi].id], out[hi].id, out[hi]);
    OpenHist(c, s.reqs[out[hi].id]);
  }

  ghost function CountedReq(c: Cfg, r: Request, e: Scheduled, h: seq<Hash>): (r': Request)
    requires c.bs > 0
  {
    Cached(Bumped(r, e, h), Max(r.kv.numCached, CacheUpto(c.bs, c.caching, r.kv, h, Min(r.computed + e.nNew, |r.gen.tokens|))))
  }

  /** All full blocks of a counted request are registered, once its hashes are up to date. */
  lemma CountedStored(c: Cfg, r: Request, e: Scheduled, h: seq<Hash>)
    requires c.bs > 0 && |h| == |r.gen.tokens| / c.bs
    ensures Stored(c, CountedReq(c, r, e, h))
  {
    var r' := CountedReq(c, r, e, h);
    var n := Min(r.computed + e.nNew, |r.gen.tokens|);
    forall j: nat | c.caching && IsFull(c, r', j) ensures j < r'.kv.numCached {
      DivTimes(|r.gen.tokens|, c.bs);
      if j >= |h| { TimesMono(|h| + 1, j + 1, c.bs); }
      UptoIff(c.bs, r.kv, h, n, j);
    }
  }

  lemma {:induction false} RegisterPool(g: Registry, caching: bool, bs: nat, salt: Salt, table: seq<nat>, hashes: seq<Hash>, toks: seq<Token>, lo: nat, hi: nat)
    requires Registrable(g, bs, table, hashes, toks, hi) && PoolOk(g.pool)
    ensures PoolOk(RegisterRange(g, caching, bs, salt, table, hashes, toks, lo, hi).pool)
  {
  }

  lemma CountedOk(c: Cfg, r: Request, e: Scheduled, h: seq<Hash>)
    requires c.bs > 0 && RunOk(c, r) && HistOk(c, r) && Entry(c, r, e.id, e) && HashesOk(c.mix, c.bs, r.salt, r.gen.tokens, h)
    ensures RunOk(c, CountedReq(c, r, e, h)) && HistOk(c, CountedReq(c, r, e, h))
  {
    HistRehash(c, r, CountedReq(c, r, e, h));
  }

  lemma CountedPool(c: Cfg, g: Registry, r: Request, e: Scheduled, h: seq<Hash>, g': Registry)
    requires c.bs > 0 && PoolOk(g.pool)
    requires RegisteredUpto(g, g', c.caching, c.bs, r.salt, r.kv, h, r.gen.tokens, Min(r.computed + e.nNew, |r.gen.tokens|))
    ensures PoolOk(g'.pool) && |g'.chains| == |g.chains| && g'.pool.ref == g.pool.ref
  {
    RegisterPool(g, c.caching, c.bs, r.salt, r.kv.blockIds, h, r.gen.tokens, r.kv.numCached,
                 CacheUpto(c.bs, c.caching, r.kv, h, Min(r.computed + e.nNew, |r.gen.tokens|)));
  }

  lemma CountMid(c: Cfg, s: Sys, out: seq<Scheduled>, ans: Answers, hi: nat, k: nat, h: seq<Hash>, g: Registry)
    requires Middle(c, s, out, ans, 0, hi) && hi < |out| && Active(c, s, k, out[hi]) && s.running[k] == out[hi].id
    requires HashesOk(c.mix, c.bs, ReqAt(s, k).salt, ReqAt(s, k).gen.tokens, h)
    requires var r := ReqAt(s, k);
      RegisteredUpto(s.reg, g, c.caching, c.bs, r.salt, r.kv, h, r.gen.tokens, Min(r.computed + out[hi].nNew, |r.gen.tokens|))
    ensures Middle(c, SetAll(s, out[hi].id, CountedReq(c, ReqAt(s, k), out[hi], h), g), out, ans, 0, hi + 1)
  {
    OpenMid(c, s, out, ans, 0, hi, Depth());
    var r, e := ReqAt(s, k), out[hi];
    assert Entry(c, r, e.id, e) && RunOk(c, r) && HistOk(c, r);
    CountedOk(c, r, e, h);
    CountedPool(c, s.reg, r, e, h, g);
    MidAdvance(c, s, out, ans, hi, CountedReq(c, r, e, h), g);
    CloseMid(c, SetAll(s, e.id, CountedReq(c, r, e, h), g), out, ans, 0, hi + 1, Depth());
  }

  /** Counting entry hi. */
  lemma TurnCount(c: Cfg, s0: Sys, s: Sys, out: seq<Scheduled>, ans: Answers, draft: Drafter, hi: nat, k: nat, h: seq<Hash>, g: Registry)
    requires During(c, s0, s, out, ans, draft, 0, hi) && hi < |out| && DistinctIds(out)
    requires Active(c, s, k, out[hi]) && s.running[k] == out[hi].id && ReqAt(s, k).status == RUNNING
    requires HashesOk(c.mix, c.bs, ReqAt(s, k).salt, ReqAt(s, k).gen.tokens, h)
    requires var r := ReqAt(s, k);
      RegisteredUpto(s.reg, g, c.caching, c.bs, r.salt, r.kv, h, r.gen.tokens, Min(r.computed + out[hi].nNew, |r.gen.tokens|))
    ensures During(c, s0, SetAll(s, out[hi].id, CountedReq(c, ReqAt(s, k), out[hi], h), g), out, ans, draft, 0, hi + 1)
  {
    CountMid(c, s, out, ans, hi, k, h, g);
    LedgerAdvance(s0, s, out, hi, CountedReq(c, ReqAt(s, k), out[hi], h), g);
    TallyCount(s0, s, SetAll(s, out[hi].id, CountedReq(c, ReqAt(s, k), out[hi], h), g), out, draft, hi,
               CountedReq(c, ReqAt(s, k), out[hi], h));
    if KvSteady(c, s0) { SoundAdvance(c, s, out, ans, hi, k, h, g); }
  }

  // ---- answering ----

  lemma AnswerPre(c: Cfg, s: Sys, out: seq<Scheduled>, ans: Answers, lo: nat) returns (k: nat)
    requires Middle(c, s, out, ans, lo, |out|) && lo < |out|
    ensures DistinctIds(out) && k < |s.running| && s.running[k] == out[lo].id && Known(s.reqs, s.running) && |ans| == |out|
    ensures var r := ReqAt(s, k);
      && c.bs > 0 && RunOk(c, r) && HistOk(c, r) && Due(c, r, out[lo]) && Asked(r, out[lo], r.computed, ans[lo])
    ensures PoolOk(s.reg.pool) && CanRelease(s.reg.pool.ref, TableOf(s, k))
  {
    OpenMid(c, s, out, ans, lo, |out|, Depth());
    k := IndexIn(s.running, out[lo].id);
    Releasable(c, s, k);
  }

  /** A window that ends inside the known tokens is answered with nothing. */
  lemma TurnSkip(c: Cfg, s0: Sys, s: Sys, out: seq<Scheduled>, ans: Answers, draft: Drafter, lo: nat, k: nat)
    requires During(c, s0, s, out, ans, draft, lo, |out|) && lo < |out| && DistinctIds(out)
    requires k < |s.running| && Known(s.reqs, s.running) && s.running[k] == out[lo].id
    requires var r := ReqAt(s, k); r.status == RUNNING && Due(c, r, out[lo]) && r.computed < |r.gen.tokens|
    ensures During(c, s0, s, out, ans, draft, lo + 1, |out|)
  {
    OpenMid(c, s, out, ans, lo, |out|, Depth());
    MidSkip(c, s, out, ans, lo);
    CloseMid(c, s, out, ans, lo + 1, |out|, Depth());
    ShrinksSelf(Line(s));
    LedgerAnswer(s0, s, s, out, lo);
    TallyNext(s0, s, s, out, draft, lo, ReqAt(s, k));
    if KvSteady(c, s0) { SoundSkip(c, s, out, ans, lo); }
  }

  /** Entry lo has been counted, and now has record r. */
  lemma TallyNext(s0: Sys, s: Sys, s': Sys, out: seq<Scheduled>, draft: Drafter, lo: nat, r: Request)
    requires Booked(s0, s, out, lo, |out|) && Tallied(s0, s, out, draft, lo) && lo < |out| && DistinctIds(out)
    requires out[lo].id in s.reqs && s'.reqs == s.reqs[out[lo].id := r]
    requires var r1 := s.reqs[out[lo].id];
      && (r.status != FINISHED ==> r.kv.blockIds == r1.kv.blockIds)
      && (if r1.computed < |r1.gen.tokens| then
            r.gen == r1.gen && r.spec == r1.spec && r.status != FINISHED && r.computed == r1.computed
          else
            && |r1.gen.tokens| < |r.gen.tokens| <= |r1.gen.tokens| + out[lo].nSpec + 1
            && (r.status != FINISHED ==> r.computed == |r.gen.tokens| - 1 && r.spec == draft(out[lo].id, r.gen.tokens)))
    ensures Tallied(s0, s', out, draft, lo + 1)
  {
    assert out[lo].id in s0.reqs && s.reqs[out[lo].id].computed == s0.reqs[out[lo].id].computed + out[lo].nNew by {
      OpenLedger(s0, s, out, lo, |out|, Depth());
    }
    assert Pending(s0.reqs[out[lo].id], s.reqs[out[lo].id]) by { OpenTally(s0, s, out, draft, lo); }
    TallyReply(s0, s, s', out, draft, lo, r);
  }

  lemma ShrinksSelf(q: seq<Id>)
    ensures Shrinks(q, q)
  {
  }

  /** The record of an answered request that goes on: rejected drafts are uncounted, new drafts may ride next. */
  function NextRecord(r: Request, e: Scheduled, g: Gen, accepted: nat, drafts: seq<Token>): (r': Request)
    requires accepted <= e.nSpec && e.nSpec - accepted <= r.computed
  {
    r.(gen := g, computed := r.computed - (e.nSpec - accepted), spec := drafts)
  }

  /** What Answer promises of a request that goes on. */
  ghost predicate GoesOn(c: Cfg, r: Request, e: Scheduled, g: Gen, accepted: nat) {
    && accepted <= e.nSpec && e.nSpec <= |r.spec| && g.reason == NONE && r.gen.tokens <= g.tokens
    && |g.tokens| == |r.gen.tokens| + accepted + 1 < c.env.maxLen
    && g.tokens[..|r.gen.tokens| + accepted] == r.gen.tokens + r.spec[..accepted]
    && Due(c, r, e) && r.computed >= |r.gen.tokens| && Logged(c.env, r.params, r.init, g)
  }

  lemma NextRecordOk(c: Cfg, r: Request, e: Scheduled, g: Gen, accepted: nat, drafts: seq<Token>)
    requires c.bs > 0 && RunOk(c, r) && HistOk(c, r) && GoesOn(c, r, e, g, accepted)
    ensures var r' := NextRecord(r, e, g, accepted, drafts);
      && RunOk(c, r') && HistOk(c, r') && r'.computed == |r.gen.tokens| + accepted == |g.tokens| - 1
      && r'.gen.tokens[..r'.computed] == FedToks(r, e)[..r'.computed]
  {
    OpenHist(c, r);
    HashesGrow(c.mix, c.bs, r.salt, r.gen.tokens, g.tokens, r.hashes);
    OpenHist(c, NextRecord(r, e, g, accepted, drafts));
    assert (r.gen.tokens + r.spec[..e.nSpec])[..|r.gen.tokens| + accepted] == r.gen.tokens + r.spec[..accepted];
  }

  /** Answering entry lo when its request goes on. */
  lemma TurnContinue(c: Cfg, s0: Sys, s: Sys, out: seq<Scheduled>, ans: Answers, draft: Drafter, lo: nat, k: nat, g: Gen, accepted: nat)
    requires During(c, s0, s, out, ans, draft, lo, |out|) && lo < |out| && DistinctIds(out) && c.bs > 0
    requires k < |s.running| && Known(s.reqs, s.running) && s.running[k] == out[lo].id
    requires var r := ReqAt(s, k); RunOk(c, r) && HistOk(c, r) && GoesOn(c, r, out[lo], g, accepted)
    requires KvSteady(c, s0) ==> Traced(c.env, ReqAt(s, k).params, ReqAt(s, k).init, g)
    ensures During(c, s0, SetAll(s, out[lo].id, NextRecord(ReqAt(s, k), out[lo], g, accepted, draft(out[lo].id, g.tokens)), s.reg), out, ans, draft, lo + 1, |out|)
  {
    var r, e := ReqAt(s, k), out[lo];
    var r' := NextRecord(r, e, g, accepted, draft(out[lo].id, g.tokens));
    var s' := SetAll(s, e.id, r', s.reg);
    NextRecordOk(c, r, e, g, accepted, draft(out[lo].id, g.tokens));
    ContinueMid(c, s, out, ans, lo, r');
    ShrinksSelf(Line(s));
    LedgerAnswer(s0, s, s', out, lo);
    TallyNext(s0, s, s', out, draft, lo, r');
    if KvSteady(c, s0) { SoundContinue(c, s, out, ans, lo, k, r'); }
  }

  lemma ContinueMid(c: Cfg, s: Sys, out: seq<Scheduled>, ans: Answers, lo: nat, r: Request)
    requires Middle(c, s, out, ans, lo, |out|) && lo < |out| && out[lo].id in s.reqs && c.bs > 0
    requires RunOk(c, r) && HistOk(c, r) && r.kv == s.reqs[out[lo].id].kv && r.computed < |r.gen.tokens|
    ensures Middle(c, SetAll(s, out[lo].id, r, s.reg), out, ans, lo + 1, |out|)
  {
    OpenMid(c, s, out, ans, lo, |out|, Depth());
    MidContinue(c, s, out, ans, lo, r);
    CloseMid(c, SetAll(s, out[lo].id, r, s.reg), out, ans, lo + 1, |out|, Depth());
  }

  lemma LeaveMid(c: Cfg, s: Sys, out: seq<Scheduled>, ans: Answers, lo: nat, k: nat, r: Request, v: View)
    requires Middle(c, s, out, ans, lo, |out|) && lo < |out| && k < |s.running| && s.running[k] == out[lo].id
    requires Known(s.reqs, s.running) && c.bs > 0 && DoneOk(r) && HistOk(c, r) && Shrunk(s.reg.pool, v, TableOf(s, k))
    ensures Middle(c, Leave(s, k, r, v), out, ans, lo + 1, |out|)
    ensures NoDup(s.running) && NoDup(Line(s))
  {
    OpenMid(c, s, out, ans, lo, |out|, Depth());
    MidLeave(c, s, out, ans, lo, k, r, v);
    CloseMid(c, Leave(s, k, r, v), out, ans, lo + 1, |out|, Depth());
    LineNoDup(c, s);
  }

  lemma LineNoDup(c: Cfg, s: Sys)
    requires Inv(c, s)
    ensures NoDup(Line(s))
  {
  }

  lemma LeaveLine(s: Sys, k: nat, r: Request, v: View)
    requires k < |s.running| && NoDup(Line(s)) && NoDup(s.running)
    ensures Shrinks(Line(s), Line(Leave(s, k, r, v)))
    ensures forall id :: id in Leave(s, k, r, v).running <==> id in s.running && id != s.running[k]
  {
    assert Line(Leave(s, k, r, v)) == Without(Line(s), k);
    ShrinksWithout(Line(s), k);
    WithoutFacts(s.running, k);
  }

  /** Answering entry lo for the last time. */
  lemma TurnLeave(c: Cfg, s0: Sys, s: Sys, out: seq<Scheduled>, ans: Answers, draft: Drafter, lo: nat, k: nat, r: Request, v: View)
    requires During(c, s0, s, out, ans, draft, lo, |out|) && lo < |out| && DistinctIds(out) && c.bs > 0
    requires k < |s.running| && Known(s.reqs, s.running) && s.running[k] == out[lo].id && DoneOk(r) && HistOk(c, r)
    requires ReqAt(s, k).status == RUNNING && SameOrigin(ReqAt(s, k), r) && EndedItself(r)
    requires ReqAt(s, k).computed >= |ReqAt(s, k).gen.tokens|
    requires |ReqAt(s, k).gen.tokens| < |r.gen.tokens| <= |ReqAt(s, k).gen.tokens| + out[lo].nSpec + 1
    requires KvSteady(c, s0) ==> Traced(c.env, r.params, r.init, r.gen)
    requires Returned(s.reg.pool, v, c.caching, TableOf(s, k))
    ensures During(c, s0, Leave(s, k, r, v), out, ans, draft, lo + 1, |out|)
  {
    LeaveMid(c, s, out, ans, lo, k, r, v);
    LeaveLine(s, k, r, v);
    LedgerAnswer(s0, s, Leave(s, k, r, v), out, lo);
    TallyNext(s0, s, Leave(s, k, r, v), out, draft, lo, r);
    if KvSteady(c, s0) { SoundLeave(c, s, out, ans, lo, k, r, v); }
  }

  lemma TurnEnd(c: Cfg, s0: Sys, s: Sys, out: seq<Scheduled>, ans: Answers, draft: Drafter)
    requires During(c, s0, s, out, ans, draft, |out|, |out|)
    ensures Ok(c, s) && (KvSteady(c, s0) ==> KvSteady(c, s)) && Ledger(s0, s, out, |out|, |out|) && Tallied(s0, s, out, draft, |out|)
  {
    OpenMid(c, s, out, ans, |out|, |out|, Depth());
    MidEnd(c, s, out, ans);
    OpenLedger(s0, s, out, |out|, |out|, Depth());
    if KvSteady(c, s0) { SoundEnd(c, s, out, ans); }
  }

  // ---- exactness of the answers ----

  lemma RightExact(r: Request, e: Scheduled, a: seq<seq<KV>>)
    requires Right(r, e, a) && |a| <= e.nSpec + 1
    ensures RowsExact(r.gen.tokens, r.spec[..e.nSpec], a)
  {
    forall j | 0 <= j < |a|
      ensures j <= e.nSpec && a[j] == Ctx(r.gen.tokens + r.spec[..e.nSpec])[..|r.gen.tokens| + j]
    {
      var row := a[j];
      assert row == Ctx(FedToks(r, e))[..|r.gen.tokens| + j];
    }
  }

  /** With KV integrity, the answered request stands where its isolated run stands. */
  lemma AnswerTraced(c: Cfg, s: Sys, out: seq<Scheduled>, ans: Answers, lo: nat, k: nat, g: Gen)
    requires KvMid(c, s, out, ans, lo, |out|) && lo < |out| == |ans| && k < |s.running| && Known(s.reqs, s.running)
    requires s.running[k] == out[lo].id && Due(c, ReqAt(s, k), out[lo]) && |ReqAt(s, k).gen.tokens| <= |g.tokens|
    requires |ans[lo]| <= out[lo].nSpec + 1
    requires var r := ReqAt(s, k);
      |r.init.tokens| <= |r.gen.tokens| && (RowsExact(r.gen.tokens, r.spec[..out[lo].nSpec], ans[lo]) ==>
        g == Isolated(c.env, r.params, |r.init.tokens|, r.gen, |g.tokens| - |r.gen.tokens|))
    ensures Traced(c.env, ReqAt(s, k).params, ReqAt(s, k).init, g)
  {
    var fed := OpenSound(c, s, out, ans, lo, |out|, Depth());
    var r := ReqAt(s, k);
    assert Right(r, out[lo], ans[lo]);
    assert Traced(c.env, r.params, r.init, r.gen) by {
      OpenKvOk(c, s, fed);
      OpenTracked(c, r);
    }
    RightExact(r, out[lo], ans[lo]);
    TracedOn(c.env, r.params, r.init, r.gen, g);
  }
}
