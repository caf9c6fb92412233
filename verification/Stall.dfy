/** A stall that comes about in service: two requests of one token each, three steps, nobody aborts. */
module Stall {
  import opened Types
  import opened PagedKV
  import opened KvSpec
  import opened Generation
  import opened Serving
  import opened KvInvariant
  import opened SchedulerSpec
  import opened Steps
  import opened Progress
  import opened Tally
  import opened Service
  import opened Rounds
  import opened Engines
  import opened Livelock

  // ---- which blocks tables may share ----

  /** Two requests that differ in their first token share no block. */
  lemma TablesApart(c: Cfg, s: Sys, k: nat, k': nat)
    requires Inv(c, s) && KvSteady(c, s) && k < |s.running| && k' < |s.running| && k != k'
    requires |ReqAt(s, k).gen.tokens| > 0 && |ReqAt(s, k').gen.tokens| > 0
    requires ReqAt(s, k).gen.tokens[0] != ReqAt(s, k').gen.tokens[0]
    ensures forall j, j' :: 0 <= j < |TableOf(s, k)| && 0 <= j' < |TableOf(s, k')| ==> TableOf(s, k)[j] != TableOf(s, k')[j']
  {
    forall j, j' | 0 <= j < |TableOf(s, k)| && 0 <= j' < |TableOf(s, k')| ensures TableOf(s, k)[j] != TableOf(s, k')[j'] {
      if TableOf(s, k)[j] == TableOf(s, k')[j'] {
        SharedIsLed(c, s, k, k', j);
        SharedIsLed(c, s, k', k, j');
        assert false;
      }
    }
  }

  /** A block in two tables begins with the first token of both. */
  lemma SharedIsLed(c: Cfg, s: Sys, k: nat, k': nat, j: nat)
    requires Inv(c, s) && KvSteady(c, s) && k < |s.running| && k' < |s.running| && k != k' && j < |TableOf(s, k)|
    requires TableOf(s, k)[j] in TableOf(s, k')
    ensures var b, toks := TableOf(s, k)[j], ReqAt(s, k).gen.tokens;
      b < |s.reg.chains| && |s.reg.chains[b].toks| > 0 && |toks| > 0 && s.reg.chains[b].toks[0] == toks[0]
  {
    OpenKvOk(c, s, FedOf(s.reqs));
    var r := ReqAt(s, k);
    assert ReqKv(c, s.reg, s.cells, r, FedOf(s.reqs)[s.running[k]]);
    if j >= r.kv.numCached {
      assert Owned(s.reg, r.kv.blockIds[j]);
      SoleOwner(s.reqs, s.running, k, j);
    } else {
      LedFirst(c, s.reg, r.kv.blockIds[j], r.salt, r.gen.tokens, j);
    }
  }

  lemma LedFirst(c: Cfg, g: Registry, b: nat, salt: Salt, toks: seq<Token>, j: nat)
    requires b < |g.pool.hash| == |g.chains| && c.bs > 0 && Led(c, g, b, salt, toks, j)
    ensures |g.chains[b].toks| > 0 && |toks| > 0 && g.chains[b].toks[0] == toks[0]
  {
  }

  /** No table has a block twice. */
  lemma TableDistinct(c: Cfg, s: Sys, k: nat)
    requires Inv(c, s) && KvSteady(c, s) && k < |s.running|
    ensures NoDup(TableOf(s, k))
  {
    OpenKvOk(c, s, FedOf(s.reqs));
    var t, r := TableOf(s, k), ReqAt(s, k);
    forall i, j | 0 <= i < j < |t| ensures t[i] != t[j] {
      if j >= r.kv.numCached {
        assert Owned(s.reg, t[j]);
        SoleOwner(s.reqs, s.running, k, j);
      } else {
        LedApart(c, s.reg, t[i], t[j], r.salt, r.gen.tokens, i, j);
      }
    }
  }

  lemma LedApart(c: Cfg, g: Registry, b: nat, b': nat, salt: Salt, toks: seq<Token>, i: nat, j: nat)
    requires b < |g.pool.hash| == |g.chains| && b' < |g.chains| && i < j && c.bs > 0
    requires Led(c, g, b, salt, toks, i) && Led(c, g, b', salt, toks, j)
    ensures b != b'
  {
    TimesMono(i + 1, j, c.bs);
    assert |g.chains[b].toks| < |g.chains[b'].toks|;
  }

  /** So their tables fit the pool side by side. */
  lemma TwoTables(c: Cfg, s: Sys)
    requires Ok(c, s) && KvSteady(c, s) && |s.running| == 2 && Known(s.reqs, s.running)
    requires |ReqAt(s, 0).gen.tokens| > 0 && |ReqAt(s, 1).gen.tokens| > 0
    requires ReqAt(s, 0).gen.tokens[0] != ReqAt(s, 1).gen.tokens[0]
    ensures |TableOf(s, 0)| + |TableOf(s, 1)| <= c.numBlocks
  {
    OpenOk(c, s);
    var t, t' := TableOf(s, 0), TableOf(s, 1);
    TablesApart(c, s, 0, 1);
    TableDistinct(c, s, 0);
    TableDistinct(c, s, 1);
    assert NoDup(t + t');
    DistinctSize(t + t');
    assert InRange(t, c.numBlocks) && InRange(t', c.numBlocks);
    SubsetSize(Elems(t + t'), Below(c.numBlocks));
  }

  // ---- the service ----

  /** No token and no text ends a generation. */
  ghost predicate Quiet(env: Env) {
    && (forall t :: !env.isEog(t))
    && forall x: Text, t: Token, stop: bool, n: nat :: !env.detok(x, t, stop, n).1
  }

  /** Four blocks of one token, two tokens to a step, two requests at a time, contexts of four tokens; no chunks, no prefix
      cache. */
  ghost predicate Cramped(c: Cfg) {
    && c.bs == 1 && c.numBlocks == 4 && c.maxBatched == 2 && c.maxSeqs == 2 && c.env.maxLen == 4
    && c.longThreshold == 0 && !c.chunked && !c.caching && !c.byPriority && !c.gather && Quiet(c.env)
  }

  type Sampling = (Sampler, seq<KV>, bool, seq<Token>, nat) -> (Token, Sampler)

  /** Such a configuration, for any block hash and any sampler. */
  function Small(mix: Mix, sample: Sampling): (c: Cfg)
    ensures Cramped(c)
  {
    Cfg(mix, 1, false, 4, 2, 2, 0, false, false, false,
        Env(4, (t: Token) => false, sample, (x: Text, t: Token, stop: bool, n: nat) => (x, false)), iset{})
  }

  lemma CrampedOk(c: Cfg)
    requires Cramped(c)
    ensures CfgOk(c) && !Flows(c)
  {
    TimesIsMul(4, 1);
  }

  /** A prompt of one token, and nothing to stop at before the context is full. */
  ghost predicate Endless(sub: Submission) {
    |sub.prompt| == 1 && sub.params.stopTokenIds == [] && sub.params.maxTokens <= 0
  }

  lemma EmitsOn(env: Env, p: Params, nPrompt: nat, g: Gen, row: seq<KV>)
    requires Quiet(env) && p.stopTokenIds == [] && p.maxTokens <= 0 && nPrompt <= |g.tokens|
    ensures var r := Emit(env, p, nPrompt, g, row);
      |r.tokens| == |g.tokens| + 1 && (|g.tokens| + 1 < env.maxLen ==> r.reason == NONE)
  {
    var (tok, sampler) := env.sample(g.sampler, row, |g.tokens| - nPrompt < p.minTokens, g.tokens, nPrompt);
    assert !env.detok(g.text, tok, false, |g.tokens| + 1 - nPrompt).1;
  }

  lemma {:induction false} RunsOn(env: Env, p: Params, nPrompt: nat, g: Gen, n: nat)
    requires Quiet(env) && p.stopTokenIds == [] && p.maxTokens <= 0
    requires g.reason == NONE && nPrompt <= |g.tokens| && |g.tokens| + n < env.maxLen
    ensures Isolated(env, p, nPrompt, g, n).reason == NONE
    decreases n
  {
    if n > 0 {
      EmitsOn(env, p, nPrompt, g, Ctx(g.tokens));
      RunsOn(env, p, nPrompt, Emit(env, p, nPrompt, g, Ctx(g.tokens)), n - 1);
    }
  }

  ghost predicate Of(r: Request, sub: Submission) {
    r.init == NewRequest(sub).init && r.params == sub.params
  }

  /** A request on its isolated run begins with its prompt, and has not stopped before its context is full. */
  lemma NotOver(c: Cfg, s: Sys, id: Id, sub: Submission)
    requires Cramped(c) && Ok(c, s) && KvSteady(c, s) && id in s.reqs && Endless(sub) && Of(s.reqs[id], sub)
    ensures sub.prompt <= s.reqs[id].gen.tokens
    ensures |s.reqs[id].gen.tokens| < 4 ==> !EndedItself(s.reqs[id])
  {
    var r := s.reqs[id];
    SteadyExact(c, s);
    assert Traced(c.env, r.params, r.init, r.gen);
    IsolatedGrows(c.env, r.params, 1, r.init, |r.gen.tokens| - 1);
    if |r.gen.tokens| < 4 { RunsOn(c.env, r.params, 1, r.init, |r.gen.tokens| - 1); }
  }

  /** A request with n tokens, all but the last of them computed. */
  ghost predicate Poised(r: Request, sub: Submission, n: nat) {
    Of(r, sub) && |r.gen.tokens| == n && r.spec == [] && r.computed == n - 1
  }

  /** Both run, with n tokens each. */
  ghost predicate Both(s: Sys, a: Submission, b: Submission, n: nat) {
    && s.running == [0, 1] && s.waiting == [] && 0 in s.reqs && 1 in s.reqs
    && Poised(s.reqs[0], a, n) && Poised(s.reqs[1], b, n)
  }

  /** Both have at most n blocks. */
  ghost predicate Tables(s: Sys, n: nat) {
    0 in s.reqs && 1 in s.reqs && |s.reqs[0].kv.blockIds| <= n && |s.reqs[1].kv.blockIds| <= n
  }

  lemma TimesOne(n: nat)
    ensures Times(n, 1) == n
  {
    TimesIsMul(n, 1);
  }

  lemma NeedIs(c: Cfg, r: Request)
    requires c.bs == 1 && r.spec == []
    ensures Need(c, r) == |r.gen.tokens|
  {
    OpenBlocks(c, |r.gen.tokens|, Depth());
    assert CeilDiv(|r.gen.tokens|, 1) == |r.gen.tokens|;
  }

  /** A window of one token, and the blocks for it. */
  lemma OneToken(c: Cfg, r: Request, id: Id, e: Scheduled, n: nat)
    requires Cramped(c) && Entry(c, r, id, e) && |r.gen.tokens| == n && r.spec == [] && r.computed + 1 >= n
    ensures e.nNew == 1 && e.nSpec == 0 && r.computed == n - 1 && n <= |r.kv.blockIds|
  {
    TimesOne(|r.kv.blockIds|);
  }

  /** Scheduling keeps the records and takes no more blocks than needed. */
  lemma MidRecords(c: Cfg, s: Sys, mid: Sys, out: Output, left: nat, id: Id, n: nat)
    requires c.bs == 1 && Planning(c, s, mid, out, left) && id in s.reqs && s.reqs[id].spec == []
    requires |s.reqs[id].gen.tokens| == n && |s.reqs[id].kv.blockIds| <= n
    ensures id in mid.reqs && mid.reqs[id].gen == s.reqs[id].gen && mid.reqs[id].spec == [] && |mid.reqs[id].kv.blockIds| <= n
    ensures mid.reqs[id].init == s.reqs[id].init && mid.reqs[id].params == s.reqs[id].params
  {
    UnwrapPlanned(c, s, mid, out, left, Depth());
    OpenOnward(c, s, mid);
    NeedIs(c, mid.reqs[id]);
  }

  // ---- a round of both ----

  /** After scheduling, both run and have a token to compute. */
  ghost predicate BothDue(mid: Sys, a: Submission, b: Submission, n: nat) {
    && mid.running == [0, 1] && mid.waiting == [] && 0 in mid.reqs && 1 in mid.reqs
    && DueNow(mid.reqs[0], a, n) && DueNow(mid.reqs[1], b, n)
  }

  ghost predicate DueNow(r: Request, sub: Submission, n: nat) {
    Of(r, sub) && |r.gen.tokens| == n && r.spec == [] && r.computed + 1 >= n && |r.kv.blockIds| <= n
  }

  lemma BothScheduled(c: Cfg, mid: Sys, out: Output, left: nat, a: Submission, b: Submission, n: nat)
    requires Cramped(c) && BothDue(mid, a, b, n) && Batch(c, mid, out.scheduled)
    requires left + Total(out.scheduled) == 2 && (left > 0 ==> |out.scheduled| == 2)
    ensures |out.scheduled| == 2
  {
    var q := out.scheduled;
    forall i | 0 <= i < |q| ensures q[i].nNew == 1 {
      assert Entry(c, ReqAt(mid, i), mid.running[i], q[i]);
      OneToken(c, ReqAt(mid, i), mid.running[i], q[i], n);
    }
    OnesTotal(q);
  }

  lemma {:induction false} OnesTotal(q: seq<Scheduled>)
    requires forall i :: 0 <= i < |q| ==> q[i].nNew == 1
    ensures Total(q) == |q|
  {
    if q != [] { OnesTotal(q[..|q| - 1]); }
  }

  ghost predicate Draftless(draft: Drafter) {
    forall id: Id, toks: seq<Token> :: draft(id, toks) == []
  }

  /** Scheduled request i has a token more. */
  lemma OneAnswered(c: Cfg, mid: Sys, s': Sys, out: seq<Scheduled>, draft: Drafter, i: nat, sub: Submission, n: nat)
    requires Cramped(c) && Ok(c, mid) && Ok(c, s') && KvSteady(c, s') && Batch(c, mid, out) && i < |out| && n < 3
    requires DueNow(ReqAt(mid, i), sub, n) && Endless(sub) && Draftless(draft)
    requires Booked(mid, s', out, |out|, |out|) && Tallied(mid, s', out, draft, |out|)
    ensures mid.running[i] in s'.reqs && s'.reqs[mid.running[i]].status != FINISHED
    ensures Poised(s'.reqs[mid.running[i]], sub, n + 1) && |s'.reqs[mid.running[i]].kv.blockIds| <= n
  {
    var id, r0 := mid.running[i], ReqAt(mid, i);
    assert Entry(c, r0, id, out[i]);
    OneToken(c, r0, id, out[i], n);
    OpenTally(mid, s', out, draft, |out|);
    assert Reply(r0, s'.reqs[id], out[i], draft);
    OpenLedger(mid, s', out, |out|, |out|, Depth());
    NotOver(c, s', id, sub);
    LineKnown(c, mid);
    assert id in Line(mid);
  }

  lemma StillBoth(c: Cfg, mid: Sys, s': Sys, out: seq<Scheduled>)
    requires Ok(c, s') && Booked(mid, s', out, |out|, |out|) && mid.running == [0, 1] && mid.waiting == []
    requires 0 in s'.reqs && s'.reqs[0].status != FINISHED && 1 in s'.reqs && s'.reqs[1].status != FINISHED
    ensures s'.running == [0, 1] && s'.waiting == []
  {
    OpenLedger(mid, s', out, |out|, |out|, Depth());
    LineKnown(c, s');
    assert Line(mid) == [0, 1] && Line(s') == s'.running;
    BothInLine(s'.running);
  }

  lemma BothInLine(q: seq<Id>)
    requires NoDup(q) && Shrinks([0, 1], q) && 0 in q && 1 in q
    ensures q == [0, 1]
  {
    AheadIs([0, 1], 0, 0);
    AheadIs([0, 1], 1, 1);
    assert Ahead(q, 0) == 0 && Ahead(q, 1) <= 1;
    assert q[0] == 0 && q[1] == 1;
    DistinctSize(q);
    SubsetSize(Elems(q), Below(2));
  }

  lemma BothAnswered(c: Cfg, mid: Sys, s': Sys, out: seq<Scheduled>, draft: Drafter, a: Submission, b: Submission, n: nat)
    requires Cramped(c) && Ok(c, mid) && Ok(c, s') && KvSteady(c, s') && Batch(c, mid, out) && |out| == 2 && n < 3
    requires BothDue(mid, a, b, n) && Endless(a) && Endless(b) && Draftless(draft)
    requires Booked(mid, s', out, |out|, |out|) && Tallied(mid, s', out, draft, |out|)
    ensures Both(s', a, b, n + 1) && Tables(s', n)
  {
    OneAnswered(c, mid, s', out, draft, 0, a, n);
    OneAnswered(c, mid, s', out, draft, 1, b, n);
    StillBoth(c, mid, s', out);
  }

  // ---- the first step: both start ----

  lemma FirstPlan(c: Cfg, s: Sys, s': Sys, draft: Drafter, w: Round)
    requires Cramped(c) && s.running == [] && s.waiting == [0, 1] && 0 in s.reqs && 1 in s.reqs
    requires |s.reqs[0].gen.tokens| == 1 && s.reqs[0].spec == [] && s.reqs[0].kv == NO_BLOCKS
    requires |s.reqs[1].gen.tokens| == 1 && s.reqs[1].spec == [] && s.reqs[1].kv == NO_BLOCKS
    requires Worked(c, s, s', draft, w)
    ensures w.mid.running == [0, 1] && w.mid.waiting == [] && w.out.preempted == []
  {
    var mid := w.mid;
    UnwrapPlanned(c, s, mid, w.out, w.left, Depth());
    MidRecords(c, s, mid, w.out, w.left, 0, 1);
    MidRecords(c, s, mid, w.out, w.left, 1, 1);
    assert mid.running + mid.waiting == [0, 1];
    if |mid.running| == 1 {
      assert mid.running == (mid.running + mid.waiting)[..1] == [0] && mid.waiting == (mid.running + mid.waiting)[1..] == [1];
      HeadCouldStart(c, mid, w.out, w.left);
      assert false;
    }
    assert mid.running == (mid.running + mid.waiting)[..2];
  }

  /** With one request of one token running and another one waiting, there is room for both. */
  lemma HeadCouldStart(c: Cfg, mid: Sys, out: Output, left: nat)
    requires Cramped(c) && Ok(c, mid) && mid.running == [0] && mid.waiting == [1] && 0 in mid.reqs && 1 in mid.reqs
    requires |mid.reqs[0].gen.tokens| == 1 && mid.reqs[0].spec == [] && |mid.reqs[0].kv.blockIds| <= 1
    requires |mid.reqs[1].gen.tokens| == 1 && mid.reqs[1].spec == []
    requires Batch(c, mid, out.scheduled) && left + Total(out.scheduled) == 2 && out.scheduled != []
    ensures !Filled(c, mid, left)
  {
    var q := out.scheduled;
    assert Entry(c, ReqAt(mid, 0), mid.running[0], q[0]);
    OneToken(c, ReqAt(mid, 0), 0, q[0], 1);
    OnesTotal(q);
    OpenOk(c, mid);
    FreeEnough(c, mid);
    NeedIs(c, mid.reqs[1]);
  }

  lemma FirstRound(c: Cfg, s: Sys, s': Sys, draft: Drafter, w: Round, a: Submission, b: Submission)
    requires Cramped(c) && s.running == [] && s.waiting == [0, 1] && 0 in s.reqs && 1 in s.reqs
    requires s.reqs[0] == NewRequest(a) && s.reqs[1] == NewRequest(b) && Endless(a) && Endless(b) && Draftless(draft)
    requires Worked(c, s, s', draft, w) && Ok(c, s') && KvSteady(c, s')
    ensures Both(s', a, b, 2) && Tables(s', 1)
  {
    FirstPlan(c, s, s', draft, w);
    MidRecords(c, s, w.mid, w.out, w.left, 0, 1);
    MidRecords(c, s, w.mid, w.out, w.left, 1, 1);
    RoundOfBoth(c, s, s', draft, w, a, b, 1);
  }

  lemma RoundOfBoth(c: Cfg, s: Sys, s': Sys, draft: Drafter, w: Round, a: Submission, b: Submission, n: nat)
    requires Cramped(c) && BothDue(w.mid, a, b, n) && Endless(a) && Endless(b) && Draftless(draft) && n < 3
    requires Worked(c, s, s', draft, w) && w.out.preempted == [] && Ok(c, s') && KvSteady(c, s')
    ensures Both(s', a, b, n + 1) && Tables(s', n)
  {
    assert Batch(c, w.mid, w.out.scheduled) && w.left + Total(w.out.scheduled) == 2 by {
      UnwrapPlanned(c, s, w.mid, w.out, w.left, Depth());
    }
    BothScheduled(c, w.mid, w.out, w.left, a, b, n);
    BothAnswered(c, w.mid, s', w.order, draft, a, b, n);
  }

  // ---- later steps ----

  /** Nobody who stays loses anything: both are due again, unless the second one was preempted. */
  lemma NextPlan(c: Cfg, s: Sys, s': Sys, draft: Drafter, w: Round, a: Submission, b: Submission, n: nat)
    requires Cramped(c) && Both(s, a, b, n) && Tables(s, n) && Worked(c, s, s', draft, w)
    ensures if w.out.preempted == [] then BothDue(w.mid, a, b, n)
            else
              && w.mid.running == [0] && w.mid.waiting == [1] && 0 in w.mid.reqs && 1 in w.mid.reqs && DueNow(w.mid.reqs[0], a, n)
              && |w.mid.reqs[1].gen.tokens| == n && Of(w.mid.reqs[1], b) && |w.mid.reg.pool.free| < n
  {
    var mid := w.mid;
    UnwrapPlanned(c, s, mid, w.out, w.left, Depth());
    OpenOnward(c, s, mid);
    MidRecords(c, s, mid, w.out, w.left, 0, n);
    MidRecords(c, s, mid, w.out, w.left, 1, n);
    assert s.running + s.waiting == [0, 1];
    assert KeepsWork(s, mid, 0);
    if w.out.preempted == [] {
      assert mid.running == (mid.running + mid.waiting)[..2] && mid.waiting == (mid.running + mid.waiting)[2..];
      assert KeepsWork(s, mid, 1);
    } else {
      assert mid.running == (mid.running + mid.waiting)[..1] && mid.waiting == (mid.running + mid.waiting)[1..];
      NeedIs(c, ReqAt(s, 1));
    }
  }

  /** With two tokens each there is room for both. */
  lemma SecondRound(c: Cfg, s: Sys, s': Sys, draft: Drafter, w: Round, a: Submission, b: Submission)
    requires Cramped(c) && Both(s, a, b, 2) && Tables(s, 1) && Endless(a) && Endless(b) && Draftless(draft)
    requires Worked(c, s, s', draft, w) && Ok(c, s') && KvSteady(c, s')
    ensures Both(s', a, b, 3) && Tables(s', 2)
  {
    NextPlan(c, s, s', draft, w, a, b, 2);
    if w.out.preempted != [] {
      OpenOk(c, w.mid);
      FreeEnough(c, w.mid);
      assert false;
    }
    RoundOfBoth(c, s, s', draft, w, a, b, 2);
  }

  /** With three tokens each there is not. */
  lemma ThirdPlan(c: Cfg, s: Sys, s': Sys, draft: Drafter, w: Round, a: Submission, b: Submission)
    requires Cramped(c) && Both(s, a, b, 3) && Tables(s, 2) && Endless(a) && Endless(b) && a.prompt[0] != b.prompt[0]
    requires Worked(c, s, s', draft, w) && KvSteady(c, s)
    ensures w.out.preempted != []
  {
    NextPlan(c, s, s', draft, w, a, b, 3);
    if w.out.preempted == [] {
      var mid := w.mid;
      PlanLine(c, s, mid, w.out, w.left);
      UnwrapPlanned(c, s, mid, w.out, w.left, Depth());
      BothScheduled(c, mid, w.out, w.left, a, b, 3);
      assert Entry(c, ReqAt(mid, 0), 0, w.out.scheduled[0]) && Entry(c, ReqAt(mid, 1), 1, w.out.scheduled[1]);
      OneToken(c, ReqAt(mid, 0), 0, w.out.scheduled[0], 3);
      OneToken(c, ReqAt(mid, 1), 1, w.out.scheduled[1], 3);
      NotOver(c, mid, 0, a);
      NotOver(c, mid, 1, b);
      TwoTables(c, mid);
      assert false;
    }
  }

  /** The second request is preempted, the first one fills its context; what is left does not fit a step. */
  lemma ThirdRound(c: Cfg, s: Sys, s': Sys, draft: Drafter, w: Round, a: Submission, b: Submission)
    requires Cramped(c) && Both(s, a, b, 3) && Tables(s, 2) && Endless(a) && Endless(b) && a.prompt[0] != b.prompt[0]
    requires Worked(c, s, s', draft, w) && KvSteady(c, s) && Ok(c, s')
    ensures Stalled(c, s') && s'.waiting == [1] && |s'.reqs[1].gen.tokens| == 3
    ensures 0 in s'.reqs && EndedItself(s'.reqs[0]) && |s'.reqs[0].gen.tokens| == 4
  {
    ThirdPlan(c, s, s', draft, w, a, b);
    NextPlan(c, s, s', draft, w, a, b, 3);
    FirstEnds(c, s, s', draft, w, a);
    SecondWaits(c, w.mid, s', w.order, draft, b);
  }

  lemma FirstEnds(c: Cfg, s: Sys, s': Sys, draft: Drafter, w: Round, a: Submission)
    requires Cramped(c) && Worked(c, s, s', draft, w) && Ok(c, s')
    requires w.mid.running == [0] && w.mid.waiting == [1] && 0 in w.mid.reqs && DueNow(w.mid.reqs[0], a, 3)
    ensures 0 in s'.reqs && EndedItself(s'.reqs[0]) && |s'.reqs[0].gen.tokens| == 4 && s'.running == [] && s'.waiting == [1]
    ensures !HasId(w.order, 0, |w.order|, 1)
  {
    var mid, out := w.mid, w.order;
    assert Batch(c, mid, out) by { UnwrapPlanned(c, s, mid, w.out, w.left, Depth()); }
    LastToken(c, mid, s', out, draft, a);
    TooFull(c, s', 0);
    LastLeaves(c, mid, s', out);
  }

  /** A request that has left the line ended by itself; the one before it was alone on the running list. */
  lemma LastLeaves(c: Cfg, mid: Sys, s': Sys, out: seq<Scheduled>)
    requires Ok(c, mid) && Ok(c, s') && Booked(mid, s', out, |out|, |out|) && mid.running == [0] && mid.waiting == [1]
    requires 0 in s'.reqs && 0 !in Line(s')
    ensures EndedItself(s'.reqs[0]) && s'.running == [] && s'.waiting == [1]
  {
    OpenLedger(mid, s', out, |out|, |out|, Depth());
    LineKnown(c, mid);
    LineKnown(c, s');
    assert Line(mid) == [0, 1];
    assert 0 in Line(mid);
    NobodyRuns(Line(s'), s'.running);
  }

  lemma LastToken(c: Cfg, mid: Sys, s': Sys, out: seq<Scheduled>, draft: Drafter, a: Submission)
    requires Cramped(c) && Batch(c, mid, out) && out != [] && Tallied(mid, s', out, draft, |out|)
    requires mid.running == [0] && 0 in mid.reqs && DueNow(mid.reqs[0], a, 3)
    ensures 0 in s'.reqs && |s'.reqs[0].gen.tokens| == 4 && !HasId(out, 0, |out|, 1)
  {
    assert Entry(c, ReqAt(mid, 0), 0, out[0]);
    OneToken(c, ReqAt(mid, 0), 0, out[0], 3);
    OpenTally(mid, s', out, draft, |out|);
    assert Reply(mid.reqs[0], s'.reqs[0], out[0], draft);
  }

  lemma NobodyRuns(q: seq<Id>, running: seq<Id>)
    requires NoDup(q) && q == running + [1] && 0 !in q && forall id :: id in q ==> id in [0, 1]
    ensures running == []
  {
    DistinctSize(q);
    SubsetSize(Elems(q), {1});
  }

  /** Nobody in line has filled their context. */
  lemma TooFull(c: Cfg, s: Sys, id: Id)
    requires Ok(c, s) && id in s.reqs && |s.reqs[id].gen.tokens| >= c.env.maxLen
    ensures id !in Line(s)
  {
    OpenOk(c, s);
    forall i | 0 <= i < |s.running| ensures s.running[i] != id { assert RunOk(c, s.reqs[s.running[i]]); }
    forall i | 0 <= i < |s.waiting| ensures s.waiting[i] != id { assert WaitOk(c, s.reqs[s.waiting[i]]); }
  }

  lemma SecondWaits(c: Cfg, mid: Sys, s': Sys, out: seq<Scheduled>, draft: Drafter, b: Submission)
    requires Cramped(c) && Ok(c, mid) && Ok(c, s') && Tallied(mid, s', out, draft, |out|) && !HasId(out, 0, |out|, 1)
    requires mid.waiting == [1] && 1 in mid.reqs && |mid.reqs[1].gen.tokens| == 3 && Of(mid.reqs[1], b) && Endless(b)
    requires s'.running == [] && s'.waiting == [1]
    ensures Stalled(c, s') && |s'.reqs[1].gen.tokens| == 3
  {
    OpenTally(mid, s', out, draft, |out|);
    OpenOk(c, s');
    assert WaitOk(c, s'.reqs[s'.waiting[0]]);
  }

  // ---- in service ----

  function NoDraft(id: Id, toks: seq<Token>): (d: seq<Token>) { [] }

  lemma FirstTwo(ids: seq<int>, n: nat)
    requires |ids| == 2 && Numbered(ids, 0, n) && n <= 2 && ids[0] >= 0 && ids[1] >= 0
    ensures ids == [0, 1] && HandlesOf(ids) == [0, 1]
  {
    assert ids[..1][..0] == [] && ids[..1] == [ids[0]];
    assert HandlesOf([]) == [];
    assert HandlesOf(ids[..1]) == [0];
  }

  /** The engine stalls without an abort: after three steps the first request has filled its context, and the second one,
      preempted with three tokens, does not fit a step any more. */
  method ReachStall(c: Cfg, a: Submission, b: Submission) returns (e: Engine)
    requires Cramped(c) && Endless(a) && Endless(b) && a.prompt[0] != b.prompt[0]
    ensures fresh(e) && fresh(e.sched) && fresh(e.sched.kv) && fresh(e.sched.kv.pool) && e.Valid() && e.sched.c == c
    ensures Stalled(c, e.sched.view) && e.sched.waiting == [1] && |e.sched.reqs[1].gen.tokens| == 3
    ensures EndedItself(e.sched.reqs[0]) && |e.sched.reqs[0].gen.tokens| == 4
  {
    CrampedOk(c);
    e := new Engine(c);
    BothArrive(e, a, b);
    NoneArrives(e, a, b);
    ghost var s := e.sched.view;
    var did, ids;
    ghost var joined, w;
    did, ids, joined, w := e.Step(Tick([], [], NoDraft));
    ThirdRound(c, s, e.sched.view, NoDraft, w, a, b);
  }

  /** With no prefix cache nothing has to be trusted. */
  lemma SteadyOn(c: Cfg, s: Sys, s': Sys, d: nat, cut: set<Id>)
    requires !c.caching && KvSteady(c, s) && Stride(c, s, s', d, cut)
    ensures KvSteady(c, s')
  {
    OpenStride(c, s, s', d, cut, Depth());
    forall id | id in s'.reqs ensures Trusted(c, s'.reqs[id].params, s'.reqs[id].init, s'.reqs[id].salt) {
      AlwaysTrusted(c, s'.reqs[id].params, s'.reqs[id].init, s'.reqs[id].salt);
    }
  }

  lemma BothJoin(c: Cfg, s: Sys, joined: Sys, a: Submission, b: Submission, ids: seq<int>, n: nat)
    requires Cramped(c) && Endless(a) && Endless(b) && s.running == [] && s.waiting == []
    requires Ingested(c, s, joined, [a, b], ids) && Numbered(ids, 0, n) && n <= 2
    ensures joined.running == [] && joined.waiting == [0, 1] && !Stuck(c, joined)
    ensures 0 in joined.reqs && 1 in joined.reqs && joined.reqs[0] == NewRequest(a) && joined.reqs[1] == NewRequest(b)
  {
    assert Entered(c, joined.reqs, a, ids[0]) && Entered(c, joined.reqs, b, ids[1]);
    FirstTwo(ids, n);
  }

  method BothArrive(e: Engine, a: Submission, b: Submission)
    requires e.Valid() && Cramped(e.sched.c) && Endless(a) && Endless(b) && KvSteady(e.sched.c, e.sched.view)
    requires e.sched.reqs == map[] && Line(e.sched.view) == [] && e.nextId == 0
    modifies e, e.sched, e.sched.kv`reg, e.sched.kv`cells, e.sched.kv.pool
    ensures e.Valid() && KvSteady(e.sched.c, e.sched.view) && Both(e.sched.view, a, b, 2) && Tables(e.sched.view, 1)
  {
    ghost var c, s := e.sched.c, e.sched.view;
    var did, ids;
    ghost var joined, w;
    did, ids, joined, w := e.Step(Tick([a, b], [], NoDraft));
    SteadyOn(c, s, e.sched.view, if Flows(c) then 1 else 0, AbortSet([]));
    BothJoin(c, s, joined, a, b, ids, e.nextId);
    FirstRound(c, joined, e.sched.view, NoDraft, w, a, b);
  }

  method NoneArrives(e: Engine, a: Submission, b: Submission)
    requires e.Valid() && Cramped(e.sched.c) && Endless(a) && Endless(b) && KvSteady(e.sched.c, e.sched.view)
    requires Both(e.sched.view, a, b, 2) && Tables(e.sched.view, 1)
    modifies e, e.sched, e.sched.kv`reg, e.sched.kv`cells, e.sched.kv.pool
    ensures e.Valid() && KvSteady(e.sched.c, e.sched.view) && Both(e.sched.view, a, b, 3) && Tables(e.sched.view, 2)
  {
    ghost var c, s := e.sched.c, e.sched.view;
    var did, ids;
    ghost var joined, w;
    did, ids, joined, w := e.Step(Tick([], [], NoDraft));
    SteadyOn(c, s, e.sched.view, if Flows(c) then 1 else 0, AbortSet([]));
    SecondRound(c, s, e.sched.view, NoDraft, w, a, b);
  }

  /** And from then on, whatever else is submitted, nothing is served: the second request waits forever and every arrival
      fails. */
  method StarvesForever(c: Cfg, a: Submission, b: Submission, ticks: seq<Tick>) returns (e: Engine, ids: seq<seq<int>>)
    requires Cramped(c) && Endless(a) && Endless(b) && a.prompt[0] != b.prompt[0]
    requires forall k :: 0 <= k < |ticks| ==> ticks[k].aborts == []
    ensures fresh(e) && e.Valid() && e.sched.c == c && Stalled(c, e.sched.view) && e.sched.waiting == [1]
    ensures |ids| == |ticks| && TicksFailed(c, e.sched.reqs, ticks, ids)
  {
    e := ReachStall(c, a, b);
    ids := StaysStalled(e, ticks);
  }
}
