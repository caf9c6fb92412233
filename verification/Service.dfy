/** What the engine promises its clients: submissions, what becomes of them, and when. */
module Service {
  import opened Types
  import opened PoolSpec
  import opened KvSpec
  import opened PagedKV
  import opened Generation
  import opened Stopping
  import opened Serving
  import opened KvInvariant
  import opened SchedulerSpec
  import opened Progress

  /** A generation request as submitted; the sampler and text states are what its seed and options set up. */
  datatype Submission = Submission(
    prompt: seq<Token>, params: Params, salt: Salt, priority: int, arrival: int, sampler: Sampler, text: Text)

  /** What happens between two steps, and the drafts proposed during the step (by n-gram lookup or a draft model). */
  datatype Tick = Tick(arrivals: seq<Submission>, aborts: seq<Id>, draft: Drafter)

  /** submit refuses empty prompts and prompts that fill the context. */
  predicate Accepts(c: Cfg, sub: Submission) {
    0 < |sub.prompt| < c.env.maxLen
  }

  function NewRequest(sub: Submission): (r: Request) {
    var g := Gen(sub.prompt, sub.sampler, sub.text, NONE);
    Request(g, sub.params, g, WAITING, NONE, 0, [], NO_BLOCKS, [], sub.salt, sub.priority, sub.arrival)
  }

  lemma NewJoinable(c: Cfg, s: Sys, id: Id, sub: Submission)
    requires Ok(c, s) && id !in s.reqs && Accepts(c, sub)
    ensures Joinable(c, s, id, NewRequest(sub))
  {
    RunningPre(c, s);
    LoggedStart(c.env, sub.params, NewRequest(sub).init);
    OpenHist(c, NewRequest(sub));
  }

  // ---- handles ----

  /** The record of a submission says what was submitted. */
  ghost predicate RecordOf(sub: Submission, r: Request) {
    && r.init.tokens == sub.prompt && r.init.sampler == sub.sampler && r.init.text == sub.text && r.init.reason == NONE
    && r.params == sub.params && r.salt == sub.salt && r.priority == sub.priority && r.arrival == sub.arrival
  }

  /** What submit promises of a handle: a submission with a prompt that leaves room in the context is on record under it;
      any other one is refused and has none. */
  ghost predicate Queued(c: Cfg, reqs: map<Id, Request>, sub: Submission, id: int) {
    if 0 < |sub.prompt| < c.env.maxLen then id >= 0 && id in reqs && RecordOf(sub, reqs[id]) else id == -1
  }

  ghost predicate AllQueued(c: Cfg, reqs: map<Id, Request>, subs: seq<Submission>, ids: seq<int>) {
    |ids| == |subs| && forall i :: 0 <= i < |ids| ==> Queued(c, reqs, subs[i], ids[i])
  }

  /** Handles are numbered from lo up to hi in the order of the submissions. */
  ghost predicate Numbered(ids: seq<int>, lo: nat, hi: nat) {
    && (forall i :: 0 <= i < |ids| ==> ids[i] == -1 || lo <= ids[i] < hi)
    && (forall i, j :: 0 <= i < j < |ids| && ids[i] >= 0 && ids[j] >= 0 ==> ids[i] < ids[j])
  }

  lemma NumberedMore(ids: seq<int>, more: seq<int>, lo: nat, mid: nat, hi: nat)
    requires Numbered(ids, lo, mid) && Numbered(more, mid, hi) && lo <= mid <= hi
    ensures Numbered(ids + more, lo, hi)
  {
  }

  function Flat(ids: seq<seq<int>>): (r: seq<int>) {
    if ids == [] then [] else Flat(ids[..|ids| - 1]) + ids[|ids| - 1]
  }

  lemma {:induction false} InFlat(ids: seq<seq<int>>, k: nat, j: nat)
    requires k < |ids| && j < |ids[k]|
    ensures ids[k][j] in Flat(ids)
    decreases |ids|
  {
    if k < |ids| - 1 { InFlat(ids[..|ids| - 1], k, j); }
  }

  lemma FlatMore(ids: seq<seq<int>>, more: seq<int>)
    ensures Flat(ids + [more]) == Flat(ids) + more
  {
    assert (ids + [more])[..|ids|] == ids;
  }

  lemma QueuedStays(c: Cfg, s: Sys, s': Sys, d: nat, cut: set<Id>, subs: seq<Submission>, ids: seq<int>)
    requires Stride(c, s, s', d, cut) && AllQueued(c, s.reqs, subs, ids)
    ensures AllQueued(c, s'.reqs, subs, ids)
  {
    OpenStride(c, s, s', d, cut, Depth());
    forall i | 0 <= i < |ids| ensures Queued(c, s'.reqs, subs[i], ids[i]) { assert Queued(c, s.reqs, subs[i], ids[i]); }
  }

  /** The better of two submissions under the priority policy: the smaller priority value, then the earlier arrival. */
  predicate Better(a: Submission, b: Submission) {
    a.priority < b.priority || (a.priority == b.priority && a.arrival < b.arrival)
  }

  /** A better submission never waits behind: as long as a and b both wait, a in front, b is not the better one. */
  ghost predicate NotOvertaken(q: seq<Id>, a: Submission, b: Submission, id: int, id': int) {
    forall i, j :: 0 <= i < j < |q| && q[i] == id && q[j] == id' ==> !Better(b, a)
  }

  lemma BetterFirst(c: Cfg, s: Sys, a: Submission, b: Submission, id: int, id': int)
    requires c.byPriority && Ordered(c, s) && Queued(c, s.reqs, a, id) && Queued(c, s.reqs, b, id')
    ensures NotOvertaken(s.waiting, a, b, id, id')
  {
    OpenOrdered(c, s);
    forall i, j | 0 <= i < j < |s.waiting| && s.waiting[i] == id && s.waiting[j] == id' ensures !Better(b, a) {
      assert !Before(s.reqs[s.waiting[j]], s.reqs[s.waiting[i]]);
    }
  }

  ghost predicate IsArrival(ticks: seq<Tick>, ids: seq<seq<int>>, k: nat, j: nat) {
    k < |ticks| && k < |ids| && j < |ticks[k].arrivals| && j < |ids[k]|
  }

  /** No arrival of the traffic waits behind a worse one. */
  ghost predicate PriorityKept(q: seq<Id>, ticks: seq<Tick>, ids: seq<seq<int>>) {
    forall k: nat, j: nat, k': nat, j': nat :: IsArrival(ticks, ids, k, j) && IsArrival(ticks, ids, k', j') ==>
      NotOvertaken(q, ticks[k].arrivals[j], ticks[k'].arrivals[j'], ids[k][j], ids[k'][j'])
  }

  lemma OrderedIsKept(c: Cfg, s: Sys, ticks: seq<Tick>, ids: seq<seq<int>>)
    requires c.byPriority && Ordered(c, s) && |ids| == |ticks|
    requires forall k :: 0 <= k < |ticks| ==> AllQueued(c, s.reqs, ticks[k].arrivals, ids[k])
    ensures PriorityKept(s.waiting, ticks, ids)
  {
    forall k: nat, j: nat, k': nat, j': nat | IsArrival(ticks, ids, k, j) && IsArrival(ticks, ids, k', j')
      ensures NotOvertaken(s.waiting, ticks[k].arrivals[j], ticks[k'].arrivals[j'], ids[k][j], ids[k'][j'])
    {
      assert AllQueued(c, s.reqs, ticks[k].arrivals, ids[k]) && AllQueued(c, s.reqs, ticks[k'].arrivals, ids[k']);
      BetterFirst(c, s, ticks[k].arrivals[j], ticks[k'].arrivals[j'], ids[k][j], ids[k'][j']);
    }
  }

  lemma ArrivalsOrdered(c: Cfg, s: Sys, subs: seq<Submission>, ids: seq<int>)
    requires c.byPriority && Ordered(c, s) && AllQueued(c, s.reqs, subs, ids)
    ensures forall i, j :: 0 <= i < |subs| && 0 <= j < |subs| ==> NotOvertaken(s.waiting, subs[i], subs[j], ids[i], ids[j])
  {
    forall i, j | 0 <= i < |subs| && 0 <= j < |subs| ensures NotOvertaken(s.waiting, subs[i], subs[j], ids[i], ids[j]) {
      BetterFirst(c, s, subs[i], subs[j], ids[i], ids[j]);
    }
  }

  // ---- traffic ----

  ghost function AbortSet(ids: seq<Id>): (r: set<Id>) { set x | x in ids }

  /** Everybody the traffic aborts. */
  ghost function AbortedBy(ticks: seq<Tick>): (r: set<Id>) {
    if ticks == [] then {} else AbortedBy(ticks[..|ticks| - 1]) + AbortSet(ticks[|ticks| - 1].aborts)
  }

  lemma {:induction false} AbortsOfTick(ticks: seq<Tick>, k: nat)
    requires k < |ticks|
    ensures AbortSet(ticks[k].aborts) <= AbortedBy(ticks)
    decreases |ticks|
  {
    if k < |ticks| - 1 { AbortsOfTick(ticks[..|ticks| - 1], k); }
  }

  /** How many submissions the first k ticks bring. */
  function Arrived(ticks: seq<Tick>, k: nat): (n: nat)
    requires k <= |ticks|
  {
    if k == 0 then 0 else Arrived(ticks, k - 1) + |ticks[k - 1].arrivals|
  }

  ghost predicate SubTrusted(c: Cfg, sub: Submission) {
    Trusted(c, sub.params, NewRequest(sub).init, sub.salt)
  }

  ghost predicate TickTrusted(c: Cfg, t: Tick) {
    forall i :: 0 <= i < |t.arrivals| ==> SubTrusted(c, t.arrivals[i])
  }

  /** The hash is relied on for the prefixes of all submissions. */
  ghost predicate TrafficTrusted(c: Cfg, ticks: seq<Tick>) {
    forall k :: 0 <= k < |ticks| ==> TickTrusted(c, ticks[k])
  }

  /** The prefixes of whole blocks that the isolated runs of the submissions go through. */
  ghost predicate PrefixOf(c: Cfg, sub: Submission, n: nat, i: nat, ch: Chain) {
    var toks := Isolated(c.env, sub.params, |sub.prompt|, NewRequest(sub).init, n).tokens;
    InBlocks(c.bs, toks, i) && ch == ChainOf(c.bs, sub.salt, toks, i)
  }

  ghost predicate IsPrefix(c: Cfg, ticks: seq<Tick>, ch: Chain) {
    exists k, j, n: nat, i: nat ::
      0 <= k < |ticks| && 0 <= j < |ticks[k].arrivals| && PrefixOf(c, ticks[k].arrivals[j], n, i, ch)
  }

  ghost function PrefixesOf(c: Cfg, ticks: seq<Tick>): (r: iset<Chain>) {
    iset ch: Chain | IsPrefix(c, ticks, ch)
  }

  /** To trust the traffic it is enough to trust what its own isolated runs go through. */
  lemma OwnPrefixesSuffice(c: Cfg, ticks: seq<Tick>)
    requires PrefixesOf(c, ticks) <= c.trusted
    ensures TrafficTrusted(c, ticks)
  {
    forall k, j | 0 <= k < |ticks| && 0 <= j < |ticks[k].arrivals| ensures SubTrusted(c, ticks[k].arrivals[j]) {
      var sub := ticks[k].arrivals[j];
      UnwrapTrusted(c, sub.params, NewRequest(sub).init, sub.salt, Depth());
      forall n: nat
        ensures TrustedAt(c, sub.salt, Isolated(c.env, sub.params, |NewRequest(sub).init.tokens|, NewRequest(sub).init, n).tokens)
      {
        var toks := Isolated(c.env, sub.params, |sub.prompt|, NewRequest(sub).init, n).tokens;
        forall i: nat | InBlocks(c.bs, toks, i) ensures ChainOf(c.bs, sub.salt, toks, i) in c.trusted {
          assert PrefixOf(c, sub, n, i, ChainOf(c.bs, sub.salt, toks, i));
          assert IsPrefix(c, ticks, ChainOf(c.bs, sub.salt, toks, i));
        }
      }
    }
  }

  lemma OffIsTrusted(c: Cfg, ticks: seq<Tick>)
    requires !c.caching
    ensures TrafficTrusted(c, ticks)
  {
    forall k, j | 0 <= k < |ticks| && 0 <= j < |ticks[k].arrivals| ensures SubTrusted(c, ticks[k].arrivals[j]) {
      AlwaysTrusted(c, ticks[k].arrivals[j].params, NewRequest(ticks[k].arrivals[j]).init, ticks[k].arrivals[j].salt);
    }
  }

  /** Nobody new on record: the submissions on record are the same. */
  lemma StrideTrusted(c: Cfg, s: Sys, s': Sys, d: nat, cut: set<Id>)
    requires Stride(c, s, s', d, cut) && s'.reqs.Keys == s.reqs.Keys && AllTrusted(c, s.reqs)
    ensures AllTrusted(c, s'.reqs)
  {
    OpenStride(c, s, s', d, cut, Depth());
  }

  lemma SteadyTrusted(c: Cfg, s: Sys)
    requires KvSteady(c, s)
    ensures AllTrusted(c, s.reqs)
  {
    OpenKvOk(c, s, FedOf(s.reqs));
    forall id | id in s.reqs ensures Trusted(c, s.reqs[id].params, s.reqs[id].init, s.reqs[id].salt) { OpenTracked(c, s.reqs[id]); }
  }

  // ---- leaving the line ----

  lemma CutPre(c: Cfg, s: Sys, k: nat)
    requires Ok(c, s) && k < |s.running|
    ensures Known(s.reqs, s.running) && PoolOk(s.reg.pool) && CanRelease(s.reg.pool.ref, TableOf(s, k))
  {
    OpenOk(c, s);
    Releasable(c, s, k);
  }

  /** A request that leaves either queue leaves the line. */
  lemma CutLine(s: Sys, s': Sys, k: nat, run: bool)
    requires if run then k < |s.running| && s'.running == Without(s.running, k) && s'.waiting == s.waiting
             else k < |s.waiting| && s'.running == s.running && s'.waiting == Without(s.waiting, k)
    requires NoDup(Line(s))
    ensures var i := if run then k else |s.running| + k; Line(s') == Without(Line(s), i) && Line(s)[i] !in Line(s')
  {
    WithoutFacts(Line(s), if run then k else |s.running| + k);
  }

  /** A request may be ended from outside: aborted if it is in cut, failed only where requests can be too long for a step
      and before it has generated anything. */
  ghost predicate MayCut(c: Cfg, why: FinishReason, id: Id, r: Request, cut: set<Id>) {
    (why == ABORT && id in cut) || (why == ERROR && !Flows(c) && r.gen == r.init)
  }

  /** The i-th request in line is ended from outside. */
  lemma CutStride(c: Cfg, s: Sys, s': Sys, i: nat, why: FinishReason, cut: set<Id>)
    requires Ok(c, s) && Ok(c, s') && (KvSteady(c, s) ==> KvSteady(c, s'))
    requires i < |Line(s)| && Line(s') == Without(Line(s), i) && Line(s)[i] in s.reqs
    requires MayCut(c, why, Line(s)[i], s.reqs[Line(s)[i]], cut)
    requires s'.reqs == s.reqs[Line(s)[i] := Finished(s.reqs[Line(s)[i]], why)] && (Ordered(c, s) ==> Ordered(c, s'))
    ensures Stride(c, s, s', 0, cut)
  {
    LineKnown(c, s);
    assert Line(s)[i] in Line(s);
    DropStride(c, s, s', i, cut);
  }

  lemma EndedRunning(c: Cfg, s: Sys, k: nat, why: FinishReason, v: View, cut: set<Id>)
    requires Ok(c, s) && k < |s.running| && Known(s.reqs, s.running) && MayCut(c, why, s.running[k], ReqAt(s, k), cut)
    requires Returned(s.reg.pool, v, c.caching, TableOf(s, k))
    ensures var s' := Leave(s, k, Finished(ReqAt(s, k), why), v);
      Ok(c, s') && Stride(c, s, s', 0, cut) && s.running[k] !in Line(s')
  {
    var s' := Leave(s, k, Finished(ReqAt(s, k), why), v);
    LineKnown(c, s);
    CutRunning(c, s, k, why, v);
    CutLine(s, s', k, true);
    if Ordered(c, s) { OrderedSame(c, s, s'); }
    CutStride(c, s, s', k, why, cut);
  }

  lemma EndedWaiting(c: Cfg, s: Sys, k: nat, why: FinishReason, cut: set<Id>)
    requires Ok(c, s) && k < |s.waiting| && Known(s.reqs, s.waiting)
    requires MayCut(c, why, s.waiting[k], s.reqs[s.waiting[k]], cut)
    ensures var s' := LeaveWaiting(s, k, Finished(s.reqs[s.waiting[k]], why));
      Ok(c, s') && Stride(c, s, s', 0, cut) && s.waiting[k] !in Line(s')
  {
    var s' := LeaveWaiting(s, k, Finished(s.reqs[s.waiting[k]], why));
    LineKnown(c, s);
    CutWaiting(c, s, k, why);
    CutLine(s, s', k, false);
    CutOrdered(c, s, k, why);
    CutStride(c, s, s', |s.running| + k, why, cut);
  }

  lemma CutOrdered(c: Cfg, s: Sys, k: nat, why: FinishReason)
    requires Ok(c, s) && k < |s.waiting| && Known(s.reqs, s.waiting)
    ensures Ordered(c, s) ==> Ordered(c, LeaveWaiting(s, k, Finished(s.reqs[s.waiting[k]], why)))
  {
    LineKnown(c, s);
    assert s.waiting[k] in Line(s);
    if Ordered(c, s) { OrderedWithout(c, s, LeaveWaiting(s, k, Finished(s.reqs[s.waiting[k]], why)), k); }
  }

  // ---- what finished requests have generated ----

  /** The request stopped exactly where its isolated run stops. */
  ghost predicate Completed(env: Env, r: Request) {
    && |r.init.tokens| <= |r.gen.tokens| && r.gen.reason == r.finish != NONE
    && forall n :: n >= |r.gen.tokens| - |r.init.tokens| ==> Isolated(env, r.params, |r.init.tokens|, r.init, n) == r.gen
  }

  lemma FinishedTraced(c: Cfg, s: Sys, id: Id)
    requires Ok(c, s) && KvSteady(c, s) && id in s.reqs && EndedItself(s.reqs[id])
    ensures Traced(c.env, s.reqs[id].params, s.reqs[id].init, s.reqs[id].gen) && s.reqs[id].gen.reason == s.reqs[id].finish
  {
    OpenKvOk(c, s, FedOf(s.reqs));
    OpenTracked(c, s.reqs[id]);
    LineKnown(c, s);
  }

  lemma TracedCompleted(env: Env, r: Request)
    requires Traced(env, r.params, r.init, r.gen) && r.gen.reason == r.finish != NONE
    ensures Completed(env, r)
  {
    forall n | n >= |r.gen.tokens| - |r.init.tokens| ensures Isolated(env, r.params, |r.init.tokens|, r.init, n) == r.gen {
      IsolatedFinal(env, r.params, |r.init.tokens|, r.init, |r.gen.tokens| - |r.init.tokens|, n);
    }
  }

  /** Whatever a request has generated so far, finished or not and however it was cut off, is a stretch of its isolated
      run: each token was drawn from the model's answer to exactly the tokens before it. One that ended by itself has all
      of that run. */
  ghost predicate Exact(c: Cfg, reqs: map<Id, Request>) {
    forall id :: id in reqs ==>
      && Traced(c.env, reqs[id].params, reqs[id].init, reqs[id].gen) && Decoded(c.env, reqs[id].params, reqs[id].init, reqs[id].gen)
      && (EndedItself(reqs[id]) ==> Completed(c.env, reqs[id]))
  }

  /** Every request goes on, stops or is full exactly as its tokens say, whatever they were computed from; and that is the
      finish reason of those that ended by themselves. */
  ghost predicate AllEndRight(c: Cfg, reqs: map<Id, Request>) {
    forall id :: id in reqs ==> EndedRight(c.env, reqs[id])
  }

  ghost predicate EndedRight(env: Env, r: Request) {
    EndsRight(env, r.params, r.init, r.gen) && (EndedItself(r) ==> r.finish == r.gen.reason)
  }

  lemma OkEndRight(c: Cfg, s: Sys)
    requires Ok(c, s)
    ensures AllEndRight(c, s.reqs)
  {
    forall id | id in s.reqs ensures EndedRight(c.env, s.reqs[id]) {
      LineKnown(c, s);
      assert HistOk(c, s.reqs[id]) by { OpenOk(c, s); }
      OpenHist(c, s.reqs[id]);
      LoggedEnds(c.env, s.reqs[id].params, s.reqs[id].init, s.reqs[id].gen);
    }
  }

  lemma SteadyExact(c: Cfg, s: Sys)
    requires Ok(c, s) && KvSteady(c, s)
    ensures Exact(c, s.reqs)
  {
    forall id | id in s.reqs
      ensures Traced(c.env, s.reqs[id].params, s.reqs[id].init, s.reqs[id].gen)
      ensures Decoded(c.env, s.reqs[id].params, s.reqs[id].init, s.reqs[id].gen)
      ensures EndedItself(s.reqs[id]) ==> Completed(c.env, s.reqs[id])
    {
      TracedIsDecoded(c.env, s.reqs[id].params, s.reqs[id].init, s.reqs[id].gen);
      OpenKvOk(c, s, FedOf(s.reqs));
      OpenTracked(c, s.reqs[id]);
      if EndedItself(s.reqs[id]) {
        FinishedTraced(c, s, id);
        TracedCompleted(c.env, s.reqs[id]);
      }
    }
  }

  /** Schedule independence: the same submission served by two engines, with any cache and batch configuration, any
      traffic, any preemptions, any prefix hits and any drafts, generates the same tokens and stops for the same reason,
      whenever both let it finish; until then, and if it is cut off, one of them is ahead of the other on the same run. */
  lemma ScheduleIndependence(c: Cfg, s: Sys, id: Id, c': Cfg, s': Sys, id': Id)
    requires Ok(c, s) && KvSteady(c, s) && id in s.reqs && Ok(c', s') && KvSteady(c', s') && id' in s'.reqs
    requires c'.env == c.env && s'.reqs[id'].init == s.reqs[id].init && s'.reqs[id'].params == s.reqs[id].params
    ensures EndedItself(s.reqs[id]) && EndedItself(s'.reqs[id']) ==>
      s'.reqs[id'].gen == s.reqs[id].gen && s'.reqs[id'].finish == s.reqs[id].finish
    ensures s.reqs[id].gen.tokens <= s'.reqs[id'].gen.tokens || s'.reqs[id'].gen.tokens <= s.reqs[id].gen.tokens
  {
    var r, r' := s.reqs[id], s'.reqs[id'];
    SteadyExact(c, s);
    SteadyExact(c', s');
    if EndedItself(r) && EndedItself(r') {
      FinishedTraced(c, s, id);
      FinishedTraced(c', s', id');
      TracedUnique(c.env, r.params, r.init, r.gen, r'.gen);
    }
    if |r.gen.tokens| <= |r'.gen.tokens| { TracedAhead(c.env, r.params, r.init, r.gen, r'.gen); }
    else { TracedAhead(c.env, r.params, r.init, r'.gen, r.gen); }
  }

  // ---- how long it takes ----

  /** The number of steps after which a request is certain to be over: a whole context for itself and for each request
      before it. */
  ghost function LongestWait(c: Cfg, s: Sys, id: Id): (n: nat) {
    (Ahead(Line(s), id) + 1) * c.env.maxLen
  }

  /** The line grows by new requests only. */
  lemma LineGrows(c: Cfg, s: Sys, s': Sys, d: nat, cut: set<Id>, n: nat, n': nat)
    requires Ok(c, s') && Stride(c, s, s', d, cut) && n <= n'
    requires (forall id: Id :: id in s.reqs <==> id < n) && (forall id: Id :: id in s'.reqs <==> id < n')
    ensures |Line(s')| <= |Line(s)| + (n' - n)
  {
    OpenStride(c, s, s', d, cut, Depth());
    LineKnown(c, s');
    forall id | id in Line(s') ensures id in Line(s) || n <= id < n' { assert id in s'.reqs; }
    MoreAtMost(Line(s), Line(s'), n, n');
  }

  lemma MoreAtMost(q: seq<nat>, q': seq<nat>, n: nat, n': nat)
    requires NoDup(q') && n <= n' && forall id :: id in q' ==> id in q || n <= id < n'
    ensures |q'| <= |q| + (n' - n)
  {
    var more := Below(n') - Below(n);
    assert Below(n') == Below(n) + more;
    assert |more| == n' - n;
    DistinctSize(q');
    SubsetSize(Elems(q'), Elems(q) + more);
  }

  lemma {:induction false} DistinctSize(q: seq<nat>)
    requires NoDup(q)
    ensures |Elems(q)| == |q|
  {
    if q != [] {
      assert q == q[..|q| - 1] + [q[|q| - 1]];
      DistinctSize(q[..|q| - 1]);
    }
  }

  /** What is owed to an accepted submission: it is on record, and while it is in line it needs at most wait steps. */
  ghost predicate Owed(c: Cfg, s: Sys, sub: Submission, id: int, wait: int) {
    && Queued(c, s.reqs, sub, id)
    && (!c.byPriority && Flows(c) && id >= 0 && id in Line(s) ==> Rank(c, s, id) <= wait)
  }

  lemma OwedOn(c: Cfg, s: Sys, s': Sys, cut: set<Id>, sub: Submission, id: int, wait: int)
    requires Ok(c, s) && Stride(c, s, s', if Flows(c) then 1 else 0, cut) && Owed(c, s, sub, id, wait)
    ensures Owed(c, s', sub, id, wait - 1)
  {
    OpenStride(c, s, s', if Flows(c) then 1 else 0, cut, Depth());
  }

  lemma OwedFirst(c: Cfg, s: Sys, sub: Submission, id: int, n: nat)
    requires Ok(c, s) && Queued(c, s.reqs, sub, id) && |Line(s)| <= n
    ensures Owed(c, s, sub, id, n * c.env.maxLen)
  {
    if id >= 0 && id in Line(s) {
      RankBound(c, s, id);
      MulMono(Ahead(Line(s), id) + 1, n, c.env.maxLen);
    }
  }

  /** Once the wait is over, so is the request. */
  lemma OwedOver(c: Cfg, s0: Sys, s: Sys, cut: set<Id>, sub: Submission, id: int, wait: int)
    requires Ok(c, s0) && Ok(c, s) && Ends(c, s0.reqs, s.reqs, cut) && !c.byPriority && Flows(c) && Accepts(c, sub)
    requires Owed(c, s, sub, id, wait) && wait <= 0 && id !in s0.reqs && id !in cut
    ensures EndedItself(s.reqs[id])
  {
    if id in Line(s) { RankBound(c, s, id); }
    OverIsEnded(c, s0, s, cut, id);
  }

  /** The steps within which the submissions of tick k are certain to be over: a whole context for everybody who was in
      line at the start or has arrived by then. */
  ghost function Patience(c: Cfg, n0: nat, ticks: seq<Tick>, k: nat): (n: nat)
    requires k < |ticks|
  {
    (n0 + Arrived(ticks, k + 1)) * c.env.maxLen
  }

  ghost predicate OverBy(reqs: map<Id, Request>, id: int) {
    id >= 0 && id in reqs && EndedItself(reqs[id])
  }

  /** Submission j of tick k, if it was accepted and is not aborted and the traffic goes on for long enough, has ended by
      itself. */
  ghost predicate InTime(c: Cfg, n0: nat, reqs: map<Id, Request>, ticks: seq<Tick>, ids: seq<seq<int>>, k: nat, j: nat) {
    && k < |ticks| && k < |ids| && j < |ticks[k].arrivals| && j < |ids[k]|
    && (Accepts(c, ticks[k].arrivals[j]) && ids[k][j] !in AbortedBy(ticks) && k + 1 + Patience(c, n0, ticks, k) <= |ticks| ==>
         OverBy(reqs, ids[k][j]))
  }

  ghost predicate TickOwed(c: Cfg, s: Sys, n0: nat, ticks: seq<Tick>, ids: seq<seq<int>>, i: nat, k: nat)
    requires k < |ticks| && k < |ids|
  {
    && |ids[k]| == |ticks[k].arrivals|
    && forall j :: 0 <= j < |ids[k]| ==> Owed(c, s, ticks[k].arrivals[j], ids[k][j], Patience(c, n0, ticks, k) - (i - k - 1))
  }

  /** After i ticks, what is owed to all submissions so far. */
  ghost predicate AllOwed(c: Cfg, s: Sys, n0: nat, ticks: seq<Tick>, ids: seq<seq<int>>, i: nat) {
    |ids| == i <= |ticks| && forall k :: 0 <= k < i ==> TickOwed(c, s, n0, ticks, ids, i, k)
  }

  lemma OwedMore(c: Cfg, s: Sys, s': Sys, n0: nat, ticks: seq<Tick>, ids: seq<seq<int>>, i: nat, cut: set<Id>, more: seq<int>)
    requires Ok(c, s) && Ok(c, s') && Stride(c, s, s', if Flows(c) then 1 else 0, cut)
    requires i < |ticks| && AllOwed(c, s, n0, ticks, ids, i) && AllQueued(c, s'.reqs, ticks[i].arrivals, more)
    requires |Line(s')| <= n0 + Arrived(ticks, i + 1)
    ensures AllOwed(c, s', n0, ticks, ids + [more], i + 1)
  {
    var ids', next := ids + [more], i + 1;
    forall k | 0 <= k < next ensures TickOwed(c, s', n0, ticks, ids', next, k) {
      if k < i {
        assert TickOwed(c, s, n0, ticks, ids, i, k);
        forall j | 0 <= j < |ids'[k]|
          ensures Owed(c, s', ticks[k].arrivals[j], ids'[k][j], Patience(c, n0, ticks, k) - (next - k - 1))
        {
          OwedOn(c, s, s', cut, ticks[k].arrivals[j], ids[k][j], Patience(c, n0, ticks, k) - (i - k - 1));
        }
      } else {
        forall j | 0 <= j < |more| ensures Owed(c, s', ticks[i].arrivals[j], more[j], Patience(c, n0, ticks, i)) {
          OwedFirst(c, s', ticks[i].arrivals[j], more[j], n0 + Arrived(ticks, i + 1));
        }
      }
    }
  }

  /** At the end of the traffic: everything promised has been kept. */
  lemma ServedWell(c: Cfg, s: Sys, s': Sys, n: nat, ticks: seq<Tick>, ids: seq<seq<int>>)
    requires Ok(c, s) && Ok(c, s') && Stride(c, s, s', if Flows(c) then |ticks| else 0, AbortedBy(ticks))
    requires AllOwed(c, s', |Line(s)|, ticks, ids, |ticks|) && (exists n' :: Numbered(Flat(ids), n, n')) && (forall id :: id in s.reqs ==> id < n)
    requires AllTrusted(c, s.reqs) && TrafficTrusted(c, ticks) ==> AllTrusted(c, s'.reqs)
    ensures Evolves(s.reqs, s'.reqs) && Ends(c, s.reqs, s'.reqs, AbortedBy(ticks)) && AllEndRight(c, s'.reqs)
    ensures forall k :: 0 <= k < |ticks| ==> AllQueued(c, s'.reqs, ticks[k].arrivals, ids[k])
    ensures KvSteady(c, s) && TrafficTrusted(c, ticks) ==> KvSteady(c, s') && Exact(c, s'.reqs)
    ensures !c.byPriority && Flows(c) ==>
      forall id :: id in Line(s) && id !in AbortedBy(ticks) && |ticks| >= LongestWait(c, s, id) ==>
        id in s'.reqs && EndedItself(s'.reqs[id])
    ensures !c.byPriority && Flows(c) ==>
      forall k, j :: 0 <= k < |ticks| && 0 <= j < |ticks[k].arrivals| ==> InTime(c, |Line(s)|, s'.reqs, ticks, ids, k, j)
  {
    var cut, d := AbortedBy(ticks), if Flows(c) then |ticks| else 0;
    OpenStride(c, s, s', d, cut, Depth());
    OkEndRight(c, s');
    if KvSteady(c, s) && TrafficTrusted(c, ticks) {
      SteadyTrusted(c, s);
      SteadyExact(c, s');
    }
    forall k | 0 <= k < |ticks| ensures AllQueued(c, s'.reqs, ticks[k].arrivals, ids[k]) {
      assert TickOwed(c, s', |Line(s)|, ticks, ids, |ticks|, k);
    }
    forall id | !c.byPriority && Flows(c) && id in Line(s) && id !in cut && |ticks| >= LongestWait(c, s, id)
      ensures id in s'.reqs && EndedItself(s'.reqs[id])
    {
      NobodyStarves(c, s, s', d, cut, id);
    }
    forall k, j | !c.byPriority && Flows(c) && 0 <= k < |ticks| && 0 <= j < |ticks[k].arrivals|
      ensures InTime(c, |Line(s)|, s'.reqs, ticks, ids, k, j)
    {
      ArrivalOver(c, s, s', n, ticks, ids, k, j);
    }
  }

  lemma ArrivalOver(c: Cfg, s: Sys, s': Sys, n: nat, ticks: seq<Tick>, ids: seq<seq<int>>, k: nat, j: nat)
    requires Ok(c, s) && Ok(c, s') && Ends(c, s.reqs, s'.reqs, AbortedBy(ticks)) && !c.byPriority && Flows(c)
    requires AllOwed(c, s', |Line(s)|, ticks, ids, |ticks|) && (exists n' :: Numbered(Flat(ids), n, n')) && (forall id :: id in s.reqs ==> id < n)
    requires k < |ticks| && j < |ticks[k].arrivals|
    ensures InTime(c, |Line(s)|, s'.reqs, ticks, ids, k, j)
  {
    var sub, wait := ticks[k].arrivals[j], Patience(c, |Line(s)|, ticks, k);
    assert TickOwed(c, s', |Line(s)|, ticks, ids, |ticks|, k);
    InFlat(ids, k, j);
    if Accepts(c, sub) && ids[k][j] !in AbortedBy(ticks) && k + 1 + wait <= |ticks| {
      assert Owed(c, s', sub, ids[k][j], wait - (|ticks| - k - 1));
      OwedOver(c, s, s', AbortedBy(ticks), sub, ids[k][j], wait - (|ticks| - k - 1));
    }
  }
}
