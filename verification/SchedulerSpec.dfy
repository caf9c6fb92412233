/** What a scheduling decision is: token windows, queue order, room making, admission and preemption as relations on
    the serving state, and what each of them keeps. */
module SchedulerSpec {
  import opened Types
  import opened PoolSpec
  import opened PagedKV
  import opened Generation
  import opened Serving
  import opened KvInvariant

  datatype Scheduled = Scheduled(id: Id, nNew: nat, nSpec: nat, resumed: bool)
  datatype Output = Output(scheduled: seq<Scheduled>, preempted: seq<Id>, total: nat)

  /** Scheduling moves requests between queues and blocks between tables; what a request has generated stays. */
  ghost predicate Kept(a: map<Id, Request>, b: map<Id, Request>) {
    && a.Keys == b.Keys
    && forall id :: id in a ==>
      && b[id].gen == a[id].gen && b[id].init == a[id].init && b[id].params == a[id].params
      && b[id].salt == a[id].salt && b[id].spec == a[id].spec && b[id].finish == a[id].finish
      && b[id].priority == a[id].priority && b[id].arrival == a[id].arrival
      && (a[id].status == FINISHED ==> b[id] == a[id])
  }

  // ---- queue order ----

  predicate Before(a: Request, b: Request) {
    a.priority < b.priority || (a.priority == b.priority && a.arrival < b.arrival)
  }

  /** upper_bound: the first position whose request comes strictly after r. */
  function UpperBound(reqs: map<Id, Request>, q: seq<Id>, r: Request): (pos: nat)
    requires Known(reqs, q)
    ensures pos <= |q|
    ensures forall i :: 0 <= i < pos ==> !Before(r, reqs[q[i]])
    ensures pos < |q| ==> Before(r, reqs[q[pos]])
  {
    if q == [] then 0 else if Before(r, reqs[q[0]]) then 0 else 1 + UpperBound(reqs, q[1..], r)
  }

  ghost predicate Sorted(reqs: map<Id, Request>, q: seq<Id>)
    requires Known(reqs, q)
  {
    forall i, j :: 0 <= i < j < |q| ==> !Before(reqs[q[j]], reqs[q[i]])
  }

  /** Under the priority policy the waiting queue stays sorted by (priority, arrival). */
  lemma InsertSorted(reqs: map<Id, Request>, q: seq<Id>, id: Id, r: Request)
    requires Known(reqs, q) && Sorted(reqs, q) && id !in q
    ensures var q' := InsertAt(q, UpperBound(reqs, q, r), id);
      Known(reqs[id := r], q') && Sorted(reqs[id := r], q')
  {
    var pos := UpperBound(reqs, q, r);
    var q', reqs' := InsertAt(q, pos, id), reqs[id := r];
    forall i | 0 <= i < |q'| ensures q'[i] in reqs' && (i == pos ==> q'[i] == id) &&
      (i < pos ==> q'[i] == q[i] && q[i] != id) && (i > pos ==> q'[i] == q[i - 1] && q[i - 1] != id)
    {
    }
    forall i, j | 0 <= i < j < |q'| ensures !Before(reqs'[q'[j]], reqs'[q'[i]]) {
      if i == pos { assert !Before(reqs[q[j - 1]], r); }
    }
  }

  // ---- token counts ----

  /** Tokens a request would compute now: all that is missing, capped by the prefill threshold. */
  function Missing(c: Cfg, r: Request, computed: nat): (n: nat)
    requires computed <= |r.gen.tokens|
  {
    var n := |r.gen.tokens| - computed;
    if c.longThreshold > 0 then Min(n, c.longThreshold) else n
  }

  datatype Plan = Plan(nNew: nat, nSpec: nat)

  /** Tokens for a running request within the budget; drafts ride along only behind the whole real window. */
  function PlanRunning(c: Cfg, r: Request, budget: nat): (p: Plan)
    requires r.computed <= |r.gen.tokens|
  {
    var n := Min(Missing(c, r, r.computed), budget);
    if n == 0 then Plan(0, 0)
    else if r.spec == [] || n != |r.gen.tokens| - r.computed then Plan(n, 0)
    else
      var m := if n + |r.spec| > budget then budget - n else |r.spec|;
      var m' := if r.computed + n + m + 1 > c.env.maxLen
                then Min(m, if c.env.maxLen > r.computed + n + 1 then c.env.maxLen - r.computed - n - 1 else 0)
                else m;
      Plan(n + m', m')
  }

  /** A scheduled request's window: at least one token, n tokens first, drafts only after all of them, inside
      the budget and the context limit. */
  ghost predicate Window(c: Cfg, r: Request, nNew: nat, nSpec: nat) {
    && nSpec < nNew && nSpec <= |r.spec|
    && (if nSpec > 0 then r.computed + nNew == |r.gen.tokens| + nSpec else r.computed + nNew <= |r.gen.tokens|)
    && r.computed + nNew < c.env.maxLen
  }

  /** As many real tokens as are missing, unless the threshold or what is left of the budget allows fewer; then those. */
  ghost predicate RealTokens(c: Cfg, missing: int, left: int, n: int) {
    && 0 <= n <= missing && n <= left && (c.longThreshold > 0 ==> n <= c.longThreshold)
    && (n == missing || n == left || (c.longThreshold > 0 && n == c.longThreshold))
  }

  /** m of the drafts fit behind n real tokens, into the budget and the context. */
  ghost predicate DraftsFit(c: Cfg, r: Request, n: int, left: int, m: int) {
    m <= |r.spec| && n + m <= left && r.computed + n + m + 1 <= c.env.maxLen
  }

  /** The window of a running request is as wide as can be: all real tokens that may be computed and, only if none is
      missing then, as many drafts as fit. */
  ghost predicate Widest(c: Cfg, r: Request, e: Scheduled, left: int) {
    var missing, n := |r.gen.tokens| - r.computed, e.nNew - e.nSpec;
    && RealTokens(c, missing, left, n) && !e.resumed
    && (e.nSpec > 0 ==> n == missing && DraftsFit(c, r, n, left, e.nSpec))
    && forall m :: n == missing && e.nSpec < m ==> !DraftsFit(c, r, n, left, m)
  }

  /** So is that of a request that starts, after its prefix hits and without drafts. */
  ghost predicate StartsWide(c: Cfg, r: Request, e: Scheduled, left: int) {
    e.nSpec == 0 && RealTokens(c, |r.gen.tokens| - r.computed, left, e.nNew)
  }

  lemma PlanOk(c: Cfg, r: Request, budget: nat, id: Id)
    requires r.computed < |r.gen.tokens| < c.env.maxLen && budget > 0
    ensures var p := PlanRunning(c, r, budget);
      0 < p.nNew <= budget && Window(c, r, p.nNew, p.nSpec) && Widest(c, r, Scheduled(id, p.nNew, p.nSpec, false), budget)
  {
  }

  /** Entry i of a batch, given what the entries before it have left of the budget. The first ones ran before (in s0), the
      others have started (in s). */
  ghost predicate SharpAt(c: Cfg, s0: Sys, s: Sys, out: seq<Scheduled>, i: nat)
    requires i < |out|
  {
    var left := c.maxBatched - Total(out[..i]);
    if i < |s0.running| then s0.running[i] in s0.reqs && Widest(c, s0.reqs[s0.running[i]], out[i], left)
    else i < |s.running| && s.running[i] in s.reqs && StartsWide(c, s.reqs[s.running[i]], out[i], left)
  }

  ghost predicate WrapSharp(c: Cfg, s0: Sys, s: Sys, out: seq<Scheduled>, n: Layers)
    decreases n
  {
    match n
    case Bare => forall i :: 0 <= i < |out| ==> SharpAt(c, s0, s, out, i)
    case Over(m) => WrapSharp(c, s0, s, out, m)
  }

  /** Every window is as wide as can be. */
  ghost predicate Sharp(c: Cfg, s0: Sys, s: Sys, out: seq<Scheduled>) {
    WrapSharp(c, s0, s, out, Depth())
  }

  lemma {:induction false} UnwrapSharp(c: Cfg, s0: Sys, s: Sys, out: seq<Scheduled>, n: Layers)
    ensures WrapSharp(c, s0, s, out, n) <==> forall i :: 0 <= i < |out| ==> SharpAt(c, s0, s, out, i)
  {
    if n.Over? { UnwrapSharp(c, s0, s, out, n.under); }
  }

  lemma OpenSharp(c: Cfg, s0: Sys, s: Sys, out: seq<Scheduled>)
    ensures Sharp(c, s0, s, out) <==> forall i :: 0 <= i < |out| ==> SharpAt(c, s0, s, out, i)
  {
    UnwrapSharp(c, s0, s, out, Depth());
  }

  lemma SharpNone(c: Cfg, s0: Sys, s: Sys)
    ensures Sharp(c, s0, s, [])
  {
    OpenSharp(c, s0, s, []);
  }

  /** Windows stay as wide as they are while the requests that have started keep their records. */
  lemma SharpKeeps(c: Cfg, s0: Sys, s: Sys, s': Sys, out: seq<Scheduled>)
    requires Sharp(c, s0, s, out)
    requires forall i :: |s0.running| <= i < |out| && i < |s.running| ==>
      && i < |s'.running| && s'.running[i] == s.running[i] && s.running[i] in s.reqs && s'.running[i] in s'.reqs
      && s'.reqs[s.running[i]].gen == s.reqs[s.running[i]].gen && s'.reqs[s.running[i]].computed == s.reqs[s.running[i]].computed
    ensures Sharp(c, s0, s', out)
  {
    OpenSharp(c, s0, s, out);
    OpenSharp(c, s0, s', out);
    forall i | 0 <= i < |out| ensures SharpAt(c, s0, s', out, i) { assert SharpAt(c, s0, s, out, i); }
  }

  lemma SharpMore(c: Cfg, s0: Sys, s: Sys, out: seq<Scheduled>, e: Scheduled, left: int)
    requires Sharp(c, s0, s, out) && left == c.maxBatched - Total(out)
    requires if |out| < |s0.running| then s0.running[|out|] in s0.reqs && Widest(c, s0.reqs[s0.running[|out|]], e, left)
             else |out| < |s.running| && s.running[|out|] in s.reqs && StartsWide(c, s.reqs[s.running[|out|]], e, left)
    ensures Sharp(c, s0, s, out + [e])
  {
    var out' := out + [e];
    OpenSharp(c, s0, s, out);
    OpenSharp(c, s0, s, out');
    assert out'[..|out|] == out;
    forall i | 0 <= i < |out'| ensures SharpAt(c, s0, s, out', i) {
      if i < |out| {
        assert SharpAt(c, s0, s, out, i);
        assert out'[..i] == out[..i];
      }
    }
  }

  // ---- what scheduling keeps ----

  /** The blocks for everything a request may have computed next. */
  ghost function Need(c: Cfg, r: Request): (n: nat) {
    WrapBlocks(c, |r.gen.tokens| + |r.spec|, Depth())
  }

  /** The blocks for n tokens, closed. */
  ghost function WrapBlocks(c: Cfg, n: nat, l: Layers): (k: nat)
    decreases l
  {
    match l case Bare => if c.bs == 0 then 0 else CeilDiv(n, c.bs) case Over(m) => WrapBlocks(c, n, m)
  }

  lemma {:induction false} OpenBlocks(c: Cfg, n: nat, l: Layers)
    requires c.bs > 0
    ensures WrapBlocks(c, n, l) == CeilDiv(n, c.bs)
  {
    if l.Over? { OpenBlocks(c, n, l.under); }
  }

  /** What a request needs is enough for any n of its tokens. */
  lemma NeedAtLeast(c: Cfg, r: Request, n: nat)
    requires c.bs > 0 && n <= |r.gen.tokens| + |r.spec|
    ensures CeilDiv(n, c.bs) <= Need(c, r)
  {
    OpenBlocks(c, |r.gen.tokens| + |r.spec|, Depth());
    CeilMono(n, |r.gen.tokens| + |r.spec|, c.bs);
  }

  /** No table has grown beyond what its request needs. */
  ghost predicate Lean(c: Cfg, a: map<Id, Request>, b: map<Id, Request>) {
    forall id :: id in a && id in b ==> |b[id].kv.blockIds| <= Max(|a[id].kv.blockIds|, Need(c, b[id]))
  }

  /** From s0 to s only queues and block tables have changed: generations are kept, KV integrity is kept, first come
      first served order is kept, and a sorted priority queue stays sorted. */
  ghost predicate Moved(c: Cfg, s0: Sys, s: Sys) {
    && Kept(s0.reqs, s.reqs) && (KvSteady(c, s0) ==> KvSteady(c, s)) && Lean(c, s0.reqs, s.reqs)
    && Known(s0.reqs, s0.waiting) && Known(s.reqs, s.waiting)
    && (if c.byPriority then Sorted(s0.reqs, s0.waiting) ==> Sorted(s.reqs, s.waiting)
        else s.running + s.waiting == s0.running + s0.waiting)
  }

  ghost predicate WrapMoved(c: Cfg, s0: Sys, s: Sys, n: Layers)
    decreases n
  {
    match n case Bare => Moved(c, s0, s) case Over(m) => WrapMoved(c, s0, s, m)
  }

  /** Moved, closed. */
  ghost predicate Onward(c: Cfg, s0: Sys, s: Sys) {
    WrapMoved(c, s0, s, Depth())
  }

  lemma {:induction false} UnwrapMoved(c: Cfg, s0: Sys, s: Sys, n: Layers)
    ensures WrapMoved(c, s0, s, n) <==> Moved(c, s0, s)
  {
    if n.Over? { UnwrapMoved(c, s0, s, n.under); }
  }

  lemma {:induction false} CloseMoved(c: Cfg, s0: Sys, s: Sys, n: Layers)
    requires Moved(c, s0, s)
    ensures WrapMoved(c, s0, s, n)
  {
    if n.Over? { CloseMoved(c, s0, s, n.under); }
  }

  lemma OpenOnward(c: Cfg, s0: Sys, s: Sys)
    ensures Onward(c, s0, s) <==> Moved(c, s0, s)
  {
    UnwrapMoved(c, s0, s, Depth());
  }

  lemma OnwardRefl(c: Cfg, s: Sys)
    requires Ok(c, s)
    ensures Onward(c, s, s)
  {
    RunningPre(c, s);
    OpenOnward(c, s, s);
  }

  lemma OnwardTrans(c: Cfg, s0: Sys, s1: Sys, s2: Sys)
    requires Onward(c, s0, s1) && Onward(c, s1, s2)
    ensures Onward(c, s0, s2)
  {
    OpenOnward(c, s0, s1);
    OpenOnward(c, s1, s2);
    KeptTrans(s0.reqs, s1.reqs, s2.reqs);
    LeanTrans(c, s0.reqs, s1.reqs, s2.reqs);
    OpenOnward(c, s0, s2);
  }

  lemma KeptTrans(a: map<Id, Request>, b: map<Id, Request>, d: map<Id, Request>)
    requires Kept(a, b) && Kept(b, d)
    ensures Kept(a, d)
  {
  }

  lemma LeanTrans(c: Cfg, a: map<Id, Request>, b: map<Id, Request>, d: map<Id, Request>)
    requires Kept(a, b) && Kept(b, d) && Lean(c, a, b) && Lean(c, b, d)
    ensures Lean(c, a, d)
  {
    forall id | id in a && id in d ensures |d[id].kv.blockIds| <= Max(|a[id].kv.blockIds|, Need(c, d[id])) {
      assert Need(c, d[id]) == Need(c, b[id]);
    }
  }

  lemma PreemptOnward(c: Cfg, s: Sys, s': Sys)
    requires Ok(c, s) && Ok(c, s') && PreemptStep(c, s, s')
    ensures Onward(c, s, s') && s'.running == s.running[..|s.running| - 1]
    ensures Known(s.reqs, s.running) && Known(s'.reqs, s'.running)
    ensures forall i :: 0 <= i < |s'.running| ==> ReqAt(s', i) == ReqAt(s, i)
  {
    PreemptOrder(c, s, s');
    RunningPre(c, s);
    RunningPre(c, s');
    if KvSteady(c, s) { PreemptKv(c, s, s'); }
    if c.byPriority && Sorted(s.reqs, s.waiting) { PreemptSorted(c, s, s'); }
    LeanUpdate(c, s.reqs, s.running[|s.running| - 1], s'.reqs[s.running[|s.running| - 1]]);
    MovedIs(c, s, s');
  }

  lemma LeanUpdate(c: Cfg, reqs: map<Id, Request>, id: Id, r: Request)
    requires id in reqs && |r.kv.blockIds| <= Max(|reqs[id].kv.blockIds|, Need(c, r))
    ensures Lean(c, reqs, reqs[id := r])
  {
  }

  lemma MovedIs(c: Cfg, s: Sys, s': Sys)
    requires Kept(s.reqs, s'.reqs) && (KvSteady(c, s) ==> KvSteady(c, s')) && Lean(c, s.reqs, s'.reqs)
    requires Known(s.reqs, s.waiting) && Known(s'.reqs, s'.waiting)
    requires if c.byPriority then Sorted(s.reqs, s.waiting) ==> Sorted(s'.reqs, s'.waiting)
             else s'.running + s'.waiting == s.running + s.waiting
    ensures Onward(c, s, s')
  {
    CloseMoved(c, s, s', Depth());
  }

  /** One record changes, but not what identifies the request or what it has generated. */
  ghost predicate SameWork(r: Request, r': Request) {
    && r'.gen == r.gen && r'.init == r.init && r'.params == r.params && r'.salt == r.salt && r'.spec == r.spec
    && r'.finish == r.finish && r'.priority == r.priority && r'.arrival == r.arrival
  }

  lemma KeptUpdate(reqs: map<Id, Request>, id: Id, r: Request)
    requires id in reqs && SameWork(reqs[id], r) && reqs[id].status != FINISHED
    ensures Kept(reqs, reqs[id := r])
  {
  }

  lemma SortedUpdate(reqs: map<Id, Request>, q: seq<Id>, id: Id, r: Request)
    requires Known(reqs, q) && id in reqs && SameWork(reqs[id], r)
    ensures Known(reqs[id := r], q) && (Sorted(reqs, q) ==> Sorted(reqs[id := r], q))
  {
  }

  lemma Distinct(c: Cfg, s: Sys, k: nat)
    requires Ok(c, s) && k < |s.running|
    ensures forall i :: 0 <= i < |s.running| && i != k ==> s.running[i] != s.running[k]
    ensures forall i :: 0 <= i < |s.waiting| ==> s.waiting[i] != s.running[k]
  {
    OpenOk(c, s);
  }

  lemma SetMoved(c: Cfg, s: Sys, id: Id, r: Request, v: View)
    requires Known(s.reqs, s.waiting) && id in s.reqs && SameWork(s.reqs[id], r) && s.reqs[id].status != FINISHED
    requires |r.kv.blockIds| <= Max(|s.reqs[id].kv.blockIds|, Need(c, r))
    requires KvSteady(c, s) ==> KvSteady(c, SetReq(s, id, r, v))
    ensures Moved(c, s, SetReq(s, id, r, v))
  {
    KeptUpdate(s.reqs, id, r);
    SortedUpdate(s.reqs, s.waiting, id, r);
  }

  lemma GrowOnward(c: Cfg, s: Sys, s': Sys, k: nat, nTotal: nat)
    requires Ok(c, s) && GrowStep(c, s, s', k, nTotal) && nTotal <= |ReqAt(s, k).gen.tokens| + |ReqAt(s, k).spec|
    ensures Onward(c, s, s') && s'.running == s.running && s'.waiting == s.waiting && Known(s'.reqs, s'.running)
    ensures forall i :: 0 <= i < |s.running| && i != k ==> ReqAt(s', i) == ReqAt(s, i)
    ensures ReqAt(s', k) == ReqAt(s, k).(kv := ReqAt(s', k).kv) && nTotal <= Times(|TableOf(s', k)|, c.bs)
  {
    GrowMoved(c, s, s', k, nTotal);
    Distinct(c, s, k);
    var popped :| GrowBy(c, s, s', k, nTotal, popped);
  }

  lemma GrowMoved(c: Cfg, s: Sys, s': Sys, k: nat, nTotal: nat)
    requires Ok(c, s) && GrowStep(c, s, s', k, nTotal) && nTotal <= |ReqAt(s, k).gen.tokens| + |ReqAt(s, k).spec|
    ensures Onward(c, s, s')
  {
    RunningPre(c, s);
    var popped :| GrowBy(c, s, s', k, nTotal, popped);
    NeedAtLeast(c, ReqAt(s, k), nTotal);
    if KvSteady(c, s) { GrowSteady(c, s, s', k, nTotal); }
    SetMoved(c, s, s.running[k], Extended(s, k, popped), s'.reg.pool);
    CloseMoved(c, s, s', Depth());
  }

  /** From s0 to s the last running requests were preempted one by one, as `victims` lists them. */
  ghost predicate Trimmed(c: Cfg, s0: Sys, s: Sys, victims: seq<Id>) {
    && Onward(c, s0, s) && Known(s0.reqs, s0.running) && Known(s.reqs, s.running)
    && |s.running| + |victims| == |s0.running| && s.running == s0.running[..|s.running|]
    && (forall i :: 0 <= i < |victims| ==> victims[i] == s0.running[|s0.running| - 1 - i])
    && (forall i :: 0 <= i < |s.running| ==> ReqAt(s, i) == ReqAt(s0, i))
    && (victims == [] ==> s.waiting == s0.waiting)
  }

  ghost predicate WrapTrimmed(c: Cfg, s0: Sys, s: Sys, victims: seq<Id>, n: Layers)
    decreases n
  {
    match n case Bare => Trimmed(c, s0, s, victims) case Over(m) => WrapTrimmed(c, s0, s, victims, m)
  }

  lemma {:induction false} OpenTrimmed(c: Cfg, s0: Sys, s: Sys, victims: seq<Id>, n: Layers)
    requires WrapTrimmed(c, s0, s, victims, n)
    ensures Trimmed(c, s0, s, victims)
  {
    if n.Over? { OpenTrimmed(c, s0, s, victims, n.under); }
  }

  lemma {:induction false} CloseTrimmed(c: Cfg, s0: Sys, s: Sys, victims: seq<Id>, n: Layers)
    requires Trimmed(c, s0, s, victims)
    ensures WrapTrimmed(c, s0, s, victims, n)
  {
    if n.Over? { CloseTrimmed(c, s0, s, victims, n.under); }
  }

  lemma TrimStart(c: Cfg, s: Sys)
    requires Ok(c, s)
    ensures WrapTrimmed(c, s, s, [], Depth())
  {
    OnwardRefl(c, s);
    RunningPre(c, s);
    CloseTrimmed(c, s, s, [], Depth());
  }

  lemma TrimSame(c: Cfg, s0: Sys, s: Sys, victims: seq<Id>, k: nat)
    requires WrapTrimmed(c, s0, s, victims, Depth()) && k < |s.running|
    ensures k < |s0.running| && s.running[k] == s0.running[k] && Known(s0.reqs, s0.running) && Known(s.reqs, s.running)
    ensures ReqAt(s, k) == ReqAt(s0, k)
  {
    OpenTrimmed(c, s0, s, victims, Depth());
  }

  lemma TrimMore(c: Cfg, s0: Sys, s: Sys, s': Sys, victims: seq<Id>)
    requires WrapTrimmed(c, s0, s, victims, Depth()) && Ok(c, s) && Ok(c, s') && PreemptStep(c, s, s')
    ensures WrapTrimmed(c, s0, s', victims + [s.running[|s.running| - 1]], Depth())
    ensures s'.running == s.running[..|s.running| - 1]
  {
    OpenTrimmed(c, s0, s, victims, Depth());
    PreemptOnward(c, s, s');
    OnwardTrans(c, s0, s, s');
    CloseTrimmed(c, s0, s', victims + [s.running[|s.running| - 1]], Depth());
  }

  /** What running request k holds or may need. */
  ghost function Claim(c: Cfg, s: Sys, k: nat): (n: nat)
    requires k < |s.running| && Known(s.reqs, s.running)
  {
    Max(|TableOf(s, k)|, Need(c, ReqAt(s, k)))
  }

  /** After the last preemption so far, what is free would not do for the victim's blocks and request idx together. */
  ghost predicate Tight(c: Cfg, s0: Sys, s: Sys, idx: nat, nTotal: nat) {
    && |s.running| < |s0.running| && Known(s0.reqs, s0.running) && idx < |s0.running| && c.bs > 0
    && |s.reg.pool.free| < |TableOf(s0, |s.running|)| + NewCount(c.bs, ReqAt(s0, idx).kv, nTotal, [])
  }

  lemma TightNow(c: Cfg, s0: Sys, s: Sys, s': Sys, idx: nat, nTotal: nat, victims: seq<Id>)
    requires Ok(c, s) && Ok(c, s') && WrapTrimmed(c, s0, s, victims, Depth()) && idx < |s.running| && !HasRoom(c, s, idx, nTotal)
    requires PreemptStep(c, s, s')
    ensures Tight(c, s0, s', idx, nTotal)
  {
    var last := |s.running| - 1;
    assert |s'.running| == last by { PreemptOrder(c, s, s'); }
    assert c.bs > 0 by { RunningPre(c, s); }
    TrimmedAt(c, s0, s, victims, idx);
    TrimmedAt(c, s0, s, victims, last);
    StillTight(c, s.reg.pool, s'.reg.pool, TableOf(s, last), ReqAt(s, idx).kv, nTotal);
  }

  lemma TrimmedAt(c: Cfg, s0: Sys, s: Sys, victims: seq<Id>, i: nat)
    requires WrapTrimmed(c, s0, s, victims, Depth()) && i < |s.running|
    ensures |s.running| <= |s0.running| && Known(s0.reqs, s0.running) && Known(s.reqs, s.running)
    ensures ReqAt(s, i) == ReqAt(s0, i)
  {
    OpenTrimmed(c, s0, s, victims, Depth());
  }

  lemma StillTight(c: Cfg, v: View, v': View, t: seq<nat>, st: KvState, nTotal: nat)
    requires c.bs > 0 && Returned(v, v', c.caching, t) && !Fits(v, c.bs, st, nTotal, [])
    ensures |v'.free| < |t| + NewCount(c.bs, st, nTotal, [])
  {
    ReverseFacts(t);
    ReleaseSize(v.ref, v.hash, c.caching, Reverse(t));
    assert Touched(st, []) == [];
  }

  /** Room was made for running request idx by preempting `victims`, last ones first; if that was not enough, the
      request itself was the last victim. */
  ghost predicate Roomed(c: Cfg, s: Sys, s': Sys, idx: nat, nTotal: nat, ok: bool, victims: seq<Id>) {
    && Onward(c, s, s') && Known(s.reqs, s.running) && Known(s'.reqs, s'.running)
    && |s'.running| + |victims| == |s.running| && s'.running == s.running[..|s'.running|]
    && (forall i :: 0 <= i < |victims| ==> victims[i] == s.running[|s.running| - 1 - i])
    && (forall i :: 0 <= i < |s'.running| && i != idx ==> ReqAt(s', i) == ReqAt(s, i))
    && (victims == [] ==> s'.waiting == s.waiting)
    && (if ok then
          && idx < |s'.running| && ReqAt(s', idx) == ReqAt(s, idx).(kv := ReqAt(s', idx).kv)
          && nTotal <= Times(|TableOf(s', idx)|, c.bs)
        else |s'.running| == idx)
    && (if victims == [] then |s'.reg.pool.free| <= |s.reg.pool.free| else |s'.reg.pool.free| < Claim(c, s, |s'.running|))
  }

  ghost predicate WrapRoomed(c: Cfg, s: Sys, s': Sys, idx: nat, nTotal: nat, ok: bool, victims: seq<Id>, n: Layers)
    decreases n
  {
    match n case Bare => Roomed(c, s, s', idx, nTotal, ok, victims) case Over(m) => WrapRoomed(c, s, s', idx, nTotal, ok, victims, m)
  }

  /** Roomed, closed. */
  ghost predicate RoomStep(c: Cfg, s: Sys, s': Sys, idx: nat, nTotal: nat, ok: bool, victims: seq<Id>) {
    WrapRoomed(c, s, s', idx, nTotal, ok, victims, Depth())
  }

  lemma {:induction false} OpenRoom(c: Cfg, s: Sys, s': Sys, idx: nat, nTotal: nat, ok: bool, victims: seq<Id>, n: Layers)
    requires WrapRoomed(c, s, s', idx, nTotal, ok, victims, n)
    ensures Roomed(c, s, s', idx, nTotal, ok, victims)
  {
    if n.Over? { OpenRoom(c, s, s', idx, nTotal, ok, victims, n.under); }
  }

  lemma {:induction false} CloseRoom(c: Cfg, s: Sys, s': Sys, idx: nat, nTotal: nat, ok: bool, victims: seq<Id>, n: Layers)
    requires Roomed(c, s, s', idx, nTotal, ok, victims)
    ensures WrapRoomed(c, s, s', idx, nTotal, ok, victims, n)
  {
    if n.Over? { CloseRoom(c, s, s', idx, nTotal, ok, victims, n.under); }
  }

  lemma GrownFree(c: Cfg, s: Sys, s': Sys, k: nat, nTotal: nat)
    requires GrowStep(c, s, s', k, nTotal)
    ensures |s'.reg.pool.free| + NewCount(c.bs, ReqAt(s, k).kv, nTotal, []) == |s.reg.pool.free|
  {
    var popped :| GrowBy(c, s, s', k, nTotal, popped);
    assert TouchAll(s.reg.pool, []) == s.reg.pool;
  }

  lemma GrownRoom(c: Cfg, s0: Sys, s: Sys, s': Sys, idx: nat, nTotal: nat, victims: seq<Id>)
    requires Ok(c, s) && WrapTrimmed(c, s0, s, victims, Depth()) && GrowStep(c, s, s', idx, nTotal)
    requires nTotal <= |ReqAt(s, idx).gen.tokens| + |ReqAt(s, idx).spec| && (if victims == [] then s == s0 else Tight(c, s0, s, idx, nTotal))
    ensures RoomStep(c, s0, s', idx, nTotal, true, victims)
  {
    OpenTrimmed(c, s0, s, victims, Depth());
    GrownFree(c, s, s', idx, nTotal);
    assert ReqAt(s, idx) == ReqAt(s0, idx);
    GrowOnward(c, s, s', idx, nTotal);
    OnwardTrans(c, s0, s, s');
    CloseRoom(c, s0, s', idx, nTotal, true, victims, Depth());
  }

  lemma NoRoom(c: Cfg, s0: Sys, s': Sys, idx: nat, nTotal: nat, victims: seq<Id>)
    requires WrapTrimmed(c, s0, s', victims, Depth()) && |s'.running| == idx && Tight(c, s0, s', idx, nTotal)
    requires nTotal <= |ReqAt(s0, idx).gen.tokens| + |ReqAt(s0, idx).spec|
    ensures RoomStep(c, s0, s', idx, nTotal, false, victims)
  {
    OpenTrimmed(c, s0, s', victims, Depth());
    NeedAtLeast(c, ReqAt(s0, idx), nTotal);
    CloseRoom(c, s0, s', idx, nTotal, false, victims, Depth());
  }

  // ---- the batch ----

  function Total(out: seq<Scheduled>): (n: nat) {
    if out == [] then 0 else Total(out[..|out| - 1]) + out[|out| - 1].nNew
  }

  /** The scheduled requests are the first running ones, in order; each has a window of tokens to compute and blocks
      for all of it. */
  ghost predicate Batch(c: Cfg, s: Sys, out: seq<Scheduled>) {
    && |out| <= |s.running| && Known(s.reqs, s.running)
    && forall i :: 0 <= i < |out| ==> Entry(c, ReqAt(s, i), s.running[i], out[i])
  }

  ghost predicate Entry(c: Cfg, r: Request, id: Id, e: Scheduled) {
    e.id == id && Window(c, r, e.nNew, e.nSpec) && r.computed + e.nNew <= Times(|r.kv.blockIds|, c.bs)
  }

  /** Phase 1 cuts running requests off the back, listing them as it goes. */
  ghost predicate Cut(s0: Sys, s: Sys, preempted: seq<Id>) {
    && |s.running| + |preempted| == |s0.running| && s.running == s0.running[..|s.running|]
    && (forall i :: 0 <= i < |preempted| ==> preempted[i] == s0.running[|s0.running| - 1 - i])
    && (preempted == [] ==> s.waiting == s0.waiting)
  }

  /** Phase 2 moves requests from the front of the waiting queue to the end of the running list. */
  ghost predicate Shifted(s0: Sys, s: Sys, preempted: seq<Id>) {
    preempted == [] && |s0.running| <= |s.running| && s.running + s.waiting == s0.running + s0.waiting
  }

  ghost predicate Planned(c: Cfg, s0: Sys, s: Sys, out: Output, budget: nat) {
    && Onward(c, s0, s) && Batch(c, s, out.scheduled)
    && out.total == Total(out.scheduled) && budget + out.total == c.maxBatched
    && (out.scheduled == [] ==> out.preempted == [])
    && (Cut(s0, s, out.preempted) || Shifted(s0, s, out.preempted))
    && WorkKept(s0, s) && Pressed(c, s0, s) && Sharp(c, s0, s, out.scheduled)
  }

  /** Whoever was preempted last would not even fit now: preemption is for want of blocks. */
  ghost predicate Pressed(c: Cfg, s0: Sys, s: Sys) {
    |s.running| < |s0.running| ==> Known(s0.reqs, s0.running) && |s.reg.pool.free| < Claim(c, s0, |s.running|)
  }

  lemma PressedOn(c: Cfg, s0: Sys, s: Sys, s': Sys, idx: nat, nTotal: nat, ok: bool, victims: seq<Id>)
    requires Onward(c, s0, s) && Pressed(c, s0, s) && Roomed(c, s, s', idx, nTotal, ok, victims)
    requires |s.running| <= |s0.running| && s.running == s0.running[..|s.running|]
    ensures Pressed(c, s0, s')
  {
    if victims != [] {
      assert Known(s0.reqs, s0.running) by {
        OpenOnward(c, s0, s);
        if |s.running| == |s0.running| { assert s.running == s0.running; }
      }
      ClaimKept(c, s0, s, |s'.running|);
    }
  }

  lemma ClaimKept(c: Cfg, s0: Sys, s: Sys, k: nat)
    requires Onward(c, s0, s) && Known(s0.reqs, s0.running) && Known(s.reqs, s.running)
    requires k < |s.running| <= |s0.running| && s.running[k] == s0.running[k]
    ensures Claim(c, s, k) <= Claim(c, s0, k)
  {
    OpenOnward(c, s0, s);
  }

  /** Everybody who is not preempted keeps their place and everything computed; the oldest running request is not. */
  ghost predicate WorkKept(s0: Sys, s: Sys) {
    && (s0.running != [] ==> s.running != [])
    && forall i :: 0 <= i < |s0.running| && i < |s.running| ==> KeepsWork(s0, s, i)
  }

  ghost predicate KeepsWork(s0: Sys, s: Sys, i: nat)
    requires i < |s0.running| && i < |s.running|
  {
    && s.running[i] == s0.running[i] && s.running[i] in s.reqs && s.running[i] in s0.reqs
    && s.reqs[s.running[i]].computed == s0.reqs[s.running[i]].computed
  }

  ghost predicate WrapPlanned(c: Cfg, s0: Sys, s: Sys, out: Output, budget: nat, n: Layers)
    decreases n
  {
    match n case Bare => Planned(c, s0, s, out, budget) case Over(m) => WrapPlanned(c, s0, s, out, budget, m)
  }

  /** Planned, closed. */
  ghost predicate Planning(c: Cfg, s0: Sys, s: Sys, out: Output, budget: nat) {
    WrapPlanned(c, s0, s, out, budget, Depth())
  }

  lemma {:induction false} UnwrapPlanned(c: Cfg, s0: Sys, s: Sys, out: Output, budget: nat, n: Layers)
    requires WrapPlanned(c, s0, s, out, budget, n)
    ensures Planned(c, s0, s, out, budget)
  {
    if n.Over? { UnwrapPlanned(c, s0, s, out, budget, n.under); }
  }

  lemma {:induction false} ClosePlanned(c: Cfg, s0: Sys, s: Sys, out: Output, budget: nat, n: Layers)
    requires Planned(c, s0, s, out, budget)
    ensures WrapPlanned(c, s0, s, out, budget, n)
  {
    if n.Over? { ClosePlanned(c, s0, s, out, budget, n.under); }
  }

  lemma PlanStart(c: Cfg, s: Sys)
    requires Ok(c, s)
    ensures Planning(c, s, s, Output([], [], 0), c.maxBatched) && c.maxBatched > 0
  {
    OnwardRefl(c, s);
    OpenOk(c, s);
    SharpNone(c, s, s);
    ClosePlanned(c, s, s, Output([], [], 0), c.maxBatched, Depth());
  }

  /** The contract of a scheduling decision: the budget, the slots and the context limit are kept, every scheduled request
      runs and is scheduled once with at least one token, whoever is preempted was running, is not scheduled and is not the
      oldest, whoever is not preempted keeps everything computed, and every window is as wide as can be. */
  lemma ScheduleContract(c: Cfg, s0: Sys, s: Sys, out: Output, left: nat)
    requires Ok(c, s0) && Ok(c, s) && Planning(c, s0, s, out, left)
    ensures out.total == Total(out.scheduled) <= c.maxBatched && |s.running| <= c.maxSeqs
    ensures forall i :: 0 <= i < |out.scheduled| ==> ScheduledWell(c, s, out.scheduled, i)
    ensures forall k :: 0 <= k < |out.preempted| ==> PreemptedWell(s0, out, k)
    ensures WorkKept(s0, s) && forall i :: 0 <= i < |out.scheduled| ==> SharpAt(c, s0, s, out.scheduled, i)
  {
    UnwrapPlanned(c, s0, s, out, left, Depth());
    OpenSharp(c, s0, s, out.scheduled);
    assert NoDup(s0.running) by { OpenOk(c, s0); }
    assert NoDup(s.running) && |s.running| <= c.maxSeqs by { OpenOk(c, s); }
    forall i | 0 <= i < |out.scheduled| ensures ScheduledWell(c, s, out.scheduled, i) { EntryWell(c, s, out.scheduled, i); }
    forall k | 0 <= k < |out.preempted| ensures PreemptedWell(s0, out, k) { CutWell(c, s0, s, out, k); }
  }

  lemma EntryWell(c: Cfg, s: Sys, out: seq<Scheduled>, i: nat)
    requires Batch(c, s, out) && NoDup(s.running) && i < |out|
    ensures ScheduledWell(c, s, out, i)
  {
    assert Entry(c, ReqAt(s, i), s.running[i], out[i]);
    forall j | 0 <= j < |out| && j != i ensures out[j].id != out[i].id {
      assert Entry(c, ReqAt(s, j), s.running[j], out[j]);
    }
  }

  lemma CutWell(c: Cfg, s0: Sys, s: Sys, out: Output, k: nat)
    requires Batch(c, s, out.scheduled) && NoDup(s0.running) && Cut(s0, s, out.preempted) && k < |out.preempted| && s.running != []
    ensures PreemptedWell(s0, out, k)
  {
    var n := |s0.running| - 1 - k;
    assert out.preempted[k] == s0.running[n];
    forall i | 0 <= i < |out.scheduled| ensures out.scheduled[i].id != out.preempted[k] {
      assert Entry(c, ReqAt(s, i), s.running[i], out.scheduled[i]);
      assert s.running[i] == s0.running[i];
    }
  }

  ghost predicate ScheduledWell(c: Cfg, s: Sys, out: seq<Scheduled>, i: nat)
    requires i < |out|
  {
    && out[i].id in s.running && out[i].id in s.reqs
    && 0 < out[i].nNew && s.reqs[out[i].id].computed + out[i].nNew < c.env.maxLen
    && forall j :: 0 <= j < |out| && j != i ==> out[j].id != out[i].id
  }

  ghost predicate PreemptedWell(s0: Sys, out: Output, k: nat)
    requires k < |out.preempted|
  {
    && out.preempted[k] in s0.running && out.preempted[k] != s0.running[0]
    && forall i :: 0 <= i < |out.scheduled| ==> out.scheduled[i].id != out.preempted[k]
  }

  lemma CutMore(s0: Sys, s: Sys, s': Sys, preempted: seq<Id>, victims: seq<Id>)
    requires Cut(s0, s, preempted) && Cut(s, s', victims)
    ensures Cut(s0, s', preempted + victims)
  {
  }

  lemma TotalMore(out: seq<Scheduled>, e: Scheduled)
    ensures Total(out + [e]) == Total(out) + e.nNew
  {
    assert (out + [e])[..|out|] == out;
  }

  lemma BatchRoom(c: Cfg, s: Sys, s': Sys, out: seq<Scheduled>, e: Scheduled, ok: bool, victims: seq<Id>)
    requires Batch(c, s, out) && |out| < |s.running| && e.id == s.running[|out|]
    requires Window(c, ReqAt(s, |out|), e.nNew, e.nSpec)
    requires Roomed(c, s, s', |out|, ReqAt(s, |out|).computed + e.nNew, ok, victims)
    ensures if ok then Batch(c, s', out + [e]) else Batch(c, s', out) && |s'.running| == |out|
  {
    forall i | 0 <= i < |out| ensures Entry(c, ReqAt(s', i), s'.running[i], out[i]) {
      assert ReqAt(s', i) == ReqAt(s, i);
      assert Entry(c, ReqAt(s, i), s.running[i], out[i]);
    }
  }

  lemma RoomWork(c: Cfg, s0: Sys, s: Sys, s': Sys, k: nat, nTotal: nat, ok: bool, victims: seq<Id>)
    requires WorkKept(s0, s) && Roomed(c, s, s', k, nTotal, ok, victims) && (k == 0 ==> ok)
    ensures WorkKept(s0, s')
  {
    forall i | 0 <= i < |s0.running| && i < |s'.running| ensures KeepsWork(s0, s', i) {
      assert KeepsWork(s0, s, i);
      assert ReqAt(s', i).computed == ReqAt(s, i).computed;
    }
  }

  lemma RoomKeeps(c: Cfg, s0: Sys, s: Sys, s': Sys, k: nat, nTotal: nat, ok: bool, victims: seq<Id>, preempted: seq<Id>)
    requires Onward(c, s0, s) && WorkKept(s0, s) && Pressed(c, s0, s) && Cut(s0, s, preempted)
    requires Roomed(c, s, s', k, nTotal, ok, victims) && (k == 0 ==> ok)
    ensures Onward(c, s0, s') && WorkKept(s0, s') && Pressed(c, s0, s') && Cut(s0, s', preempted + victims)
  {
    OnwardTrans(c, s0, s, s');
    CutMore(s0, s, s', preempted, victims);
    RoomWork(c, s0, s, s', k, nTotal, ok, victims);
    PressedOn(c, s0, s, s', k, nTotal, ok, victims);
  }

  /** One request of phase 1: room was made for it, or it was itself preempted. */
  lemma PlanRoom(c: Cfg, s0: Sys, s: Sys, s': Sys, out: Output, budget: nat, e: Scheduled, ok: bool, victims: seq<Id>)
    requires Planning(c, s0, s, out, budget) && Cut(s0, s, out.preempted) && |out.scheduled| < |s.running|
    requires Known(s.reqs, s.running) && e.id == s.running[|out.scheduled|]
    requires e.nNew <= budget && Window(c, ReqAt(s, |out.scheduled|), e.nNew, e.nSpec)
    requires Widest(c, ReqAt(s, |out.scheduled|), e, budget)
    requires out.scheduled == [] ==> ok
    requires RoomStep(c, s, s', |out.scheduled|, ReqAt(s, |out.scheduled|).computed + e.nNew, ok, victims)
    ensures Cut(s0, s', out.preempted + victims)
    ensures if ok then
        && |out.scheduled| < |s'.running|
        && Planning(c, s0, s', Output(out.scheduled + [e], out.preempted + victims, out.total + e.nNew), budget - e.nNew)
      else
        && |out.scheduled| == |s'.running| && victims != []
        && Planning(c, s0, s', out.(preempted := out.preempted + victims), budget)
  {
    var k := |out.scheduled|;
    UnwrapPlanned(c, s0, s, out, budget, Depth());
    OpenRoom(c, s, s', k, ReqAt(s, k).computed + e.nNew, ok, victims, Depth());
    RoomKeeps(c, s0, s, s', k, ReqAt(s, k).computed + e.nNew, ok, victims, out.preempted);
    BatchRoom(c, s, s', out.scheduled, e, ok, victims);
    TotalMore(out.scheduled, e);
    SharpRoom(c, s0, s, s', out.scheduled, e, budget);
    var out' := if ok then Output(out.scheduled + [e], out.preempted + victims, out.total + e.nNew)
                else out.(preempted := out.preempted + victims);
    PlanClose(c, s0, s', out', if ok then budget - e.nNew else budget);
  }

  /** A running request's record is the one it had when the step began, but for its blocks. */
  lemma SharpRoom(c: Cfg, s0: Sys, s: Sys, s': Sys, out: seq<Scheduled>, e: Scheduled, budget: nat)
    requires Sharp(c, s0, s, out) && Onward(c, s0, s) && WorkKept(s0, s) && Known(s.reqs, s.running)
    requires |out| < |s.running| <= |s0.running| && budget == c.maxBatched - Total(out) && Widest(c, ReqAt(s, |out|), e, budget)
    ensures Sharp(c, s0, s', out) && Sharp(c, s0, s', out + [e])
  {
    var k := |out|;
    SharpKeeps(c, s0, s, s', out);
    assert KeepsWork(s0, s, k);
    SameButBlocks(c, s0, s, s.running[k]);
    WidestSame(c, ReqAt(s, k), s0.reqs[s0.running[k]], e, budget);
    SharpMore(c, s0, s', out, e, budget);
  }

  lemma SameButBlocks(c: Cfg, s0: Sys, s: Sys, id: Id)
    requires Onward(c, s0, s) && id in s0.reqs && id in s.reqs
    ensures s.reqs[id].gen == s0.reqs[id].gen && s.reqs[id].spec == s0.reqs[id].spec
  {
    OpenOnward(c, s0, s);
  }

  lemma WidestSame(c: Cfg, r: Request, r': Request, e: Scheduled, left: int)
    requires Widest(c, r, e, left) && r'.gen == r.gen && r'.spec == r.spec && r'.computed == r.computed
    ensures Widest(c, r', e, left)
  {
    var n := e.nNew - e.nSpec;
    forall m | n == |r'.gen.tokens| - r'.computed && e.nSpec < m ensures !DraftsFit(c, r', n, left, m) {
      assert !DraftsFit(c, r, n, left, m);
    }
  }

  lemma PlanClose(c: Cfg, s0: Sys, s: Sys, out: Output, budget: nat)
    requires Sharp(c, s0, s, out.scheduled)
    requires Onward(c, s0, s) && Batch(c, s, out.scheduled) && WorkKept(s0, s) && Pressed(c, s0, s)
    requires out.total == Total(out.scheduled) && budget + out.total == c.maxBatched
    requires out.scheduled == [] ==> out.preempted == []
    requires Cut(s0, s, out.preempted) || Shifted(s0, s, out.preempted)
    ensures Planning(c, s0, s, out, budget)
  {
    ClosePlanned(c, s0, s, out, budget, Depth());
  }

  lemma PlanRehash(c: Cfg, s0: Sys, s: Sys, s': Sys, out: Output, budget: nat)
    requires Ok(c, s) && Planning(c, s0, s, out, budget) && Shifted(s0, s, out.preempted) && Rehashed(c, s, s')
    ensures Planning(c, s0, s', out, budget) && Shifted(s0, s', out.preempted)
  {
    UnwrapPlanned(c, s0, s, out, budget, Depth());
    var h :| HashesOk(c.mix, c.bs, s.reqs[s.waiting[0]].salt, s.reqs[s.waiting[0]].gen.tokens, h) && s' == Rehash(s, h);
    RehashOnward(c, s, h);
    OnwardTrans(c, s0, s, s');
    assert Batch(c, s', out.scheduled) by { BatchSame(c, s, s', out.scheduled); }
    WorkSame(s0, s, s');
    SharpKeeps(c, s0, s, s', out.scheduled);
    ClosePlanned(c, s0, s', out, budget, Depth());
  }

  lemma WorkSame(s0: Sys, s: Sys, s': Sys)
    requires WorkKept(s0, s) && Known(s'.reqs, s'.running) && |s0.running| <= |s.running| <= |s'.running|
    requires Known(s.reqs, s.running)
    requires forall i :: 0 <= i < |s.running| ==> s'.running[i] == s.running[i] && ReqAt(s', i).computed == ReqAt(s, i).computed
    ensures WorkKept(s0, s')
  {
    forall i | 0 <= i < |s0.running| && i < |s'.running| ensures KeepsWork(s0, s', i) { assert KeepsWork(s0, s, i); }
  }

  lemma BatchSame(c: Cfg, s: Sys, s': Sys, out: seq<Scheduled>)
    requires Batch(c, s, out) && |out| <= |s'.running| && Known(s'.reqs, s'.running)
    requires forall i :: 0 <= i < |out| ==> s'.running[i] == s.running[i] && ReqAt(s', i) == ReqAt(s, i)
    ensures Batch(c, s', out)
  {
    forall i | 0 <= i < |out| ensures Entry(c, ReqAt(s', i), s'.running[i], out[i]) {
      assert Entry(c, ReqAt(s, i), s.running[i], out[i]);
    }
  }

  /** One request of phase 2. */
  lemma AdmitShifts(s0: Sys, s: Sys, s': Sys, preempted: seq<Id>)
    requires s.waiting != [] && s'.running == s.running + [s.waiting[0]] && s'.waiting == s.waiting[1..]
    requires Shifted(s0, s, preempted)
    ensures Shifted(s0, s', preempted)
  {
    assert s.waiting == [s.waiting[0]] + s.waiting[1..];
    assert s'.running + s'.waiting == s.running + s.waiting;
  }

  lemma PlanAdmit(c: Cfg, s0: Sys, s: Sys, s': Sys, out: Output, budget: nat, e: Scheduled)
    requires Ok(c, s) && Ok(c, s') && Planning(c, s0, s, out, budget) && Shifted(s0, s, out.preempted)
    requires s.waiting != [] && |out.scheduled| == |s.running| && 0 < e.nNew <= budget && e.nSpec == 0
    requires e.id == s.waiting[0] && Admission(c, s, s', e.nNew) && e.id in s'.reqs && StartsWide(c, s'.reqs[e.id], e, budget)
    ensures |s'.running| == |s.running| + 1 && Shifted(s0, s', out.preempted)
    ensures Planning(c, s0, s', Output(out.scheduled + [e], out.preempted, out.total + e.nNew), budget - e.nNew)
  {
    UnwrapPlanned(c, s0, s, out, budget, Depth());
    var found, popped := OpenAdmission(c, s, s', e.nNew, Depth());
    AdmitOnward(c, s, s', found, popped, e.nNew);
    OnwardTrans(c, s0, s, s');
    BatchAdmit(c, s, s', out.scheduled, e, found, popped);
    TotalMore(out.scheduled, e);
    AdmitShifts(s0, s, s', out.preempted);
    WorkSame(s0, s, s');
    SharpAdmit(c, s0, s, s', out.scheduled, e, budget);
    ClosePlanned(c, s0, s', Output(out.scheduled + [e], out.preempted, out.total + e.nNew), budget - e.nNew, Depth());
  }

  lemma SharpAdmit(c: Cfg, s0: Sys, s: Sys, s': Sys, out: seq<Scheduled>, e: Scheduled, budget: nat)
    requires Sharp(c, s0, s, out) && |s0.running| <= |s.running| == |out| && s.waiting != [] && e.id == s.waiting[0]
    requires Known(s.reqs, s.running) && Known(s'.reqs, s'.running) && s'.running == s.running + [e.id]
    requires forall i :: 0 <= i < |s.running| ==> ReqAt(s', i) == ReqAt(s, i)
    requires budget == c.maxBatched - Total(out) && StartsWide(c, s'.reqs[s'.running[|out|]], e, budget)
    ensures Sharp(c, s0, s', out + [e])
  {
    forall i | |s0.running| <= i < |out| && i < |s.running|
      ensures s'.running[i] == s.running[i] && s'.reqs[s.running[i]] == s.reqs[s.running[i]]
    {
      assert ReqAt(s', i) == ReqAt(s, i);
    }
    SharpKeeps(c, s0, s, s', out);
    SharpMore(c, s0, s', out, e, budget);
  }

  lemma BatchAdmit(c: Cfg, s: Sys, s': Sys, out: seq<Scheduled>, e: Scheduled, found: seq<nat>, popped: seq<nat>)
    requires Ok(c, s) && Batch(c, s, out) && |out| == |s.running| && s.waiting != []
    requires e.id == s.waiting[0] && e.nSpec == 0 && e.nNew > 0
    requires AdmitStep(c, s, s', found, popped, e.nNew) && Known(s'.reqs, s'.running)
    requires forall i :: 0 <= i < |s.running| ==> ReqAt(s', i) == ReqAt(s, i)
    ensures Batch(c, s', out + [e])
  {
    BatchSame(c, s, s', out);
    AdmittedEntry(c, s, s', e, found, popped);
  }

  lemma AdmittedEntry(c: Cfg, s: Sys, s': Sys, e: Scheduled, found: seq<nat>, popped: seq<nat>)
    requires Ok(c, s) && s.waiting != [] && e.id == s.waiting[0] && e.nSpec == 0
    requires AdmitStep(c, s, s', found, popped, e.nNew)
    ensures s'.running == s.running + [e.id] && e.id in s'.reqs && Entry(c, s'.reqs[e.id], e.id, e)
  {
    WaitingPre(c, s);
    AdmittedFits(c, s.reqs[e.id], e, found, popped);
  }

  lemma AdmittedFits(c: Cfg, r: Request, e: Scheduled, found: seq<nat>, popped: seq<nat>)
    requires e.nSpec == 0 < e.nNew && |r.gen.tokens| < c.env.maxLen && Times(|found|, c.bs) + e.nNew <= |r.gen.tokens|
    requires Times(|found|, c.bs) + e.nNew <= Times(|found| + |popped|, c.bs)
    ensures Entry(c, Admitted(r, r.hashes, c.bs, found, popped), e.id, e)
  {
    var r', n := Admitted(r, r.hashes, c.bs, found, popped), |found| + |popped|;
    assert |r'.kv.blockIds| == n;
    EntryIs(c, r', e, Times(n, c.bs));
  }

  lemma EntryIs(c: Cfg, r: Request, e: Scheduled, room: nat)
    requires e.nSpec == 0 < e.nNew && |r.gen.tokens| < c.env.maxLen && r.computed + e.nNew <= |r.gen.tokens|
    requires room == Times(|r.kv.blockIds|, c.bs) && r.computed + e.nNew <= room
    ensures Entry(c, r, e.id, e)
  {
  }

  // ---- growing a running request ----

  ghost predicate GrowStep(c: Cfg, s: Sys, s': Sys, k: nat, nTotal: nat) {
    && k < |s.running| && Known(s.reqs, s.running) && c.bs > 0
    && exists popped :: GrowBy(c, s, s', k, nTotal, popped)
  }

  /** The blocks popped are just those that were missing. */
  ghost predicate GrowBy(c: Cfg, s: Sys, s': Sys, k: nat, nTotal: nat, popped: seq<nat>)
    requires k < |s.running| && Known(s.reqs, s.running) && c.bs > 0
  {
    && Grown(s.reg.pool, s'.reg.pool, [], popped)
    && s' == SetReq(s, s.running[k], Extended(s, k, popped), s'.reg.pool)
    && nTotal <= Times(|TableOf(s, k) + popped|, c.bs) && |popped| == NewCount(c.bs, ReqAt(s, k).kv, nTotal, [])
  }

  lemma CeilMono(a: nat, b: nat, bs: nat)
    requires a <= b && bs > 0
    ensures CeilDiv(a, bs) <= CeilDiv(b, bs)
  {
    if CeilDiv(a, bs) > CeilDiv(b, bs) { TimesMono(CeilDiv(b, bs) + 1, CeilDiv(a, bs), bs); }
  }

  ghost predicate HasRoom(c: Cfg, s: Sys, k: nat, nTotal: nat) {
    && k < |s.running| && Known(s.reqs, s.running) && c.bs > 0
    && Fits(s.reg.pool, c.bs, s.reqs[s.running[k]].kv, nTotal, [])
  }

  lemma RunningPre(c: Cfg, s: Sys)
    requires Ok(c, s)
    ensures c.bs > 0 && c.maxSeqs > 0 && Known(s.reqs, s.running) && Known(s.reqs, s.waiting)
    ensures forall i :: 0 <= i < |s.running| ==>
      var r := s.reqs[s.running[i]]; r.status == RUNNING && r.computed < |r.gen.tokens| < c.env.maxLen
  {
    OpenOk(c, s);
  }

  lemma GrowOk(c: Cfg, s: Sys, k: nat, v: View, popped: seq<nat>)
    requires Ok(c, s) && k < |s.running| && Known(s.reqs, s.running) && Grown(s.reg.pool, v, [], popped)
    ensures Ok(c, SetReq(s, s.running[k], Extended(s, k, popped), v))
  {
    OpenOk(c, s);
    GrowInv(c, s, k, v, popped);
    OpenOk(c, SetReq(s, s.running[k], Extended(s, k, popped), v));
  }

  lemma GrowSteady(c: Cfg, s: Sys, s': Sys, k: nat, nTotal: nat)
    requires KvSteady(c, s) && GrowStep(c, s, s', k, nTotal)
    ensures KvSteady(c, s')
  {
    var popped :| GrowBy(c, s, s', k, nTotal, popped);
    GrowClosed(c, s, FedOf(s.reqs), k, s'.reg.pool, popped);
    FedUpdate(s.reqs, s.running[k], Extended(s, k, popped));
  }

  /** A request running alone always fits. */
  lemma LoneFits(c: Cfg, s: Sys, nTotal: nat)
    requires Ok(c, s) && |s.running| == 1 && nTotal <= c.env.maxLen
    ensures HasRoom(c, s, 0, nTotal)
  {
    OpenOk(c, s);
    FreeEnough(c, s);
    NeedBound(c, nTotal);
  }

  lemma NeedBound(c: Cfg, nTotal: nat)
    requires CfgOk(c) && nTotal <= c.env.maxLen
    ensures CeilDiv(nTotal, c.bs) <= c.numBlocks
  {
    var need := CeilDiv(nTotal, c.bs);
    if need > c.numBlocks { TimesMono(c.numBlocks, need - 1, c.bs); }
  }

  // ---- admission ----

  lemma WaitingPre(c: Cfg, s: Sys)
    requires Ok(c, s) && s.waiting != []
    ensures c.bs > 0 && Known(s.reqs, s.waiting)
    ensures var r := s.reqs[s.waiting[0]];
      && 0 < |r.gen.tokens| < c.env.maxLen && r.kv == NO_BLOCKS && r.computed == 0 && r.status != FINISHED
      && HashesOk(c.mix, c.bs, r.salt, r.gen.tokens, r.hashes)
    ensures |s.reg.pool.ref| == c.numBlocks
  {
    OpenOk(c, s);
    OpenHist(c, s.reqs[s.waiting[0]]);
  }

  lemma RehashOk(c: Cfg, s: Sys, h: seq<Hash>)
    requires Ok(c, s) && s.waiting != [] && c.bs > 0 && Known(s.reqs, s.waiting)
    requires HashesOk(c.mix, c.bs, s.reqs[s.waiting[0]].salt, s.reqs[s.waiting[0]].gen.tokens, h)
    ensures Ok(c, Rehash(s, h))
  {
    OpenOk(c, s);
    HistRehash(c, s.reqs[s.waiting[0]], s.reqs[s.waiting[0]].(hashes := h));
    UpdateWaiting(c, s, 0, s.reqs[s.waiting[0]].(hashes := h));
    OpenOk(c, Rehash(s, h));
  }

  ghost predicate Rehashed(c: Cfg, s: Sys, s': Sys) {
    && s.waiting != [] && c.bs > 0 && Known(s.reqs, s.waiting)
    && (exists h :: HashesOk(c.mix, c.bs, s.reqs[s.waiting[0]].salt, s.reqs[s.waiting[0]].gen.tokens, h) && s' == Rehash(s, h))
  }

  lemma RehashOnward(c: Cfg, s: Sys, h: seq<Hash>)
    requires Ok(c, s) && s.waiting != [] && c.bs > 0 && Known(s.reqs, s.waiting)
    requires HashesOk(c.mix, c.bs, s.reqs[s.waiting[0]].salt, s.reqs[s.waiting[0]].gen.tokens, h)
    ensures Onward(c, s, Rehash(s, h)) && Known(s.reqs, s.running) && Known(Rehash(s, h).reqs, s.running)
    ensures forall i :: 0 <= i < |s.running| ==> ReqAt(Rehash(s, h), i) == ReqAt(s, i)
  {
    HeadApart(c, s);
    WaitingPre(c, s);
    var r := s.reqs[s.waiting[0]].(hashes := h);
    FedUpdate(s.reqs, s.waiting[0], r);
    if KvSteady(c, s) { RehashClosed(c, s, FedOf(s.reqs), h); }
    assert Rehash(s, h) == SetReq(s, s.waiting[0], r, s.reg.pool);
    SetMoved(c, s, s.waiting[0], r, s.reg.pool);
    CloseMoved(c, s, Rehash(s, h), Depth());
  }

  lemma HeadApart(c: Cfg, s: Sys)
    requires Ok(c, s) && s.waiting != []
    ensures Known(s.reqs, s.running) && Known(s.reqs, s.waiting)
    ensures forall i :: 0 <= i < |s.running| ==> s.running[i] != s.waiting[0]
  {
    OpenOk(c, s);
  }

  /** The head of the waiting queue starts running on top of its prefix hits, with nNew tokens to compute. */
  ghost predicate AdmitStep(c: Cfg, s: Sys, s': Sys, found: seq<nat>, popped: seq<nat>, nNew: nat) {
    && s.waiting != [] && |s.running| < c.maxSeqs && c.bs > 0 && Known(s.reqs, s.waiting)
    && var r := s.reqs[s.waiting[0]];
    && HitsOk(s.reg.pool, c.bs, r.gen.tokens, r.hashes, found)
    && Grown(s.reg.pool, s'.reg.pool, found, popped)
    && s' == Start(s, Admitted(r, r.hashes, c.bs, found, popped), s'.reg.pool)
    && 0 < nNew && Times(|found|, c.bs) + nNew <= |r.gen.tokens|
    && Times(|found|, c.bs) + nNew <= Times(|found| + |popped|, c.bs)
    && |found| + |popped| <= Need(c, r)
  }

  ghost predicate HeadPlan(c: Cfg, s: Sys, hits: seq<nat>, nNew: nat, budget: nat) {
    && s.waiting != [] && c.bs > 0 && Known(s.reqs, s.waiting)
    && var r := s.reqs[s.waiting[0]];
    && HitsOk(s.reg.pool, c.bs, r.gen.tokens, r.hashes, hits) && Times(|hits|, c.bs) < |r.gen.tokens|
    && nNew <= budget && Times(|hits|, c.bs) + nNew <= |r.gen.tokens|
    && (nNew == 0 <==> !c.chunked && Missing(c, r, Times(|hits|, c.bs)) > budget)
  }

  /** The tokens of the head of the waiting queue that the cache holds. */
  ghost function HeadCached(c: Cfg, s: Sys): (n: nat) {
    var v := s.reg.pool;
    if s.waiting == [] || s.waiting[0] !in s.reqs || c.bs == 0 || |v.ref| != |v.hash| || |v.ref| != |v.toks| then 0
    else
      var r := s.reqs[s.waiting[0]];
      CachedTokens(c.caching, c.mix, c.bs, v, r.salt, r.gen.tokens)
  }

  /** The tokens the head of the waiting queue would have to compute now, after its prefix hits. */
  ghost function HeadLack(c: Cfg, s: Sys): (n: nat) {
    var v := s.reg.pool;
    if s.waiting == [] || s.waiting[0] !in s.reqs || c.bs == 0 || |v.ref| != |v.hash| || |v.ref| != |v.toks| then 0
    else
      var r := s.reqs[s.waiting[0]];
      Missing(c, r, Min(CachedTokens(c.caching, c.mix, c.bs, v, r.salt, r.gen.tokens), |r.gen.tokens|))
  }

  /** The head of the waiting queue is the last running request now, with n tokens computed. */
  ghost predicate Started(s: Sys, s': Sys, n: nat) {
    && s.waiting != [] && s.waiting[0] in s.reqs && s.waiting[0] in s'.reqs && s'.running == s.running + [s.waiting[0]]
    && s'.reqs[s.waiting[0]].gen == s.reqs[s.waiting[0]].gen && s'.reqs[s.waiting[0]].computed == n
  }

  lemma StartedFrom(c: Cfg, s: Sys, s1: Sys, s2: Sys, n: nat)
    requires Rehashed(c, s, s1) && Started(s1, s2, n)
    ensures Started(s, s2, n)
  {
    var h :| s1 == Rehash(s, h);
  }

  /** The head's block hashes cover all its full blocks. */
  predicate HeadHashed(c: Cfg, s: Sys) {
    s.waiting != [] && s.waiting[0] in s.reqs && c.bs > 0 &&
    |s.reqs[s.waiting[0]].hashes| == |s.reqs[s.waiting[0]].gen.tokens| / c.bs
  }

  /** Nothing can be scheduled: nothing runs, and nothing waits or the head may not be chunked and does not fit a step. */
  ghost predicate Stuck(c: Cfg, s: Sys) {
    s.running == [] && (s.waiting == [] || (!c.chunked && HeadLack(c, s) > c.maxBatched))
  }

  /** No request can be too long for a step: prompts may be chunked, or a step holds a whole context, or the windows are
      capped to what a step holds. */
  predicate Flows(c: Cfg) {
    c.chunked || c.env.maxLen - 1 <= c.maxBatched || 0 < c.longThreshold <= c.maxBatched
  }

  lemma FlowsOn(c: Cfg, s: Sys)
    requires Ok(c, s) && Flows(c) && s.running + s.waiting != []
    ensures !Stuck(c, s)
  {
    if s.running == [] { WaitingPre(c, s); }
  }

  /** The head may not start now: its prompt may not be chunked and exceeds what is left of the step, or there are not
      blocks enough for it. */
  ghost predicate HeadWaits(c: Cfg, s: Sys, left: nat) {
    || (!c.chunked && HeadLack(c, s) > left)
    || (s.waiting != [] && s.waiting[0] in s.reqs && |s.reg.pool.free| < Need(c, s.reqs[s.waiting[0]]))
  }

  lemma NoRoomForHead(c: Cfg, s: Sys, found: seq<nat>, nNew: nat, budget: nat)
    requires HeadPlan(c, s, found, nNew, budget) && nNew > 0 && InRange(found, |s.reg.pool.ref|)
    requires !Fits(s.reg.pool, c.bs, NO_BLOCKS, Times(|found|, c.bs) + nNew, found)
    ensures HeadWaits(c, s, budget)
  {
    NoRoomFor(c, s.reg.pool, s.reqs[s.waiting[0]], found, nNew);
  }

  lemma NoRoomFor(c: Cfg, v: View, r: Request, found: seq<nat>, nNew: nat)
    requires c.bs > 0 && nNew > 0 && Times(|found|, c.bs) + nNew <= |r.gen.tokens| && InRange(found, |v.ref|)
    requires !Fits(v, c.bs, NO_BLOCKS, Times(|found|, c.bs) + nNew, found)
    ensures |v.free| < Need(c, r)
  {
    NewOnTop(c, r, found, nNew);
    FreeCountBound(v.ref, found);
  }

  /** Nothing that could start now is left waiting. */
  ghost predicate Filled(c: Cfg, s: Sys, left: nat) {
    s.waiting == [] || left == 0 || |s.running| >= c.maxSeqs || HeadWaits(c, s, left)
  }

  /** All that an attempt in vain changes: the head's block hashes are up to date. */
  ghost predicate InVain(c: Cfg, s: Sys, s': Sys) {
    Rehashed(c, s, s') && HeadLack(c, s') == HeadLack(c, s)
  }

  lemma NoneFirst(none: seq<nat>, found: seq<nat>, popped: seq<nat>)
    requires none == []
    ensures none + found + popped == found + popped
  {
    assert none + found == found;
  }

  lemma NewNeeded(c: Cfg, r: Request, found: seq<nat>, n: nat, nTotal: nat)
    requires c.bs > 0 && Times(|found|, c.bs) < nTotal <= |r.gen.tokens| && Sized(c.bs, NO_BLOCKS, nTotal, found, n)
    ensures |found| + n <= Need(c, r)
  {
    OpenSized(c.bs, NO_BLOCKS, nTotal, found, n, Depth());
    NewOnTop(c, r, found, nTotal - Times(|found|, c.bs));
  }

  /** What allocation gives a request that has no blocks yet. */
  lemma AdmitTable(bs: nat, st: KvState, found: seq<nat>, popped: seq<nat>, nTotal: nat)
    requires st.blockIds == found + popped && st.numCached == (if found != [] then |found| else 0)
    requires nTotal <= Times(|st.blockIds|, bs)
    ensures st == KvState(found + popped, |found|) && nTotal <= Times(|found| + |popped|, bs)
  {
    assert |st.blockIds| == |found| + |popped|;
  }

  lemma TouchedFirst(found: seq<nat>)
    ensures Touched(NO_BLOCKS, found) == found
  {
  }

  lemma AdmitOk(c: Cfg, s: Sys, s': Sys, found: seq<nat>, popped: seq<nat>, nNew: nat)
    requires Ok(c, s) && AdmitStep(c, s, s', found, popped, nNew)
    ensures Ok(c, s')
  {
    OpenOk(c, s);
    OpenHist(c, s.reqs[s.waiting[0]]);
    StartInv(c, s, s.reqs[s.waiting[0]].hashes, found, s'.reg.pool, popped);
    OpenOk(c, s');
  }

  ghost predicate WrapAdmission(c: Cfg, s: Sys, s': Sys, nNew: nat, n: Layers)
    decreases n
  {
    match n case Bare => exists hits, popped :: AdmitStep(c, s, s', hits, popped, nNew) case Over(m) => WrapAdmission(c, s, s', nNew, m)
  }

  /** The head of the waiting queue was admitted with nNew tokens (AdmitStep, closed). */
  ghost predicate Admission(c: Cfg, s: Sys, s': Sys, nNew: nat) {
    WrapAdmission(c, s, s', nNew, Depth())
  }

  lemma {:induction false} CloseAdmission(c: Cfg, s: Sys, s': Sys, hits: seq<nat>, popped: seq<nat>, nNew: nat, n: Layers)
    requires AdmitStep(c, s, s', hits, popped, nNew)
    ensures WrapAdmission(c, s, s', nNew, n)
  {
    if n.Over? { CloseAdmission(c, s, s', hits, popped, nNew, n.under); }
  }

  lemma {:induction false} OpenAdmission(c: Cfg, s: Sys, s': Sys, nNew: nat, n: Layers) returns (hits: seq<nat>, popped: seq<nat>)
    requires WrapAdmission(c, s, s', nNew, n)
    ensures AdmitStep(c, s, s', hits, popped, nNew)
  {
    if n.Over? {
      hits, popped := OpenAdmission(c, s, s', nNew, n.under);
    } else {
      hits, popped :| AdmitStep(c, s, s', hits, popped, nNew);
    }
  }

  /** Hits and fresh blocks together are no more than the request needs. */
  lemma NewOnTop(c: Cfg, r: Request, found: seq<nat>, nNew: nat)
    requires c.bs > 0 && nNew > 0 && Times(|found|, c.bs) + nNew <= |r.gen.tokens|
    ensures |found| + NewCount(c.bs, NO_BLOCKS, Times(|found|, c.bs) + nNew, found) <= Need(c, r)
  {
    var n := Times(|found|, c.bs) + nNew;
    var need := CeilDiv(n, c.bs);
    if need <= |found| { TimesMono(need, |found|, c.bs); }
    NeedAtLeast(c, r, n);
  }

  lemma AdmitStepIs(c: Cfg, s: Sys, v: View, found: seq<nat>, popped: seq<nat>, nNew: nat)
    requires s.waiting != [] && |s.running| < c.maxSeqs && c.bs > 0 && Known(s.reqs, s.waiting) && nNew > 0
    requires var r := s.reqs[s.waiting[0]];
      HitsOk(s.reg.pool, c.bs, r.gen.tokens, r.hashes, found) && Times(|found|, c.bs) + nNew <= |r.gen.tokens|
    requires Grown(s.reg.pool, v, found, popped)
    requires Times(|found|, c.bs) + nNew <= Times(|found| + |popped|, c.bs)
    requires |found| + |popped| <= Need(c, s.reqs[s.waiting[0]])
    ensures var r := s.reqs[s.waiting[0]];
      AdmitStep(c, s, Start(s, Admitted(r, r.hashes, c.bs, found, popped), v), found, popped, nNew)
  {
  }

  lemma CommitAdmission(c: Cfg, s: Sys, v: View, st: KvState, found: seq<nat>, popped: seq<nat>, nNew: nat, budget: nat)
    requires Ok(c, s) && HeadPlan(c, s, found, nNew, budget) && nNew > 0 && |s.running| < c.maxSeqs
    requires Grown(s.reg.pool, v, found, popped) && st == KvState(found + popped, |found|)
    requires Times(|found|, c.bs) + nNew <= Times(|found| + |popped|, c.bs) && |found| + |popped| <= Need(c, s.reqs[s.waiting[0]])
    ensures var s' := Start(s, s.reqs[s.waiting[0]].(status := RUNNING, computed := Times(|found|, c.bs), kv := st), v);
      Ok(c, s') && Admission(c, s, s', nNew)
  {
    var r := s.reqs[s.waiting[0]];
    var s' := Start(s, r.(status := RUNNING, computed := Times(|found|, c.bs), kv := st), v);
    AdmitStepIs(c, s, v, found, popped, nNew);
    AdmitOk(c, s, s', found, popped, nNew);
    CloseAdmission(c, s, s', found, popped, nNew, Depth());
  }

  lemma AdmitSteady(c: Cfg, s: Sys, s': Sys, found: seq<nat>, popped: seq<nat>, nNew: nat)
    requires Ok(c, s) && KvSteady(c, s) && AdmitStep(c, s, s', found, popped, nNew)
    ensures KvSteady(c, s')
  {
    WaitingPre(c, s);
    var id := s.waiting[0];
    var r := s.reqs[id];
    StartClosed(c, s, FedOf(s.reqs), r.hashes, found, s'.reg.pool, popped);
    FedSet(s.reqs, id, Admitted(r, r.hashes, c.bs, found, popped));
  }

  lemma FedSet(reqs: map<Id, Request>, id: Id, r: Request)
    ensures FedOf(reqs)[id := Feed(r.gen.tokens, r.computed)] == FedOf(reqs[id := r])
  {
  }

  lemma AdmittedLean(c: Cfg, r: Request, found: seq<nat>, popped: seq<nat>)
    requires |found| + |popped| <= Need(c, r)
    ensures var r' := Admitted(r, r.hashes, c.bs, found, popped); |r'.kv.blockIds| <= Need(c, r')
  {
    assert |found + popped| == |found| + |popped|;
  }

  lemma AdmitOnward(c: Cfg, s: Sys, s': Sys, found: seq<nat>, popped: seq<nat>, nNew: nat)
    requires Ok(c, s) && Ok(c, s') && AdmitStep(c, s, s', found, popped, nNew)
    ensures Onward(c, s, s') && s'.running == s.running + [s.waiting[0]]
    ensures Known(s.reqs, s.running) && Known(s'.reqs, s'.running)
    ensures forall i :: 0 <= i < |s.running| ==> ReqAt(s', i) == ReqAt(s, i)
  {
    HeadApart(c, s);
    WaitingPre(c, s);
    RunningPre(c, s');
    if KvSteady(c, s) { AdmitSteady(c, s, s', found, popped, nNew); }
    AdmittedLean(c, s.reqs[s.waiting[0]], found, popped);
    StartMoved(c, s, Admitted(s.reqs[s.waiting[0]], s.reqs[s.waiting[0]].hashes, c.bs, found, popped), s'.reg.pool);
    CloseMoved(c, s, s', Depth());
  }

  lemma StartMoved(c: Cfg, s: Sys, r: Request, v: View)
    requires s.waiting != [] && Known(s.reqs, s.waiting) && SameWork(s.reqs[s.waiting[0]], r)
    requires s.reqs[s.waiting[0]].status != FINISHED && |r.kv.blockIds| <= Need(c, r)
    requires KvSteady(c, s) ==> KvSteady(c, Start(s, r, v))
    ensures Moved(c, s, Start(s, r, v))
  {
    var s' := Start(s, r, v);
    KeptUpdate(s.reqs, s.waiting[0], r);
    SortedUpdate(s.reqs, s.waiting, s.waiting[0], r);
    assert s'.running + s'.waiting == s.running + s.waiting;
  }

  /** With nothing running, the head of the waiting queue always fits. */
  lemma HeadFits(c: Cfg, s: Sys, found: seq<nat>, nTotal: nat)
    requires Ok(c, s) && c.bs > 0
    requires InRange(found, |s.reg.pool.ref|) && Times(|found|, c.bs) < nTotal <= c.env.maxLen
    ensures s.running == [] ==> Fits(s.reg.pool, c.bs, NO_BLOCKS, nTotal, found)
  {
    OpenOk(c, s);
    if s.running == [] { FreeEnough(c, s); }
    NeedBound(c, nTotal);
    FreeCountBound(s.reg.pool.ref, found);
    var need := CeilDiv(nTotal, c.bs);
    if need <= |found| { TimesMono(need, |found|, c.bs); }
  }

  lemma {:induction false} FreeCountBound(ref: seq<nat>, bs: seq<nat>)
    requires InRange(bs, |ref|)
    ensures FreeCount(ref, bs) <= |bs|
    decreases |bs|
  {
    if bs != [] { FreeCountBound(ref, bs[..|bs| - 1]); }
  }

  // ---- preemption ----

  ghost function PreemptState(c: Cfg, s: Sys, v: View): (s': Sys)
    requires s.running != [] && Known(s.reqs, s.running) && Known(s.reqs, s.waiting)
  {
    var r := s.reqs[s.running[|s.running| - 1]];
    Requeue(s, if c.byPriority then UpperBound(s.reqs, s.waiting, r) else 0, Preempted(r), v)
  }

  ghost predicate PreemptStep(c: Cfg, s: Sys, s': Sys) {
    && s.running != [] && Known(s.reqs, s.running) && Known(s.reqs, s.waiting)
    && Returned(s.reg.pool, s'.reg.pool, c.caching, TableOf(s, |s.running| - 1))
    && s' == PreemptState(c, s, s'.reg.pool)
  }

  lemma PreemptPre(c: Cfg, s: Sys)
    requires Ok(c, s) && s.running != []
    ensures Known(s.reqs, s.running) && Known(s.reqs, s.waiting) && c.bs > 0
    ensures PoolOk(s.reg.pool) && CanRelease(s.reg.pool.ref, TableOf(s, |s.running| - 1))
  {
    OpenOk(c, s);
    Releasable(c, s, |s.running| - 1);
  }

  lemma PreemptOk(c: Cfg, s: Sys, v: View)
    requires Ok(c, s) && s.running != [] && Known(s.reqs, s.running) && Known(s.reqs, s.waiting)
    requires Shrunk(s.reg.pool, v, TableOf(s, |s.running| - 1))
    ensures Ok(c, PreemptState(c, s, v))
  {
    OpenOk(c, s);
    var r := s.reqs[s.running[|s.running| - 1]];
    RequeueOk(c, s, if c.byPriority then UpperBound(s.reqs, s.waiting, r) else 0, Preempted(r), v);
    OpenOk(c, PreemptState(c, s, v));
  }

  lemma PreemptKv(c: Cfg, s: Sys, s': Sys)
    requires Ok(c, s) && KvSteady(c, s) && PreemptStep(c, s, s')
    ensures KvSteady(c, s')
  {
    var r := s.reqs[s.running[|s.running| - 1]];
    RequeueClosed(c, s, FedOf(s.reqs), if c.byPriority then UpperBound(s.reqs, s.waiting, r) else 0, s'.reg.pool);
    PreemptOrder(c, s, s');
    FedAgree(c, s', FedOf(s.reqs), FedOf(s'.reqs));
  }

  lemma PreemptOrder(c: Cfg, s: Sys, s': Sys)
    requires Ok(c, s) && PreemptStep(c, s, s')
    ensures s'.running == s.running[..|s.running| - 1] && Kept(s.reqs, s'.reqs)
    ensures forall id :: id in s.reqs && id != s.running[|s.running| - 1] ==> s'.reqs[id] == s.reqs[id]
    ensures forall i :: 0 <= i < |s'.running| ==> s'.running[i] != s.running[|s.running| - 1]
    ensures !c.byPriority ==> s'.running + s'.waiting == s.running + s.waiting
  {
    Distinct(c, s, |s.running| - 1);
    RunningPre(c, s);
    RequeueOrder(c, s, s'.reg.pool);
  }

  lemma RequeueOrder(c: Cfg, s: Sys, v: View)
    requires s.running != [] && Known(s.reqs, s.running) && Known(s.reqs, s.waiting)
    requires s.reqs[s.running[|s.running| - 1]].status != FINISHED
    ensures var s' := PreemptState(c, s, v);
      Kept(s.reqs, s'.reqs) && (!c.byPriority ==> s'.running + s'.waiting == s.running + s.waiting)
  {
    KeptUpdate(s.reqs, s.running[|s.running| - 1], Preempted(s.reqs[s.running[|s.running| - 1]]));
  }

  lemma PreemptSorted(c: Cfg, s: Sys, s': Sys)
    requires Ok(c, s) && PreemptStep(c, s, s') && c.byPriority && Sorted(s.reqs, s.waiting)
    ensures Known(s'.reqs, s'.waiting) && Sorted(s'.reqs, s'.waiting)
  {
    var id := s.running[|s.running| - 1];
    var r := s.reqs[id];
    assert id !in s.waiting by { OpenOk(c, s); }
    UpperBoundSame(s.reqs, s.waiting, r, Preempted(r));
    InsertSorted(s.reqs, s.waiting, id, Preempted(r));
  }

  lemma {:induction false} UpperBoundSame(reqs: map<Id, Request>, q: seq<Id>, r: Request, r': Request)
    requires Known(reqs, q) && r'.priority == r.priority && r'.arrival == r.arrival
    ensures UpperBound(reqs, q, r) == UpperBound(reqs, q, r')
  {
    if q != [] { UpperBoundSame(reqs, q[1..], r, r'); }
  }

  ghost function Elems(q: seq<nat>): (e: set<nat>)
    ensures |e| <= |q|
    ensures forall x :: x in e <==> x in q
  {
    if q == [] then {} else
    assert q == q[..|q| - 1] + [q[|q| - 1]];
    Elems(q[..|q| - 1]) + {q[|q| - 1]}
  }

  ghost function Below(n: nat): (e: set<nat>)
    ensures |e| == n
    ensures forall x {:trigger x in e} :: x in e <==> 0 <= x < n
  {
    if n == 0 then {} else Below(n - 1) + {n - 1}
  }

  /** With at most one request running, everything outside its table is free. */
  lemma FreeEnough(c: Cfg, s: Sys)
    requires Inv(c, s) && |s.running| <= 1
    ensures |s.reg.pool.free| + (if s.running == [] then 0 else |TableOf(s, 0)|) >= c.numBlocks
  {
    var t: seq<nat> := if s.running == [] then [] else TableOf(s, 0);
    assert Held(s.reqs, s.running) == multiset(t) by {
      if s.running != [] { assert s.running[..0] == []; }
    }
    CoverSize(c.numBlocks, s.reg.pool, t);
  }

  lemma CoverSize(n: nat, v: View, t: seq<nat>)
    requires PoolOk(v) && |v.ref| == n && forall b :: 0 <= b < n ==> v.ref[b] == multiset(t)[b]
    ensures |v.free| + |t| >= n
  {
    var all, cover := Below(n), Elems(v.free) + Elems(t);
    forall b | b in all ensures b in cover {
      if b !in v.free { assert v.ref[b] > 0; }
    }
    SubsetSize(all, cover);
    assert |Elems(v.free) + Elems(t)| <= |Elems(v.free)| + |Elems(t)|;
  }

  lemma SubsetSize(a: set<nat>, b: set<nat>)
    requires a <= b
    ensures |a| <= |b|
  {
    assert b == a + (b - a);
  }

  // ---- arrivals and departures ----

  /** A new request goes to its place in the waiting queue: by priority and arrival, or to the end. */
  ghost predicate JoinStep(c: Cfg, s: Sys, s': Sys, id: Id, r: Request) {
    && Known(s.reqs, s.waiting)
    && s' == Join(s, if c.byPriority then UpperBound(s.reqs, s.waiting, r) else |s.waiting|, id, r)
  }

  ghost predicate Joinable(c: Cfg, s: Sys, id: Id, r: Request) {
    c.bs > 0 && id !in s.reqs && WaitOk(c, r) && HistOk(c, r) && r.gen == r.init
  }

  lemma JoinClosed(c: Cfg, s: Sys, s': Sys, id: Id, r: Request)
    requires Ok(c, s) && JoinStep(c, s, s', id, r) && Joinable(c, s, id, r)
    ensures Ok(c, s') && (KvSteady(c, s) && Trusted(c, r.params, r.init, r.salt) ==> KvSteady(c, s'))
  {
    var pos := if c.byPriority then UpperBound(s.reqs, s.waiting, r) else |s.waiting|;
    OpenOk(c, s);
    JoinOk(c, s, pos, id, r);
    OpenOk(c, s');
    if KvSteady(c, s) && Trusted(c, r.params, r.init, r.salt) { JoinSteady(c, s, pos, id, r); }
  }

  lemma JoinSteady(c: Cfg, s: Sys, pos: nat, id: Id, r: Request)
    requires KvSteady(c, s) && pos <= |s.waiting| && Joinable(c, s, id, r) && Trusted(c, r.params, r.init, r.salt)
    ensures KvSteady(c, Join(s, pos, id, r))
  {
    var s' := Join(s, pos, id, r);
    OpenKvOk(c, s, FedOf(s.reqs));
    JoinKv(c, s, FedOf(s.reqs), pos, id, r);
    OpenKvOk(c, s', FedOf(s.reqs));
    FedAgree(c, s', FedOf(s.reqs), FedOf(s'.reqs));
  }

  lemma JoinSorted(c: Cfg, s: Sys, s': Sys, id: Id, r: Request)
    requires JoinStep(c, s, s', id, r) && id !in s.waiting
    ensures Known(s'.reqs, s'.waiting)
    ensures c.byPriority && Sorted(s.reqs, s.waiting) ==> Sorted(s'.reqs, s'.waiting)
    ensures !c.byPriority ==> s'.running + s'.waiting == s.running + s.waiting + [id]
  {
    if c.byPriority {
      if Sorted(s.reqs, s.waiting) { InsertSorted(s.reqs, s.waiting, id, r); }
    } else {
      assert s.waiting[..|s.waiting|] == s.waiting;
    }
  }

  /** Cutting a running request short between steps. */
  lemma CutRunning(c: Cfg, s: Sys, k: nat, why: FinishReason, v: View)
    requires Ok(c, s) && k < |s.running| && Known(s.reqs, s.running) && (why == ABORT || why == ERROR)
    requires Returned(s.reg.pool, v, c.caching, TableOf(s, k))
    ensures var s' := Leave(s, k, Finished(ReqAt(s, k), why), v); Ok(c, s') && (KvSteady(c, s) ==> KvSteady(c, s'))
  {
    var r := Finished(ReqAt(s, k), why);
    var s' := Leave(s, k, r, v);
    OpenOk(c, s);
    LeaveOk(c, s, k, r, v);
    LeaveBehind(c, s, k, r, v);
    OpenOk(c, s');
    if KvSteady(c, s) {
      OpenKvOk(c, s, FedOf(s.reqs));
      assert Tracked(c, ReqAt(s, k));
      LeaveKv(c, s, FedOf(s.reqs), k, r, v);
      OpenKvOk(c, s', FedOf(s.reqs));
      FedAgree(c, s', FedOf(s.reqs), FedOf(s'.reqs));
    }
  }

  lemma LeaveBehind(c: Cfg, s: Sys, k: nat, r: Request, v: View)
    requires Queues(s) && k < |s.running| && Behind(s)
    ensures var s' := Leave(s, k, r, v); Known(s'.reqs, s'.running) && Behind(s')
  {
    var s' := Leave(s, k, r, v);
    forall i | 0 <= i < |s'.running| ensures s'.running[i] in s'.reqs && s'.reqs[s'.running[i]].computed < |s'.reqs[s'.running[i]].gen.tokens| {
      assert s'.running[i] == s.running[if i < k then i else i + 1];
    }
  }

  /** Cutting a waiting request short. */
  lemma CutWaiting(c: Cfg, s: Sys, k: nat, why: FinishReason)
    requires Ok(c, s) && k < |s.waiting| && Known(s.reqs, s.waiting) && (why == ABORT || why == ERROR)
    ensures var s' := LeaveWaiting(s, k, Finished(s.reqs[s.waiting[k]], why)); Ok(c, s') && (KvSteady(c, s) ==> KvSteady(c, s'))
  {
    var r := Finished(s.reqs[s.waiting[k]], why);
    var s' := LeaveWaiting(s, k, r);
    OpenOk(c, s);
    LeaveWaitingOk(c, s, k, r);
    OpenOk(c, s');
    if KvSteady(c, s) {
      OpenKvOk(c, s, FedOf(s.reqs));
      LeaveWaitingKv(c, s, FedOf(s.reqs), k, why);
      OpenKvOk(c, s', FedOf(s.reqs));
      FedAgree(c, s', FedOf(s.reqs), FedOf(s'.reqs));
    }
  }
}
