/** Where requests can be too long for a step, the engine can go on forever without serving a waiting request. */
module Livelock {
  import opened Types
  import opened PoolSpec
  import opened PagedKV
  import opened Generation
  import opened Serving
  import opened KvInvariant
  import opened SchedulerSpec
  import opened Progress
  import opened Service
  import opened Rounds
  import opened Engines

  // ---- a stalled engine stays stalled ----

  ghost predicate AllFailed(c: Cfg, reqs: map<Id, Request>, subs: seq<Submission>, ids: seq<int>) {
    |ids| == |subs| && forall i :: 0 <= i < |ids| && Accepts(c, subs[i]) ==> HasFailed(reqs, ids[i])
  }

  ghost predicate HasFailed(reqs: map<Id, Request>, id: int) {
    id >= 0 && id in reqs && reqs[id].status == FINISHED && reqs[id].finish == ERROR
  }

  /** New requests that go behind the head change nothing about it. */
  lemma StallHolds(c: Cfg, s: Sys, joined: Sys, subs: seq<Submission>, ids: seq<int>)
    requires Stalled(c, s) && Ingested(c, s, joined, subs, ids) && (!c.byPriority || subs == [])
    ensures Stuck(c, joined)
  {
    assert joined.waiting[0] == s.waiting[0];
  }

  lemma {:induction false} NewWaiting(c: Cfg, reqs: map<Id, Request>, subs: seq<Submission>, ids: seq<int>, k: nat)
    requires k <= |ids| == |subs| && forall i :: 0 <= i < |ids| ==> Entered(c, reqs, subs[i], ids[i])
    ensures forall id :: id in HandlesOf(ids[..k]) ==> id in reqs && reqs[id].status == WAITING
  {
    if k > 0 {
      assert ids[..k][..k - 1] == ids[..k - 1];
      NewWaiting(c, reqs, subs, ids, k - 1);
      assert Entered(c, reqs, subs[k - 1], ids[k - 1]);
    }
  }

  lemma NoneResumable(reqs: map<Id, Request>, q: seq<Id>)
    requires forall id :: id in q ==> id in reqs && reqs[id].status == WAITING
    ensures Known(reqs, q) && Resumable(reqs, q) == []
  {
    ResumablePreempted(reqs, q);
  }

  lemma StallQueue(c: Cfg, s: Sys, joined: Sys, subs: seq<Submission>, ids: seq<int>)
    requires Stalled(c, s) && Ingested(c, s, joined, subs, ids) && (!c.byPriority || subs == [])
    ensures Known(joined.reqs, joined.waiting) && Resumable(joined.reqs, joined.waiting) == s.waiting
  {
    var more := HandlesOf(ids);
    assert joined.waiting == s.waiting + more by {
      if subs == [] { assert s.waiting + more == s.waiting; }
    }
    assert ids[..|ids|] == ids;
    NewWaiting(c, joined.reqs, subs, ids, |ids|);
    NoneResumable(joined.reqs, more);
    ResumablePreempted(joined.reqs, s.waiting);
    ResumableAppend(joined.reqs, s.waiting, more);
  }

  lemma StallKept(c: Cfg, s: Sys, s': Sys)
    requires Stalled(c, s) && s'.running == s.running && s'.waiting == s.waiting && s'.reg == s.reg
    requires forall i :: 0 <= i < |s.waiting| ==>
      var id := s.waiting[i]; id in s.reqs && id in s'.reqs && s'.reqs[id] == s.reqs[id].(hashes := s'.reqs[id].hashes)
    ensures Stalled(c, s')
  {
    assert HeadLack(c, s') == HeadLack(c, s);
  }

  lemma NewFails(c: Cfg, joined: Sys, s': Sys, subs: seq<Submission>, ids: seq<int>)
    requires GaveUp(joined, s') && |ids| == |subs| && forall i :: 0 <= i < |ids| ==> Entered(c, joined.reqs, subs[i], ids[i])
    ensures AllFailed(c, s'.reqs, subs, ids)
  {
    forall i | 0 <= i < |ids| && Accepts(c, subs[i]) ensures HasFailed(s'.reqs, ids[i]) {
      assert Entered(c, joined.reqs, subs[i], ids[i]);
    }
  }

  /** In a stalled engine every arrival fails, whether it would fit a step or not, and nothing else happens. */
  lemma StallFails(c: Cfg, s: Sys, joined: Sys, s': Sys, subs: seq<Submission>, ids: seq<int>)
    requires Stalled(c, s) && Ingested(c, s, joined, subs, ids) && (!c.byPriority || subs == []) && GaveUp(joined, s')
    ensures Stalled(c, s') && s'.waiting == s.waiting && AllFailed(c, s'.reqs, subs, ids)
  {
    StallQueue(c, s, joined, subs, ids);
    StallKept(c, s, s');
    NewFails(c, joined, s', subs, ids);
  }

  ghost predicate TicksFailed(c: Cfg, reqs: map<Id, Request>, ticks: seq<Tick>, ids: seq<seq<int>>) {
    |ids| <= |ticks| && forall k :: 0 <= k < |ids| ==> AllFailed(c, reqs, ticks[k].arrivals, ids[k])
  }

  lemma FailedStay(c: Cfg, s: Sys, s': Sys, d: nat, cut: set<Id>, ticks: seq<Tick>, ids: seq<seq<int>>)
    requires Stride(c, s, s', d, cut) && TicksFailed(c, s.reqs, ticks, ids)
    ensures TicksFailed(c, s'.reqs, ticks, ids)
  {
    OpenStride(c, s, s', d, cut, Depth());
    forall k | 0 <= k < |ids| ensures AllFailed(c, s'.reqs, ticks[k].arrivals, ids[k]) {
      assert AllFailed(c, s.reqs, ticks[k].arrivals, ids[k]);
      forall i | 0 <= i < |ids[k]| && Accepts(c, ticks[k].arrivals[i]) ensures HasFailed(s'.reqs, ids[k][i]) {
        assert HasFailed(s.reqs, ids[k][i]);
      }
    }
  }

  /** Under first come first served, until somebody aborts: nothing is computed, the same requests wait, and every
      arrival fails. */
  method StaysStalled(e: Engine, ticks: seq<Tick>) returns (ids: seq<seq<int>>)
    requires e.Valid() && Stalled(e.sched.c, e.sched.view) && !e.sched.c.byPriority
    requires forall k :: 0 <= k < |ticks| ==> ticks[k].aborts == []
    modifies e, e.sched, e.sched.kv`reg, e.sched.kv`cells, e.sched.kv.pool
    ensures e.Valid() && Stalled(e.sched.c, e.sched.view) && e.sched.waiting == old(e.sched.waiting) != []
    ensures |ids| == |ticks| && TicksFailed(e.sched.c, e.sched.reqs, ticks, ids)
  {
    ids := [];
    for i := 0 to |ticks|
      invariant e.Valid() && Stalled(e.sched.c, e.sched.view) && e.sched.waiting == old(e.sched.waiting)
      invariant |ids| == i && TicksFailed(e.sched.c, e.sched.reqs, ticks, ids)
    {
      var more := StalledStep(e, ticks, i, ids);
      ids := ids + [more];
    }
  }

  method StalledStep(e: Engine, ticks: seq<Tick>, i: nat, ghost ids: seq<seq<int>>) returns (more: seq<int>)
    requires e.Valid() && Stalled(e.sched.c, e.sched.view) && !e.sched.c.byPriority && i < |ticks| && ticks[i].aborts == []
    requires |ids| == i && TicksFailed(e.sched.c, e.sched.reqs, ticks, ids)
    modifies e, e.sched, e.sched.kv`reg, e.sched.kv`cells, e.sched.kv.pool
    ensures e.Valid() && Stalled(e.sched.c, e.sched.view) && e.sched.waiting == old(e.sched.waiting)
    ensures TicksFailed(e.sched.c, e.sched.reqs, ticks, ids + [more])
  {
    ghost var c, s := e.sched.c, e.sched.view;
    var did;
    ghost var joined, w;
    did, more, joined, w := e.Step(ticks[i]);
    StallHolds(c, s, joined, ticks[i].arrivals, more);
    StallFails(c, s, joined, e.sched.view, ticks[i].arrivals, more);
    FailedStay(c, s, e.sched.view, if Flows(c) then 1 else 0, AbortSet(ticks[i].aborts), ticks, ids);
  }

  // ---- when requests can be too long ----

  lemma NothingCached(c: Cfg, v: View, salt: Salt, toks: seq<Token>)
    requires c.bs > 0 && |v.ref| == |v.hash| == |v.toks| && Unregistered(v)
    ensures CachedTokens(c.caching, c.mix, c.bs, v, salt, toks) == 0
  {
  }

  lemma OnlyOne(c: Cfg, q: seq<Id>, ids: seq<int>)
    requires |ids| == 1 && ids[0] >= 0 && Longer(c, [], q, HandlesOf(ids))
    ensures q == [ids[0]]
  {
    assert HandlesOf(ids[..0]) == [];
    assert HandlesOf(ids) == [ids[0]];
    assert q[0] in q;
  }

  lemma TooLong(c: Cfg, s: Sys, joined: Sys, sub: Submission, ids: seq<int>)
    requires CfgOk(c) && !Flows(c) && |sub.prompt| == c.maxBatched + 1
    requires s.running == [] && s.waiting == [] && s.reqs == map[] && PoolShape(c, s.reg) && Unregistered(s.reg.pool)
    requires Ingested(c, s, joined, [sub], ids)
    ensures Stuck(c, joined)
  {
    assert Entered(c, joined.reqs, sub, ids[0]);
    OnlyOne(c, joined.waiting, ids);
    NothingCached(c, s.reg.pool, sub.salt, sub.prompt);
  }

  /** Where the configuration does not rule it out, requests too long for a step are accepted, and fail at once: a prompt
      that just exceeds a step, on a fresh engine. */
  method TooLongFails(c: Cfg, sub: Submission, draft: Drafter) returns (e: Engine, ids: seq<int>)
    requires CfgOk(c) && !Flows(c) && |sub.prompt| == c.maxBatched + 1
    ensures fresh(e) && e.Valid() && e.sched.c == c && Accepts(c, sub) && AllFailed(c, e.sched.reqs, [sub], ids)
  {
    e := new Engine(c);
    ghost var s := e.sched.view;
    OpenOk(c, s);
    var did;
    ghost var joined, w;
    did, ids, joined, w := e.Step(Tick([sub], [], draft));
    TooLong(c, s, joined, sub, ids);
    NewFails(c, joined, e.sched.view, [sub], ids);
  }
}
