/** The step loop: ingest, schedule, build, compute, count, answer. */
module Engines {
  import opened Types
  import opened PoolSpec
  import opened KvSpec
  import opened PagedKV
  import opened Generation
  import opened Stopping
  import opened Serving
  import opened KvInvariant
  import opened SchedulerSpec
  import opened Steps
  import opened Forward
  import opened StepKv
  import opened Speculation
  import opened Progress
  import opened Tally
  import opened Turn
  import opened Scheduling
  import opened MicroBatch
  import opened BatchOrder
  import opened Service
  import opened Rounds

  /** The place of id in a queue, or its length. */
  method Find(q: seq<Id>, id: Id) returns (k: nat)
    ensures k <= |q| && (k < |q| <==> id in q) && (k < |q| ==> q[k] == id)
  {
    k := 0;
    while k < |q| && q[k] != id
      invariant k <= |q| && id !in q[..k]
    {
      k := k + 1;
    }
    assert q == q[..k] + q[k..];
  }

  /** A finished request: what it generated, without its blocks. */
  function FinalRecord(r: Request, e: Scheduled, g: Gen, accepted: nat): (r': Request)
    requires accepted <= e.nSpec && e.nSpec - accepted <= r.computed
  {
    Finished(NextRecord(r, e, g, accepted, []), g.reason)
  }

  lemma FinalOk(c: Cfg, r: Request, e: Scheduled, g: Gen, accepted: nat)
    requires c.bs > 0 && HistOk(c, r) && accepted <= e.nSpec && e.nSpec - accepted <= r.computed
    requires r.gen.tokens <= g.tokens && g.reason != NONE && Logged(c.env, r.params, r.init, g)
    ensures DoneOk(FinalRecord(r, e, g, accepted)) && HistOk(c, FinalRecord(r, e, g, accepted))
  {
    OpenHist(c, r);
    HashesGrow(c.mix, c.bs, r.salt, r.gen.tokens, g.tokens, r.hashes);
    OpenHist(c, FinalRecord(r, e, g, accepted));
  }

  class Engine {
    const sched: Scheduler
    var nextId: nat

    /** Handles are given out in order, and records are never dropped. */
    ghost predicate Valid()
      reads this, sched, sched.kv, sched.kv.pool
    {
      sched.Valid() && forall id: Id :: id in sched.reqs <==> id < nextId
    }

    constructor (c: Cfg)
      requires CfgOk(c)
      ensures Valid() && fresh(sched) && fresh(sched.kv) && fresh(sched.kv.pool) && sched.c == c
      ensures sched.reqs == map[] && Line(sched.view) == [] && nextId == 0 && Unregistered(sched.view.reg.pool)
      ensures Ordered(c, sched.view)
      ensures HashSound(c) ==> KvSteady(c, sched.view)
    {
      var kv := new PagedKVCache(c.mix, c.numBlocks, c.bs, c.caching);
      sched := new Scheduler(c, kv);
      nextId := 0;
      new;
      OpenOrdered(c, sched.view);
    }

    // ---- ingest ----

    /** Queues the submissions accepted since the last step; a refused one gets no id. */
    method Ingest(arrivals: seq<Submission>, ghost cut: set<Id>) returns (ids: seq<int>)
      requires Valid()
      modifies this, sched
      ensures Valid() && Stride(sched.c, old(sched.view), sched.view, 0, cut)
      ensures AllQueued(sched.c, sched.reqs, arrivals, ids) && Numbered(ids, old(nextId), nextId)
      ensures old(nextId) <= nextId <= old(nextId) + |arrivals|
      ensures AllTrusted(sched.c, old(sched.reqs)) && (forall i :: 0 <= i < |arrivals| ==> SubTrusted(sched.c, arrivals[i])) ==>
        AllTrusted(sched.c, sched.reqs)
      ensures Ingested(sched.c, old(sched.view), sched.view, arrivals, ids)
      ensures Ordered(sched.c, old(sched.view)) ==> Ordered(sched.c, sched.view)
      ensures sched.c.byPriority && Ordered(sched.c, old(sched.view)) ==>
        forall i, j :: 0 <= i < |arrivals| && 0 <= j < |arrivals| ==> NotOvertaken(sched.waiting, arrivals[i], arrivals[j], ids[i], ids[j])
    {
      ids := [];
      StrideNone(sched.c, sched.view, cut);
      IngestNone(sched.c, sched.view);
      for i := 0 to |arrivals|
        invariant Valid() && Stride(sched.c, old(sched.view), sched.view, 0, cut)
        invariant AllQueued(sched.c, sched.reqs, arrivals[..i], ids) && Numbered(ids, old(nextId), nextId)
        invariant old(nextId) <= nextId <= old(nextId) + i
        invariant AllTrusted(sched.c, old(sched.reqs)) && (forall j :: 0 <= j < i ==> SubTrusted(sched.c, arrivals[j])) ==>
          AllTrusted(sched.c, sched.reqs)
        invariant Ingested(sched.c, old(sched.view), sched.view, arrivals[..i], ids)
      {
        ghost var s := sched.view;
        var id := IngestOne(arrivals[i]);
        CameOn(sched.c, old(sched.view), s, sched.view, cut, arrivals, ids, id);
        NumberedMore(ids, [id], old(nextId), if id == -1 then nextId else id, nextId);
        ids := ids + [id];
      }
      assert arrivals[..|arrivals|] == arrivals;
      StrideOrdered(sched.c, old(sched.view), sched.view, 0, cut);
      if sched.c.byPriority && Ordered(sched.c, sched.view) { ArrivalsOrdered(sched.c, sched.view, arrivals, ids); }
    }

    method IngestOne(sub: Submission) returns (id: int)
      requires Valid()
      modifies this, sched
      ensures Valid() && Came(sched.c, old(sched.view), sched.view, sub, id) && Entered(sched.c, sched.reqs, sub, id)
      ensures if Accepts(sched.c, sub) then id == old(nextId) && nextId == id + 1 else id == -1 && nextId == old(nextId)
    {
      id := -1;
      if Accepts(sched.c, sub) {
        id := nextId;
        NewJoinable(sched.c, sched.view, nextId, sub);
        sched.AddRequest(nextId, NewRequest(sub));
        nextId := nextId + 1;
      }
    }

    method AbortAll(aborts: seq<Id>)
      requires Valid()
      modifies sched, sched.kv`reg, sched.kv.pool
      ensures Valid() && Stride(sched.c, old(sched.view), sched.view, 0, AbortSet(aborts))
      ensures aborts == [] ==> sched.view == old(sched.view)
    {
      StrideNone(sched.c, sched.view, AbortSet(aborts));
      for i := 0 to |aborts|
        invariant Valid() && Stride(sched.c, old(sched.view), sched.view, 0, AbortSet(aborts))
        invariant i == 0 ==> sched.view == old(sched.view)
      {
        CutShort(aborts[i], ABORT, old(sched.view), AbortSet(aborts));
      }
    }

    /** Ends a request from outside, wherever it is; unknown and finished ids are ignored. */
    method CutShort(id: Id, why: FinishReason, ghost s0: Sys, ghost cut: set<Id>)
      requires Valid() && Ok(sched.c, s0) && Stride(sched.c, s0, sched.view, 0, cut)
      requires id in sched.reqs ==> MayCut(sched.c, why, id, sched.reqs[id], cut)
      modifies sched, sched.kv`reg, sched.kv.pool
      ensures Valid() && Stride(sched.c, s0, sched.view, 0, cut) && id !in Line(sched.view)
    {
      ghost var s := sched.view;
      RunningPre(sched.c, s);
      var k := Find(sched.running, id);
      if k < |sched.running| {
        EndRunning(k, why, cut);
        StrideTrans(sched.c, s0, s, sched.view, 0, 0, cut);
      } else {
        k := Find(sched.waiting, id);
        if k < |sched.waiting| {
          EndWaiting(k, why, cut);
          StrideTrans(sched.c, s0, s, sched.view, 0, 0, cut);
        }
      }
    }

    method EndRunning(k: nat, why: FinishReason, ghost cut: set<Id>)
      requires Valid() && k < |sched.running| && sched.running[k] in sched.reqs
      requires MayCut(sched.c, why, sched.running[k], sched.reqs[sched.running[k]], cut)
      modifies sched, sched.kv`reg, sched.kv.pool
      ensures Valid() && Stride(sched.c, old(sched.view), sched.view, 0, cut)
      ensures old(sched.running)[k] !in Line(sched.view)
    {
      ghost var s := sched.view;
      CutPre(sched.c, s, k);
      sched.DropRunning(k, Finished(sched.reqs[sched.running[k]], why));
      EndedRunning(sched.c, s, k, why, sched.view.reg.pool, cut);
    }

    method EndWaiting(k: nat, why: FinishReason, ghost cut: set<Id>)
      requires Valid() && k < |sched.waiting| && sched.waiting[k] in sched.reqs
      requires MayCut(sched.c, why, sched.waiting[k], sched.reqs[sched.waiting[k]], cut)
      modifies sched
      ensures Valid() && Stride(sched.c, old(sched.view), sched.view, 0, cut)
      ensures old(sched.waiting)[k] !in Line(sched.view)
      ensures sched.view == LeaveWaiting(old(sched.view), k, Finished(old(sched.reqs)[old(sched.waiting)[k]], why))
    {
      ghost var s := sched.view;
      RunningPre(sched.c, s);
      sched.DropWaiting(k, Finished(sched.reqs[sched.waiting[k]], why));
      EndedWaiting(sched.c, s, k, why, cut);
    }

    /** Nothing could be scheduled: fails every request that never ran. One that was preempted stays as it is. */
    method FailWaiting(ghost cut: set<Id>)
      requires Valid() && !Flows(sched.c)
      modifies sched
      ensures Valid() && Stride(sched.c, old(sched.view), sched.view, 0, cut) && Failed(old(sched.view), sched.view)
    {
      ghost var c, s0 := sched.c, sched.view;
      var i: nat := 0;
      ghost var j: nat := 0;
      StrideNone(c, s0, cut);
      FailStart(c, s0);
      while i < |sched.waiting|
        invariant Valid() && Stride(c, s0, sched.view, 0, cut) && FailedTo(s0, sched.view, j) && i == KeptOf(s0, j)
        decreases |sched.waiting| - i
      {
        i := FailNext(i, j, s0, cut);
        j := j + 1;
      }
      FailEnd(c, s0, sched.view, j);
    }

    method FailNext(i: nat, ghost j: nat, ghost s0: Sys, ghost cut: set<Id>) returns (i': nat)
      requires Valid() && !Flows(sched.c) && Ok(sched.c, s0) && Stride(sched.c, s0, sched.view, 0, cut)
      requires FailedTo(s0, sched.view, j) && i == KeptOf(s0, j) < |sched.waiting|
      modifies sched
      ensures Valid() && Stride(sched.c, s0, sched.view, 0, cut)
      ensures FailedTo(s0, sched.view, j + 1) && i' == KeptOf(s0, j + 1)
      ensures |sched.waiting| - i' < old(|sched.waiting|) - i
    {
      ghost var c, s := sched.c, sched.view;
      FailAt(c, s0, s, j, i);
      if sched.reqs[sched.waiting[i]].status == WAITING {
        FailOne(c, s0, s, j, i);
        EndWaiting(i, ERROR, cut);
        StrideTrans(c, s0, s, sched.view, 0, 0, cut);
        i' := i;
      } else {
        FailSkip(c, s0, s, j);
        i' := i + 1;
      }
    }

    // ---- the step ----

    /** One step. What was submitted is on record under fresh handles, only what was aborted is cut off, and under first
        come first served, where no request can be too long for a step, every request in line gets a step closer. With
        no aborts the arrivals come in, and then either a round is worked, or nothing can be scheduled and exactly those
        who never ran fail. */
    method Step(t: Tick) returns (did: bool, ids: seq<int>, ghost joined: Sys, ghost w: Round)
      requires Valid()
      modifies this, sched, sched.kv`reg, sched.kv`cells, sched.kv.pool
      ensures Valid() && Stride(sched.c, old(sched.view), sched.view, if Flows(sched.c) then 1 else 0, AbortSet(t.aborts))
      ensures AllQueued(sched.c, sched.reqs, t.arrivals, ids) && Numbered(ids, old(nextId), nextId)
      ensures old(nextId) <= nextId <= old(nextId) + |t.arrivals|
      ensures AllTrusted(sched.c, old(sched.reqs)) && TickTrusted(sched.c, t) ==> AllTrusted(sched.c, sched.reqs)
      ensures t.aborts == [] ==> Ingested(sched.c, old(sched.view), joined, t.arrivals, ids)
      ensures if Stuck(sched.c, joined) then !did && GaveUp(joined, sched.view)
              else did && Worked(sched.c, joined, sched.view, t.draft, w)
    {
      ghost var c, s0, cut := sched.c, sched.view, AbortSet(t.aborts);
      ids := Receive(t);
      ghost var s1 := sched.view;
      joined := s1;
      did := false;
      if sched.running == [] && sched.waiting == [] {
        w := Round(s1, Output([], [], 0), 0, []);
        NothingToFail(c, s1);
        StrideEmpty(c, s0, s1, cut);
        StrideLess(c, s0, s1, 1, if Flows(c) then 1 else 0, cut);
      } else {
        did, w := Turn(t.draft, cut);
        AfterTurn(c, s0, s1, sched.view, if Flows(c) then 1 else 0, cut, t.arrivals, ids);
      }
    }

    /** What has come in since the last step: new requests, then aborts. */
    method Receive(t: Tick) returns (ids: seq<int>)
      requires Valid()
      modifies this, sched, sched.kv`reg, sched.kv.pool
      ensures Valid() && Stride(sched.c, old(sched.view), sched.view, 0, AbortSet(t.aborts))
      ensures AllQueued(sched.c, sched.reqs, t.arrivals, ids) && Numbered(ids, old(nextId), nextId)
      ensures old(nextId) <= nextId <= old(nextId) + |t.arrivals|
      ensures AllTrusted(sched.c, old(sched.reqs)) && TickTrusted(sched.c, t) ==> AllTrusted(sched.c, sched.reqs)
      ensures t.aborts == [] ==> Ingested(sched.c, old(sched.view), sched.view, t.arrivals, ids)
    {
      ghost var c, s0, cut := sched.c, sched.view, AbortSet(t.aborts);
      ids := Ingest(t.arrivals, cut);
      ghost var s1 := sched.view;
      AbortAll(t.aborts);
      AfterTurn(c, s0, s1, sched.view, 0, cut, t.arrivals, ids);
    }

    /** Schedules and runs one batch; nothing is done exactly when nothing can be scheduled. */
    method Turn(draft: Drafter, ghost cut: set<Id>) returns (did: bool, ghost w: Round)
      requires Valid() && Line(sched.view) != []
      modifies sched, sched.kv`reg, sched.kv`cells, sched.kv.pool
      ensures Valid() && Stride(sched.c, old(sched.view), sched.view, if Flows(sched.c) then 1 else 0, cut)
      ensures if Stuck(sched.c, old(sched.view)) then !did && GaveUp(old(sched.view), sched.view)
              else did && Worked(sched.c, old(sched.view), sched.view, draft, w)
    {
      ghost var c, s := sched.c, sched.view;
      var out;
      ghost var left;
      out, left := sched.Schedule();
      ghost var s1 := sched.view;
      PlanLine(c, s, s1, out, left);
      PlanHead(c, s, s1, out, left);
      PlanStride(c, s, s1, out, left, cut);
      if out.scheduled == [] {
        if out.preempted != [] { assert false; }
        if Flows(c) { FlowsOn(c, s); }
        GiveUp(s, cut);
        w := Round(s1, out, left, []);
        did := false;
      } else {
        w := RunPlanned(s, out, left, draft, cut);
        StrideLess(c, s, sched.view, 1, if Flows(c) then 1 else 0, cut);
        did := true;
      }
    }

    /** Nothing can be scheduled: whoever has never run fails. */
    method GiveUp(ghost s: Sys, ghost cut: set<Id>)
      requires Valid() && Ok(sched.c, s) && Stride(sched.c, s, sched.view, 0, cut) && !Flows(sched.c)
      requires InVain(sched.c, s, sched.view)
      modifies sched
      ensures Valid() && Stride(sched.c, s, sched.view, 0, cut) && GaveUp(s, sched.view)
    {
      ghost var s1 := sched.view;
      FailWaiting(cut);
      VainFails(sched.c, s, s1, sched.view);
      StrideTrans(sched.c, s, s1, sched.view, 0, 0, cut);
    }

    /** Runs what has been scheduled, for gather attention in order of token counts: everybody in line gets a step closer. */
    method RunPlanned(ghost s: Sys, out: Output, ghost left: nat, draft: Drafter, ghost cut: set<Id>) returns (ghost w: Round)
      requires Valid() && Ok(sched.c, s) && Planning(sched.c, s, sched.view, out, left) && out.scheduled != []
      requires if out.preempted == [] then Shifted(s, sched.view, []) else Cut(s, sched.view, out.preempted)
      requires out.preempted == [] ==> Filled(sched.c, sched.view, left) && (left > 0 ==> |out.scheduled| == |sched.running|)
      modifies sched, sched.kv`reg, sched.kv`cells, sched.kv.pool
      ensures Valid() && Stride(sched.c, s, sched.view, 1, cut) && Worked(sched.c, s, sched.view, draft, w)
    {
      ghost var c, s1 := sched.c, sched.view;
      PlanEntries(c, s, s1, out, left);
      OrderEntries(c, s1, out.scheduled);
      var order := if sched.c.gather then ByCount(out.scheduled) else out.scheduled;
      RunBatch(order, draft);
      TurnStride(c, s, s1, sched.view, out, left, order, cut);
      CloseLedger(s1, sched.view, order, |order|, |order|, Depth());
      w := Round(s1, out, left, order);
    }

    /** Serving any traffic, from any state of the engine.
        - Every accepted submission gets a handle of its own and stays on record under it.
        - A request is over because it ended by itself, because the traffic aborted it, or, only where requests can be too
          long for a step, because it was failed before it had generated anything.
        - A request goes on, stops or is full exactly as its tokens say, and none has a token too many.
        - Where the hash keeps the prefixes of the traffic apart, what a request has generated is a stretch of its
          isolated run, and all of it if it ended by itself.
        - Under first come first served, where no request can be too long for a step, every request that is not aborted
          ends by itself within a whole context for itself and for each request before it. */
    method Serve(ticks: seq<Tick>) returns (ids: seq<seq<int>>)
      requires Valid()
      modifies this, sched, sched.kv`reg, sched.kv`cells, sched.kv.pool
      ensures Valid() && |ids| == |ticks| && Numbered(Flat(ids), old(nextId), nextId)
      ensures forall k :: 0 <= k < |ticks| ==> AllQueued(sched.c, sched.reqs, ticks[k].arrivals, ids[k])
      ensures Evolves(old(sched.reqs), sched.reqs) && Ends(sched.c, old(sched.reqs), sched.reqs, AbortedBy(ticks))
      ensures AllEndRight(sched.c, sched.reqs)
      ensures sched.c.byPriority && Ordered(sched.c, old(sched.view)) ==> Ordered(sched.c, sched.view) && PriorityKept(sched.waiting, ticks, ids)
      ensures KvSteady(sched.c, old(sched.view)) && TrafficTrusted(sched.c, ticks) ==>
        KvSteady(sched.c, sched.view) && Exact(sched.c, sched.reqs)
      ensures !sched.c.byPriority && Flows(sched.c) ==>
        forall id :: id in Line(old(sched.view)) && id !in AbortedBy(ticks) && |ticks| >= LongestWait(sched.c, old(sched.view), id) ==>
          id in sched.reqs && EndedItself(sched.reqs[id])
      ensures !sched.c.byPriority && Flows(sched.c) ==>
        forall k, j :: 0 <= k < |ticks| && 0 <= j < |ticks[k].arrivals| ==>
          InTime(sched.c, |Line(old(sched.view))|, sched.reqs, ticks, ids, k, j)
    {
      ghost var c, s0, n0, cut := sched.c, sched.view, nextId, AbortedBy(ticks);
      StrideNone(c, s0, cut);
      ids := [];
      assert Flat([]) == [];
      for i := 0 to |ticks|
        invariant Valid() && Stride(c, s0, sched.view, if Flows(c) then i else 0, cut)
        invariant n0 <= nextId <= n0 + Arrived(ticks, i) && |ids| == i && Numbered(Flat(ids), n0, nextId)
        invariant AllOwed(c, sched.view, |Line(s0)|, ticks, ids, i)
        invariant AllTrusted(c, s0.reqs) && TrafficTrusted(c, ticks) ==> AllTrusted(c, sched.reqs)
      {
        var more := ServeNext(s0, n0, ticks, i, ids);
        ids := ids + [more];
      }
      ServedWell(c, s0, sched.view, n0, ticks, ids);
      StrideOrdered(c, s0, sched.view, if Flows(c) then |ticks| else 0, cut);
      if c.byPriority && Ordered(c, sched.view) { OrderedIsKept(c, sched.view, ticks, ids); }
    }

    /** One more tick. */
    method ServeNext(ghost s0: Sys, ghost n0: nat, ticks: seq<Tick>, i: nat, ghost ids: seq<seq<int>>) returns (more: seq<int>)
      requires Valid() && i < |ticks| && Ok(sched.c, s0) && (forall id: Id :: id in s0.reqs <==> id < n0)
      requires Stride(sched.c, s0, sched.view, if Flows(sched.c) then i else 0, AbortedBy(ticks))
      requires n0 <= nextId <= n0 + Arrived(ticks, i) && |ids| == i && Numbered(Flat(ids), n0, nextId)
      requires AllOwed(sched.c, sched.view, |Line(s0)|, ticks, ids, i)
      modifies this, sched, sched.kv`reg, sched.kv`cells, sched.kv.pool
      ensures Valid() && Stride(sched.c, s0, sched.view, if Flows(sched.c) then i + 1 else 0, AbortedBy(ticks))
      ensures n0 <= nextId <= n0 + Arrived(ticks, i + 1) && Numbered(Flat(ids + [more]), n0, nextId)
      ensures AllOwed(sched.c, sched.view, |Line(s0)|, ticks, ids + [more], i + 1)
      ensures AllTrusted(sched.c, old(sched.reqs)) && TrafficTrusted(sched.c, ticks) ==> AllTrusted(sched.c, sched.reqs)
    {
      ghost var c, s, n1, cut := sched.c, sched.view, nextId, AbortedBy(ticks);
      ghost var d := if Flows(c) then 1 else 0;
      var did;
      ghost var joined, w;
      did, more, joined, w := Step(ticks[i]);
      AbortsOfTick(ticks, i);
      StrideMore(c, s, sched.view, d, AbortSet(ticks[i].aborts), cut);
      StrideTrans(c, s0, s, sched.view, if Flows(c) then i else 0, d, cut);
      NumberedMore(Flat(ids), more, n0, n1, nextId);
      FlatMore(ids, more);
      LineGrows(c, s0, sched.view, if Flows(c) then i + 1 else 0, cut, n0, nextId);
      OwedMore(c, s, sched.view, |Line(s0)|, ticks, ids, i, cut, more);
    }

    // ---- answers ----

    method Update(id: Id, r: Request)
      requires sched.Wired() && id in sched.reqs
      modifies sched`reqs, sched`view
      ensures sched.Wired() && sched.view == SetAll(old(sched.view), id, r, old(sched.view).reg)
      ensures sched.reqs.Keys == old(sched.reqs.Keys)
    {
      sched.reqs := sched.reqs[id := r];
      sched.view := SetAll(sched.view, id, r, sched.view.reg);
    }

    /** Answers one scheduled request: nothing for a prefill chunk, otherwise the verified tokens, after which the
        request goes on or leaves. */
    method AnswerNext(ghost s0: Sys, out: seq<Scheduled>, ghost ans: Answers, i: nat, rows: seq<seq<KV>>, draft: Drafter)
      requires sched.Wired() && During(sched.c, s0, sched.view, out, ans, draft, i, |out|) && i < |out| == |ans| && rows == ans[i]
      modifies sched, sched.kv`reg, sched.kv.pool
      ensures sched.Wired() && During(sched.c, s0, sched.view, out, ans, draft, i + 1, |out|)
      ensures sched.reqs.Keys == old(sched.reqs.Keys)
    {
      ghost var c, s := sched.c, sched.view;
      ghost var k0 := AnswerPre(c, s, out, ans, i);
      var e := out[i];
      var r := sched.reqs[e.id];
      if rows == [] {
        TurnSkip(c, s0, s, out, ans, draft, i, k0);
        return;
      }
      assert 0 < |r.init.tokens| <= |r.gen.tokens| && Logged(c.env, r.params, r.init, r.gen) by { OpenHist(c, r); }
      var g, accepted := Answer(sched.c.env, r.params, |r.init.tokens|, r.gen, r.spec[..e.nSpec], rows, r.init);
      if KvSteady(c, s0) { AnswerTraced(c, s, out, ans, i, k0, g); }
      if g.reason == NONE {
        var next := NextRecord(r, e, g, accepted, draft(e.id, g.tokens));
        TurnContinue(c, s0, s, out, ans, draft, i, k0, g, accepted);
        Update(e.id, next);
      } else {
        FinalOk(c, r, e, g, accepted);
        Conclude(s0, out, ans, draft, i, FinalRecord(r, e, g, accepted));
      }
    }

    /** Takes an answered request that has stopped off the running list. */
    method Conclude(ghost s0: Sys, out: seq<Scheduled>, ghost ans: Answers, ghost draft: Drafter, i: nat, r: Request)
      requires sched.Wired() && During(sched.c, s0, sched.view, out, ans, draft, i, |out|) && i < |out| == |ans| && out[i].id in sched.reqs
      requires sched.c.bs > 0 && DoneOk(r) && HistOk(sched.c, r) && EndedItself(r) && SameOrigin(sched.reqs[out[i].id], r)
      requires var r0 := sched.reqs[out[i].id];
        r0.computed >= |r0.gen.tokens| && |r0.gen.tokens| < |r.gen.tokens| <= |r0.gen.tokens| + out[i].nSpec + 1
      requires KvSteady(sched.c, s0) ==> Traced(sched.c.env, r.params, r.init, r.gen)
      modifies sched, sched.kv`reg, sched.kv.pool
      ensures sched.Wired() && During(sched.c, s0, sched.view, out, ans, draft, i + 1, |out|)
      ensures sched.reqs.Keys == old(sched.reqs.Keys)
    {
      ghost var s := sched.view;
      ghost var k0 := AnswerPre(sched.c, s, out, ans, i);
      var k := Find(sched.running, out[i].id);
      sched.DropRunning(k, r);
      TurnLeave(sched.c, s0, s, out, ans, draft, i, k, r, sched.view.reg.pool);
    }

    method ProcessOutputs(ghost s0: Sys, out: seq<Scheduled>, ghost ans: Answers, logits: seq<seq<KV>>, logitRows: seq<int>, draft: Drafter)
      requires sched.Wired() && During(sched.c, s0, sched.view, out, ans, draft, 0, |out|)
      requires Collected(out, ans, logits, logitRows)
      modifies sched, sched.kv`reg, sched.kv.pool
      ensures sched.Wired() && During(sched.c, s0, sched.view, out, ans, draft, |out|, |out|)
      ensures sched.reqs.Keys == old(sched.reqs.Keys)
    {
      for i := 0 to |out|
        invariant sched.Wired() && During(sched.c, s0, sched.view, out, ans, draft, i, |out|)
        invariant sched.reqs.Keys == old(sched.reqs.Keys)
      {
        AnswerNext(s0, out, ans, i, AnswerRows(out, logits, logitRows, i), draft);
      }
    }

    // ---- the forward pass ----

    /** Every row writes its cell. */
    method Compute(rows: seq<Row>)
      requires sched.Wired() && RowsOk(rows, |sched.kv.cells|)
      modifies sched, sched.kv`cells
      ensures sched.Wired() && sched.view == old(sched.view).(cells := Run(old(sched.kv.cells), rows))
      ensures sched.reqs == old(sched.reqs)
    {
      ghost var cells0, s := sched.kv.cells, sched.view;
      for i := 0 to |rows|
        invariant sched.kv.Valid() && RowsOk(rows[..i], |cells0|) && sched.kv.cells == Run(cells0, rows[..i])
        modifies sched.kv`cells
      {
        assert rows[..i + 1][..i] == rows[..i];
        var row := rows[i];
        assert RowOk(row, |cells0|);
        sched.kv.Store(row.slot, KV(Attend(sched.kv.cells, row, row.pos), row.tok));
      }
      assert rows[..|rows|] == rows;
      sched.view := s.(cells := sched.kv.cells);
    }

    /** Builds the micro-batch, runs it and fetches the logits. */
    method ComputeBatch(out: seq<Scheduled>, ghost draft: Drafter) returns (logits: seq<seq<KV>>, logitRows: seq<int>, ghost ans: Answers)
      requires sched.Valid() && Entries(sched.c, sched.view, out) && out != []
      modifies sched, sched.kv`cells
      ensures sched.Wired() && During(sched.c, old(sched.view), sched.view, out, ans, draft, 0, 0)
      ensures Collected(out, ans, logits, logitRows) && sched.reqs == old(sched.reqs)
    {
      ghost var c, s := sched.c, sched.view;
      BatchPre(c, s, out);
      var rows, outIds;
      rows, outIds, logitRows := BuildBatch(sched.c.bs, sched.reqs, out);
      Compute(rows);
      logits := ReadLogits(sched.kv.cells, rows, outIds);
      ans := CollectAnswers(c, s, out, sched.kv.cells, rows, outIds, logits, logitRows);
      TurnStart(c, s, out, sched.kv.cells, ans, draft);
    }

    /** Computes and answers the scheduled requests. */
    method RunBatch(out: seq<Scheduled>, draft: Drafter)
      requires sched.Valid() && Entries(sched.c, sched.view, out) && out != []
      modifies sched, sched.kv`reg, sched.kv`cells, sched.kv.pool
      ensures sched.Valid() && Ledger(old(sched.view), sched.view, out, |out|, |out|)
      ensures Tallied(old(sched.view), sched.view, out, draft, |out|)
      ensures KvSteady(sched.c, old(sched.view)) ==> KvSteady(sched.c, sched.view)
      ensures sched.reqs.Keys == old(sched.reqs.Keys)
    {
      ghost var s := sched.view;
      var logits, logitRows;
      ghost var ans;
      logits, logitRows, ans := ComputeBatch(out, draft);
      sched.UpdateAfterStep(s, out, ans, draft);
      ProcessOutputs(s, out, ans, logits, logitRows, draft);
      TurnEnd(sched.c, s, sched.view, out, ans, draft);
    }
  }

  /** A whole service, from a fresh engine. Without the prefix cache, or if the block hash has no collisions among the
      prefixes of the traffic's own isolated runs, every request gets a stretch of its isolated run, and all of it if it
      ends by itself; under first come first served, where no request can be too long for a step, every accepted one that
      is not aborted does, in time. */
  method RunService(c: Cfg, ticks: seq<Tick>) returns (e: Engine, ids: seq<seq<int>>)
    requires CfgOk(c)
    ensures fresh(e) && e.Valid() && e.sched.c == c && |ids| == |ticks| && Numbered(Flat(ids), 0, e.nextId)
    ensures forall k :: 0 <= k < |ticks| ==> AllQueued(c, e.sched.reqs, ticks[k].arrivals, ids[k])
    ensures Ends(c, map[], e.sched.reqs, AbortedBy(ticks)) && AllEndRight(c, e.sched.reqs)
    ensures c.byPriority ==> PriorityKept(e.sched.waiting, ticks, ids)
    ensures !c.caching || (PrefixesOf(c, ticks) <= c.trusted && CollisionFree(c.mix, c.bs, c.trusted)) ==> Exact(c, e.sched.reqs)
    ensures !c.byPriority && Flows(c) ==>
      forall k, j :: 0 <= k < |ticks| && 0 <= j < |ticks[k].arrivals| ==> InTime(c, 0, e.sched.reqs, ticks, ids, k, j)
  {
    e := new Engine(c);
    if !c.caching { OffIsTrusted(c, ticks); } else if PrefixesOf(c, ticks) <= c.trusted { OwnPrefixesSuffice(c, ticks); }
    ids := e.Serve(ticks);
  }

  /** What a turn or the aborts add to what has come in: nobody new. */
  lemma AfterTurn(c: Cfg, s0: Sys, s1: Sys, s2: Sys, d: nat, cut: set<Id>, subs: seq<Submission>, ids: seq<int>)
    requires Ok(c, s0) && Stride(c, s0, s1, 0, cut) && Stride(c, s1, s2, d, cut) && AllQueued(c, s1.reqs, subs, ids)
    requires s2.reqs.Keys == s1.reqs.Keys
    ensures Stride(c, s0, s2, d, cut) && AllQueued(c, s2.reqs, subs, ids) && (AllTrusted(c, s1.reqs) ==> AllTrusted(c, s2.reqs))
  {
    StrideTrans(c, s0, s1, s2, 0, d, cut);
    QueuedStays(c, s1, s2, d, cut, subs, ids);
    if AllTrusted(c, s1.reqs) { StrideTrusted(c, s1, s2, d, cut); }
  }

  lemma PlanEntries(c: Cfg, s: Sys, s1: Sys, out: Output, left: nat)
    requires Ok(c, s1) && Planning(c, s, s1, out, left)
    ensures Entries(c, s1, out.scheduled)
  {
    UnwrapPlanned(c, s, s1, out, left, Depth());
    BatchEntries(c, s1, out.scheduled);
  }

  lemma BatchPre(c: Cfg, s: Sys, out: seq<Scheduled>)
    requires Ok(c, s) && Entries(c, s, out)
    ensures AllReady(c.bs, s.reqs, out) && RowsOk(BatchRows(c.bs, s.reqs, out, |out|), |s.cells|)
    ensures forall i :: 0 <= i < |out| ==> out[i].nSpec < out[i].nNew
  {
    MidReady(c, s, out);
    BatchRowsOk(c, s, out, |out|);
    forall i | 0 <= i < |out| ensures out[i].nSpec < out[i].nNew { EntryIsOk(c, s, out, i); }
  }

  /** The answers, as cut out of the flat output. */
  ghost predicate Collected(out: seq<Scheduled>, ans: Answers, logits: seq<seq<KV>>, logitRows: seq<int>) {
    && |out| == |ans| == |logitRows|
    && (forall i :: 0 <= i < |out| && logitRows[i] >= 0 ==> logitRows[i] + out[i].nSpec < |logits|)
    && (forall i :: 0 <= i < |out| ==> ans[i] == AnswerRows(out, logits, logitRows, i))
  }

  lemma CollectAnswers(c: Cfg, s: Sys, out: seq<Scheduled>, cells: seq<KV>, rows: seq<Row>, outIds: seq<nat>, logits: seq<seq<KV>>, logitRows: seq<int>) returns (ans: Answers)
    requires Ok(c, s) && Entries(c, s, out) && AllReady(c.bs, s.reqs, out) && |cells| == |s.cells|
    requires rows == BatchRows(c.bs, s.reqs, out, |out|) && LogitsOf(cells, rows, outIds, logits)
    requires |logitRows| == |out| && LogitIndex(s.reqs, out, outIds, logitRows)
    ensures AnswersOf(c, s, out, cells, ans)
    ensures Collected(out, ans, logits, logitRows)
  {
    forall i | 0 <= i < |out|
      ensures EntryOk(c.bs, s.reqs[out[i].id], out[i], |cells|) && out[i].nSpec < out[i].nNew
      ensures logitRows[i] >= 0 ==> logitRows[i] + out[i].nSpec < |logits|
      ensures AnswerRows(out, logits, logitRows, i) == AnswerOf(cells, c.bs, s.reqs[out[i].id], out[i])
    {
      EntryIsOk(c, s, out, i);
      AnswerRowsAre(c.bs, s.reqs, out, cells, rows, logits, outIds, logitRows, i);
    }
    ans := seq(|out|, i requires 0 <= i < |out| => AnswerRows(out, logits, logitRows, i));
  }
}
