/** The continuous-batching scheduler: chunked prefill, prefix hits, preemption by recompute, draft windows. */
module Scheduling {
  import opened Types
  import opened PoolSpec
  import opened PagedKV
  import opened Serving
  import opened KvInvariant
  import opened PrefixHits
  import opened SchedulerSpec
  import opened Steps
  import opened Turn

  class Scheduler {
    const c: Cfg
    const kv: PagedKVCache
    var reqs: map<Id, Request>
    var running: seq<Id>
    var waiting: seq<Id>
    ghost var view: Sys          // queues, records and cache as one value

    ghost predicate Wired()
      reads this, kv, kv.pool
    {
      && kv.Valid() && kv.mix == c.mix && kv.blockSize == c.bs && kv.caching == c.caching
      && view == Sys(kv.reg, kv.cells, reqs, running, waiting)
    }

    ghost predicate Valid()
      reads this, kv, kv.pool
    {
      Wired() && Ok(c, view)
    }

    constructor (c: Cfg, kv: PagedKVCache)
      requires CfgOk(c) && kv.Valid() && kv.mix == c.mix && kv.blockSize == c.bs && kv.caching == c.caching
      requires PoolShape(c, kv.reg) && |kv.cells| == Times(c.numBlocks, c.bs)
      requires forall b :: 0 <= b < c.numBlocks ==> kv.reg.pool.ref[b] == 0 && kv.reg.pool.hash[b] == HASH_NONE
      ensures this.c == c && this.kv == kv && Valid() && (HashSound(c) ==> KvSteady(c, view))
      ensures view.reqs == map[] && view.running == [] && view.waiting == [] && view.reg == kv.reg
    {
      this.c, this.kv := c, kv;
      reqs, running, waiting := map[], [], [];
      view := Sys(kv.reg, kv.cells, map[], [], []);
      EmptyKv(c, kv.reg, kv.cells);
    }

    method TryGrow(idx: nat, nTotal: nat) returns (ok: bool)
      requires Valid() && idx < |running|
      modifies this, kv`reg, kv.pool
      ensures Valid() && ok == HasRoom(c, old(view), idx, nTotal)
      ensures if ok then GrowStep(c, old(view), view, idx, nTotal) else view == old(view)
    {
      ghost var s := view;
      RunningPre(c, s);
      var id := running[idx];
      var r := reqs[id];
      var st; ghost var popped;
      ok, st, popped := kv.AllocateSlots(r.kv, nTotal, []);
      if !ok { return; }
      assert Touched(r.kv, []) == [];
      assert st.blockIds == r.kv.blockIds + popped;
      reqs := reqs[id := r.(kv := st)];
      view := SetReq(s, id, Extended(s, idx, popped), kv.reg.pool);
      OpenSized(c.bs, r.kv, nTotal, [], |popped|, Depth());
      assert GrowBy(c, s, view, idx, nTotal, popped);
      GrowOk(c, s, idx, kv.reg.pool, popped);
    }

    /** Grows request idx, preempting from the back of the running list until it fits. */
    method MakeRoom(idx: nat, nTotal: nat) returns (ok: bool, victims: seq<Id>)
      requires Valid() && idx < |running| && nTotal <= c.env.maxLen && running[idx] in reqs
      requires nTotal <= |reqs[running[idx]].gen.tokens| + |reqs[running[idx]].spec|
      modifies this, kv`reg, kv.pool
      ensures Valid() && RoomStep(c, old(view), view, idx, nTotal, ok, victims)
      ensures idx == 0 ==> ok
    {
      ghost var s0 := view;
      TrimStart(c, s0);
      victims := [];
      while true
        invariant Valid() && idx < |running| && WrapTrimmed(c, s0, view, victims, Depth())
        invariant if victims == [] then view == s0 else Tight(c, s0, view, idx, nTotal)
        decreases |running|
      {
        ghost var s := view;
        ok := TryGrow(idx, nTotal);
        TrimSame(c, s0, s, victims, idx);
        if ok { GrownRoom(c, s0, s, view, idx, nTotal, victims); return; }
        if |running| == 1 { LoneFits(c, s, nTotal); }
        var last := |running| - 1 == idx;
        victims := TakeVictim(s0, idx, nTotal, victims);
        if last { NoRoom(c, s0, view, idx, nTotal, victims); return; }
      }
    }

    /** One more victim, as request idx does not fit. */
    method TakeVictim(ghost s0: Sys, ghost idx: nat, ghost nTotal: nat, victims: seq<Id>) returns (victims': seq<Id>)
      requires Valid() && idx < |running| && WrapTrimmed(c, s0, view, victims, Depth()) && !HasRoom(c, view, idx, nTotal)
      modifies this, kv`reg, kv.pool
      ensures Valid() && running == old(running)[..|old(running)| - 1] && victims' != []
      ensures WrapTrimmed(c, s0, view, victims', Depth()) && Tight(c, s0, view, idx, nTotal)
    {
      ghost var s := view;
      victims' := victims + [running[|running| - 1]];
      PreemptLast();
      TightNow(c, s0, s, view, idx, nTotal, victims);
      TrimMore(c, s0, s, view, victims);
    }

    /** Brings the block hashes of the head of the waiting queue up to date. */
    method RehashHead()
      requires Valid() && waiting != []
      modifies this
      ensures Valid() && Rehashed(c, old(view), view)
      ensures HeadHashed(c, view) && HeadLack(c, view) == HeadLack(c, old(view)) && running == old(running)
      ensures HeadCached(c, view) == HeadCached(c, old(view))
    {
      ghost var s := view;
      WaitingPre(c, s);
      var id := waiting[0];
      var r := reqs[id];
      var h := kv.UpdateHashes(r.hashes, r.gen.tokens, r.salt);
      RehashOk(c, s, h);
      reqs := reqs[id := r.(hashes := h)];
      view := Rehash(s, h);
    }

    /** Prefix hits of the head of the waiting queue and the tokens it would compute now; none when its prompt
        may not be chunked and exceeds the budget. */
    method PlanHead(budget: nat) returns (hits: seq<nat>, nNew: nat)
      requires Valid() && waiting != [] && budget > 0
      ensures HeadPlan(c, view, hits, nNew, budget)
      ensures HeadHashed(c, view) ==> (nNew == 0 <==> !c.chunked && HeadLack(c, view) > budget)
      ensures HeadHashed(c, view) ==> Times(|hits|, c.bs) == HeadCached(c, view)
      ensures nNew > 0 ==> RealTokens(c, |reqs[waiting[0]].gen.tokens| - Times(|hits|, c.bs), budget, nNew)
    {
      WaitingPre(c, view);
      var r := reqs[waiting[0]];
      var n;
      n, hits := kv.GetComputedBlocks(r.gen.tokens, r.hashes, r.salt);
      nNew := Missing(c, r, n);
      if !c.chunked && nNew > budget {
        nNew := 0;
      } else {
        nNew := Min(nNew, budget);
      }
    }

    /** Admits the head of the waiting queue if it can have at least one token now. */
    method AdmitHead(budget: nat) returns (e: Scheduled)
      requires Valid() && waiting != [] && budget > 0 && |running| < c.maxSeqs
      modifies this, kv`reg, kv.pool
      ensures Valid() && e.id == old(waiting)[0] && e.nSpec == 0 && e.nNew <= budget
      ensures if e.nNew > 0 then Admission(c, old(view), view, e.nNew) else view == old(view)
      ensures e.nNew == 0 && HeadHashed(c, view) ==> HeadWaits(c, view, budget)
      ensures old(running) == [] && HeadHashed(c, old(view)) ==> (e.nNew > 0 <==> c.chunked || HeadLack(c, old(view)) <= budget)
      ensures e.nNew > 0 ==> e.id in reqs && StartsWide(c, reqs[e.id], e, budget)
      ensures e.nNew > 0 && HeadHashed(c, old(view)) ==> Started(old(view), view, HeadCached(c, old(view)))
      ensures e.id in old(reqs) && (e.resumed <==> old(reqs)[e.id].status == PREEMPTED)
    {
      WaitingPre(c, view);
      var id := waiting[0];
      e := Scheduled(id, 0, 0, reqs[id].status == PREEMPTED);
      var found, nNew := PlanHead(budget);
      if nNew == 0 { return; }
      var ok := AdmitOn(found, nNew, budget);
      if ok { e := e.(nNew := nNew); }
    }

    /** Starts the head of the waiting queue on the blocks found, if the pool has the rest. */
    method AdmitOn(found: seq<nat>, nNew: nat, ghost budget: nat) returns (ok: bool)
      requires Valid() && HeadPlan(c, view, found, nNew, budget) && nNew > 0 && |running| < c.maxSeqs
      modifies this, kv`reg, kv.pool
      ensures Valid() && (old(running) == [] ==> ok) && (!ok ==> HeadWaits(c, view, budget))
      ensures if ok then Admission(c, old(view), view, nNew) else view == old(view)
      ensures ok ==> Started(old(view), view, Times(|found|, c.bs))
    {
      ghost var s := view;
      WaitingPre(c, s);
      var total := Times(|found|, c.bs) + nNew;
      HeadFits(c, s, found, total);
      var st;
      ghost var popped;
      ok, st, popped := AllotHead(found, total);
      if !ok {
        NoRoomForHead(c, s, found, nNew, budget);
        return;
      }
      TakeHead(s, found, st, popped, nNew, total, budget);
    }

    method TakeHead(ghost s: Sys, found: seq<nat>, st: KvState, ghost popped: seq<nat>, ghost nNew: nat, ghost total: nat, ghost budget: nat)
      requires kv.Valid() && kv.mix == c.mix && kv.blockSize == c.bs && kv.caching == c.caching
      requires s == Sys(s.reg, kv.cells, reqs, running, waiting) && s.reg.chains == kv.reg.chains && waiting != []
      requires Ok(c, s) && HeadPlan(c, s, found, nNew, budget) && nNew > 0 && |running| < c.maxSeqs
      requires Grown(s.reg.pool, kv.reg.pool, found, popped) && st == KvState(found + popped, |found|)
      requires Times(|found|, c.bs) + nNew == total <= Times(|found| + |popped|, c.bs) && Sized(c.bs, NO_BLOCKS, total, found, |popped|)
      modifies this
      ensures Valid() && Admission(c, s, view, nNew) && Started(s, view, Times(|found|, c.bs))
    {
      NewNeeded(c, reqs[waiting[0]], found, |popped|, total);
      CommitAdmission(c, s, kv.reg.pool, st, found, popped, nNew, budget);
      StartHead(s, reqs[waiting[0]].(status := RUNNING, computed := Times(|found|, c.bs), kv := st));
    }

    /** Blocks for a request that has none: the hits and fresh ones for the rest, or nothing. */
    method AllotHead(found: seq<nat>, nTotal: nat) returns (ok: bool, st: KvState, ghost popped: seq<nat>)
      requires kv.Valid() && kv.blockSize == c.bs > 0 && InRange(found, |kv.reg.pool.ref|)
      modifies kv`reg, kv.pool
      ensures kv.Valid() && kv.reg.chains == old(kv.reg.chains)
      ensures ok == Fits(old(kv.reg.pool), c.bs, NO_BLOCKS, nTotal, found)
      ensures ok ==>
        && Grown(old(kv.reg.pool), kv.reg.pool, found, popped) && st == KvState(found + popped, |found|)
        && nTotal <= Times(|found| + |popped|, c.bs) && Sized(c.bs, NO_BLOCKS, nTotal, found, |popped|)
      ensures !ok ==> kv.reg == old(kv.reg)
    {
      TouchedFirst(found);
      ok, st, popped := kv.AllocateSlots(NO_BLOCKS, nTotal, found);
      if ok {
        NoneFirst(NO_BLOCKS.blockIds, found, popped);
        AdmitTable(c.bs, st, found, popped, nTotal);
      }
    }

    /** Moves the head of the waiting queue to the running list, with its new record. */
    method StartHead(ghost s: Sys, r: Request)
      requires kv.Valid() && kv.mix == c.mix && kv.blockSize == c.bs && kv.caching == c.caching
      requires s == Sys(s.reg, kv.cells, reqs, running, waiting) && s.reg.chains == kv.reg.chains && waiting != []
      modifies this
      ensures Wired() && view == Start(s, r, kv.reg.pool)
    {
      var id := waiting[0];
      waiting := waiting[1..];
      reqs := reqs[id := r];
      running := running + [id];
      view := Start(s, r, kv.reg.pool);
    }

    /** One scheduling decision. A step that preempts admits nobody. Nothing is scheduled exactly when nothing runs and
        nothing waits - or, where prompts may not be chunked, when the head of the line lacks more than a step may hold. */
    method Schedule() returns (out: Output, ghost left: nat)
      requires Valid()
      modifies this, kv`reg, kv.pool
      ensures Valid() && Planning(c, old(view), view, out, left)
      ensures if out.preempted == [] then Shifted(old(view), view, []) else Cut(old(view), view, out.preempted)
      ensures out.scheduled == [] <==> Stuck(c, old(view))
      ensures out.scheduled == [] && old(waiting) != [] ==> InVain(c, old(view), view)
      ensures out.preempted == [] ==> Filled(c, view, left) && (left > 0 ==> |out.scheduled| == |running|)
    {
      var budget;
      out, budget := ScheduleRunning();
      left := budget;
      if out.preempted == [] {
        out, left := ScheduleWaiting(old(view), out, budget);
      }
    }

    /** Phase 1: every running request in order, while the budget lasts. */
    method ScheduleRunning() returns (out: Output, budget: nat)
      requires Valid()
      modifies this, kv`reg, kv.pool
      ensures Valid() && Planning(c, old(view), view, out, budget) && Cut(old(view), view, out.preempted)
      ensures out.scheduled == [] ==> running == [] && out.preempted == [] && budget > 0
      ensures out.preempted == [] && budget > 0 ==> |out.scheduled| == |running|
      ensures old(running) == [] ==> out == Output([], [], 0) && budget == c.maxBatched && view == old(view)
    {
      ghost var s0 := view;
      PlanStart(c, s0);
      out := Output([], [], 0);
      budget := c.maxBatched;
      while |out.scheduled| < |running| && budget > 0
        invariant Valid() && Planning(c, s0, view, out, budget) && |out.scheduled| <= |running|
        invariant Cut(s0, view, out.preempted)
        invariant out.scheduled == [] ==> budget > 0
        invariant s0.running == [] ==> out == Output([], [], 0) && budget == c.maxBatched && view == s0
        decreases budget
      {
        var ok;
        out, budget, ok := ScheduleNext(s0, out, budget);
        if !ok { return; }
      }
      if out.scheduled == [] { UnwrapPlanned(c, s0, view, out, budget, Depth()); }
    }

    /** Phase 2: waiting requests in order, while budget, slots and blocks last. */
    method ScheduleWaiting(ghost s0: Sys, out: Output, budget: nat) returns (out': Output, ghost left: nat)
      requires Valid() && Planning(c, s0, view, out, budget) && Shifted(s0, view, out.preempted)
      requires budget > 0 ==> |out.scheduled| == |running|
      modifies this, kv`reg, kv.pool
      ensures Valid() && Planning(c, s0, view, out', left) && Shifted(s0, view, out'.preempted)
      ensures old(running) == [] && budget > 0 ==>
        (out'.scheduled == [] <==> old(waiting) == [] || (!c.chunked && HeadLack(c, old(view)) > budget))
      ensures out.scheduled != [] ==> out'.scheduled != []
      ensures out'.scheduled == [] && budget > 0 ==> running == [] && (old(waiting) != [] ==> InVain(c, old(view), view))
      ensures Filled(c, view, left) && (left > 0 ==> |out'.scheduled| == |running|)
    {
      RunningPre(c, view);
      out' := out;
      var rest := budget;
      while waiting != [] && rest > 0 && |running| < c.maxSeqs
        invariant Valid() && Planning(c, s0, view, out', rest) && Shifted(s0, view, out'.preempted)
        invariant rest > 0 ==> |out'.scheduled| == |running|
        invariant out'.scheduled == [] ==> out == out' && rest == budget && view == old(view) && waiting == old(waiting)
        invariant old(running) == [] && budget > 0 && out'.scheduled != [] ==>
          old(waiting) != [] && (c.chunked || HeadLack(c, old(view)) <= budget)
        decreases rest
      {
        var ok;
        out', rest, ok := ScheduleHead(s0, out', rest);
        if !ok { break; }
      }
      left := rest;
      RunningPre(c, view);
    }

    /** Admits the head of the waiting queue into the batch, if it may start now. */
    method ScheduleHead(ghost s0: Sys, out: Output, budget: nat) returns (out': Output, budget': nat, ok: bool)
      requires Valid() && Planning(c, s0, view, out, budget) && Shifted(s0, view, out.preempted)
      requires |out.scheduled| == |running| < c.maxSeqs && budget > 0 && waiting != []
      modifies this, kv`reg, kv.pool
      ensures Valid() && Planning(c, s0, view, out', budget') && Shifted(s0, view, out'.preempted)
      ensures |out'.scheduled| == |running|
      ensures if ok then budget' < budget && out'.scheduled != [] else out' == out && budget' == budget && InVain(c, old(view), view)
      ensures !ok ==> HeadWaits(c, view, budget')
      ensures old(running) == [] ==> (ok <==> c.chunked || HeadLack(c, old(view)) <= budget)
      ensures ok ==> Started(old(view), view, HeadCached(c, old(view)))
    {
      ghost var s := view;
      RehashHead();
      ghost var s1 := view;
      PlanRehash(c, s0, s, s1, out, budget);
      var e := AdmitHead(budget);
      ok := e.nNew > 0;
      if ok {
        out' := Output(out.scheduled + [e], out.preempted, out.total + e.nNew);
        budget' := budget - e.nNew;
        PlanAdmit(c, s0, s1, view, out, budget, e);
        StartedFrom(c, s, s1, view, HeadCached(c, s));
      } else {
        out', budget' := out, budget;
      }
    }

    /** Schedules the next running request; ok is false when it had to be preempted itself. */
    method ScheduleNext(ghost s0: Sys, out: Output, budget: nat) returns (out': Output, budget': nat, ok: bool)
      requires Valid() && Planning(c, s0, view, out, budget) && Cut(s0, view, out.preempted)
      requires |out.scheduled| < |running| && budget > 0
      modifies this, kv`reg, kv.pool
      ensures Valid() && Planning(c, s0, view, out', budget') && Cut(s0, view, out'.preempted)
      ensures if ok then |out'.scheduled| == |out.scheduled| + 1 <= |running| && budget' < budget
        else 0 < |out'.scheduled| == |running| && out'.preempted != []
    {
      ghost var s := view;
      RunningPre(c, s);
      var idx := |out.scheduled|;
      var id := running[idx];
      var r := reqs[id];
      var p := PlanRunning(c, r, budget);
      PlanOk(c, r, budget, id);
      var e := Scheduled(id, p.nNew, p.nSpec, false);
      var victims;
      ok, victims := MakeRoom(idx, r.computed + p.nNew);
      PlanRoom(c, s0, s, view, out, budget, e, ok, victims);
      if ok {
        out' := Output(out.scheduled + [e], out.preempted + victims, out.total + p.nNew);
        budget' := budget - p.nNew;
      } else {
        out' := out.(preempted := out.preempted + victims);
        budget' := budget;
      }
    }

    /** Takes the last running request's blocks away and puts it back into the waiting queue. */
    method PreemptLast()
      requires Valid() && running != []
      modifies this, kv`reg, kv.pool
      ensures Valid() && PreemptStep(c, old(view), view)
    {
      ghost var s := view;
      PreemptPre(c, s);
      var r := reqs[running[|running| - 1]];
      var st := kv.Free(r.kv);
      PreemptOk(c, s, kv.reg.pool);
      RequeueLast(s, r.(kv := st, status := PREEMPTED, computed := 0));
    }

    /** Moves the last running request to its place in the waiting queue, with its new record. */
    method RequeueLast(ghost s: Sys, r: Request)
      requires kv.Valid() && kv.mix == c.mix && kv.blockSize == c.bs && kv.caching == c.caching
      requires s == Sys(s.reg, kv.cells, reqs, running, waiting) && s.reg.chains == kv.reg.chains && running != []
      requires Known(s.reqs, s.running) && Known(s.reqs, s.waiting) && r == Preempted(reqs[running[|running| - 1]])
      modifies this
      ensures Wired() && view == PreemptState(c, s, kv.reg.pool)
    {
      var id := running[|running| - 1];
      var pos := if c.byPriority then UpperBound(reqs, waiting, reqs[id]) else 0;
      reqs := reqs[id := r];
      running := running[..|running| - 1];
      waiting := waiting[..pos] + [id] + waiting[pos..];
      view := PreemptState(c, s, kv.reg.pool);
    }

    // ---- arrivals and departures ----

    method AddRequest(id: Id, r: Request)
      requires Valid() && Joinable(c, view, id, r)
      modifies this
      ensures Valid() && JoinStep(c, old(view), view, id, r)
      ensures KvSteady(c, old(view)) && Trusted(c, r.params, r.init, r.salt) ==> KvSteady(c, view)
    {
      ghost var s := view;
      RunningPre(c, s);
      var pos := if c.byPriority then UpperBound(reqs, waiting, r) else |waiting|;
      reqs := reqs[id := r];
      waiting := waiting[..pos] + [id] + waiting[pos..];
      view := Join(s, pos, id, r);
      JoinClosed(c, s, view, id, r);
    }

    /** Takes running request k off the list for good; its blocks go back, its record becomes r. */
    method DropRunning(k: nat, r: Request)
      requires Wired() && k < |running| && Known(reqs, running)
      requires PoolOk(view.reg.pool) && CanRelease(view.reg.pool.ref, TableOf(view, k))
      modifies this, kv`reg, kv.pool
      ensures Wired() && view == Leave(old(view), k, r, view.reg.pool)
      ensures Returned(old(view).reg.pool, view.reg.pool, c.caching, TableOf(old(view), k))
    {
      var id := running[k];
      var st := kv.Free(reqs[id].kv);
      reqs := reqs[id := r];
      running := running[..k] + running[k + 1..];
      view := Leave(view, k, r, kv.reg.pool);
    }

    method DropWaiting(k: nat, r: Request)
      requires Wired() && k < |waiting|
      modifies this
      ensures Wired() && view == LeaveWaiting(old(view), k, r)
    {
      var id := waiting[k];
      reqs := reqs[id := r];
      waiting := waiting[..k] + waiting[k + 1..];
      view := LeaveWaiting(view, k, r);
    }

    // ---- after the forward pass ----

    /** Counts every scheduled window and registers the blocks it filled. */
    method UpdateAfterStep(ghost s0: Sys, out: seq<Scheduled>, ghost ans: Answers, ghost draft: Drafter)
      requires Wired() && During(c, s0, view, out, ans, draft, 0, 0)
      modifies this, kv`reg, kv.pool
      ensures Wired() && During(c, s0, view, out, ans, draft, 0, |out|) && reqs.Keys == old(reqs.Keys)
      ensures forall i :: 0 <= i < |out| ==> out[i].id in reqs && Stored(c, reqs[out[i].id])
    {
      for j := 0 to |out|
        invariant Wired() && During(c, s0, view, out, ans, draft, 0, j) && reqs.Keys == old(reqs.Keys)
        invariant forall i :: 0 <= i < j ==> out[i].id in reqs && Stored(c, reqs[out[i].id])
      {
        CountNext(s0, out, ans, draft, j);
      }
    }

    method CountNext(ghost s0: Sys, out: seq<Scheduled>, ghost ans: Answers, ghost draft: Drafter, j: nat)
      requires Wired() && During(c, s0, view, out, ans, draft, 0, j) && j < |out|
      modifies this, kv`reg, kv.pool
      ensures Wired() && During(c, s0, view, out, ans, draft, 0, j + 1) && reqs.Keys == old(reqs.Keys)
      ensures out[j].id in reqs && Stored(c, reqs[out[j].id])
      ensures forall id :: id in reqs && id != out[j].id ==> reqs[id] == old(reqs)[id]
    {
      ghost var s := view;
      ghost var k := CountPre(c, s, out, ans, j);
      var id := out[j].id;
      var r := reqs[id];
      var r' := CountWindow(r, out[j]);
      reqs := reqs[id := r'];
      view := SetAll(s, id, r', kv.reg);
      TurnCount(c, s0, s, out, ans, draft, j, k, r'.hashes, kv.reg);
    }

    /** The record with its window counted; the blocks that are full now are registered. */
    method CountWindow(r: Request, e: Scheduled) returns (r': Request)
      requires kv.Valid() && kv.mix == c.mix && kv.blockSize == c.bs && kv.caching == c.caching && c.bs > 0
      requires HashesOk(c.mix, c.bs, r.salt, r.gen.tokens, r.hashes) && InRange(r.kv.blockIds, |kv.reg.pool.ref|)
      modifies kv`reg, kv.pool
      ensures kv.Valid() && HashesOk(c.mix, c.bs, r.salt, r.gen.tokens, r'.hashes) && r' == CountedReq(c, r, e, r'.hashes)
      ensures RegisteredUpto(old(kv.reg), kv.reg, c.caching, c.bs, r.salt, r.kv, r'.hashes, r.gen.tokens,
                             Min(r.computed + e.nNew, |r.gen.tokens|))
      ensures Stored(c, r')
    {
      var computed := r.computed + e.nNew;
      var h := kv.UpdateHashes(r.hashes, r.gen.tokens, r.salt);
      var st := kv.CacheBlocks(r.kv, r.gen.tokens, Min(computed, |r.gen.tokens|), h, r.salt);
      r' := r.(computed := computed, hashes := h, kv := st);
      CountedStored(c, r, e, h);
    }
  }
}
