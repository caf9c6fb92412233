/** What one step does, exactly: who comes in, who is scheduled and answered, who is given up. */
module Rounds {
  import opened Types
  import opened PagedKV
  import opened Generation
  import opened Serving
  import opened KvInvariant
  import opened SchedulerSpec
  import opened Progress
  import opened Tally
  import opened BatchOrder
  import opened Service

  // ---- coming in ----

  /** The handles given out, in order. */
  ghost function HandlesOf(ids: seq<int>): (q: seq<Id>) {
    if ids == [] then []
    else HandlesOf(ids[..|ids| - 1]) + (if ids[|ids| - 1] >= 0 then [ids[|ids| - 1]] else [])
  }

  /** A submission has come in: on record as submitted, with nothing generated, computed or held yet; or refused. */
  ghost predicate Entered(c: Cfg, reqs: map<Id, Request>, sub: Submission, id: int) {
    if 0 < |sub.prompt| < c.env.maxLen then id >= 0 && id in reqs && RecordOf(sub, reqs[id]) && Untouched(reqs[id]) else id == -1
  }

  ghost predicate Untouched(r: Request) {
    && r.gen == r.init && r.status == WAITING && r.finish == NONE
    && r.computed == 0 && r.spec == [] && r.kv == NO_BLOCKS && r.hashes == []
  }

  /** The queue has grown by the given handles, first come first served at the end and in order. */
  ghost predicate Longer(c: Cfg, q: seq<Id>, q': seq<Id>, more: seq<Id>) {
    && |q'| == |q| + |more| && (forall id :: id in q' <==> id in q || id in more)
    && (!c.byPriority ==> q' == q + more)
  }

  lemma LongerYet(c: Cfg, q: seq<Id>, q': seq<Id>, more: seq<Id>, pos: nat, id: Id)
    requires Longer(c, q, q', more) && pos <= |q'| && (!c.byPriority ==> pos == |q'|)
    ensures Longer(c, q, InsertAt(q', pos, id), more + [id])
  {
    assert q' == q'[..pos] + q'[pos..];
  }

  /** The accepted submissions have new records and wait; nothing else has changed. */
  ghost predicate Ingested(c: Cfg, s: Sys, s': Sys, subs: seq<Submission>, ids: seq<int>) {
    && s'.running == s.running && s'.reg == s.reg && s'.cells == s.cells && |ids| == |subs|
    && (forall id :: id in s.reqs ==> id in s'.reqs && s'.reqs[id] == s.reqs[id])
    && (forall i :: 0 <= i < |ids| ==> Entered(c, s'.reqs, subs[i], ids[i]))
    && Longer(c, s.waiting, s'.waiting, HandlesOf(ids))
    && (subs == [] ==> s' == s)
  }

  lemma IngestNone(c: Cfg, s: Sys)
    ensures Ingested(c, s, s, [], [])
  {
    assert s.waiting + HandlesOf([]) == s.waiting;
  }

  /** One submission has come in, or was refused. */
  ghost predicate Came(c: Cfg, s: Sys, s': Sys, sub: Submission, id: int) {
    if Accepts(c, sub) then id >= 0 && id !in s.reqs && JoinStep(c, s, s', id, NewRequest(sub)) else id == -1 && s' == s
  }

  lemma IngestMore(c: Cfg, s: Sys, s1: Sys, s2: Sys, subs: seq<Submission>, ids: seq<int>, sub: Submission, id: int)
    requires Ingested(c, s, s1, subs, ids) && Came(c, s1, s2, sub, id)
    ensures Ingested(c, s, s2, subs + [sub], ids + [id])
  {
    var subs', ids' := subs + [sub], ids + [id];
    assert ids'[..|ids|] == ids;
    forall i | 0 <= i < |ids'| ensures Entered(c, s2.reqs, subs'[i], ids'[i]) {
      if i < |ids| { assert Entered(c, s1.reqs, subs[i], ids[i]); }
    }
    if Accepts(c, sub) {
      var pos := if c.byPriority then UpperBound(s1.reqs, s1.waiting, NewRequest(sub)) else |s1.waiting|;
      LongerYet(c, s.waiting, s1.waiting, HandlesOf(ids), pos, id);
    }
  }

  lemma CameStride(c: Cfg, s: Sys, s': Sys, cut: set<Id>, subs: seq<Submission>, ids: seq<int>, sub: Submission, id: int)
    requires Ok(c, s) && AllQueued(c, s.reqs, subs, ids) && Came(c, s, s', sub, id)
    ensures Stride(c, s, s', 0, cut) && AllQueued(c, s'.reqs, subs + [sub], ids + [id])
    ensures AllTrusted(c, s.reqs) && SubTrusted(c, sub) ==> AllTrusted(c, s'.reqs)
  {
    if Accepts(c, sub) {
      NewJoinable(c, s, id, sub);
      JoinStride(c, s, s', id, NewRequest(sub), cut);
    } else {
      StrideNone(c, s, cut);
    }
    QueuedStays(c, s, s', 0, cut, subs, ids);
  }

  /** Everything that has come in since s0, and one more submission. */
  lemma CameOn(c: Cfg, s0: Sys, s: Sys, s': Sys, cut: set<Id>, all: seq<Submission>, ids: seq<int>, id: int)
    requires |ids| < |all| && Ok(c, s0) && Ok(c, s) && Stride(c, s0, s, 0, cut) && Came(c, s, s', all[|ids|], id)
    requires AllQueued(c, s.reqs, all[..|ids|], ids) && Ingested(c, s0, s, all[..|ids|], ids)
    ensures Stride(c, s0, s', 0, cut)
    ensures AllQueued(c, s'.reqs, all[..|ids| + 1], ids + [id]) && Ingested(c, s0, s', all[..|ids| + 1], ids + [id])
    ensures AllTrusted(c, s.reqs) && SubTrusted(c, all[|ids|]) ==> AllTrusted(c, s'.reqs)
  {
    var subs, sub := all[..|ids|], all[|ids|];
    assert all[..|ids| + 1] == subs + [sub];
    CameStride(c, s, s', cut, subs, ids, sub, id);
    StrideTrans(c, s0, s, s', 0, 0, cut);
    IngestMore(c, s0, s, s', subs, ids, sub, id);
  }

  // ---- giving up ----

  /** Those who have run before. */
  ghost function Resumable(reqs: map<Id, Request>, q: seq<Id>): (r: seq<Id>)
    requires Known(reqs, q)
  {
    if q == [] then []
    else Resumable(reqs, q[..|q| - 1]) + (if reqs[q[|q| - 1]].status == PREEMPTED then [q[|q| - 1]] else [])
  }

  ghost predicate AllPreempted(reqs: map<Id, Request>, ids: seq<Id>) {
    forall i :: 0 <= i < |ids| ==> ids[i] in reqs && reqs[ids[i]].status == PREEMPTED
  }

  lemma {:induction false} ResumablePreempted(reqs: map<Id, Request>, q: seq<Id>)
    requires Known(reqs, q)
    ensures AllPreempted(reqs, Resumable(reqs, q)) && (AllPreempted(reqs, q) ==> Resumable(reqs, q) == q)
    ensures forall id :: id in Resumable(reqs, q) <==> id in q && reqs[id].status == PREEMPTED
  {
    if q != [] {
      assert q == q[..|q| - 1] + [q[|q| - 1]];
      ResumablePreempted(reqs, q[..|q| - 1]);
    }
  }

  lemma {:induction false} ResumableAppend(reqs: map<Id, Request>, a: seq<Id>, b: seq<Id>)
    requires Known(reqs, a) && Known(reqs, b)
    ensures Known(reqs, a + b) && Resumable(reqs, a + b) == Resumable(reqs, a) + Resumable(reqs, b)
    decreases |b|
  {
    if b == [] {
      assert a + b == a;
    } else {
      ResumableAppend(reqs, a, b[..|b| - 1]);
      assert (a + b)[..|a + b| - 1] == a + b[..|b| - 1];
    }
  }

  lemma {:induction false} ResumableSame(reqs: map<Id, Request>, reqs': map<Id, Request>, q: seq<Id>)
    requires Known(reqs, q) && Known(reqs', q) && forall i :: 0 <= i < |q| ==> reqs'[q[i]].status == reqs[q[i]].status
    ensures Resumable(reqs', q) == Resumable(reqs, q)
  {
    if q != [] { ResumableSame(reqs, reqs', q[..|q| - 1]); }
  }

  /** Who has never run fails. */
  function AfterFail(r: Request): (r': Request) {
    if r.status == WAITING then Finished(r, ERROR) else r
  }

  /** The first j waiting requests have been looked at: those that never ran are failed and out of the queue. */
  ghost predicate FailedUpto(s: Sys, s': Sys, j: nat) {
    && j <= |s.waiting| && Known(s.reqs, s.waiting)
    && s'.running == s.running && s'.reg == s.reg && s'.cells == s.cells
    && s'.waiting == Resumable(s.reqs, s.waiting[..j]) + s.waiting[j..]
    && s'.reqs.Keys == s.reqs.Keys
    && forall id :: id in s.reqs ==> s'.reqs[id] == if id in s.waiting[..j] then AfterFail(s.reqs[id]) else s.reqs[id]
  }

  ghost predicate WrapFailed(s: Sys, s': Sys, j: nat, n: Layers)
    decreases n
  {
    match n case Bare => FailedUpto(s, s', j) case Over(m) => WrapFailed(s, s', j, m)
  }

  /** FailedUpto, closed. */
  ghost predicate FailedTo(s: Sys, s': Sys, j: nat) {
    WrapFailed(s, s', j, Depth())
  }

  lemma {:induction false} UnwrapFailed(s: Sys, s': Sys, j: nat, n: Layers)
    ensures WrapFailed(s, s', j, n) <==> FailedUpto(s, s', j)
  {
    if n.Over? { UnwrapFailed(s, s', j, n.under); }
  }

  lemma OpenFailed(s: Sys, s': Sys, j: nat)
    ensures FailedTo(s, s', j) <==> FailedUpto(s, s', j)
  {
    UnwrapFailed(s, s', j, Depth());
  }

  /** How many of the first j waiting requests have run before. */
  ghost function KeptOf(s: Sys, j: nat): (n: nat) {
    if j <= |s.waiting| && Known(s.reqs, s.waiting) then |Resumable(s.reqs, s.waiting[..j])| else 0
  }

  lemma FailStart(c: Cfg, s: Sys)
    requires Ok(c, s)
    ensures FailedTo(s, s, 0) && KeptOf(s, 0) == 0
  {
    OpenOk(c, s);
    OpenFailed(s, s, 0);
    assert s.waiting[..0] == [];
    assert Resumable(s.reqs, []) + s.waiting[0..] == s.waiting;
  }

  lemma FailNextFacts(c: Cfg, s: Sys, s1: Sys, j: nat)
    requires Ok(c, s) && FailedUpto(s, s1, j) && j < |s.waiting|
    ensures KeptOf(s, j) < |s1.waiting| && s1.waiting[KeptOf(s, j)] == s.waiting[j]
    ensures s.waiting[j] !in s.waiting[..j] && s.waiting[j] in s1.reqs && s1.reqs[s.waiting[j]] == s.reqs[s.waiting[j]]
    ensures s.waiting[..j + 1] == s.waiting[..j] + [s.waiting[j]] && WaitOk(c, s.reqs[s.waiting[j]])
    ensures Resumable(s.reqs, s.waiting[..j + 1]) ==
      Resumable(s.reqs, s.waiting[..j]) + (if s.reqs[s.waiting[j]].status == PREEMPTED then [s.waiting[j]] else [])
  {
    assert NoDup(s.waiting) && WaitOk(c, s.reqs[s.waiting[j]]) by { OpenOk(c, s); }
    NextLooked(s.reqs, s.waiting, j);
  }

  lemma NextLooked(reqs: map<Id, Request>, q: seq<Id>, j: nat)
    requires Known(reqs, q) && NoDup(q) && j < |q|
    ensures q[j] !in q[..j] && q[..j + 1] == q[..j] + [q[j]]
    ensures Resumable(reqs, q[..j + 1]) == Resumable(reqs, q[..j]) + (if reqs[q[j]].status == PREEMPTED then [q[j]] else [])
  {
    assert q[..j + 1][..j] == q[..j];
  }

  /** The request now looked at is the j-th there was, as it was. */
  lemma FailAt(c: Cfg, s: Sys, s1: Sys, j: nat, i: nat)
    requires Ok(c, s) && FailedTo(s, s1, j) && i == KeptOf(s, j) < |s1.waiting|
    ensures j < |s.waiting| && s1.waiting[i] in s1.reqs && s.waiting[j] in s.reqs
    ensures s1.reqs[s1.waiting[i]] == s.reqs[s.waiting[j]] && WaitOk(c, s.reqs[s.waiting[j]])
  {
    OpenFailed(s, s1, j);
    if j < |s.waiting| { FailNextFacts(c, s, s1, j); }
  }

  lemma FailSkip(c: Cfg, s: Sys, s1: Sys, j: nat)
    requires Ok(c, s) && FailedTo(s, s1, j) && j < |s.waiting| && s.waiting[j] in s.reqs && s.reqs[s.waiting[j]].status == PREEMPTED
    ensures FailedTo(s, s1, j + 1) && KeptOf(s, j + 1) == KeptOf(s, j) + 1
  {
    OpenFailed(s, s1, j);
    FailNextFacts(c, s, s1, j);
    NextKept(Resumable(s.reqs, s.waiting[..j]), s.waiting, j);
    forall id | id in s.reqs ensures s1.reqs[id] == if id in s.waiting[..j + 1] then AfterFail(s.reqs[id]) else s.reqs[id] {
      FailSkipRecord(s, s1, j, id);
    }
    OpenFailed(s, s1, j + 1);
  }

  lemma FailSkipRecord(s: Sys, s1: Sys, j: nat, id: Id)
    requires FailedUpto(s, s1, j) && j < |s.waiting| && s.reqs[s.waiting[j]].status == PREEMPTED && id in s.reqs
    ensures s1.reqs[id] == if id in s.waiting[..j + 1] then AfterFail(s.reqs[id]) else s.reqs[id]
  {
    assert s.waiting[..j + 1] == s.waiting[..j] + [s.waiting[j]];
  }

  lemma NextKept(kept: seq<Id>, q: seq<Id>, j: nat)
    requires j < |q|
    ensures kept + q[j..] == (kept + [q[j]]) + q[j + 1..] && Without(kept + q[j..], |kept|) == (kept + []) + q[j + 1..]
  {
    assert q[j..] == [q[j]] + q[j + 1..];
  }

  lemma FailOne(c: Cfg, s: Sys, s1: Sys, j: nat, i: nat)
    requires Ok(c, s) && FailedTo(s, s1, j) && j < |s.waiting| && s.waiting[j] in s.reqs && s.reqs[s.waiting[j]].status == WAITING
    requires i == KeptOf(s, j) && i < |s1.waiting| && s1.waiting[i] in s1.reqs
    ensures FailedTo(s, LeaveWaiting(s1, i, Finished(s1.reqs[s1.waiting[i]], ERROR)), j + 1) && KeptOf(s, j + 1) == i
  {
    var s' := LeaveWaiting(s1, i, Finished(s1.reqs[s1.waiting[i]], ERROR));
    OpenFailed(s, s1, j);
    FailNextFacts(c, s, s1, j);
    NextKept(Resumable(s.reqs, s.waiting[..j]), s.waiting, j);
    forall id | id in s.reqs
      ensures id in s'.reqs && s'.reqs[id] == if id in s.waiting[..j + 1] then AfterFail(s.reqs[id]) else s.reqs[id]
    {
      FailOneRecord(s, s1, j, id);
    }
    OpenFailed(s, s', j + 1);
  }

  lemma FailOneRecord(s: Sys, s1: Sys, j: nat, id: Id)
    requires FailedUpto(s, s1, j) && j < |s.waiting| && s.reqs[s.waiting[j]].status == WAITING && id in s.reqs
    requires s1.reqs[s.waiting[j]] == s.reqs[s.waiting[j]]
    ensures s1.reqs[s.waiting[j] := Finished(s1.reqs[s.waiting[j]], ERROR)][id] ==
      if id in s.waiting[..j + 1] then AfterFail(s.reqs[id]) else s.reqs[id]
  {
    assert s.waiting[..j + 1] == s.waiting[..j] + [s.waiting[j]];
  }

  /** Exactly those who never ran are failed. */
  ghost predicate Failed(s: Sys, s': Sys) {
    && Known(s.reqs, s.waiting) && s'.running == s.running && s'.reg == s.reg && s'.cells == s.cells
    && s'.waiting == Resumable(s.reqs, s.waiting) && s'.reqs.Keys == s.reqs.Keys
    && forall id :: id in s.reqs ==> s'.reqs[id] == AfterFail(s.reqs[id])
  }

  lemma FailEnd(c: Cfg, s: Sys, s': Sys, j: nat)
    requires Ok(c, s) && FailedTo(s, s', j) && |s'.waiting| <= KeptOf(s, j)
    ensures Failed(s, s')
  {
    OpenFailed(s, s', j);
    assert s.waiting[..|s.waiting|] == s.waiting && s.waiting[|s.waiting|..] == [];
    FailRecords(c, s, s', j);
  }

  lemma FailRecords(c: Cfg, s: Sys, s': Sys, j: nat)
    requires Ok(c, s) && FailedTo(s, s', j) && j == |s.waiting|
    ensures forall id :: id in s.reqs ==> id in s'.reqs && s'.reqs[id] == AfterFail(s.reqs[id])
  {
    OpenFailed(s, s', j);
    assert s.waiting[..j] == s.waiting;
    forall id | id in s.reqs ensures id in s'.reqs && s'.reqs[id] == AfterFail(s.reqs[id]) {
      if id !in s.waiting { OnlyWaiting(c, s, id); }
    }
  }

  /** Whoever never ran is in the queue. */
  lemma OnlyWaiting(c: Cfg, s: Sys, id: Id)
    requires Ok(c, s) && id in s.reqs && id !in s.waiting
    ensures s.reqs[id].status != WAITING
  {
    OpenOk(c, s);
    if id in s.running {
      var k :| 0 <= k < |s.running| && s.running[k] == id;
      assert RunOk(c, s.reqs[s.running[k]]);
    }
  }

  /** A step without a batch: exactly those who never ran are failed, and block hashes may have been brought up to date. */
  ghost predicate GaveUp(s: Sys, s': Sys) {
    && Known(s.reqs, s.waiting) && s'.running == s.running && s'.reg == s.reg && s'.cells == s.cells
    && s'.waiting == Resumable(s.reqs, s.waiting) && s'.reqs.Keys == s.reqs.Keys
    && forall id :: id in s.reqs ==> s'.reqs[id] == AfterFail(s.reqs[id]).(hashes := s'.reqs[id].hashes)
  }

  lemma VainFails(c: Cfg, s: Sys, s1: Sys, s2: Sys)
    requires Ok(c, s) && Rehashed(c, s, s1) && Failed(s1, s2)
    ensures GaveUp(s, s2)
  {
    RehashedRecords(c, s, s1);
    ResumableSame(s.reqs, s1.reqs, s.waiting);
    forall id | id in s.reqs ensures s2.reqs[id] == AfterFail(s.reqs[id]).(hashes := s2.reqs[id].hashes) {
      assert s2.reqs[id] == AfterFail(s1.reqs[id]);
    }
  }

  lemma RehashedRecords(c: Cfg, s: Sys, s1: Sys)
    requires Rehashed(c, s, s1)
    ensures s1.running == s.running && s1.waiting == s.waiting && s1.reg == s.reg && s1.cells == s.cells
    ensures s1.reqs.Keys == s.reqs.Keys && forall id :: id in s.reqs ==> s1.reqs[id] == s.reqs[id].(hashes := s1.reqs[id].hashes)
  {
    var h :| s1 == Rehash(s, h);
  }

  lemma NothingToFail(c: Cfg, s: Sys)
    requires Ok(c, s) && Line(s) == []
    ensures GaveUp(s, s)
  {
    LineKnown(c, s);
  }

  // ---- running a batch ----

  /** A round: the state after scheduling, the decision, what it leaves of the token budget, and the batch as it is run. */
  datatype Round = Round(mid: Sys, out: Output, left: nat, order: seq<Scheduled>)

  /** From s to s' by a round: requests are scheduled, as many as can be, unless somebody had to be preempted; gather
      attention runs them in order of token counts; each gets its window counted and its answer. */
  ghost predicate Worked(c: Cfg, s: Sys, s': Sys, draft: Drafter, w: Round) {
    && Ok(c, s) && Ok(c, w.mid) && Planning(c, s, w.mid, w.out, w.left) && w.out.scheduled != []
    && (if w.out.preempted == [] then
          && Shifted(s, w.mid, []) && Filled(c, w.mid, w.left)
          && (w.left > 0 ==> |w.out.scheduled| == |w.mid.running|)
        else Cut(s, w.mid, w.out.preempted))
    && w.order == (if c.gather then ByCount(w.out.scheduled) else w.out.scheduled)
    && Booked(w.mid, s', w.order, |w.order|, |w.order|) && Tallied(w.mid, s', w.order, draft, |w.order|)
  }

  /** Nothing runs, the head of the line does not fit a step and may not be chunked, and everybody waiting has run before. */
  ghost predicate Stalled(c: Cfg, s: Sys) {
    Stuck(c, s) && s.waiting != [] && AllPreempted(s.reqs, s.waiting)
  }
}
