/** One engine step after scheduling: which requests still have to be counted and answered. */
module Steps {
  import opened Types
  import opened PoolSpec
  import opened KvSpec
  import opened PagedKV
  import opened Serving
  import opened KvInvariant
  import opened SchedulerSpec

  /** A counted window: `computed` already includes it; drafts, if any, end it. */
  ghost predicate Due(c: Cfg, r: Request, e: Scheduled) {
    && e.nSpec < e.nNew <= r.computed < c.env.maxLen && e.nSpec <= |r.spec|
    && (if e.nSpec > 0 then r.computed == |r.gen.tokens| + e.nSpec else r.computed <= |r.gen.tokens|)
  }

  ghost predicate DistinctIds(out: seq<Scheduled>) {
    forall i, j :: 0 <= i < j < |out| ==> out[i].id != out[j].id
  }

  ghost predicate HasId(out: seq<Scheduled>, lo: nat, hi: nat, id: Id) {
    exists i :: lo <= i < hi && i < |out| && out[i].id == id
  }

  /** Distinct running requests, each with a window to compute and room for it; in any order. */
  ghost predicate Entries(c: Cfg, s: Sys, out: seq<Scheduled>) {
    && DistinctIds(out)
    && (forall i :: 0 <= i < |out| ==> out[i].id in s.running && out[i].id in s.reqs)
    && (forall i :: 0 <= i < |out| ==> Entry(c, s.reqs[out[i].id], out[i].id, out[i]))
  }

  lemma BatchEntries(c: Cfg, s: Sys, out: seq<Scheduled>)
    requires Ok(c, s) && Batch(c, s, out)
    ensures Entries(c, s, out)
  {
    OpenOk(c, s);
    forall i | 0 <= i < |out| ensures out[i].id in s.running && Entry(c, s.reqs[out[i].id], out[i].id, out[i]) {
      assert Entry(c, ReqAt(s, i), s.running[i], out[i]);
    }
    forall i, j | 0 <= i < j < |out| ensures out[i].id != out[j].id {
      assert Entry(c, ReqAt(s, i), s.running[i], out[i]);
      assert Entry(c, ReqAt(s, j), s.running[j], out[j]);
    }
  }

  /** The logits rows of each entry; none for a window that ends inside the known tokens. */
  type Answers = seq<seq<seq<KV>>>

  ghost predicate Asked(r: Request, e: Scheduled, upto: nat, a: seq<seq<KV>>) {
    |a| == if upto >= |r.gen.tokens| then e.nSpec + 1 else 0
  }

  /** Entries before lo are answered, entries lo..hi are counted but not answered, later ones are not counted yet. */
  ghost predicate Mid(c: Cfg, s: Sys, out: seq<Scheduled>, ans: Answers, lo: nat, hi: nat) {
    Inv(c, s) && MidBatch(c, s.reqs, s.running, out, ans, lo, hi)
  }

  ghost predicate MidBatch(c: Cfg, reqs: map<Id, Request>, running: seq<Id>, out: seq<Scheduled>, ans: Answers, lo: nat, hi: nat) {
    && lo <= hi <= |out| == |ans| && DistinctIds(out) && Known(reqs, running)
    && (forall i :: lo <= i < |out| ==> out[i].id in running && out[i].id in reqs)
    && (forall i :: lo <= i < hi ==> Due(c, reqs[out[i].id], out[i]))
    && (forall i :: lo <= i < hi ==> Asked(reqs[out[i].id], out[i], reqs[out[i].id].computed, ans[i]))
    && (forall i :: hi <= i < |out| ==> Asked(reqs[out[i].id], out[i], reqs[out[i].id].computed + out[i].nNew, ans[i]))
    && (forall i :: hi <= i < |out| ==> Entry(c, reqs[out[i].id], out[i].id, out[i]))
    && (forall k :: 0 <= k < |running| && !HasId(out, lo, hi, running[k]) ==>
         reqs[running[k]].computed < |reqs[running[k]].gen.tokens|)
  }

  ghost predicate WrapMid(c: Cfg, s: Sys, out: seq<Scheduled>, ans: Answers, lo: nat, hi: nat, n: Layers)
    decreases n
  {
    match n case Bare => Mid(c, s, out, ans, lo, hi) case Over(m) => WrapMid(c, s, out, ans, lo, hi, m)
  }

  /** Mid, closed. */
  ghost predicate Middle(c: Cfg, s: Sys, out: seq<Scheduled>, ans: Answers, lo: nat, hi: nat) {
    WrapMid(c, s, out, ans, lo, hi, Depth())
  }

  lemma {:induction false} OpenMid(c: Cfg, s: Sys, out: seq<Scheduled>, ans: Answers, lo: nat, hi: nat, n: Layers)
    requires WrapMid(c, s, out, ans, lo, hi, n)
    ensures Mid(c, s, out, ans, lo, hi)
  {
    if n.Over? { OpenMid(c, s, out, ans, lo, hi, n.under); }
  }

  lemma {:induction false} CloseMid(c: Cfg, s: Sys, out: seq<Scheduled>, ans: Answers, lo: nat, hi: nat, n: Layers)
    requires Mid(c, s, out, ans, lo, hi)
    ensures WrapMid(c, s, out, ans, lo, hi, n)
  {
    if n.Over? { CloseMid(c, s, out, ans, lo, hi, n.under); }
  }

  lemma MidStart(c: Cfg, s: Sys, out: seq<Scheduled>, ans: Answers)
    requires Ok(c, s) && Entries(c, s, out) && |ans| == |out|
    requires forall i :: 0 <= i < |out| ==> Asked(s.reqs[out[i].id], out[i], s.reqs[out[i].id].computed + out[i].nNew, ans[i])
    ensures Mid(c, s, out, ans, 0, 0)
  {
    OpenOk(c, s);
  }

  lemma MidEnd(c: Cfg, s: Sys, out: seq<Scheduled>, ans: Answers)
    requires Mid(c, s, out, ans, |out|, |out|)
    ensures Ok(c, s)
  {
    forall k | 0 <= k < |s.running| ensures s.reqs[s.running[k]].computed < |s.reqs[s.running[k]].gen.tokens| {
      assert !HasId(out, |out|, |out|, s.running[k]);
    }
    OpenOk(c, s);
  }

  /** The place of an entry's request in the running list. */
  lemma IndexIn(q: seq<Id>, id: Id) returns (k: nat)
    requires id in q
    ensures k < |q| && q[k] == id
  {
    k :| k < |q| && q[k] == id;
  }

  // ---- counting ----

  ghost function SetAll(s: Sys, id: Id, r: Request, g: Registry): (s': Sys) {
    s.(reqs := s.reqs[id := r], reg := g)
  }

  /** The record of running request k changes, its table does not; the registry may register blocks. */
  lemma SetInv(c: Cfg, s: Sys, k: nat, r: Request, g: Registry)
    requires Inv(c, s) && k < |s.running| && RunOk(c, r) && HistOk(c, r)
    requires r.kv.blockIds == s.reqs[s.running[k]].kv.blockIds
    requires PoolOk(g.pool) && |g.chains| == |s.reg.chains| && g.pool.ref == s.reg.pool.ref
    ensures Inv(c, SetAll(s, s.running[k], r, g))
  {
    UpdateRunning(c, s, k, r, g.pool);
    assert Inv(c, SetReq(s, s.running[k], r, g.pool));
  }

  lemma MidOthers(c: Cfg, s: Sys, out: seq<Scheduled>, ans: Answers, lo: nat, hi: nat, i: nat, r: Request)
    requires Mid(c, s, out, ans, lo, hi) && lo <= i < |out|
    ensures forall j :: lo <= j < |out| && j != i ==> s.reqs[out[i].id := r][out[j].id] == s.reqs[out[j].id]
    ensures forall k :: 0 <= k < |s.running| && s.running[k] != out[i].id ==>
      s.reqs[out[i].id := r][s.running[k]] == s.reqs[s.running[k]]
  {
  }

  lemma AdvanceInv(c: Cfg, s: Sys, out: seq<Scheduled>, ans: Answers, hi: nat, r: Request, g: Registry)
    requires Mid(c, s, out, ans, 0, hi) && hi < |out| && RunOk(c, r) && HistOk(c, r)
    requires r.kv.blockIds == s.reqs[out[hi].id].kv.blockIds
    requires PoolOk(g.pool) && |g.chains| == |s.reg.chains| && g.pool.ref == s.reg.pool.ref
    ensures Inv(c, SetAll(s, out[hi].id, r, g))
  {
    var k := IndexIn(s.running, out[hi].id);
    SetInv(c, s, k, r, g);
  }

  lemma BatchAdvance(c: Cfg, reqs: map<Id, Request>, running: seq<Id>, out: seq<Scheduled>, ans: Answers, hi: nat, r: Request)
    requires MidBatch(c, reqs, running, out, ans, 0, hi) && hi < |out|
    requires var r0 := reqs[out[hi].id];
      r.computed == r0.computed + out[hi].nNew && r.gen == r0.gen && r.spec == r0.spec
    ensures MidBatch(c, reqs[out[hi].id := r], running, out, ans, 0, hi + 1)
  {
    var reqs' := reqs[out[hi].id := r];
    assert Entry(c, reqs[out[hi].id], out[hi].id, out[hi]);
    forall i | 0 <= i < |out| && i != hi ensures out[i].id != out[hi].id && reqs'[out[i].id] == reqs[out[i].id] {}
    assert Due(c, reqs'[out[hi].id], out[hi]);
    forall j | 0 <= j < |running| && !HasId(out, 0, hi + 1, running[j])
      ensures reqs'[running[j]].computed < |reqs'[running[j]].gen.tokens|
    {
      NotYet(out, hi, running[j]);
    }
  }

  /** Entry hi is counted. */
  lemma MidAdvance(c: Cfg, s: Sys, out: seq<Scheduled>, ans: Answers, hi: nat, r: Request, g: Registry)
    requires Mid(c, s, out, ans, 0, hi) && hi < |out|
    requires var r0 := s.reqs[out[hi].id];
      && RunOk(c, r) && HistOk(c, r) && r.kv.blockIds == r0.kv.blockIds
      && r.computed == r0.computed + out[hi].nNew && r.gen == r0.gen && r.spec == r0.spec
    requires PoolOk(g.pool) && |g.chains| == |s.reg.chains| && g.pool.ref == s.reg.pool.ref
    ensures Mid(c, SetAll(s, out[hi].id, r, g), out, ans, 0, hi + 1)
  {
    AdvanceInv(c, s, out, ans, hi, r, g);
    BatchAdvance(c, s.reqs, s.running, out, ans, hi, r);
  }

  lemma NotYet(out: seq<Scheduled>, hi: nat, id: Id)
    requires hi < |out| && !HasId(out, 0, hi + 1, id)
    ensures out[hi].id != id && !HasId(out, 0, hi, id)
  {
  }

  // ---- answering ----

  /** Entry lo is answered with nothing: its window ends inside the known tokens. */
  lemma MidSkip(c: Cfg, s: Sys, out: seq<Scheduled>, ans: Answers, lo: nat)
    requires Mid(c, s, out, ans, lo, |out|) && lo < |out|
    requires s.reqs[out[lo].id].computed < |s.reqs[out[lo].id].gen.tokens|
    ensures Mid(c, s, out, ans, lo + 1, |out|)
  {
    forall j | 0 <= j < |s.running| && !HasId(out, lo + 1, |out|, s.running[j])
      ensures s.reqs[s.running[j]].computed < |s.reqs[s.running[j]].gen.tokens|
    {
      if s.running[j] != out[lo].id { NotLater(out, lo, s.running[j]); }
    }
  }

  lemma NotLater(out: seq<Scheduled>, lo: nat, id: Id)
    requires lo < |out| && !HasId(out, lo + 1, |out|, id) && id != out[lo].id
    ensures !HasId(out, lo, |out|, id)
  {
  }

  /** Entry lo is answered and goes on with record r. */
  lemma MidContinue(c: Cfg, s: Sys, out: seq<Scheduled>, ans: Answers, lo: nat, r: Request)
    requires Mid(c, s, out, ans, lo, |out|) && lo < |out|
    requires RunOk(c, r) && HistOk(c, r) && r.kv == s.reqs[out[lo].id].kv && r.computed < |r.gen.tokens|
    ensures Mid(c, SetAll(s, out[lo].id, r, s.reg), out, ans, lo + 1, |out|)
  {
    var s' := SetAll(s, out[lo].id, r, s.reg);
    var k := IndexIn(s.running, out[lo].id);
    SetInv(c, s, k, r, s.reg);
    MidOthers(c, s, out, ans, lo, |out|, lo, r);
    forall j | 0 <= j < |s.running| && !HasId(out, lo + 1, |out|, s.running[j])
      ensures s'.reqs[s.running[j]].computed < |s'.reqs[s.running[j]].gen.tokens|
    {
      if s.running[j] != out[lo].id { NotLater(out, lo, s.running[j]); }
    }
  }

  /** Entry lo is answered and leaves with record r. */
  lemma MidLeave(c: Cfg, s: Sys, out: seq<Scheduled>, ans: Answers, lo: nat, k: nat, r: Request, v: View)
    requires Mid(c, s, out, ans, lo, |out|) && lo < |out| && k < |s.running| && s.running[k] == out[lo].id
    requires DoneOk(r) && HistOk(c, r) && Shrunk(s.reg.pool, v, TableOf(s, k))
    ensures Mid(c, Leave(s, k, r, v), out, ans, lo + 1, |out|)
  {
    var s' := Leave(s, k, r, v);
    LeaveOk(c, s, k, r, v);
    WithoutFacts(s.running, k);
    MidOthers(c, s, out, ans, lo, |out|, lo, r);
    forall j | 0 <= j < |s'.running| && !HasId(out, lo + 1, |out|, s'.running[j])
      ensures s'.reqs[s'.running[j]].computed < |s'.reqs[s'.running[j]].gen.tokens|
    {
      assert s'.running[j] in s'.running;
      var j' := IndexIn(s.running, s'.running[j]);
      NotLater(out, lo, s.running[j']);
    }
  }
}
