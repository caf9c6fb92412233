/** What a step does to every record: nothing to those not scheduled, the counted window and the answer to the others. */
module Tally {
  import opened Types
  import opened Serving
  import opened SchedulerSpec
  import opened Steps

  /** A window that ends inside the known tokens is just counted. Otherwise there is a new token, with at most one more per
      draft, and whoever goes on has all but the last token computed and what is drafted for its tokens. Tables stay. */
  ghost predicate Reply(r0: Request, r: Request, e: Scheduled, draft: Drafter) {
    && (if r0.computed + e.nNew < |r0.gen.tokens| then
          r.gen == r0.gen && r.spec == r0.spec && r.status != FINISHED && r.computed == r0.computed + e.nNew
        else
          && |r0.gen.tokens| < |r.gen.tokens| <= |r0.gen.tokens| + e.nSpec + 1
          && (r.status != FINISHED ==> r.computed == |r.gen.tokens| - 1 && r.spec == draft(e.id, r.gen.tokens)))
    && (r.status != FINISHED ==> r.kv.blockIds == r0.kv.blockIds)
  }

  ghost predicate Pending(r0: Request, r: Request) {
    r.gen == r0.gen && r.spec == r0.spec && r.kv.blockIds == r0.kv.blockIds
  }

  /** From the scheduled state s0 to s, with the entries before lo answered. */
  ghost predicate Tallies(s0: Sys, s: Sys, out: seq<Scheduled>, draft: Drafter, lo: nat) {
    && (forall i :: 0 <= i < |out| ==> out[i].id in s0.reqs && out[i].id in s.reqs)
    && (forall i :: 0 <= i < |out| && i < lo ==> Reply(s0.reqs[out[i].id], s.reqs[out[i].id], out[i], draft))
    && (forall i :: lo <= i < |out| ==> Pending(s0.reqs[out[i].id], s.reqs[out[i].id]))
    && (forall id :: id in s0.reqs && !HasId(out, 0, |out|, id) ==> id in s.reqs && s.reqs[id] == s0.reqs[id])
  }

  ghost predicate WrapTallies(s0: Sys, s: Sys, out: seq<Scheduled>, draft: Drafter, lo: nat, n: Layers)
    decreases n
  {
    match n case Bare => Tallies(s0, s, out, draft, lo) case Over(m) => WrapTallies(s0, s, out, draft, lo, m)
  }

  /** Tallies, closed. */
  ghost predicate Tallied(s0: Sys, s: Sys, out: seq<Scheduled>, draft: Drafter, lo: nat) {
    WrapTallies(s0, s, out, draft, lo, Depth())
  }

  lemma {:induction false} UnwrapTallies(s0: Sys, s: Sys, out: seq<Scheduled>, draft: Drafter, lo: nat, n: Layers)
    ensures WrapTallies(s0, s, out, draft, lo, n) <==> Tallies(s0, s, out, draft, lo)
  {
    if n.Over? { UnwrapTallies(s0, s, out, draft, lo, n.under); }
  }

  lemma OpenTally(s0: Sys, s: Sys, out: seq<Scheduled>, draft: Drafter, lo: nat)
    ensures Tallied(s0, s, out, draft, lo) <==> Tallies(s0, s, out, draft, lo)
  {
    UnwrapTallies(s0, s, out, draft, lo, Depth());
  }

  lemma TallyStart(s0: Sys, s: Sys, out: seq<Scheduled>, draft: Drafter)
    requires s.reqs == s0.reqs && forall i :: 0 <= i < |out| ==> out[i].id in s0.reqs
    ensures Tallied(s0, s, out, draft, 0)
  {
    OpenTally(s0, s, out, draft, 0);
  }

  /** Entry i is counted. */
  lemma TallyCount(s0: Sys, s: Sys, s': Sys, out: seq<Scheduled>, draft: Drafter, i: nat, r: Request)
    requires Tallied(s0, s, out, draft, 0) && i < |out| && out[i].id in s.reqs && s'.reqs == s.reqs[out[i].id := r]
    requires Pending(s.reqs[out[i].id], r)
    ensures Tallied(s0, s', out, draft, 0)
  {
    OpenTally(s0, s, out, draft, 0);
    OpenTally(s0, s', out, draft, 0);
  }

  /** Entry lo is answered. */
  lemma TallyReply(s0: Sys, s: Sys, s': Sys, out: seq<Scheduled>, draft: Drafter, lo: nat, r: Request)
    requires Tallied(s0, s, out, draft, lo) && lo < |out| && DistinctIds(out) && out[lo].id in s0.reqs
    requires out[lo].id in s.reqs && s'.reqs == s.reqs[out[lo].id := r] && Reply(s0.reqs[out[lo].id], r, out[lo], draft)
    ensures Tallied(s0, s', out, draft, lo + 1)
  {
    OpenTally(s0, s, out, draft, lo);
    assert HasId(out, 0, |out|, out[lo].id);
    OpenTally(s0, s', out, draft, lo + 1);
  }
}
