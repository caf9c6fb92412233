/** Who is served when: the queue only loses requests, the head always gains tokens. */
module Progress {
  import opened Types
  import opened KvSpec
  import opened PagedKV
  import opened Generation
  import opened Serving
  import opened KvInvariant
  import opened SchedulerSpec
  import opened Steps

  /** Requests in line: first the running ones, then the waiting ones. */
  ghost function Line(s: Sys): (q: seq<Id>) {
    s.running + s.waiting
  }

  /** How many requests stand before id. */
  ghost function Ahead(q: seq<Id>, id: Id): (n: nat)
    ensures n <= |q| && (id in q <==> n < |q|) && (n < |q| ==> q[n] == id)
  {
    if q == [] || q[0] == id then 0 else 1 + Ahead(q[1..], id)
  }

  /** Requests leave the line, nobody overtakes; when the head has left, everybody has moved up. */
  ghost predicate Shrinks(q: seq<Id>, q': seq<Id>) {
    forall id {:trigger Ahead(q', id)} {:trigger id in q'} :: id in q' ==>
      id in q && Ahead(q', id) <= Ahead(q, id) && (q'[0] != q[0] ==> Ahead(q', id) < Ahead(q, id))
  }

  lemma ShrinksTrans(a: seq<Id>, b: seq<Id>, c: seq<Id>)
    requires Shrinks(a, b) && Shrinks(b, c)
    ensures Shrinks(a, c)
  {
    forall id | id in c ensures id in a && Ahead(c, id) <= Ahead(a, id) && (c[0] != a[0] ==> Ahead(c, id) < Ahead(a, id)) {
      assert id in b && Ahead(c, id) <= Ahead(b, id) <= Ahead(a, id);
    }
  }

  lemma {:induction false} AheadIs(q: seq<Id>, id: Id, k: nat)
    requires NoDup(q) && k < |q| && q[k] == id
    ensures Ahead(q, id) == k
  {
    if k > 0 { AheadIs(q[1..], id, k - 1); }
  }

  lemma ShrinksWithout(q: seq<Id>, k: nat)
    requires NoDup(q) && k < |q|
    ensures Shrinks(q, Without(q, k))
  {
    var q' := Without(q, k);
    WithoutFacts(q, k);
    forall id | id in q' ensures id in q && Ahead(q', id) <= Ahead(q, id) && (q'[0] != q[0] ==> Ahead(q', id) < Ahead(q, id)) {
      var i := Ahead(q', id);
      AheadIs(q, id, if i < k then i else i + 1);
    }
  }

  /** What a step may do to the records: submissions stay, finished requests are final. */
  ghost predicate Evolves(a: map<Id, Request>, b: map<Id, Request>) {
    forall id :: id in a ==> id in b && SameOrigin(a[id], b[id]) && (a[id].status == FINISHED ==> b[id] == a[id])
  }

  /** Finished, and neither aborted nor failed. */
  ghost predicate EndedItself(r: Request) {
    r.status == FINISHED && (r.finish == STOP || r.finish == LENGTH)
  }

  /** Why a request is over: by itself; or it was cut off from outside; or, where requests can be too long for a step, it
      was failed before it had generated anything. */
  ghost predicate Ended(c: Cfg, r: Request, id: Id, cut: set<Id>) {
    || EndedItself(r)
    || (r.status == FINISHED && (if r.finish == ABORT then id in cut else r.finish == ERROR && !Flows(c) && r.gen == r.init))
  }

  /** Requests that are over at the end were over before, or ended as told. */
  ghost predicate Ends(c: Cfg, a: map<Id, Request>, b: map<Id, Request>, cut: set<Id>) {
    forall id :: id in b && b[id].status == FINISHED ==> (id in a && a[id].status == FINISHED) || Ended(c, b[id], id, cut)
  }

  ghost predicate EndsByItself(a: map<Id, Request>, b: map<Id, Request>) {
    forall id :: id in b && b[id].status == FINISHED ==> (id in a && a[id].status == FINISHED) || EndedItself(b[id])
  }

  /** The isolated runs of all submissions on record are trusted. */
  ghost predicate AllTrusted(c: Cfg, reqs: map<Id, Request>) {
    forall id :: id in reqs ==> Trusted(c, reqs[id].params, reqs[id].init, reqs[id].salt)
  }

  /** From the scheduled state s0 to s: answered requests that still run have gained computed tokens, counted ones have
      gained their whole window, and the line has only lost requests. */
  ghost predicate Ledger(s0: Sys, s: Sys, out: seq<Scheduled>, lo: nat, hi: nat) {
    && lo <= hi <= |out| && s.waiting == s0.waiting && Shrinks(Line(s0), Line(s)) && Evolves(s0.reqs, s.reqs)
    && EndsByItself(s0.reqs, s.reqs)
    && (forall i :: 0 <= i < |out| ==> out[i].id in s0.reqs && out[i].id in s.reqs)
    && (forall i :: 0 <= i < lo && out[i].id in s.running ==> s0.reqs[out[i].id].computed < s.reqs[out[i].id].computed)
    && (forall i :: lo <= i < |out| ==>
         s.reqs[out[i].id].computed == s0.reqs[out[i].id].computed + (if i < hi then out[i].nNew else 0))
  }

  ghost predicate WrapLedger(s0: Sys, s: Sys, out: seq<Scheduled>, lo: nat, hi: nat, n: Layers)
    decreases n
  {
    match n case Bare => Ledger(s0, s, out, lo, hi) case Over(m) => WrapLedger(s0, s, out, lo, hi, m)
  }

  /** Ledger, closed. */
  ghost predicate Booked(s0: Sys, s: Sys, out: seq<Scheduled>, lo: nat, hi: nat) {
    WrapLedger(s0, s, out, lo, hi, Depth())
  }

  lemma {:induction false} OpenLedger(s0: Sys, s: Sys, out: seq<Scheduled>, lo: nat, hi: nat, n: Layers)
    requires WrapLedger(s0, s, out, lo, hi, n)
    ensures Ledger(s0, s, out, lo, hi)
  {
    if n.Over? { OpenLedger(s0, s, out, lo, hi, n.under); }
  }

  lemma {:induction false} CloseLedger(s0: Sys, s: Sys, out: seq<Scheduled>, lo: nat, hi: nat, n: Layers)
    requires Ledger(s0, s, out, lo, hi)
    ensures WrapLedger(s0, s, out, lo, hi, n)
  {
    if n.Over? { CloseLedger(s0, s, out, lo, hi, n.under); }
  }

  lemma LedgerStart(c: Cfg, s: Sys, out: seq<Scheduled>, cells: seq<KV>)
    requires Entries(c, s, out)
    ensures Booked(s, s.(cells := cells), out, 0, 0)
  {
    CloseLedger(s, s.(cells := cells), out, 0, 0, Depth());
  }

  lemma LedgerAdvance(s0: Sys, s: Sys, out: seq<Scheduled>, hi: nat, r: Request, g: Registry)
    requires Booked(s0, s, out, 0, hi) && hi < |out| && DistinctIds(out) && out[hi].id in s.reqs
    requires var r0 := s.reqs[out[hi].id];
      && r0.status != FINISHED && r.status != FINISHED && SameOrigin(r0, r) && r.computed == r0.computed + out[hi].nNew
    ensures Booked(s0, SetAll(s, out[hi].id, r, g), out, 0, hi + 1)
  {
    OpenLedger(s0, s, out, 0, hi, Depth());
    CloseLedger(s0, SetAll(s, out[hi].id, r, g), out, 0, hi + 1, Depth());
  }

  /** Entry lo is answered; if it goes on, more is computed than when it was scheduled. */
  lemma LedgerAnswer(s0: Sys, s: Sys, s': Sys, out: seq<Scheduled>, lo: nat)
    requires Booked(s0, s, out, lo, |out|) && lo < |out| && DistinctIds(out) && out[lo].id in s.reqs
    requires s.reqs[out[lo].id].status != FINISHED
    requires s'.reqs.Keys == s.reqs.Keys && forall id :: id in s.reqs && id != out[lo].id ==> s'.reqs[id] == s.reqs[id]
    requires SameOrigin(s.reqs[out[lo].id], s'.reqs[out[lo].id])
    requires s'.reqs[out[lo].id].status == FINISHED ==> EndedItself(s'.reqs[out[lo].id])
    requires s'.waiting == s.waiting && Shrinks(Line(s), Line(s')) && forall id :: id in s'.running ==> id in s.running
    requires out[lo].id in s'.running ==>
      s.reqs[out[lo].id].computed < s'.reqs[out[lo].id].computed + out[lo].nNew
    ensures Booked(s0, s', out, lo + 1, |out|)
  {
    OpenLedger(s0, s, out, lo, |out|, Depth());
    ShrinksTrans(Line(s0), Line(s), Line(s'));
    CloseLedger(s0, s', out, lo + 1, |out|, Depth());
  }

  // ---- how long a request still waits ----

  ghost function HeadComputed(s: Sys): (n: nat) {
    if Line(s) != [] && Line(s)[0] in s.reqs then s.reqs[Line(s)[0]].computed else 0
  }

  /** An upper bound on the steps until id has left the line: a whole context for everybody before it, and what the
      head still has to compute. */
  ghost function Rank(c: Cfg, s: Sys, id: Id): (n: int) {
    Ahead(Line(s), id) * c.env.maxLen + c.env.maxLen - HeadComputed(s)
  }

  // ---- the priority order ----

  /** Under the priority policy the waiting queue is sorted. */
  ghost predicate Queue(c: Cfg, s: Sys) {
    c.byPriority ==> Known(s.reqs, s.waiting) && Sorted(s.reqs, s.waiting)
  }

  ghost predicate WrapQueue(c: Cfg, s: Sys, n: Layers)
    decreases n
  {
    match n case Bare => Queue(c, s) case Over(m) => WrapQueue(c, s, m)
  }

  /** Queue, closed. */
  ghost predicate Ordered(c: Cfg, s: Sys) {
    WrapQueue(c, s, Depth())
  }

  lemma {:induction false} UnwrapQueue(c: Cfg, s: Sys, n: Layers)
    ensures WrapQueue(c, s, n) <==> Queue(c, s)
  {
    if n.Over? { UnwrapQueue(c, s, n.under); }
  }

  lemma OpenOrdered(c: Cfg, s: Sys)
    ensures Ordered(c, s) <==> Queue(c, s)
  {
    UnwrapQueue(c, s, Depth());
  }

  /** The order is that of the submissions: it stays while the same requests wait. */
  lemma OrderedSame(c: Cfg, s: Sys, s': Sys)
    requires Ordered(c, s) && s'.waiting == s.waiting && Evolves(s.reqs, s'.reqs)
    ensures Ordered(c, s')
  {
    OpenOrdered(c, s);
    OpenOrdered(c, s');
  }

  lemma OrderedWithout(c: Cfg, s: Sys, s': Sys, k: nat)
    requires Ordered(c, s) && k < |s.waiting| && s'.waiting == Without(s.waiting, k) && Evolves(s.reqs, s'.reqs)
    ensures Ordered(c, s')
  {
    OpenOrdered(c, s);
    OpenOrdered(c, s');
    if c.byPriority {
      forall i | 0 <= i < |s'.waiting| ensures s'.waiting[i] == s.waiting[if i < k then i else i + 1] {}
      assert Known(s'.reqs, s'.waiting);
      forall i, j | 0 <= i < j < |s'.waiting| ensures !Before(s'.reqs[s'.waiting[j]], s'.reqs[s'.waiting[i]]) {
        var a, b := if i < k then i else i + 1, if j < k then j else j + 1;
        assert !Before(s.reqs[s.waiting[b]], s.reqs[s.waiting[a]]);
      }
    }
  }

  lemma PlanOrdered(c: Cfg, s: Sys, s1: Sys, out: Output, left: nat)
    requires Planning(c, s, s1, out, left) && Ordered(c, s)
    ensures Ordered(c, s1)
  {
    UnwrapPlanned(c, s, s1, out, left, Depth());
    OpenOnward(c, s, s1);
    OpenOrdered(c, s);
    OpenOrdered(c, s1);
  }

  lemma JoinOrdered(c: Cfg, s: Sys, s': Sys, id: Id, r: Request)
    requires Ok(c, s) && JoinStep(c, s, s', id, r) && id !in s.reqs && Ordered(c, s)
    ensures Ordered(c, s')
  {
    LineKnown(c, s);
    JoinSorted(c, s, s', id, r);
    OpenOrdered(c, s);
    OpenOrdered(c, s');
  }

  /** What happens over some steps while the requests in cut are cut off: records evolve and end as told, KV integrity is
      kept, the priority order is kept, nobody returns to the line, and under first come first served everybody in line gets
      at least d steps closer. */
  ghost predicate Strides(c: Cfg, s: Sys, s': Sys, d: nat, cut: set<Id>) {
    && Evolves(s.reqs, s'.reqs) && Ends(c, s.reqs, s'.reqs, cut)
    && (KvSteady(c, s) && AllTrusted(c, s'.reqs) ==> KvSteady(c, s')) && (Ordered(c, s) ==> Ordered(c, s'))
    && (forall id :: id in Line(s') && id in s.reqs ==> id in Line(s))
    && (!c.byPriority ==> forall id :: id in Line(s) && id in Line(s') ==> Rank(c, s', id) + d <= Rank(c, s, id))
  }

  ghost predicate WrapStrides(c: Cfg, s: Sys, s': Sys, d: nat, cut: set<Id>, n: Layers)
    decreases n
  {
    match n case Bare => Strides(c, s, s', d, cut) case Over(m) => WrapStrides(c, s, s', d, cut, m)
  }

  /** Strides, closed. */
  ghost predicate Stride(c: Cfg, s: Sys, s': Sys, d: nat, cut: set<Id>) {
    WrapStrides(c, s, s', d, cut, Depth())
  }

  lemma {:induction false} OpenStride(c: Cfg, s: Sys, s': Sys, d: nat, cut: set<Id>, n: Layers)
    requires WrapStrides(c, s, s', d, cut, n)
    ensures Strides(c, s, s', d, cut)
  {
    if n.Over? { OpenStride(c, s, s', d, cut, n.under); }
  }

  lemma {:induction false} CloseStride(c: Cfg, s: Sys, s': Sys, d: nat, cut: set<Id>, n: Layers)
    requires Strides(c, s, s', d, cut)
    ensures WrapStrides(c, s, s', d, cut, n)
  {
    if n.Over? { CloseStride(c, s, s', d, cut, n.under); }
  }

  lemma StrideOrdered(c: Cfg, s: Sys, s': Sys, d: nat, cut: set<Id>)
    requires Stride(c, s, s', d, cut)
    ensures Ordered(c, s) ==> Ordered(c, s')
  {
    OpenStride(c, s, s', d, cut, Depth());
  }

  lemma StrideNone(c: Cfg, s: Sys, cut: set<Id>)
    ensures Stride(c, s, s, 0, cut)
  {
    CloseStride(c, s, s, 0, cut, Depth());
  }

  lemma StrideTrans(c: Cfg, s0: Sys, s1: Sys, s2: Sys, d: nat, e: nat, cut: set<Id>)
    requires Ok(c, s0) && Stride(c, s0, s1, d, cut) && Stride(c, s1, s2, e, cut)
    ensures Stride(c, s0, s2, d + e, cut)
  {
    OpenStride(c, s0, s1, d, cut, Depth());
    OpenStride(c, s1, s2, e, cut, Depth());
    LineKnown(c, s0);
    EndsTrans(c, s0.reqs, s1.reqs, s2.reqs, cut);
    forall id | !c.byPriority && id in Line(s0) && id in Line(s2) ensures Rank(c, s2, id) + (d + e) <= Rank(c, s0, id) {
      assert id in s0.reqs;
      assert id in s1.reqs;
      assert id in Line(s1);
    }
    CloseStride(c, s0, s2, d + e, cut, Depth());
  }

  lemma EndsTrans(c: Cfg, r0: map<Id, Request>, r1: map<Id, Request>, r2: map<Id, Request>, cut: set<Id>)
    requires Evolves(r0, r1) && Evolves(r1, r2) && Ends(c, r0, r1, cut) && Ends(c, r1, r2, cut)
    ensures Evolves(r0, r2) && Ends(c, r0, r2, cut) && (AllTrusted(c, r2) ==> AllTrusted(c, r1))
  {
  }

  /** Cutting off more requests is allowed more. */
  lemma StrideMore(c: Cfg, s: Sys, s': Sys, d: nat, cut: set<Id>, more: set<Id>)
    requires Stride(c, s, s', d, cut) && cut <= more
    ensures Stride(c, s, s', d, more)
  {
    OpenStride(c, s, s', d, cut, Depth());
    CloseStride(c, s, s', d, more, Depth());
  }

  lemma LineKnown(c: Cfg, s: Sys)
    requires Ok(c, s)
    ensures NoDup(Line(s))
    ensures forall id :: id in Line(s) ==> id in s.reqs && s.reqs[id].status != FINISHED && s.reqs[id].finish == NONE
    ensures forall id :: id in s.reqs && id !in Line(s) ==> DoneOk(s.reqs[id])
    ensures Line(s) != [] ==> HeadComputed(s) < c.env.maxLen
  {
    OpenOk(c, s);
    forall id | id in Line(s)
      ensures id in s.reqs && s.reqs[id].status != FINISHED && s.reqs[id].finish == NONE && s.reqs[id].computed < c.env.maxLen
    {
      LineOf(c, s, id);
    }
    if Line(s) != [] { assert Line(s)[0] in Line(s); }
  }

  lemma LineOf(c: Cfg, s: Sys, id: Id)
    requires Ok(c, s) && id in Line(s)
    ensures id in s.reqs && s.reqs[id].status != FINISHED && s.reqs[id].finish == NONE && s.reqs[id].computed < c.env.maxLen
  {
    OpenOk(c, s);
    if id in s.running {
      var k :| 0 <= k < |s.running| && s.running[k] == id;
      assert RunOk(c, s.reqs[s.running[k]]);
    } else {
      var k :| 0 <= k < |s.waiting| && s.waiting[k] == id;
      assert WaitOk(c, s.reqs[s.waiting[k]]);
    }
  }

  /** Everybody moved up a place, or the head came d tokens closer to its end. */
  lemma RankDrops(c: Cfg, s: Sys, s': Sys, id: Id, d: nat)
    requires id in Line(s) && id in Line(s') && Shrinks(Line(s), Line(s')) && d <= 1
    requires HeadComputed(s) < c.env.maxLen && HeadComputed(s') <= c.env.maxLen
    requires Line(s')[0] == Line(s)[0] ==> HeadComputed(s) + d <= HeadComputed(s')
    ensures Rank(c, s', id) + d <= Rank(c, s, id)
  {
    assert Ahead(Line(s'), id) <= Ahead(Line(s), id);
    RankArith(Ahead(Line(s), id), Ahead(Line(s'), id), c.env.maxLen, HeadComputed(s), HeadComputed(s'), d, Line(s')[0] == Line(s)[0]);
  }

  lemma RankArith(a: nat, a': nat, m: nat, h: nat, h': nat, d: nat, same: bool)
    requires h < m && h' <= m && d <= 1 && (if same then a' <= a && h + d <= h' else a' < a)
    ensures a' * m + m - h' + d <= a * m + m - h
  {
    if same { MulMono(a', a, m); } else { MulMono(a' + 1, a, m); }
  }

  lemma {:induction false} AheadAppend(q: seq<Id>, x: Id, id: Id)
    requires id in q
    ensures Ahead(q + [x], id) == Ahead(q, id)
  {
    if q[0] != id {
      assert (q + [x])[1..] == q[1..] + [x];
      AheadAppend(q[1..], x, id);
    }
  }

  // ---- what arrivals, departures and turns do to the line ----

  lemma JoinRank(c: Cfg, s: Sys, s': Sys, id: Id)
    requires Line(s') == Line(s) + [id] && id !in s.reqs && s'.reqs.Keys == s.reqs.Keys + {id}
    requires forall x :: x in s.reqs ==> s'.reqs[x] == s.reqs[x]
    requires forall x :: x in Line(s) ==> x in s.reqs
    ensures forall x :: x in Line(s) ==> Rank(c, s', x) == Rank(c, s, x)
  {
    forall x | x in Line(s) ensures Rank(c, s', x) == Rank(c, s, x) {
      AheadAppend(Line(s), id, x);
      assert Line(s)[0] in Line(s);
    }
  }

  /** A new request at the end of the line delays nobody. */
  lemma JoinStride(c: Cfg, s: Sys, s': Sys, id: Id, r: Request, cut: set<Id>)
    requires Ok(c, s) && JoinStep(c, s, s', id, r) && Joinable(c, s, id, r)
    ensures Stride(c, s, s', 0, cut)
  {
    JoinClosed(c, s, s', id, r);
    LineKnown(c, s);
    JoinSorted(c, s, s', id, r);
    if !c.byPriority { JoinRank(c, s, s', id); }
    JoinLine(c, s, s', id, r);
    if Ordered(c, s) { JoinOrdered(c, s, s', id, r); }
    CloseStride(c, s, s', 0, cut, Depth());
  }

  lemma JoinLine(c: Cfg, s: Sys, s': Sys, id: Id, r: Request)
    requires JoinStep(c, s, s', id, r)
    ensures forall x :: x in Line(s') ==> x in Line(s) || x == id
  {
    var pos := if c.byPriority then UpperBound(s.reqs, s.waiting, r) else |s.waiting|;
    assert s.waiting == s.waiting[..pos] + s.waiting[pos..];
  }

  /** A request that leaves between steps delays nobody. */
  lemma DropStride(c: Cfg, s: Sys, s': Sys, k: nat, cut: set<Id>)
    requires Ok(c, s) && Ok(c, s') && (KvSteady(c, s) ==> KvSteady(c, s'))
    requires k < |Line(s)| && Line(s') == Without(Line(s), k) && Evolves(s.reqs, s'.reqs)
    requires s'.reqs.Keys == s.reqs.Keys && forall id :: id in s.reqs && id != Line(s)[k] ==> s'.reqs[id] == s.reqs[id]
    requires Line(s)[k] in s.reqs && Ended(c, s'.reqs[Line(s)[k]], Line(s)[k], cut) && (Ordered(c, s) ==> Ordered(c, s'))
    ensures Stride(c, s, s', 0, cut)
  {
    LineKnown(c, s);
    LineKnown(c, s');
    ShrinksWithout(Line(s), k);
    WithoutFacts(Line(s), k);
    forall id | id in Line(s) && id in Line(s') ensures Rank(c, s', id) <= Rank(c, s, id) {
      assert Line(s')[0] in Line(s');
      RankDrops(c, s, s', id, 0);
    }
    CloseStride(c, s, s', 0, cut, Depth());
  }

  lemma EvolvesTrans(a: map<Id, Request>, b: map<Id, Request>, c: map<Id, Request>)
    requires Kept(a, b) && NoneEnds(a, b) && Evolves(b, c) && EndsByItself(b, c)
    ensures Evolves(a, c) && EndsByItself(a, c)
  {
  }

  ghost predicate NoneEnds(a: map<Id, Request>, b: map<Id, Request>) {
    forall id :: id in b && b[id].status == FINISHED ==> id in a && a[id].status == FINISHED
  }

  lemma NobodyEnds(c: Cfg, s: Sys, s1: Sys)
    requires Ok(c, s) && Ok(c, s1) && Kept(s.reqs, s1.reqs)
    ensures NoneEnds(s.reqs, s1.reqs) && forall id :: id in Line(s1) && id in s.reqs ==> id in Line(s)
  {
    LineKnown(c, s);
    LineKnown(c, s1);
  }

  /** Scheduling moves requests within the line; first come first served keeps the line as it is, and the head keeps
      what it has computed. */
  lemma PlanLine(c: Cfg, s: Sys, s1: Sys, out: Output, left: nat)
    requires Ok(c, s) && Ok(c, s1) && Planning(c, s, s1, out, left)
    ensures Kept(s.reqs, s1.reqs) && (KvSteady(c, s) ==> KvSteady(c, s1))
    ensures NoneEnds(s.reqs, s1.reqs) && forall id :: id in Line(s1) && id in s.reqs ==> id in Line(s)
    ensures !c.byPriority ==> Line(s1) == Line(s) && HeadComputed(s) <= HeadComputed(s1)
  {
    UnwrapPlanned(c, s, s1, out, left, Depth());
    OpenOnward(c, s, s1);
    NobodyEnds(c, s, s1);
    if !c.byPriority { PlanHeadKept(c, s, s1); }
  }

  lemma PlanHeadKept(c: Cfg, s: Sys, s1: Sys)
    requires Ok(c, s) && WorkKept(s, s1) && Line(s1) == Line(s)
    ensures HeadComputed(s) <= HeadComputed(s1)
  {
    if s.running != [] { assert KeepsWork(s, s1, 0); } else if s.waiting != [] { WaitingPre(c, s); }
  }

  lemma PlanHead(c: Cfg, s: Sys, s1: Sys, out: Output, left: nat)
    requires Planning(c, s, s1, out, left)
    ensures if out.scheduled == [] then out.preempted == [] else s1.running != [] && out.scheduled[0].id == s1.running[0]
  {
    UnwrapPlanned(c, s, s1, out, left, Depth());
    if out.scheduled != [] { assert Entry(c, ReqAt(s1, 0), s1.running[0], out.scheduled[0]); }
  }

  lemma PlanStride(c: Cfg, s: Sys, s1: Sys, out: Output, left: nat, cut: set<Id>)
    requires Ok(c, s) && Ok(c, s1) && Planning(c, s, s1, out, left)
    ensures Stride(c, s, s1, 0, cut)
  {
    PlanLine(c, s, s1, out, left);
    PlanHead(c, s, s1, out, left);
    if Ordered(c, s) { PlanOrdered(c, s, s1, out, left); }
    CloseStride(c, s, s1, 0, cut, Depth());
  }

  /** If the head is still first, it was served, wherever in the batch. */
  lemma HeadGains(c: Cfg, s1: Sys, s2: Sys, out: seq<Scheduled>, i: nat)
    requires Ok(c, s1) && Ok(c, s2) && Ledger(s1, s2, out, |out|, |out|)
    requires i < |out| && s1.running != [] && out[i].id == s1.running[0]
    ensures Line(s2) != [] && Line(s2)[0] == Line(s1)[0] ==> HeadComputed(s1) < HeadComputed(s2)
  {
    LineKnown(c, s1);
    LineKnown(c, s2);
    if Line(s2) != [] && Line(s2)[0] == Line(s1)[0] { StillRuns(s1, s2); }
  }

  /** A running request still in line still runs. */
  lemma StillRuns(s1: Sys, s2: Sys)
    requires NoDup(Line(s1)) && s1.running != [] && s2.waiting == s1.waiting && Line(s2) != [] && Line(s2)[0] == s1.running[0]
    ensures s2.running != [] && s2.running[0] == s1.running[0]
  {
    assert s1.waiting != [] ==> Line(s1)[0] != Line(s1)[|s1.running|];
  }

  /** A scheduling decision and the turn that follows it, with the batch in any order: everybody gets a step closer. */
  lemma TurnStride(c: Cfg, s: Sys, s1: Sys, s2: Sys, out: Output, left: nat, order: seq<Scheduled>, cut: set<Id>)
    requires Ok(c, s) && Ok(c, s1) && Ok(c, s2) && Planning(c, s, s1, out, left) && out.scheduled != [] && out.scheduled[0] in order
    requires Ledger(s1, s2, order, |order|, |order|) && (KvSteady(c, s1) ==> KvSteady(c, s2))
    ensures Stride(c, s, s2, 1, cut)
  {
    LineKnown(c, s);
    LineKnown(c, s2);
    PlanLine(c, s, s1, out, left);
    PlanHead(c, s, s1, out, left);
    EvolvesTrans(s.reqs, s1.reqs, s2.reqs);
    var i :| 0 <= i < |order| && order[i] == out.scheduled[0];
    HeadGains(c, s1, s2, order, i);
    if !c.byPriority {
      forall id | id in Line(s) && id in Line(s2) ensures Rank(c, s2, id) + 1 <= Rank(c, s, id) {
        RankDrops(c, s, s2, id, 1);
      }
    }
    if Ordered(c, s) {
      PlanOrdered(c, s, s1, out, left);
      OrderedSame(c, s1, s2);
    }
    CloseStride(c, s, s2, 1, cut, Depth());
  }

  lemma StrideEmpty(c: Cfg, s: Sys, s': Sys, cut: set<Id>)
    requires Stride(c, s, s', 0, cut) && Line(s') == []
    ensures Stride(c, s, s', 1, cut)
  {
    OpenStride(c, s, s', 0, cut, Depth());
    CloseStride(c, s, s', 1, cut, Depth());
  }

  lemma StrideLess(c: Cfg, s: Sys, s': Sys, d: nat, e: nat, cut: set<Id>)
    requires Stride(c, s, s', d, cut) && e <= d
    ensures Stride(c, s, s', e, cut)
  {
    OpenStride(c, s, s', d, cut, Depth());
    CloseStride(c, s, s', e, cut, Depth());
  }

  /** The steps a request may still need: as many as its rank, which is at most a whole context for itself and for each
      request before it. */
  lemma RankBound(c: Cfg, s: Sys, id: Id)
    requires Ok(c, s) && id in Line(s)
    ensures 0 < Rank(c, s, id) <= (Ahead(Line(s), id) + 1) * c.env.maxLen
  {
    LineKnown(c, s);
    MulMono(0, Ahead(Line(s), id), c.env.maxLen);
    assert (Ahead(Line(s), id) + 1) * c.env.maxLen == Ahead(Line(s), id) * c.env.maxLen + c.env.maxLen;
  }

  /** First come, first served without starvation: after p + 1 contexts' worth of steps the request that had p others
      before it is over, however long the line behind it grew and however often anybody was preempted. Unless it was cut
      off from outside, or requests can be too long for a step, it ended by itself. */
  lemma NobodyStarves(c: Cfg, s: Sys, s': Sys, d: nat, cut: set<Id>, id: Id)
    requires Ok(c, s) && Ok(c, s') && Stride(c, s, s', d, cut) && !c.byPriority && id in Line(s)
    requires d >= (Ahead(Line(s), id) + 1) * c.env.maxLen
    ensures id in s'.reqs && Ended(c, s'.reqs[id], id, cut)
    ensures Flows(c) && id !in cut ==> EndedItself(s'.reqs[id])
  {
    OpenStride(c, s, s', d, cut, Depth());
    LineKnown(c, s);
    RankBound(c, s, id);
    if id in Line(s') { RankBound(c, s', id); }
    OverIsEnded(c, s, s', cut, id);
  }

  /** A request that has left the line ended as told. */
  lemma OverIsEnded(c: Cfg, s: Sys, s': Sys, cut: set<Id>, id: Id)
    requires Ok(c, s) && Ok(c, s') && Ends(c, s.reqs, s'.reqs, cut) && id in s'.reqs && id !in Line(s')
    requires id in s.reqs ==> s.reqs[id].status != FINISHED
    ensures Ended(c, s'.reqs[id], id, cut)
  {
    LineKnown(c, s');
  }
}
