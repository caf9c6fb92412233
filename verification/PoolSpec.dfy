/** The block pool as a value: what each operation of the pool means, independent of the linked list. */
module PoolSpec {
  import opened Types

  /** `free` is the free list from head (evicted first) to tail; the other fields are indexed by block. */
  datatype View = View(free: seq<nat>, ref: seq<nat>, hash: seq<Hash>, toks: seq<seq<Token>>)

  ghost predicate Shape(v: View) {
    && |v.ref| == |v.hash| == |v.toks|
    && NoDup(v.free)
    && forall b :: b in v.free ==> b < |v.ref|
  }

  /** The free list is duplicate-free and holds exactly the unreferenced blocks. */
  ghost predicate PoolOk(v: View) {
    && Shape(v)
    && forall b :: 0 <= b < |v.ref| ==> (b in v.free <==> v.ref[b] == 0)
  }

  /** No block is registered. */
  ghost predicate Unregistered(v: View) {
    forall b :: 0 <= b < |v.hash| ==> v.hash[b] == HASH_NONE
  }

  function Remove(s: seq<nat>, x: nat): (r: seq<nat>) {
    if s == [] then [] else if s[0] == x then s[1..] else [s[0]] + Remove(s[1..], x)
  }

  /** r is s without its k-th element. */
  ghost predicate Skips(s: seq<nat>, k: nat, r: seq<nat>) {
    && k < |s| && |r| == |s| - 1
    && (forall i :: 0 <= i < k ==> r[i] == s[i])
    && (forall i :: k <= i < |r| ==> r[i] == s[i + 1])
  }

  lemma {:induction false} RemoveSkips(s: seq<nat>, k: nat)
    requires k < |s| && NoDup(s)
    ensures Skips(s, k, Remove(s, s[k]))
  {
    if k > 0 {
      assert s[1..][k - 1] == s[k];
      RemoveSkips(s[1..], k - 1);
    }
  }

  lemma SkipsFacts(s: seq<nat>, k: nat, r: seq<nat>)
    requires NoDup(s) && Skips(s, k, r)
    ensures NoDup(r) && forall y :: y in r <==> y in s && y != s[k]
  {
    forall y | y in s && y != s[k] ensures y in r {
      var i :| 0 <= i < |s| && s[i] == y;
      assert r[if i < k then i else i - 1] == y;
    }
    forall y | y in r ensures y in s && y != s[k] {
      var i :| 0 <= i < |r| && r[i] == y;
      assert s[if i < k then i else i + 1] == y;
    }
  }

  lemma RemoveFacts(s: seq<nat>, x: nat)
    requires NoDup(s) && x in s
    ensures NoDup(Remove(s, x)) && |Remove(s, x)| == |s| - 1
    ensures forall y :: y in Remove(s, x) <==> y in s && y != x
  {
    var k: nat :| k < |s| && s[k] == x;
    RemoveSkips(s, k);
    SkipsFacts(s, k, Remove(s, x));
  }

  // ---- touch ----

  function Touch(v: View, b: nat): (r: View)
    requires b < |v.ref|
  {
    v.(free := if v.ref[b] == 0 then Remove(v.free, b) else v.free, ref := v.ref[b := v.ref[b] + 1])
  }

  lemma TouchOk(v: View, b: nat)
    requires PoolOk(v) && b < |v.ref|
    ensures PoolOk(Touch(v, b))
    ensures |Touch(v, b).free| == |v.free| - (if v.ref[b] == 0 then 1 else 0)
  {
    if v.ref[b] == 0 {
      RemoveFacts(v.free, b);
    }
  }

  function TouchAll(v: View, bs: seq<nat>): (r: View)
    requires forall i :: 0 <= i < |bs| ==> bs[i] < |v.ref|
    ensures |r.ref| == |v.ref| && r.hash == v.hash && r.toks == v.toks
    decreases |bs|
  {
    if bs == [] then v else Touch(TouchAll(v, bs[..|bs| - 1]), bs[|bs| - 1])
  }

  /** How many of the given blocks sit in the free list (counted with repetition). */
  function FreeCount(ref: seq<nat>, bs: seq<nat>): (n: nat)
    requires forall i :: 0 <= i < |bs| ==> bs[i] < |ref|
    decreases |bs|
  {
    if bs == [] then 0
    else FreeCount(ref, bs[..|bs| - 1]) + (if ref[bs[|bs| - 1]] == 0 then 1 else 0)
  }

  lemma {:induction false} TouchAllFacts(v: View, bs: seq<nat>)
    requires PoolOk(v)
    requires forall i :: 0 <= i < |bs| ==> bs[i] < |v.ref|
    ensures PoolOk(TouchAll(v, bs))
    ensures forall b :: 0 <= b < |v.ref| ==> TouchAll(v, bs).ref[b] == v.ref[b] + multiset(bs)[b]
    ensures |v.free| - FreeCount(v.ref, bs) <= |TouchAll(v, bs).free| <= |v.free|
    decreases |bs|
  {
    if bs != [] {
      var pre := bs[..|bs| - 1];
      TouchAllFacts(v, pre);
      TouchOk(TouchAll(v, pre), bs[|bs| - 1]);
      assert bs == pre + [bs[|bs| - 1]];
    }
  }

  // ---- get_new_blocks ----

  /** Pops n blocks off the front: they lose their hash and get one reference. */
  function Take(v: View, n: nat): (r: View)
    requires n <= |v.free| && |v.ref| == |v.hash|
  {
    var got := v.free[..n];
    View(v.free[n..],
         seq(|v.ref|, b requires 0 <= b < |v.ref| => if b in got then 1 else v.ref[b]),
         seq(|v.hash|, b requires 0 <= b < |v.hash| => if b in got then HASH_NONE else v.hash[b]),
         v.toks)
  }

  lemma TakeOk(v: View, n: nat)
    requires PoolOk(v) && n <= |v.free|
    ensures PoolOk(Take(v, n))
    ensures NoDup(v.free[..n])
    ensures forall b :: b in v.free[..n] ==> b < |v.ref| && v.ref[b] == 0
    ensures forall b :: 0 <= b < |v.ref| ==> Take(v, n).ref[b] == v.ref[b] + multiset(v.free[..n])[b]
  {
    var got: seq<nat>, rest: seq<nat> := v.free[..n], v.free[n..];
    assert v.free == got + rest;
    assert forall b :: b in v.free <==> b in got || b in rest;
    forall b: nat | b < |v.ref|
      ensures Take(v, n).ref[b] == v.ref[b] + multiset(got)[b]
    {
      if b in got {
        NoDupCount(got, b);
      }
    }
  }

  lemma TakeStep(v: View, n: nat)
    requires Shape(v) && n < |v.free|
    ensures var t, b := Take(v, n), v.free[n];
      && b < |v.ref| && t.free != [] && t.free[0] == b
      && Take(v, n + 1) == View(t.free[1..], t.ref[b := 1], t.hash[b := HASH_NONE], t.toks)
  {
    var t, b := Take(v, n), v.free[n];
    assert v.free[..n + 1] == v.free[..n] + [b];
    assert forall c :: c in v.free[..n + 1] <==> c in v.free[..n] || c == b;
    assert b in v.free;
  }

  lemma NoDupCount(s: seq<nat>, x: nat)
    requires NoDup(s) && x in s
    ensures multiset(s)[x] == 1
  {
    var k :| 0 <= k < |s| && s[k] == x;
    assert s == s[..k] + [s[k]] + s[k + 1..];
    assert x !in s[..k] && x !in s[k + 1..];
  }

  // ---- free_blocks ----

  datatype Released = Released(ref: seq<nat>, uncached: seq<nat>, cached: seq<nat>)

  ghost predicate CanRelease(ref: seq<nat>, bs: seq<nat>) {
    && (forall i :: 0 <= i < |bs| ==> bs[i] < |ref|)
    && (forall b :: 0 <= b < |ref| ==> multiset(bs)[b] <= ref[b])
  }

  lemma CanReleaseSplit(ref: seq<nat>, bs: seq<nat>)
    requires CanRelease(ref, bs) && bs != []
    ensures ref[bs[|bs| - 1]] >= 1
    ensures CanRelease(ref, bs[..|bs| - 1])
    ensures multiset(bs[..|bs| - 1])[bs[|bs| - 1]] < ref[bs[|bs| - 1]]
  {
    assert bs == bs[..|bs| - 1] + [bs[|bs| - 1]];
  }

  /** Drops one reference to b; a block that reaches zero joins the uncached or the cached list. */
  function ReleaseOne(p: Released, hash: seq<Hash>, caching: bool, b: nat): (r: Released)
    requires b < |p.ref| == |hash| && p.ref[b] > 0
  {
    var ref' := p.ref[b := p.ref[b] - 1];
    if ref'[b] != 0 then p.(ref := ref')
    else if hash[b] == HASH_NONE || !caching then Released(ref', p.uncached + [b], p.cached)
    else Released(ref', p.uncached, p.cached + [b])
  }

  /** Drops one reference per listed block, collecting the blocks that reach zero in order. */
  function Release(ref: seq<nat>, hash: seq<Hash>, caching: bool, bs: seq<nat>): (r: Released)
    requires |hash| == |ref| && CanRelease(ref, bs)
    ensures |r.ref| == |ref|
    ensures forall b :: 0 <= b < |ref| ==> r.ref[b] == ref[b] - multiset(bs)[b]
    decreases |bs|
  {
    if bs == [] then Released(ref, [], [])
    else
      var pre, b := bs[..|bs| - 1], bs[|bs| - 1];
      CanReleaseSplit(ref, bs);
      assert bs == pre + [b];
      ReleaseOne(Release(ref, hash, caching, pre), hash, caching, b)
  }

  /** Running the release loop one block further, or finding the double free. */
  lemma ReleaseStep(ref: seq<nat>, hash: seq<Hash>, caching: bool, bs: seq<nat>, i: nat)
    requires |hash| == |ref| && i < |bs| && bs[i] < |ref| && CanRelease(ref, bs[..i])
    ensures var p := Release(ref, hash, caching, bs[..i]);
      if p.ref[bs[i]] == 0 then !CanRelease(ref, bs)
      else CanRelease(ref, bs[..i + 1]) && Release(ref, hash, caching, bs[..i + 1]) == ReleaseOne(p, hash, caching, bs[i])
  {
    var a, b := bs[..i], bs[i];
    assert bs[..i + 1] == a + [b];
    if Release(ref, hash, caching, a).ref[b] == 0 {
      OneTooMany(ref, a, b, bs[i + 1..]);
      assert bs == a + [b] + bs[i + 1..];
    } else {
      ReleaseMore(ref, hash, caching, a, b);
    }
  }

  lemma OneTooMany(ref: seq<nat>, a: seq<nat>, b: nat, rest: seq<nat>)
    requires b < |ref| && multiset(a)[b] >= ref[b]
    ensures !CanRelease(ref, a + [b] + rest)
  {
    assert multiset(a + [b] + rest)[b] == multiset(a)[b] + 1 + multiset(rest)[b];
  }

  lemma ReleaseMore(ref: seq<nat>, hash: seq<Hash>, caching: bool, a: seq<nat>, b: nat)
    requires |hash| == |ref| && CanRelease(ref, a) && b < |ref| && multiset(a)[b] < ref[b]
    ensures CanRelease(ref, a + [b])
    ensures Release(ref, hash, caching, a + [b]) == ReleaseOne(Release(ref, hash, caching, a), hash, caching, b)
  {
    assert (a + [b])[..|a|] == a;
  }

  /** The released lists are duplicate-free and hold exactly the listed blocks that reached zero. */
  ghost predicate ReleasedOk(r: Released, hash: seq<Hash>, caching: bool, bs: seq<nat>)
    requires |r.ref| == |hash| && forall i :: 0 <= i < |bs| ==> bs[i] < |hash|
  {
    && NoDup(r.uncached) && NoDup(r.cached)
    && (forall b :: b in r.uncached <==> b in bs && r.ref[b] == 0 && (hash[b] == HASH_NONE || !caching))
    && (forall b :: b in r.cached <==> b in bs && r.ref[b] == 0 && hash[b] != HASH_NONE && caching)
  }

  lemma ReleaseOneOk(p: Released, hash: seq<Hash>, caching: bool, bs: seq<nat>, b: nat)
    requires b < |p.ref| == |hash| && p.ref[b] > 0 && forall i :: 0 <= i < |bs| ==> bs[i] < |hash|
    requires ReleasedOk(p, hash, caching, bs)
    ensures ReleasedOk(ReleaseOne(p, hash, caching, b), hash, caching, bs + [b])
  {
    var r, u, c := ReleaseOne(p, hash, caching, b), p.uncached + [b], p.cached + [b];
    assert forall x :: x in bs + [b] <==> x in bs || x == b;
    assert forall x :: x in u <==> x in p.uncached || x == b;
    assert forall x :: x in c <==> x in p.cached || x == b;
  }

  lemma {:induction false} ReleaseFacts(ref: seq<nat>, hash: seq<Hash>, caching: bool, bs: seq<nat>)
    requires |hash| == |ref| && CanRelease(ref, bs)
    ensures ReleasedOk(Release(ref, hash, caching, bs), hash, caching, bs)
    decreases |bs|
  {
    if bs != [] {
      var pre, b := bs[..|bs| - 1], bs[|bs| - 1];
      CanReleaseSplit(ref, bs);
      ReleaseFacts(ref, hash, caching, pre);
      ReleaseOneOk(Release(ref, hash, caching, pre), hash, caching, pre, b);
      assert bs == pre + [b];
    }
  }

  /** Uncached blocks go to the front in list order, cached ones to the back. */
  function Free(v: View, caching: bool, bs: seq<nat>): (r: View)
    requires |v.hash| == |v.ref| && CanRelease(v.ref, bs)
  {
    var p := Release(v.ref, v.hash, caching, bs);
    v.(free := p.uncached + v.free + p.cached, ref := p.ref)
  }

  lemma {:induction false} ReleaseSize(ref: seq<nat>, hash: seq<Hash>, caching: bool, bs: seq<nat>)
    requires |hash| == |ref| && CanRelease(ref, bs)
    ensures |Release(ref, hash, caching, bs).uncached| + |Release(ref, hash, caching, bs).cached| <= |bs|
    decreases |bs|
  {
    if bs != [] {
      CanReleaseSplit(ref, bs);
      ReleaseSize(ref, hash, caching, bs[..|bs| - 1]);
    }
  }

  lemma FreeOk(v: View, caching: bool, bs: seq<nat>)
    requires PoolOk(v) && CanRelease(v.ref, bs)
    ensures PoolOk(Free(v, caching, bs))
    ensures forall b :: 0 <= b < |v.ref| ==> Free(v, caching, bs).ref[b] == v.ref[b] - multiset(bs)[b]
  {
    ReleaseFacts(v.ref, v.hash, caching, bs);
    var p, r := Release(v.ref, v.hash, caching, bs), Free(v, caching, bs);
    forall b | b in bs ensures b !in v.free {
      assert multiset(bs)[b] > 0;
    }
    assert forall b :: b in r.free <==> b in p.uncached || b in v.free || b in p.cached;
    NoDupConcat(p.uncached, v.free);
    NoDupConcat(p.uncached + v.free, p.cached);
  }

  lemma NoDupConcat(a: seq<nat>, b: seq<nat>)
    requires NoDup(a) && NoDup(b) && forall x :: x in a ==> x !in b
    ensures NoDup(a + b)
  {
    var s := a + b;
    forall i, j | 0 <= i < j < |s| ensures s[i] != s[j] {
      if i < |a| <= j { assert s[i] in a && s[j] in b; }
    }
  }

  // ---- cache_block ----

  function Cache(v: View, caching: bool, b: nat, h: Hash, toks: seq<Token>): (r: View)
    requires b < |v.ref| && |v.ref| == |v.hash| == |v.toks|
  {
    if !caching || v.hash[b] != HASH_NONE then v
    else v.(hash := v.hash[b := h], toks := v.toks[b := toks])
  }
}
