/** The ref-counted block allocator over an intrusive doubly linked free list. */
module BlockPools {
  import opened Types
  import opened PoolSpec

  datatype Block = Block(refCnt: nat, hash: Hash, prev: int, next: int, inFree: bool)

  function At(free: seq<nat>, i: int): int {
    if 0 <= i < |free| then free[i] else -1
  }

  /** head, tail and the prev/next links of the blocks spell out `free`; -1 stands for "none". */
  ghost predicate Links(blocks: seq<Block>, free: seq<nat>, head: int, tail: int) {
    && NoDup(free)
    && (forall i :: 0 <= i < |free| ==> free[i] < |blocks|)
    && head == At(free, 0) && tail == At(free, |free| - 1)
    && (forall i {:trigger blocks[free[i]]} :: 0 <= i < |free| ==> blocks[free[i]].prev == At(free, i - 1))
    && (forall i {:trigger blocks[free[i]]} :: 0 <= i < |free| ==> blocks[free[i]].next == At(free, i + 1))
    && (forall b :: 0 <= b < |blocks| ==> (blocks[b].inFree <==> b in free))
  }

  ghost predicate WrapLinks(blocks: seq<Block>, free: seq<nat>, head: int, tail: int, n: Layers)
    decreases n
  {
    match n case Bare => Links(blocks, free, head, tail) case Over(m) => WrapLinks(blocks, free, head, tail, m)
  }

  /** Links, closed. */
  ghost predicate Linked(blocks: seq<Block>, free: seq<nat>, head: int, tail: int) {
    WrapLinks(blocks, free, head, tail, Depth())
  }

  lemma {:induction false} UnwrapLinks(blocks: seq<Block>, free: seq<nat>, head: int, tail: int, n: Layers)
    ensures WrapLinks(blocks, free, head, tail, n) <==> Links(blocks, free, head, tail)
  {
    if n.Over? { UnwrapLinks(blocks, free, head, tail, n.under); }
  }

  lemma OpenLinks(blocks: seq<Block>, free: seq<nat>, head: int, tail: int)
    ensures Linked(blocks, free, head, tail) <==> Links(blocks, free, head, tail)
  {
    UnwrapLinks(blocks, free, head, tail, Depth());
  }

  /** The hash multimap holds (h, b) exactly once when block b is registered under h. */
  ghost predicate Indexed(blocks: seq<Block>, table: multiset<(Hash, nat)>) {
    forall h: Hash, b: nat ::
      table[(h, b)] == if b < |blocks| && h != HASH_NONE && blocks[b].hash == h then 1 else 0
  }

  function Refs(blocks: seq<Block>): (r: seq<nat>) {
    seq(|blocks|, b requires 0 <= b < |blocks| => blocks[b].refCnt)
  }

  function Hashes(blocks: seq<Block>): (r: seq<Hash>) {
    seq(|blocks|, b requires 0 <= b < |blocks| => blocks[b].hash)
  }

  class BlockPool {
    const blockSize: nat
    const caching: bool
    var blocks: seq<Block>
    var blockTokens: seq<seq<Token>>          // row b: the tokens block b was registered with
    var hashToBlock: multiset<(Hash, nat)>    // an unordered multimap
    var head: int
    var tail: int
    var nFree: nat
    ghost var free: seq<nat>

    ghost predicate ListOk()
      reads this
    {
      && Linked(blocks, free, head, tail) && nFree == |free|
      && |blockTokens| == |blocks| && Indexed(blocks, hashToBlock)
    }

    ghost predicate Valid()
      reads this
    {
      ListOk() && PoolOk(Value())
    }

    ghost function Value(): (v: View)
      reads this
    {
      View(free, Refs(blocks), Hashes(blocks), blockTokens)
    }

    constructor (numBlocks: nat, blockSize: nat, caching: bool)
      ensures Valid() && this.blockSize == blockSize && this.caching == caching
      ensures |Value().ref| == numBlocks
      ensures |Value().free| == numBlocks && forall i :: 0 <= i < numBlocks ==> Value().free[i] == i
      ensures forall b :: 0 <= b < numBlocks ==> Value().ref[b] == 0 && Value().hash[b] == HASH_NONE
    {
      this.blockSize, this.caching := blockSize, caching;
      blocks := seq(numBlocks, _ => Block(0, HASH_NONE, -1, -1, false));
      blockTokens := seq(numBlocks, _ => []);
      hashToBlock := multiset{};
      head, tail, nFree, free := -1, -1, 0, [];
      new;
      ghost var blocks0 := blocks;
      OpenLinks(blocks, free, head, tail);
      PushAll();
      AllFresh(blocks0, blocks);
      FreshOk(Value());
    }

    /** Puts every block on the free list, in order. */
    method PushAll()
      requires Linked(blocks, free, head, tail) && free == [] && nFree == 0
      modifies this`blocks, this`head, this`tail, this`nFree, this`free
      ensures Linked(blocks, free, head, tail) && nFree == |free| == |blocks| && SameData(old(blocks), blocks)
      ensures forall k :: 0 <= k < |free| ==> free[k] == k
    {
      for i := 0 to |blocks|
        invariant Linked(blocks, free, head, tail) && nFree == |free| == i && SameData(old(blocks), blocks)
        invariant forall k :: 0 <= k < i ==> free[k] == k
      {
        ListPushBack(i);
      }
    }

    method ListRemove(b: nat)
      requires Linked(blocks, free, head, tail) && nFree == |free| && b < |blocks|
      modifies this`blocks, this`head, this`tail, this`nFree, this`free
      ensures Linked(blocks, free, head, tail) && nFree == |free|
      ensures free == if b in old(free) then Remove(old(free), b) else old(free)
      ensures SameData(old(blocks), blocks)
    {
      OpenLinks(blocks, free, head, tail);
      if !blocks[b].inFree { return; }
      ghost var k: nat :| k < |free| && free[k] == b;
      LinkBounds(blocks, free, head, tail, k);
      Unlink(b, k);
      nFree := nFree - 1;
      RemoveSkips(free, k);
      UnlinkOk(old(blocks), free, old(head), old(tail), k, blocks, Remove(free, b));
      free := Remove(free, b);
      OpenLinks(blocks, free, head, tail);
    }

    /** Makes the neighbours of b point at each other. */
    method Unlink(b: nat, ghost k: nat)
      requires Links(blocks, free, head, tail) && k < |free| && free[k] == b < |blocks|
      modifies this`blocks, this`head, this`tail
      ensures Bypassed(old(blocks), free, k, blocks) && SameData(old(blocks), blocks)
      ensures head == (if k == 0 then At(free, 1) else old(head))
      ensures tail == (if k == |free| - 1 then At(free, k - 1) else old(tail))
    {
      LinkBounds(blocks, free, head, tail, k);
      var x := blocks[b];
      if x.prev >= 0 { blocks := blocks[x.prev := blocks[x.prev].(next := x.next)]; } else { head := x.next; }
      if x.next >= 0 { blocks := blocks[x.next := blocks[x.next].(prev := x.prev)]; } else { tail := x.prev; }
      blocks := blocks[b := blocks[b].(prev := -1, next := -1, inFree := false)];
    }

    method ListPushFront(b: nat)
      requires Linked(blocks, free, head, tail) && nFree == |free| && b < |blocks| && b !in free
      modifies this`blocks, this`head, this`tail, this`nFree, this`free
      ensures Linked(blocks, free, head, tail) && nFree == |free|
      ensures free == [b] + old(free)
      ensures SameData(old(blocks), blocks)
    {
      OpenLinks(blocks, free, head, tail);
      blocks := blocks[b := blocks[b].(prev := -1, next := head)];
      if head >= 0 { blocks := blocks[head := blocks[head].(prev := b)]; } else { tail := b; }
      blocks := blocks[b := blocks[b].(inFree := true)];
      PushFrontOk(old(blocks), free, head, old(tail), b, blocks);
      head, nFree, free := b, nFree + 1, [b] + free;
      OpenLinks(blocks, free, head, tail);
    }

    method ListPushBack(b: nat)
      requires Linked(blocks, free, head, tail) && nFree == |free| && b < |blocks| && b !in free
      modifies this`blocks, this`head, this`tail, this`nFree, this`free
      ensures Linked(blocks, free, head, tail) && nFree == |free|
      ensures free == old(free) + [b]
      ensures SameData(old(blocks), blocks)
    {
      OpenLinks(blocks, free, head, tail);
      blocks := blocks[b := blocks[b].(next := -1, prev := tail)];
      if tail >= 0 { blocks := blocks[tail := blocks[tail].(next := b)]; } else { head := b; }
      blocks := blocks[b := blocks[b].(inFree := true)];
      PushBackOk(old(blocks), free, old(head), tail, b, blocks);
      tail, nFree, free := b, nFree + 1, free + [b];
      OpenLinks(blocks, free, head, tail);
    }

    method ListPopFront() returns (b: int)
      requires Linked(blocks, free, head, tail) && nFree == |free|
      modifies this`blocks, this`head, this`tail, this`nFree, this`free
      ensures Linked(blocks, free, head, tail) && nFree == |free|
      ensures if old(free) == [] then b == -1 && free == [] else 0 <= b < |blocks| && b == old(free)[0] && free == old(free)[1..]
      ensures SameData(old(blocks), blocks)
    {
      OpenLinks(blocks, free, head, tail);
      b := head;
      if b < 0 { return -1; }
      ListRemove(b);
    }

    method EvictHash(b: nat)
      requires b < |blocks| && Indexed(blocks, hashToBlock)
      modifies this`blocks, this`hashToBlock
      ensures blocks == old(blocks)[b := old(blocks)[b].(hash := HASH_NONE)]
      ensures Indexed(blocks, hashToBlock)
    {
      var x := blocks[b];
      if x.hash == HASH_NONE { return; }
      hashToBlock := hashToBlock - multiset{(x.hash, b)};
      blocks := blocks[b := x.(hash := HASH_NONE)];
    }

    /** Some block registered under `hash` whose stored tokens equal `tokens`, or -1 when there is none;
        which one is up to the multimap's order. */
    method GetCachedBlock(hash: Hash, tokens: seq<Token>) returns (b: int)
      requires Valid() && hash != HASH_NONE
      ensures -1 <= b < |Value().ref|
      ensures b >= 0 ==> caching && Value().hash[b] == hash && Value().toks[b] == tokens
      ensures b == -1 && caching ==> forall c :: 0 <= c < |Value().ref| && Value().hash[c] == hash ==> Value().toks[c] != tokens
    {
      if !caching { return -1; }
      var range := set e | e in hashToBlock && e.0 == hash :: e.1;
      assert forall c: nat :: c in range <==> hashToBlock[(hash, c)] > 0;
      var todo := range;
      while todo != {}
        invariant todo <= range
        invariant forall c :: c in range - todo ==> blockTokens[c] != tokens
      {
        var c :| c in todo;
        if blockTokens[c] == tokens { return c; }
        todo := todo - {c};
      }
      return -1;
    }

    method Touch(b: nat)
      requires Valid() && b < |blocks|
      modifies this`blocks, this`head, this`tail, this`nFree, this`free
      ensures Valid() && Value() == PoolSpec.Touch(old(Value()), b)
    {
      TouchOk(Value(), b);
      if blocks[b].refCnt == 0 { ListRemove(b); }
      ghost var mid := blocks;
      SameDataOk(old(blocks), mid, hashToBlock);
      blocks := blocks[b := blocks[b].(refCnt := blocks[b].refCnt + 1)];
      SameLinksOk(mid, blocks, free, head, tail, hashToBlock);
      assert Refs(blocks) == Refs(mid)[b := mid[b].refCnt + 1] && Hashes(blocks) == Hashes(mid);
    }

    /** One pop: the front block leaves the list without its hash and with one reference. */
    method PopFresh() returns (b: nat)
      requires ListOk() && free != []
      modifies this
      ensures ListOk() && b == old(free)[0] && b < |old(blocks)|
      ensures var v := old(Value());
        Value() == View(v.free[1..], v.ref[b := 1], v.hash[b := HASH_NONE], v.toks)
    {
      var p := ListPopFront();
      b := p;
      ghost var mid := blocks;
      SameDataOk(old(blocks), mid, hashToBlock);
      if blocks[b].hash != HASH_NONE { EvictHash(b); }
      blocks := blocks[b := blocks[b].(refCnt := 1)];
      SameListOk(mid, blocks, free, head, tail);
    }

    /** Pops n blocks onto `out`; refuses ("out of blocks") exactly when fewer are free. */
    method GetNewBlocks(n: nat, out: seq<nat>) returns (ok: bool, out': seq<nat>)
      requires Valid()
      modifies this
      ensures Valid() && ok == (n <= |old(Value()).free|)
      ensures ok ==> Value() == Take(old(Value()), n) && out' == out + old(Value()).free[..n]
      ensures !ok ==> Value() == old(Value()) && out' == out
    {
      ok, out' := n <= nFree, out;
      if !ok { return; }
      ghost var v := Value();
      assert Value() == Take(v, 0);
      for i := 0 to n
        invariant n <= |v.free| && ListOk() && Value() == Take(v, i) && out' == out + v.free[..i]
      {
        var b := PopNext(v, i);
        out' := out' + [b];
        assert v.free[..i + 1] == v.free[..i] + [b];
      }
      TakeOk(v, n);
    }

    method PopNext(ghost v: View, ghost i: nat) returns (b: nat)
      requires ListOk() && Shape(v) && i < |v.free| && Value() == Take(v, i)
      modifies this
      ensures ListOk() && Value() == Take(v, i + 1) && b == v.free[i]
    {
      TakeStep(v, i);
      b := PopFresh();
    }

    /** Drops one reference per listed block; refuses ("double free") exactly when some block is listed more
        often than it is referenced. */
    method FreeBlocks(bs: seq<nat>) returns (ok: bool)
      requires Valid() && forall i :: 0 <= i < |bs| ==> bs[i] < |blocks|
      modifies this
      ensures ok == CanRelease(old(Value()).ref, bs)
      ensures ok ==> Valid() && Value() == Free(old(Value()), caching, bs)
    {
      var uncached: seq<nat>, cached: seq<nat>;
      ok, uncached, cached := DropRefs(bs);
      if !ok { return; }
      ghost var v := old(Value());
      FreeOk(v, caching, bs);
      ReleasedApart(v, caching, bs);
      ghost var dropped := blocks;
      PushReleased(uncached, cached);
      SameDataOk(dropped, blocks, hashToBlock);
      assert Value() == Free(v, caching, bs);
    }

    method PushReleased(uncached: seq<nat>, cached: seq<nat>)
      requires Linked(blocks, free, head, tail) && nFree == |free|
      requires NoDup(uncached) && NoDup(cached) && forall b :: b in uncached ==> b !in cached
      requires forall b :: b in uncached || b in cached ==> b < |blocks| && b !in free
      modifies this`blocks, this`head, this`tail, this`nFree, this`free
      ensures Linked(blocks, free, head, tail) && nFree == |free|
      ensures free == uncached + old(free) + cached && SameData(old(blocks), blocks)
    {
      PushFrontReversed(uncached);
      for j := 0 to |cached|
        invariant Linked(blocks, free, head, tail) && nFree == |free|
        invariant free == uncached + old(free) + cached[..j] && SameData(old(blocks), blocks)
      {
        PrefixStep(uncached + old(free), cached, j);
        ListPushBack(cached[j]);
      }
    }

    method PushFrontReversed(uncached: seq<nat>)
      requires Linked(blocks, free, head, tail) && nFree == |free|
      requires NoDup(uncached) && forall b :: b in uncached ==> b < |blocks| && b !in free
      modifies this`blocks, this`head, this`tail, this`nFree, this`free
      ensures Linked(blocks, free, head, tail) && nFree == |free|
      ensures free == uncached + old(free) && SameData(old(blocks), blocks)
    {
      var i := |uncached|;
      while i > 0
        invariant 0 <= i <= |uncached| && Linked(blocks, free, head, tail) && nFree == |free|
        invariant free == uncached[i..] + old(free) && SameData(old(blocks), blocks)
      {
        i := i - 1;
        SuffixStep(uncached, old(free), i);
        ListPushFront(uncached[i]);
      }
    }

    method DropRefs(bs: seq<nat>) returns (ok: bool, uncached: seq<nat>, cached: seq<nat>)
      requires Valid() && forall i :: 0 <= i < |bs| ==> bs[i] < |blocks|
      modifies this`blocks
      ensures ok == CanRelease(old(Value()).ref, bs)
      ensures ok ==> Released(Refs(blocks), uncached, cached) == Release(old(Value()).ref, old(Value()).hash, caching, bs)
      ensures ok ==> Hashes(blocks) == Hashes(old(blocks))
      ensures ok ==> Linked(blocks, free, head, tail) && Indexed(blocks, hashToBlock)
    {
      ghost var v := Value();
      uncached, cached := [], [];
      for i := 0 to |bs|
        invariant SameLinks(old(blocks), blocks) && Hashes(blocks) == v.hash && CanRelease(v.ref, bs[..i])
        invariant Released(Refs(blocks), uncached, cached) == Release(v.ref, v.hash, caching, bs[..i])
      {
        ReleaseStep(v.ref, v.hash, caching, bs, i);
        if blocks[bs[i]].refCnt <= 0 { return false, uncached, cached; }
        uncached, cached := DropRef(bs[i], uncached, cached);
      }
      assert bs[..|bs|] == bs;
      SameLinksOk(old(blocks), blocks, free, head, tail, hashToBlock);
      ok := true;
    }

    method DropRef(b: nat, uncached: seq<nat>, cached: seq<nat>) returns (uncached': seq<nat>, cached': seq<nat>)
      requires b < |blocks| && blocks[b].refCnt > 0
      modifies this`blocks
      ensures SameLinks(old(blocks), blocks) && Hashes(blocks) == Hashes(old(blocks))
      ensures Released(Refs(blocks), uncached', cached')
           == ReleaseOne(Released(Refs(old(blocks)), uncached, cached), Hashes(old(blocks)), caching, b)
    {
      uncached', cached' := uncached, cached;
      blocks := blocks[b := blocks[b].(refCnt := blocks[b].refCnt - 1)];
      assert Refs(blocks) == Refs(old(blocks))[b := Refs(old(blocks))[b] - 1];
      if blocks[b].refCnt == 0 {
        if blocks[b].hash == HASH_NONE || !caching { uncached' := uncached + [b]; } else { cached' := cached + [b]; }
      }
    }

    method CacheBlock(b: nat, hash: Hash, tokens: seq<Token>)
      requires Valid() && b < |blocks| && hash != HASH_NONE
      modifies this`blocks, this`blockTokens, this`hashToBlock
      ensures Valid() && Value() == Cache(old(Value()), caching, b, hash, tokens)
    {
      if !caching || blocks[b].hash != HASH_NONE { return; }
      blocks := blocks[b := blocks[b].(hash := hash)];
      blockTokens := blockTokens[b := tokens];
      hashToBlock := hashToBlock + multiset{(hash, b)};
      SameListOk(old(blocks), blocks, free, head, tail);
      assert Value() == Cache(old(Value()), caching, b, hash, tokens);
    }

    /** Forgets every registration, but only when no block is in use. */
    method ResetPrefixCache() returns (ok: bool)
      requires Valid()
      modifies this`blocks, this`hashToBlock
      ensures Valid() && ok == (|old(Value()).free| == |blocks|)
      ensures !ok ==> Value() == old(Value())
      ensures ok ==> Value() == old(Value()).(hash := seq(|blocks|, _ => HASH_NONE))
    {
      if nFree != |blocks| { return false; }
      for b := 0 to |blocks|
        invariant |blocks| == |old(blocks)|
        invariant forall c :: 0 <= c < |blocks| ==>
          blocks[c] == if c < b then old(blocks)[c].(hash := HASH_NONE) else old(blocks)[c]
      {
        blocks := blocks[b := blocks[b].(hash := HASH_NONE)];
      }
      hashToBlock := multiset{};
      ok := true;
      SameListOk(old(blocks), blocks, free, head, tail);
      assert Refs(blocks) == Refs(old(blocks));
    }
  }

  /** Block free[k] is bypassed: its neighbours point at each other, everything else is as before. */
  ghost predicate Bypassed(s: seq<Block>, free: seq<nat>, k: nat, s': seq<Block>)
    requires k < |free| && free[k] < |s|
  {
    && |s'| == |s| && !s'[free[k]].inFree
    && forall i {:trigger s'[i]} :: 0 <= i < |s| && i != free[k] ==>
      && s'[i].inFree == s[i].inFree
      && s'[i].next == (if i == At(free, k - 1) then At(free, k + 1) else s[i].next)
      && s'[i].prev == (if i == At(free, k + 1) then At(free, k - 1) else s[i].prev)
  }

  /** Two block arrays that differ in reference counts at most. */
  ghost predicate SameLinks(a: seq<Block>, b: seq<Block>) {
    |a| == |b| && forall i :: 0 <= i < |a| ==> b[i] == a[i].(refCnt := b[i].refCnt)
  }

  lemma SameLinksOk(a: seq<Block>, b: seq<Block>, free: seq<nat>, head: int, tail: int, table: multiset<(Hash, nat)>)
    requires SameLinks(a, b) && Linked(a, free, head, tail) && Indexed(a, table)
    ensures Linked(b, free, head, tail) && Indexed(b, table)
  {
    SameListOk(a, b, free, head, tail);
  }

  lemma SameListOk(a: seq<Block>, b: seq<Block>, free: seq<nat>, head: int, tail: int)
    requires |a| == |b| && forall i :: 0 <= i < |a| ==> b[i] == a[i].(refCnt := b[i].refCnt, hash := b[i].hash)
    requires Linked(a, free, head, tail)
    ensures Linked(b, free, head, tail)
  {
    OpenLinks(a, free, head, tail);
    OpenLinks(b, free, head, tail);
  }

  lemma SameDataOk(a: seq<Block>, b: seq<Block>, table: multiset<(Hash, nat)>)
    requires SameData(a, b) && Indexed(a, table)
    ensures Indexed(b, table) && Refs(a) == Refs(b) && Hashes(a) == Hashes(b)
  {
  }

  /** Released blocks are distinct, in range and not yet on the free list. */
  lemma ReleasedApart(v: View, caching: bool, bs: seq<nat>)
    requires PoolOk(v) && CanRelease(v.ref, bs)
    ensures var p := Release(v.ref, v.hash, caching, bs);
      && NoDup(p.uncached) && NoDup(p.cached) && (forall b :: b in p.uncached ==> b !in p.cached)
      && (forall b :: b in p.uncached || b in p.cached ==> b < |v.ref| && b !in v.free)
  {
    ReleaseFacts(v.ref, v.hash, caching, bs);
    forall b | b in bs ensures b < |v.ref| && b !in v.free {
      assert multiset(bs)[b] > 0;
    }
  }

  /** Block b is appended: it points back at the old tail, which points at it. */
  lemma PushBackOk(s: seq<Block>, free: seq<nat>, head: int, tail: int, b: nat, s': seq<Block>)
    requires Links(s, free, head, tail) && b < |s| && b !in free && |s'| == |s|
    requires s'[b].prev == tail && s'[b].next == -1 && s'[b].inFree
    requires forall i {:trigger s'[i]} :: 0 <= i < |s| && i != b ==>
      s'[i].inFree == s[i].inFree && s'[i].prev == s[i].prev && s'[i].next == (if i == tail then b else s[i].next)
    ensures Links(s', free + [b], if tail >= 0 then head else b, b)
  {
    var f: seq<nat> := free + [b];
    forall i | 0 <= i < |f|
      ensures f[i] < |s'| && s'[f[i]].prev == At(f, i - 1) && s'[f[i]].next == At(f, i + 1)
    {
      if i < |free| { assert f[i] == free[i] && s[free[i]].prev == At(free, i - 1) && s[free[i]].next == At(free, i + 1); }
    }
  }

  lemma PushFrontOk(s: seq<Block>, free: seq<nat>, head: int, tail: int, b: nat, s': seq<Block>)
    requires Links(s, free, head, tail) && b < |s| && b !in free && |s'| == |s|
    requires s'[b].prev == -1 && s'[b].next == head && s'[b].inFree
    requires forall i {:trigger s'[i]} :: 0 <= i < |s| && i != b ==>
      s'[i].inFree == s[i].inFree && s'[i].next == s[i].next && s'[i].prev == (if i == head then b else s[i].prev)
    ensures Links(s', [b] + free, b, if head >= 0 then tail else b)
  {
    PushFrontLinks(s, free, head, tail, b, s');
    PushFrontMembers(s, free, b, s');
  }

  lemma PushFrontMembers(s: seq<Block>, free: seq<nat>, b: nat, s': seq<Block>)
    requires NoDup(free) && b !in free && |s'| == |s| && b < |s| && s'[b].inFree
    requires forall i :: 0 <= i < |s| && i != b ==> s'[i].inFree == s[i].inFree
    requires forall i :: 0 <= i < |s| ==> (s[i].inFree <==> i in free)
    ensures NoDup([b] + free) && forall i :: 0 <= i < |s'| ==> (s'[i].inFree <==> i in [b] + free)
  {
  }

  lemma PushFrontLinks(s: seq<Block>, free: seq<nat>, head: int, tail: int, b: nat, s': seq<Block>)
    requires Links(s, free, head, tail) && b < |s| && b !in free && |s'| == |s|
    requires s'[b].prev == -1 && s'[b].next == head
    requires forall i {:trigger s'[i]} :: 0 <= i < |s| && i != b ==>
      s'[i].next == s[i].next && s'[i].prev == (if i == head then b else s[i].prev)
    ensures var f: seq<nat> := [b] + free;
      && (forall i :: 0 <= i < |f| ==> f[i] < |s'|)
      && (forall i {:trigger s'[f[i]]} :: 0 <= i < |f| ==> s'[f[i]].prev == At(f, i - 1))
      && (forall i {:trigger s'[f[i]]} :: 0 <= i < |f| ==> s'[f[i]].next == At(f, i + 1))
  {
    var f: seq<nat> := [b] + free;
    forall i | 0 <= i < |f|
      ensures f[i] < |s'| && s'[f[i]].prev == At(f, i - 1) && s'[f[i]].next == At(f, i + 1)
    {
      if i > 0 { PushFrontAt(s, free, head, tail, b, s', i - 1); }
    }
  }

  lemma PushFrontAt(s: seq<Block>, free: seq<nat>, head: int, tail: int, b: nat, s': seq<Block>, j: nat)
    requires Links(s, free, head, tail) && b < |s| && b !in free && |s'| == |s| && j < |free|
    requires forall i {:trigger s'[i]} :: 0 <= i < |s| && i != b ==>
      s'[i].next == s[i].next && s'[i].prev == (if i == head then b else s[i].prev)
    ensures var f: seq<nat> := [b] + free;
      && f[j + 1] == free[j] < |s'| && s'[f[j + 1]].prev == At(f, j) && s'[f[j + 1]].next == At(f, j + 2)
  {
    assert s[free[j]].prev == At(free, j - 1) && s[free[j]].next == At(free, j + 1);
  }

  lemma SuffixStep(u: seq<nat>, f: seq<nat>, i: nat)
    requires i < |u| && NoDup(u) && forall b :: b in u ==> b !in f
    ensures u[i] in u && u[i] !in u[i + 1..] + f && u[i..] + f == [u[i]] + (u[i + 1..] + f)
  {
  }

  lemma PrefixStep(f: seq<nat>, c: seq<nat>, j: nat)
    requires j < |c| && NoDup(c) && forall b :: b in c ==> b !in f
    ensures c[j] in c && c[j] !in f + c[..j] && f + c[..j + 1] == (f + c[..j]) + [c[j]]
  {
  }

  lemma AllFresh(a: seq<Block>, b: seq<Block>)
    requires SameData(a, b) && forall i :: 0 <= i < |a| ==> a[i].refCnt == 0 && a[i].hash == HASH_NONE
    ensures forall i :: 0 <= i < |b| ==> Refs(b)[i] == 0 && Hashes(b)[i] == HASH_NONE
    ensures Indexed(b, multiset{})
  {
    NothingIndexed(b);
  }

  lemma NothingIndexed(blocks: seq<Block>)
    requires forall b :: 0 <= b < |blocks| ==> blocks[b].hash == HASH_NONE
    ensures Indexed(blocks, multiset{})
  {
  }

  lemma FreshOk(v: View)
    requires |v.ref| == |v.hash| == |v.toks| == |v.free|
    requires forall i :: 0 <= i < |v.free| ==> v.free[i] == i && v.ref[i] == 0
    ensures PoolOk(v)
  {
    assert forall b :: 0 <= b < |v.ref| ==> v.free[b] in v.free;
  }

  lemma LinkBounds(s: seq<Block>, free: seq<nat>, head: int, tail: int, k: nat)
    requires Links(s, free, head, tail) && k < |free|
    ensures var x := s[free[k]];
      && x.prev == At(free, k - 1) && x.next == At(free, k + 1) && x.inFree
      && -1 <= x.prev < |s| && -1 <= x.next < |s| && x.prev != free[k] && x.next != free[k]
      && (x.prev >= 0 ==> x.prev != x.next)
      && (x.prev == -1 <==> k == 0) && (x.next == -1 <==> k == |free| - 1)
  {
  }

  lemma BypassedLinks(s: seq<Block>, free: seq<nat>, head: int, tail: int, k: nat, s': seq<Block>, f: seq<nat>, i: nat)
    requires Links(s, free, head, tail) && k < |free| && Bypassed(s, free, k, s') && Skips(free, k, f)
    requires i < |f|
    ensures f[i] < |s'| && s'[f[i]].prev == At(f, i - 1) && s'[f[i]].next == At(f, i + 1)
  {
    var j := if i < k then i else i + 1;
    assert f[i] == free[j] && free[j] != free[k];
    assert s[free[j]].prev == At(free, j - 1) && s[free[j]].next == At(free, j + 1);
  }

  lemma UnlinkOk(s: seq<Block>, free: seq<nat>, head: int, tail: int, k: nat, s': seq<Block>, f: seq<nat>)
    requires Links(s, free, head, tail) && k < |free| && Bypassed(s, free, k, s') && Skips(free, k, f)
    ensures Links(s', f, if k == 0 then At(free, 1) else head, if k == |free| - 1 then At(free, k - 1) else tail)
  {
    SkipsFacts(free, k, f);
    forall i | 0 <= i < |f|
      ensures f[i] < |s'| && s'[f[i]].prev == At(f, i - 1) && s'[f[i]].next == At(f, i + 1)
    {
      BypassedLinks(s, free, head, tail, k, s', f, i);
    }
  }

  /** Relinking changes neither reference counts nor hashes. */
  ghost predicate SameData(a: seq<Block>, b: seq<Block>) {
    |a| == |b| && forall i :: 0 <= i < |a| ==> b[i].refCnt == a[i].refCnt && b[i].hash == a[i].hash
  }
}
