/** Gather attention: sequences with equally many batch tokens are attended together over gathered copies of their cells. */
module GatherAttention {
  import opened Types
  import opened Attention

  /** T tokens of each of |seqs| sequences, from batch token tok0 on; L gathered cells each. */
  datatype Group = Group(tok0: nat, T: nat, seqs: seq<nat>, L: nat)

  /** The tokens of a sequence are a contiguous range of the batch. */
  predicate Contiguous(b: Batch) {
    forall i, j, k :: 0 <= i < j < k < |b.seqIdx| && b.seqIdx[i] == b.seqIdx[k] ==> b.seqIdx[j] == b.seqIdx[i]
  }

  // ---- the extent of each sequence ----

  /** Among the first n tokens, sequence s has exactly those from tok0 on, nTok many. */
  ghost predicate Extent(b: Batch, n: nat, s: nat, tok0: int, nTok: nat)
    requires n <= |b.seqIdx|
  {
    (nTok > 0 ==> 0 <= tok0 && tok0 + nTok <= n) &&
    forall i :: 0 <= i < n ==> (b.seqIdx[i] == s <==> nTok > 0 && tok0 <= i < tok0 + nTok)
  }

  ghost predicate Extents(b: Batch, n: nat, tok0: seq<int>, nTok: seq<nat>)
    requires n <= |b.seqIdx|
  {
    |tok0| == |nTok| == |b.seqs| && forall s :: 0 <= s < |b.seqs| ==> Extent(b, n, s, tok0[s], nTok[s])
  }

  lemma ExtentMore(b: Batch, i: nat, s: nat, tok0: int, nTok: nat)
    requires i < |b.seqIdx| && Contiguous(b) && Extent(b, i, s, tok0, nTok)
    ensures b.seqIdx[i] != s ==> Extent(b, i + 1, s, tok0, nTok)
    ensures b.seqIdx[i] == s ==> Extent(b, i + 1, s, if nTok == 0 then i else Min(tok0, i), nTok + 1)
  {
    if b.seqIdx[i] == s && nTok > 0 {
      assert b.seqIdx[tok0 + nTok - 1] == s;
      assert b.seqIdx[i - 1] == s;
    }
  }

  /** Token counts and first tokens, in one pass over the batch. */
  method Count(b: Batch) returns (tok0: seq<int>, nTok: seq<nat>)
    requires BatchOk(b) && Contiguous(b) && |b.pos| <= 0xffff_ffff
    ensures Extents(b, |b.seqIdx|, tok0, nTok)
  {
    tok0, nTok := seq(|b.seqs|, s => 0xffff_ffff), seq(|b.seqs|, s => 0);
    for i := 0 to |b.seqIdx|
      invariant Extents(b, i, tok0, nTok) && forall s :: 0 <= s < |b.seqs| && nTok[s] == 0 ==> tok0[s] == 0xffff_ffff
    {
      var s := b.seqIdx[i];
      var first, count := tok0[s := Min(tok0[s], i)], nTok[s := nTok[s] + 1];
      forall r | 0 <= r < |b.seqs| ensures Extent(b, i + 1, r, first[r], count[r]) { ExtentMore(b, i, r, tok0[r], nTok[r]); }
      tok0, nTok := first, count;
    }
  }

  // ---- batch order ----

  ghost predicate Ordered(order: seq<nat>, tok0: seq<int>) {
    (forall k :: 0 <= k < |order| ==> order[k] < |tok0|) &&
    forall j, k :: 0 <= j < k < |order| ==> tok0[order[j]] <= tok0[order[k]]
  }

  ghost predicate Active(order: seq<nat>, nTok: seq<nat>, n: nat)
    requires n <= |nTok|
  {
    forall s: nat :: s in order <==> s < n && nTok[s] > 0
  }

  /** The sequences that have tokens, sorted by their first token. */
  method Order(nTok: seq<nat>, tok0: seq<int>) returns (order: seq<nat>)
    requires |nTok| == |tok0|
    ensures Ordered(order, tok0) && NoDup(order) && Active(order, nTok, |nTok|)
  {
    order := [];
    for s := 0 to |nTok|
      invariant Ordered(order, tok0) && NoDup(order) && Active(order, nTok, s)
    {
      if nTok[s] > 0 { order := Insert(order, tok0, s); }
    }
  }

  method Insert(order: seq<nat>, tok0: seq<int>, s: nat) returns (r: seq<nat>)
    requires Ordered(order, tok0) && NoDup(order) && s !in order && s < |tok0|
    ensures Ordered(r, tok0) && NoDup(r) && forall x :: x in r <==> x == s || x in order
  {
    var k := 0;
    while k < |order| && tok0[order[k]] <= tok0[s]
      invariant k <= |order| && forall j :: 0 <= j < k ==> tok0[order[j]] <= tok0[s]
    {
      k := k + 1;
    }
    r := order[..k] + [s] + order[k..];
    assert order == order[..k] + order[k..];
    InsertedNoDup(order, s, k);
    InsertedOrder(order, tok0, s, k);
  }

  function Inserted(order: seq<nat>, s: nat, k: nat): (r: seq<nat>)
    requires k <= |order|
    ensures |r| == |order| + 1 && r[k] == s
    ensures forall j :: 0 <= j < |r| && j != k ==> r[j] == order[if j < k then j else j - 1]
  {
    order[..k] + [s] + order[k..]
  }

  lemma InsertedNoDup(order: seq<nat>, s: nat, k: nat)
    requires k <= |order| && NoDup(order) && s !in order
    ensures NoDup(Inserted(order, s, k))
  {
    var r := Inserted(order, s, k);
    forall i, j | 0 <= i < j < |r| ensures r[i] != r[j] {
      if i != k { assert r[i] in order; }
      if j != k { assert r[j] in order; }
    }
  }

  lemma InsertedOrder(order: seq<nat>, tok0: seq<int>, s: nat, k: nat)
    requires k <= |order| && Ordered(order, tok0) && s < |tok0|
    requires (forall j :: 0 <= j < k ==> tok0[order[j]] <= tok0[s]) && (k < |order| ==> tok0[order[k]] > tok0[s])
    ensures Ordered(Inserted(order, s, k), tok0)
  {
  }

  function EndOf(tok0: seq<int>, nTok: seq<nat>, s: nat): (e: int)
    requires s < |tok0| == |nTok|
  {
    tok0[s] + nTok[s]
  }

  /** Each sequence starts where the one before it ends. */
  ghost predicate Tiled(b: Batch, tok0: seq<int>, nTok: seq<nat>, order: seq<nat>) {
    && |tok0| == |nTok| && (forall k :: 0 <= k < |order| ==> order[k] < |tok0| && nTok[order[k]] > 0)
    && (forall k :: 0 <= k < |order| ==> tok0[order[k]] == StartAt(tok0, nTok, order, k))
    && StartAt(tok0, nTok, order, |order|) == |b.seqIdx|
  }

  function StartAt(tok0: seq<int>, nTok: seq<nat>, order: seq<nat>, k: nat): (t: int)
    requires |tok0| == |nTok| && k <= |order| && forall j :: 0 <= j < |order| ==> order[j] < |tok0|
  {
    if k == 0 then 0 else EndOf(tok0, nTok, order[k - 1])
  }

  /** The token at the end of one sequence is the first of the next, or the batch is over. */
  lemma NextStarts(b: Batch, tok0: seq<int>, nTok: seq<nat>, order: seq<nat>, e: nat) returns (s: nat)
    requires BatchOk(b) && Extents(b, |b.seqIdx|, tok0, nTok) && e < |b.seqIdx|
    requires e == 0 || exists r :: 0 <= r < |b.seqs| && nTok[r] > 0 && EndOf(tok0, nTok, r) == e
    ensures s < |b.seqs| && nTok[s] > 0 && tok0[s] == e
  {
    s := b.seqIdx[e];
    assert Extent(b, |b.seqIdx|, s, tok0[s], nTok[s]);
    if e > 0 {
      var r :| 0 <= r < |b.seqs| && nTok[r] > 0 && EndOf(tok0, nTok, r) == e;
      assert Extent(b, |b.seqIdx|, r, tok0[r], nTok[r]);
      assert b.seqIdx[e - 1] == r;
    }
  }

  lemma OrderTiles(b: Batch, tok0: seq<int>, nTok: seq<nat>, order: seq<nat>)
    requires BatchOk(b) && Extents(b, |b.seqIdx|, tok0, nTok) && Ordered(order, tok0) && NoDup(order)
    requires Active(order, nTok, |nTok|)
    ensures Tiled(b, tok0, nTok, order)
  {
    forall k | 0 <= k < |order| ensures order[k] < |tok0| && nTok[order[k]] > 0 { assert order[k] in order; }
    forall k | 0 <= k < |order| ensures tok0[order[k]] == StartAt(tok0, nTok, order, k) {
      StartRight(b, tok0, nTok, order, k);
    }
    EndRight(b, tok0, nTok, order);
  }

  /** No token of sequence s is before the end of an earlier one. */
  lemma Disjoint(b: Batch, tok0: seq<int>, nTok: seq<nat>, r: nat, s: nat)
    requires Extents(b, |b.seqIdx|, tok0, nTok) && r < |b.seqs| && s < |b.seqs| && r != s
    requires nTok[r] > 0 && nTok[s] > 0 && tok0[r] <= tok0[s]
    ensures EndOf(tok0, nTok, r) <= tok0[s]
  {
    assert Extent(b, |b.seqIdx|, r, tok0[r], nTok[r]) && Extent(b, |b.seqIdx|, s, tok0[s], nTok[s]);
    assert b.seqIdx[tok0[s]] == s;
  }

  lemma StartRight(b: Batch, tok0: seq<int>, nTok: seq<nat>, order: seq<nat>, k: nat)
    requires BatchOk(b) && Extents(b, |b.seqIdx|, tok0, nTok) && Ordered(order, tok0) && NoDup(order) && k < |order|
    requires Active(order, nTok, |nTok|)
    ensures tok0[order[k]] == StartAt(tok0, nTok, order, k)
  {
    var s := order[k];
    assert s in order;
    assert Extent(b, |b.seqIdx|, s, tok0[s], nTok[s]);
    if k > 0 {
      var r := order[k - 1];
      assert r in order;
      Disjoint(b, tok0, nTok, r, s);
      var e := EndOf(tok0, nTok, r);
      assert Extent(b, |b.seqIdx|, r, tok0[r], nTok[r]);
      var q := NextStarts(b, tok0, nTok, order, e);
      NotBetween(tok0, nTok, order, k, q);
    } else {
      var q := NextStarts(b, tok0, nTok, order, 0);
      NotBetween(tok0, nTok, order, k, q);
    }
  }

  /** A sequence that starts at or after the end of the one before order[k] does not start before order[k]. */
  lemma NotBetween(tok0: seq<int>, nTok: seq<nat>, order: seq<nat>, k: nat, q: nat)
    requires |tok0| == |nTok| && Ordered(order, tok0) && k < |order| && q in order && order[k] < |tok0|
    requires k > 0 ==> nTok[order[k - 1]] > 0 && tok0[q] >= EndOf(tok0, nTok, order[k - 1])
    ensures tok0[order[k]] <= tok0[q]
  {
    var j :| 0 <= j < |order| && order[j] == q;
  }

  lemma LastIsLast(tok0: seq<int>, order: seq<nat>, q: nat)
    requires Ordered(order, tok0) && q in order
    ensures order[|order| - 1] < |tok0| && q < |tok0| && tok0[q] <= tok0[order[|order| - 1]]
  {
    var j :| 0 <= j < |order| && order[j] == q;
  }

  lemma EndRight(b: Batch, tok0: seq<int>, nTok: seq<nat>, order: seq<nat>)
    requires BatchOk(b) && Extents(b, |b.seqIdx|, tok0, nTok) && Ordered(order, tok0) && NoDup(order)
    requires Active(order, nTok, |nTok|)
    ensures StartAt(tok0, nTok, order, |order|) == |b.seqIdx|
  {
    if order == [] {
      if |b.seqIdx| > 0 { var q := NextStarts(b, tok0, nTok, order, 0); }
    } else {
      var r := order[|order| - 1];
      assert r in order;
      assert Extent(b, |b.seqIdx|, r, tok0[r], nTok[r]);
      var e := EndOf(tok0, nTok, r);
      if e < |b.seqIdx| {
        var q := NextStarts(b, tok0, nTok, order, e);
        LastIsLast(tok0, order, q);
      }
    }
  }

  // ---- groups ----

  function GroupEnd(g: Group): (e: nat) { g.tok0 + Times(|g.seqs|, g.T) }

  function GroupStart(groups: seq<Group>, k: nat): (t: nat)
    requires k <= |groups|
  {
    if k == 0 then 0 else GroupEnd(groups[k - 1])
  }

  ghost predicate Member(b: Batch, tok0: seq<int>, nTok: seq<nat>, g: Group, si: nat)
    requires |tok0| == |nTok| == |b.seqs| && si < |g.seqs|
  {
    var s := g.seqs[si];
    s < |b.seqs| && nTok[s] == g.T && tok0[s] == g.tok0 + Times(si, g.T) && |b.seqs[s].cells| <= g.L
  }

  ghost predicate Made(b: Batch, tok0: seq<int>, nTok: seq<nat>, g: Group)
    requires |tok0| == |nTok| == |b.seqs|
  {
    g.T > 0 && forall si :: 0 <= si < |g.seqs| ==> Member(b, tok0, nTok, g, si)
  }

  ghost predicate StartsRight(groups: seq<Group>, k: nat)
    requires k < |groups|
  {
    groups[k].tok0 == GroupStart(groups, k)
  }

  ghost predicate Chained(groups: seq<Group>) {
    forall k :: 0 <= k < |groups| ==> StartsRight(groups, k)
  }

  ghost predicate Building(b: Batch, tok0: seq<int>, nTok: seq<nat>, groups: seq<Group>, end: int)
    requires |tok0| == |nTok| == |b.seqs|
  {
    && (forall k :: 0 <= k < |groups| ==> Made(b, tok0, nTok, groups[k]))
    && Chained(groups) && GroupStart(groups, |groups|) == end
  }

  lemma NewGroup(b: Batch, tok0: seq<int>, nTok: seq<nat>, groups: seq<Group>, s: nat)
    requires |tok0| == |nTok| == |b.seqs| && s < |b.seqs| && nTok[s] > 0 && tok0[s] >= 0
    requires Building(b, tok0, nTok, groups, tok0[s])
    ensures Building(b, tok0, nTok, groups + [Group(tok0[s], nTok[s], [s], |b.seqs[s].cells|)], EndOf(tok0, nTok, s))
  {
    var g := Group(tok0[s], nTok[s], [s], |b.seqs[s].cells|);
    assert Member(b, tok0, nTok, g, 0);
    assert Times(1, nTok[s]) == nTok[s];
    var gs := groups + [g];
    forall k | 0 <= k < |gs| ensures Made(b, tok0, nTok, gs[k]) && StartsRight(gs, k) {
      if k < |groups| { assert gs[k] == groups[k] && StartsRight(groups, k); }
    }
  }

  lemma Joined(b: Batch, tok0: seq<int>, nTok: seq<nat>, groups: seq<Group>, s: nat)
    requires |tok0| == |nTok| == |b.seqs| && s < |b.seqs| && groups != [] && groups[|groups| - 1].T == nTok[s]
    requires Building(b, tok0, nTok, groups, tok0[s])
    ensures var g := groups[|groups| - 1];
      Building(b, tok0, nTok, groups[|groups| - 1 := g.(seqs := g.seqs + [s], L := Max(g.L, |b.seqs[s].cells|))], EndOf(tok0, nTok, s))
  {
    var last := |groups| - 1;
    var g := groups[last];
    var g' := g.(seqs := g.seqs + [s], L := Max(g.L, |b.seqs[s].cells|));
    assert Made(b, tok0, nTok, g);
    forall si | 0 <= si < |g'.seqs| ensures Member(b, tok0, nTok, g', si) {
      if si < |g.seqs| { assert Member(b, tok0, nTok, g, si); }
    }
    var gs := groups[last := g'];
    forall k | 0 <= k < |gs| ensures Made(b, tok0, nTok, gs[k]) && StartsRight(gs, k) {
      assert StartsRight(groups, k);
      if k < last { assert gs[k] == groups[k]; }
    }
  }

  /** What attention needs of the groups: they tile the batch in order, and a row of a group is a token of its sequence. */
  ghost predicate Tiles(b: Batch, groups: seq<Group>) {
    && Chained(groups) && GroupStart(groups, |groups|) == |b.seqIdx|
    && (forall k :: 0 <= k < |groups| ==> GroupOk(b, groups[k]))
  }

  ghost predicate GroupOk(b: Batch, g: Group) {
    && g.T > 0 && g.L >= 256 && g.L % 256 == 0
    && (forall si :: 0 <= si < |g.seqs| ==> g.seqs[si] < |b.seqs| && |b.seqs[g.seqs[si]].cells| <= g.L)
    && (forall si, t :: 0 <= si < |g.seqs| && 0 <= t < g.T ==> RowOf(b, g, si, t))
  }

  function TokenAt(g: Group, si: nat, t: nat): (i: nat) { g.tok0 + Times(si, g.T) + t }

  ghost predicate RowOf(b: Batch, g: Group, si: nat, t: nat)
    requires si < |g.seqs|
  {
    TokenAt(g, si, t) < |b.seqIdx| && b.seqIdx[TokenAt(g, si, t)] == g.seqs[si]
  }

  /** attn_groups */
  method AttnGroups(b: Batch) returns (groups: seq<Group>)
    requires BatchOk(b) && Contiguous(b) && |b.pos| <= 0xffff_ffff
    ensures Tiles(b, groups)
  {
    var tok0, nTok := Count(b);
    var order := Order(nTok, tok0);
    OrderTiles(b, tok0, nTok, order);
    groups := [];
    for k := 0 to |order|
      invariant Building(b, tok0, nTok, groups, StartAt(tok0, nTok, order, k))
    {
      var s := order[k];
      assert Extent(b, |b.seqIdx|, s, tok0[s], nTok[s]);
      if groups != [] && groups[|groups| - 1].T == nTok[s] {
        Joined(b, tok0, nTok, groups, s);
        var g := groups[|groups| - 1];
        groups := groups[|groups| - 1 := g.(seqs := g.seqs + [s], L := Max(g.L, |b.seqs[s].cells|))];
      } else {
        NewGroup(b, tok0, nTok, groups, s);
        groups := groups + [Group(tok0[s], nTok[s], [s], |b.seqs[s].cells|)];
      }
    }
    groups := RoundUp(b, tok0, nTok, groups);
  }

  function Padded(g: Group): (r: Group) { g.(L := Max(256, (g.L + 255) / 256 * 256)) }

  method RoundUp(b: Batch, ghost tok0: seq<int>, ghost nTok: seq<nat>, groups: seq<Group>) returns (r: seq<Group>)
    requires BatchOk(b) && Extents(b, |b.seqIdx|, tok0, nTok) && Building(b, tok0, nTok, groups, |b.seqIdx|)
    ensures Tiles(b, r)
  {
    r := [];
    for k := 0 to |groups|
      invariant |r| == k && forall i :: 0 <= i < k ==> r[i] == Padded(groups[i])
    {
      r := r + [Padded(groups[k])];
    }
    forall k | 0 <= k < |r| ensures StartsRight(r, k) && GroupOk(b, r[k]) {
      assert StartsRight(groups, k);
      PaddedOk(b, tok0, nTok, groups[k]);
    }
  }

  lemma PaddedOk(b: Batch, tok0: seq<int>, nTok: seq<nat>, g: Group)
    requires Extents(b, |b.seqIdx|, tok0, nTok) && Made(b, tok0, nTok, g)
    ensures GroupOk(b, Padded(g))
  {
    var r := Padded(g);
    assert r.L % 256 == 0 && r.L >= g.L;
    forall si | 0 <= si < |r.seqs| ensures r.seqs[si] < |b.seqs| && |b.seqs[r.seqs[si]].cells| <= r.L {
      assert Member(b, tok0, nTok, g, si);
    }
    forall si, t | 0 <= si < |r.seqs| && 0 <= t < r.T ensures RowOf(b, r, si, t) {
      assert Member(b, tok0, nTok, g, si);
      var s := g.seqs[si];
      assert Extent(b, |b.seqIdx|, s, tok0[s], nTok[s]);
      assert b.seqIdx[tok0[s] + t] == s;
    }
  }

  /** Every token of the batch is a row of a group. */
  lemma {:induction false} RowOfToken(b: Batch, groups: seq<Group>, n: nat, i: nat) returns (k: nat, si: nat, t: nat)
    requires Tiles(b, groups) && n <= |groups| && i < GroupStart(groups, n)
    ensures k < n && si < |groups[k].seqs| && t < groups[k].T && i == TokenAt(groups[k], si, t)
    decreases n
  {
    var g := groups[n - 1];
    assert StartsRight(groups, n - 1) && GroupOk(b, g);
    if i < g.tok0 {
      k, si, t := RowOfToken(b, groups, n - 1, i);
    } else {
      k := n - 1;
      si, t := RowIn(|g.seqs|, g.T, i - g.tok0);
    }
  }

  lemma {:induction false} RowIn(n: nat, size: nat, d: nat) returns (si: nat, t: nat)
    requires d < Times(n, size)
    ensures si < n && t < size && d == Times(si, size) + t
    decreases n
  {
    if d < Times(n - 1, size) {
      si, t := RowIn(n - 1, size, d);
    } else {
      si, t := n - 1, d - Times(n - 1, size);
    }
  }

  // ---- the gathered cells and their masks ----

  ghost predicate IndexIs(idx: array2<nat>, b: Batch, g: Group)
    reads idx
    requires BatchOk(b) && GroupOk(b, g)
  {
    idx.Length0 == |g.seqs| && idx.Length1 == g.L &&
    forall si, j :: 0 <= si < |g.seqs| && 0 <= j < g.L ==>
      (j < |b.seqs[g.seqs[si]].cells| ==> idx[si, j] == b.seqs[g.seqs[si]].cells[j])
  }

  /** The cells of each sequence, filled up with its first cell. */
  method GatherIndex(b: Batch, g: Group) returns (idx: array2<nat>)
    requires BatchOk(b) && GroupOk(b, g) && forall si :: 0 <= si < |g.seqs| ==> |b.seqs[g.seqs[si]].cells| > 0
    ensures fresh(idx) && IndexIs(idx, b, g)
  {
    idx := new nat[|g.seqs|, g.L]((i, j) => 0);
    for si := 0 to |g.seqs|
      invariant forall r, j :: 0 <= r < si && 0 <= j < g.L ==> (j < |b.seqs[g.seqs[r]].cells| ==> idx[r, j] == b.seqs[g.seqs[r]].cells[j])
    {
      var cells := b.seqs[g.seqs[si]].cells;
      for j := 0 to g.L
        invariant forall r, j :: 0 <= r < si && 0 <= j < g.L ==> (j < |b.seqs[g.seqs[r]].cells| ==> idx[r, j] == b.seqs[g.seqs[r]].cells[j])
        invariant forall k :: 0 <= k < j ==> (k < |cells| ==> idx[si, k] == cells[k])
      {
        idx[si, j] := if j < |cells| then cells[j] else cells[0];
      }
    }
  }

  predicate Open(b: Batch, hp: Hparams, swa: bool, g: Group, si: nat, t: nat, j: nat)
    requires BatchOk(b) && si < |g.seqs| && g.seqs[si] < |b.seqs| && TokenAt(g, si, t) < |b.pos|
  {
    var q := b.seqs[g.seqs[si]];
    j < |q.cells| && Sees(hp, swa, q.cellPos[j], b.pos[TokenAt(g, si, t)])
  }

  ghost predicate GMaskIs(m: array3<bool>, b: Batch, hp: Hparams, swa: bool, g: Group)
    reads m
    requires BatchOk(b) && GroupOk(b, g)
  {
    m.Length0 == |g.seqs| && m.Length1 == g.T && m.Length2 == g.L &&
    forall si, t, j :: 0 <= si < |g.seqs| && 0 <= t < g.T && 0 <= j < g.L ==>
      RowOf(b, g, si, t) && (m[si, t, j] <==> Open(b, hp, swa, g, si, t, j))
  }

  /** fill_gather_mask */
  method FillGatherMask(b: Batch, hp: Hparams, swa: bool, g: Group) returns (m: array3<bool>)
    requires BatchOk(b) && GroupOk(b, g)
    ensures fresh(m) && GMaskIs(m, b, hp, swa, g)
  {
    m := new bool[|g.seqs|, g.T, g.L]((i, j, k) => false);
    for si := 0 to |g.seqs|
      invariant forall r, t, j :: si <= r < |g.seqs| && 0 <= t < g.T && 0 <= j < g.L ==> !m[r, t, j]
      invariant forall r, t, j :: 0 <= r < si && 0 <= t < g.T && 0 <= j < g.L ==>
        RowOf(b, g, r, t) && (m[r, t, j] <==> Open(b, hp, swa, g, r, t, j))
    {
      for t := 0 to g.T
        invariant forall r, u, j :: si < r < |g.seqs| && 0 <= u < g.T && 0 <= j < g.L ==> !m[r, u, j]
        invariant forall u, j :: t <= u < g.T && 0 <= j < g.L ==> !m[si, u, j]
        invariant forall r, u, j :: 0 <= r < si && 0 <= u < g.T && 0 <= j < g.L ==>
          RowOf(b, g, r, u) && (m[r, u, j] <==> Open(b, hp, swa, g, r, u, j))
        invariant forall u, j :: 0 <= u < t && 0 <= j < g.L ==>
          RowOf(b, g, si, u) && (m[si, u, j] <==> Open(b, hp, swa, g, si, u, j))
      {
        FillGatherRow(b, hp, swa, g, si, t, m);
      }
    }
  }

  method FillGatherRow(b: Batch, hp: Hparams, swa: bool, g: Group, si: nat, t: nat, m: array3<bool>)
    requires BatchOk(b) && GroupOk(b, g) && si < |g.seqs| == m.Length0 && t < g.T == m.Length1 && m.Length2 == g.L
    requires forall j :: 0 <= j < g.L ==> !m[si, t, j]
    modifies m
    ensures RowOf(b, g, si, t) && forall j :: 0 <= j < g.L ==> (m[si, t, j] <==> Open(b, hp, swa, g, si, t, j))
    ensures forall r, u, j :: 0 <= r < m.Length0 && 0 <= u < m.Length1 && 0 <= j < g.L && (r != si || u != t) ==>
      m[r, u, j] == old(m[r, u, j])
  {
    assert RowOf(b, g, si, t);
    var q := b.seqs[g.seqs[si]];
    var p1 := b.pos[TokenAt(g, si, t)];
    for c := 0 to |q.cells|
      invariant forall j :: 0 <= j < g.L ==> (m[si, t, j] <==> j < c && Sees(hp, swa, q.cellPos[j], p1))
      invariant forall r, u, j :: 0 <= r < m.Length0 && 0 <= u < m.Length1 && 0 <= j < g.L && (r != si || u != t) ==>
        m[r, u, j] == old(m[r, u, j])
    {
      if !(hp.causal && q.cellPos[c] > p1) && !(swa && p1 - q.cellPos[c] >= hp.nSwa) { m[si, t, c] := true; }
    }
  }

  /** Gathered position j of row (si, t) is open and holds cell x. */
  ghost predicate Reaches(idx: array2<nat>, m: array3<bool>, si: nat, t: nat, j: nat, x: int)
    reads idx, m
    requires si < idx.Length0 == m.Length0 && t < m.Length1 && idx.Length1 == m.Length2
  {
    j < idx.Length1 && m[si, t, j] && idx[si, j] == x
  }

  /** Row (si, t) is a token of its sequence, and reaches cell x exactly when that token attends it. */
  ghost predicate RowRight(b: Batch, hp: Hparams, swa: bool, g: Group, idx: array2<nat>, m: array3<bool>, si: nat, t: nat, x: int)
    reads idx, m
    requires BatchOk(b) && si < |g.seqs| == idx.Length0 == m.Length0 && t < m.Length1 && idx.Length1 == m.Length2
  {
    RowOf(b, g, si, t) && (Attends(b, hp, swa, TokenAt(g, si, t), x) <==> exists j :: Reaches(idx, m, si, t, j, x))
  }

  /** The gathered cells and the mask layer il reads: every row reaches exactly the cells its token is to attend. */
  method GatherLayer(b: Batch, hp: Hparams, il: nat, g: Group) returns (idx: array2<nat>, m: array3<bool>)
    requires BatchOk(b) && GroupOk(b, g) && (HasSwaLayers(hp) ==> il < |hp.isSwa|)
    requires forall si :: 0 <= si < |g.seqs| ==> |b.seqs[g.seqs[si]].cells| > 0
    ensures idx.Length0 == m.Length0 == |g.seqs| && m.Length1 == g.T && idx.Length1 == m.Length2
    ensures forall si, t, x :: 0 <= si < |g.seqs| && 0 <= t < g.T ==> RowRight(b, hp, LayerSwa(hp, il), g, idx, m, si, t, x)
  {
    idx := GatherIndex(b, g);
    m := FillGatherMask(b, hp, hp.nSwa > 0 && !TwoMasks(hp), g);
    if TwoMasks(hp) {
      var window := FillGatherMask(b, hp, true, g);
      if hp.isSwa[il] { m := window; }
    }
    assert GMaskIs(m, b, hp, LayerSwa(hp, il), g);
    forall si, t, x | 0 <= si < |g.seqs| && 0 <= t < g.T
      ensures RowRight(b, hp, LayerSwa(hp, il), g, idx, m, si, t, x)
    {
      RowExact(b, hp, LayerSwa(hp, il), g, idx, m, si, t, x);
    }
  }

  lemma RowExact(b: Batch, hp: Hparams, swa: bool, g: Group, idx: array2<nat>, m: array3<bool>, si: nat, t: nat, x: int)
    requires BatchOk(b) && GroupOk(b, g) && IndexIs(idx, b, g) && GMaskIs(m, b, hp, swa, g) && si < |g.seqs| && t < g.T
    ensures RowRight(b, hp, swa, g, idx, m, si, t, x)
  {
    assert RowOf(b, g, si, t);
    var i := TokenAt(g, si, t);
    if Attends(b, hp, swa, i, x) {
      var c: nat :| Marks(b, hp, swa, i, c, x);
      assert Open(b, hp, swa, g, si, t, c);
      assert Reaches(idx, m, si, t, c, x);
    }
    if j: nat :| Reaches(idx, m, si, t, j, x) {
      assert Open(b, hp, swa, g, si, t, j);
      assert Marks(b, hp, swa, i, j, x);
    }
  }
}
