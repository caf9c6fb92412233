/** Which cells a query attends: the windowed mask and the paged kernel. */
module Attention {
  import opened Types

  /** The context of one sequence: its cells and the positions they hold. */
  datatype SeqInfo = SeqInfo(cells: seq<nat>, cellPos: seq<int>)

  /** Per token: its position and its sequence. */
  datatype Batch = Batch(pos: seq<int>, seqIdx: seq<nat>, seqs: seq<SeqInfo>)

  datatype Hparams = Hparams(nSwa: nat, isSwa: seq<bool>, causal: bool)

  predicate BatchOk(b: Batch) {
    && |b.pos| == |b.seqIdx| && (forall i :: 0 <= i < |b.seqIdx| ==> b.seqIdx[i] < |b.seqs|)
    && (forall s :: 0 <= s < |b.seqs| ==> |b.seqs[s].cells| == |b.seqs[s].cellPos|)
  }

  function SeqOf(b: Batch, i: nat): (q: SeqInfo)
    requires BatchOk(b) && i < |b.pos|
    ensures |q.cells| == |q.cellPos|
  {
    b.seqs[b.seqIdx[i]]
  }

  // ---- what is to be attended ----

  predicate HasSwaLayers(hp: Hparams) { true in hp.isSwa }

  /** Layer il looks at a sliding window: it is flagged, or no layer is and the model has a window at all. */
  predicate LayerSwa(hp: Hparams, il: nat) {
    hp.nSwa > 0 && (HasSwaLayers(hp) ==> il < |hp.isSwa| && hp.isSwa[il])
  }

  /** A query at p1 sees position p0. */
  predicate Sees(hp: Hparams, swa: bool, p0: int, p1: int) {
    (hp.causal ==> p0 <= p1) && (swa ==> p1 - p0 < hp.nSwa)
  }

  /** Entry c of token i's context is seen and lies in cell x. */
  predicate Marks(b: Batch, hp: Hparams, swa: bool, i: nat, c: nat, x: int)
    requires BatchOk(b) && i < |b.pos|
  {
    var q := SeqOf(b, i);
    c < |q.cells| && q.cells[c] == x && Sees(hp, swa, q.cellPos[c], b.pos[i])
  }

  /** Token i attends cell x of its own sequence. */
  ghost predicate Attends(b: Batch, hp: Hparams, swa: bool, i: nat, x: int)
    requires BatchOk(b) && i < |b.pos|
  {
    exists c :: Marks(b, hp, swa, i, c, x)
  }

  // ---- the window over the cells ----

  ghost predicate CellsIn(b: Batch, lo: int, hi: int) {
    forall s, c :: 0 <= s < |b.seqs| && 0 <= c < |b.seqs[s].cells| ==> lo <= b.seqs[s].cells[c] < hi
  }

  /** The smallest 256-aligned range over all cells, cut off at the end of the cache. */
  method Window(b: Batch, numCells: nat) returns (kvStart: nat, nKv: nat)
    requires CellsIn(b, 0, numCells) && exists s :: 0 <= s < |b.seqs| && |b.seqs[s].cells| > 0
    ensures kvStart % 256 == 0 && kvStart + nKv <= numCells && (nKv % 256 == 0 || kvStart + nKv == numCells)
    ensures CellsIn(b, kvStart, kvStart + nKv)
  {
    var lo, hi := CellBounds(b, numCells);
    ghost var s0 :| 0 <= s0 < |b.seqs| && |b.seqs[s0].cells| > 0;
    assert lo <= b.seqs[s0].cells[0] <= hi;
    kvStart := lo / 256 * 256;
    nKv := Min(numCells - kvStart, (hi + 1 - kvStart + 255) / 256 * 256);
  }

  method CellBounds(b: Batch, numCells: nat) returns (lo: nat, hi: int)
    requires CellsIn(b, 0, numCells)
    ensures CellsIn(b, lo, hi + 1) && hi < numCells
  {
    lo, hi := numCells, -1;
    for s := 0 to |b.seqs|
      invariant hi < numCells && forall r, k :: 0 <= r < s && 0 <= k < |b.seqs[r].cells| ==> lo <= b.seqs[r].cells[k] <= hi
    {
      for c := 0 to |b.seqs[s].cells|
        invariant hi < numCells && forall k :: 0 <= k < c ==> lo <= b.seqs[s].cells[k] <= hi
        invariant forall r, k :: 0 <= r < s && 0 <= k < |b.seqs[r].cells| ==> lo <= b.seqs[r].cells[k] <= hi
      {
        var x := b.seqs[s].cells[c];
        lo, hi := Min(lo, x), Max(hi, x);
      }
    }
  }

  // ---- the masks ----

  /** Mask m over [kvStart, kvStart + m.Length1) marks what each token sees. */
  ghost predicate MaskIs(m: array2<bool>, b: Batch, hp: Hparams, swa: bool, kvStart: nat)
    reads m
    requires BatchOk(b)
  {
    m.Length0 == |b.pos| &&
    forall i, j :: 0 <= i < m.Length0 && 0 <= j < m.Length1 ==> (m[i, j] <==> Attends(b, hp, swa, i, kvStart + j))
  }

  ghost predicate AttendsUpTo(b: Batch, hp: Hparams, swa: bool, i: nat, n: nat, x: int)
    requires BatchOk(b) && i < |b.pos|
  {
    exists c :: 0 <= c < n && Marks(b, hp, swa, i, c, x)
  }

  lemma OneMore(b: Batch, hp: Hparams, swa: bool, i: nat, n: nat, x: int)
    requires BatchOk(b) && i < |b.pos|
    ensures AttendsUpTo(b, hp, swa, i, n + 1, x) <==> AttendsUpTo(b, hp, swa, i, n, x) || Marks(b, hp, swa, i, n, x)
  {
  }

  /** fill_kq_mask */
  method FillKqMask(b: Batch, hp: Hparams, swa: bool, kvStart: nat, nKv: nat) returns (m: array2<bool>)
    requires BatchOk(b)
    ensures fresh(m) && m.Length1 == nKv && MaskIs(m, b, hp, swa, kvStart)
  {
    m := new bool[|b.pos|, nKv]((i, j) => false);
    for i := 0 to |b.pos|
      invariant forall r, j :: i <= r < m.Length0 && 0 <= j < nKv ==> !m[r, j]
      invariant forall r, j :: 0 <= r < i && 0 <= j < nKv ==> (m[r, j] <==> Attends(b, hp, swa, r, kvStart + j))
    {
      FillRow(b, hp, swa, kvStart, i, m);
    }
  }

  method FillRow(b: Batch, hp: Hparams, swa: bool, kvStart: nat, i: nat, m: array2<bool>)
    requires BatchOk(b) && i < |b.pos| == m.Length0 && forall j :: 0 <= j < m.Length1 ==> !m[i, j]
    modifies m
    ensures forall j :: 0 <= j < m.Length1 ==> (m[i, j] <==> Attends(b, hp, swa, i, kvStart + j))
    ensures forall r, j :: 0 <= r < m.Length0 && 0 <= j < m.Length1 && r != i ==> m[r, j] == old(m[r, j])
  {
    var q := SeqOf(b, i);
    for c := 0 to |q.cells|
      invariant forall j :: 0 <= j < m.Length1 ==> (m[i, j] <==> AttendsUpTo(b, hp, swa, i, c, kvStart + j))
      invariant forall r, j :: 0 <= r < m.Length0 && 0 <= j < m.Length1 && r != i ==> m[r, j] == old(m[r, j])
    {
      label Before:
      if !hp.causal || q.cellPos[c] <= b.pos[i] {
        if !(swa && b.pos[i] - q.cellPos[c] >= hp.nSwa) {
          var j := q.cells[c] - kvStart;
          if 0 <= j < m.Length1 { m[i, j] := true; }
        }
      }
      forall j | 0 <= j < m.Length1 ensures m[i, j] <==> AttendsUpTo(b, hp, swa, i, c + 1, kvStart + j) {
        OneMore(b, hp, swa, i, c, kvStart + j);
        assert old@Before(m[i, j]) <==> AttendsUpTo(b, hp, swa, i, c, kvStart + j);
      }
    }
  }

  /** Whether there is a second mask for the layers with a window. */
  predicate TwoMasks(hp: Hparams) { hp.nSwa > 0 && HasSwaLayers(hp) }

  /** The masks of a step: one for all layers, or one for the global layers and one for those with a window. */
  method KqMasks(b: Batch, hp: Hparams, kvStart: nat, nKv: nat) returns (main: array2<bool>, window: array2?<bool>)
    requires BatchOk(b)
    ensures main.Length1 == nKv && MaskIs(main, b, hp, hp.nSwa > 0 && !TwoMasks(hp), kvStart)
    ensures window != null <==> TwoMasks(hp)
    ensures window != null ==> window.Length1 == nKv && MaskIs(window, b, hp, true, kvStart)
  {
    main := FillKqMask(b, hp, hp.nSwa > 0 && !TwoMasks(hp), kvStart, nKv);
    window := null;
    if TwoMasks(hp) { window := FillKqMask(b, hp, true, kvStart, nKv); }
  }

  /** The mask layer il reads marks exactly the cells its tokens are to attend, and no such cell is outside the window. */
  method LayerMask(b: Batch, hp: Hparams, il: nat, kvStart: nat, nKv: nat) returns (m: array2<bool>)
    requires BatchOk(b) && CellsIn(b, kvStart, kvStart + nKv) && (HasSwaLayers(hp) ==> il < |hp.isSwa|)
    ensures m.Length0 == |b.pos| && m.Length1 == nKv
    ensures forall i, x :: 0 <= i < |b.pos| ==>
      (Attends(b, hp, LayerSwa(hp, il), i, x) <==> kvStart <= x < kvStart + nKv && m[i, x - kvStart])
  {
    var main, window := KqMasks(b, hp, kvStart, nKv);
    m := main;
    if window != null && hp.isSwa[il] { m := window; }
    forall i, x | 0 <= i < |b.pos|
      ensures Attends(b, hp, LayerSwa(hp, il), i, x) <==> kvStart <= x < kvStart + nKv && m[i, x - kvStart]
    {
      if Attends(b, hp, LayerSwa(hp, il), i, x) {
        var c: nat :| Marks(b, hp, LayerSwa(hp, il), i, c, x);
        assert b.seqs[b.seqIdx[i]].cells[c] == x;
      }
      if kvStart <= x < kvStart + nKv { assert kvStart + (x - kvStart) == x; }
    }
  }

  // ---- the paged kernel ----

  /** The window the kernel is given for layer il: zero means all positions. */
  function KernelSwa(hp: Hparams, il: nat): (n: nat)
    requires HasSwaLayers(hp) ==> il < |hp.isSwa|
  {
    if hp.nSwa > 0 && (hp.isSwa == [] || !HasSwaLayers(hp) || hp.isSwa[il]) then hp.nSwa else 0
  }

  /** The cells of token t's context that are seen, in order. */
  function SeenCells(b: Batch, hp: Hparams, swa: bool, t: nat, n: nat): (xs: seq<nat>)
    requires BatchOk(b) && t < |b.pos| && n <= |SeqOf(b, t).cells|
  {
    if n == 0 then [] else
      var q := SeqOf(b, t);
      SeenCells(b, hp, swa, t, n - 1) + if Sees(hp, swa, q.cellPos[n - 1], b.pos[t]) then [q.cells[n - 1]] else []
  }

  function AllSeen(b: Batch, hp: Hparams, swa: bool, t: nat): (xs: seq<nat>)
    requires BatchOk(b) && t < |b.pos|
  {
    SeenCells(b, hp, swa, t, |SeqOf(b, t).cells|)
  }

  lemma {:induction false} SeenIsAttended(b: Batch, hp: Hparams, swa: bool, t: nat, n: nat, x: nat)
    requires BatchOk(b) && t < |b.pos| && n <= |SeqOf(b, t).cells|
    ensures x in SeenCells(b, hp, swa, t, n) <==> AttendsUpTo(b, hp, swa, t, n, x)
  {
    if n > 0 {
      SeenIsAttended(b, hp, swa, t, n - 1, x);
      OneMore(b, hp, swa, t, n - 1, x);
    }
  }

  datatype Score = NegInf | Fin(value: real)

  /** One (token, head) item: scores over the context, then the cells that take part in the sum. */
  method PagedItem(b: Batch, hp: Hparams, il: nat, t: nat, score: nat -> real) returns (attended: seq<nat>)
    requires BatchOk(b) && t < |b.pos| && (HasSwaLayers(hp) ==> il < |hp.isSwa|)
    ensures attended == AllSeen(b, hp, LayerSwa(hp, il), t)
    ensures forall x :: x in attended <==> Attends(b, hp, LayerSwa(hp, il), t, x)
  {
    var q, p1, nSwa := SeqOf(b, t), b.pos[t], KernelSwa(hp, il);
    ghost var swa := LayerSwa(hp, il);
    var scores: seq<Score> := [];
    for c := 0 to |q.cells|
      invariant |scores| == c && forall k :: 0 <= k < c ==> (scores[k].Fin? <==> Sees(hp, swa, q.cellPos[k], p1))
    {
      if (hp.causal && q.cellPos[c] > p1) || (nSwa > 0 && p1 - q.cellPos[c] >= nSwa) {
        scores := scores + [NegInf];
      } else {
        scores := scores + [Fin(score(q.cells[c]))];
      }
    }
    attended := [];
    for c := 0 to |q.cells|
      invariant attended == SeenCells(b, hp, swa, t, c)
    {
      if scores[c].Fin? { attended := attended + [q.cells[c]]; }
    }
    forall x ensures x in attended <==> Attends(b, hp, swa, t, x) {
      if x >= 0 { SeenIsAttended(b, hp, swa, t, |q.cells|, x); }
    }
  }

  // ---- the work split ----

  /** The items of thread ith of nth. */
  method ItemsOf(ith: nat, nth: nat, n: nat) returns (i0: nat, i1: nat)
    requires ith < nth
    ensures i0 == Min(n, Times(ith, CeilDiv(n, nth))) && i1 == Min(n, i0 + CeilDiv(n, nth))
    ensures forall it :: i0 <= it < i1 <==> Works(ith, nth, n, it)
  {
    var per := (n + nth - 1) / nth;
    TimesIsMul(ith, per);
    i0 := Min(n, ith * per);
    i1 := Min(n, i0 + per);
  }

  predicate Works(ith: nat, nth: nat, n: nat, it: int)
    requires ith < nth
  {
    var i0 := Min(n, Times(ith, CeilDiv(n, nth)));
    i0 <= it < Min(n, i0 + CeilDiv(n, nth))
  }

  /** Every item has exactly one thread. */
  lemma WorkedOnce(nth: nat, n: nat, it: nat) returns (ith: nat)
    requires nth > 0 && it < n
    ensures ith < nth && Works(ith, nth, n, it) && forall k :: 0 <= k < nth && Works(k, nth, n, it) ==> k == ith
  {
    var per := CeilDiv(n, nth);
    TimesIsMul(per, nth);
    TimesIsMul(nth, per);
    DivTimes(it, per);
    ith := it / per;
    if ith >= nth { TimesMono(nth, ith, per); }
    assert Times(ith + 1, per) == Times(ith, per) + per;
    forall k | 0 <= k < nth && Works(k, nth, n, it) ensures k == ith {
      if k < ith { TimesMono(k + 1, ith, per); }
      if k > ith { TimesMono(ith + 1, k, per); }
    }
  }

  /** Items are (token, head) pairs: each pair is one item. */
  lemma PairOfItem(nHead: nat, t: nat, h: nat)
    requires h < nHead
    ensures var it := Times(t, nHead) + h; it / nHead == t && it % nHead == h
  {
    TimesDivMod(t, h, nHead);
  }
}
