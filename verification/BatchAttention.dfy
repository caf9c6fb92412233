/** From the scheduled requests to the cells a layer reads: the masks and the paged kernel agree with the rows of the
    forward pass. */
module BatchAttention {
  import opened Types
  import opened PagedKV
  import opened Serving
  import opened SchedulerSpec
  import opened Forward
  import opened MicroBatch
  import opened WriteSlots
  import Attn = Attention
  import Gather = GatherAttention

  // ---- the batch as the attention sees it ----

  function Counting(n: nat): (s: seq<int>) { seq(n, i requires 0 <= i < n => i) }

  /** The cells of one request up to and including this step, with the positions they hold. */
  function Context(bs: nat, r: Request, e: Scheduled): (q: Attn.SeqInfo)
    requires Ready(bs, r, e)
  {
    Attn.SeqInfo(Cells(bs, r.kv.blockIds, r.computed + e.nNew), Counting(r.computed + e.nNew))
  }

  function Contexts(bs: nat, reqs: map<Id, Request>, out: seq<Scheduled>, m: nat): (qs: seq<Attn.SeqInfo>)
    requires AllReady(bs, reqs, out) && m <= |out|
  {
    seq(m, i requires 0 <= i < m => Context(bs, reqs[out[i].id], out[i]))
  }

  /** The position of every row, and the entry it belongs to. */
  function Positions(reqs: map<Id, Request>, out: seq<Scheduled>, m: nat): (p: seq<int>)
    requires m <= |out| && forall i :: 0 <= i < |out| ==> out[i].id in reqs
  {
    if m == 0 then [] else
      var e := out[m - 1];
      Positions(reqs, out, m - 1) + seq(e.nNew, t requires 0 <= t < e.nNew => reqs[e.id].computed + t)
  }

  function Owners(out: seq<Scheduled>, m: nat): (p: seq<nat>)
    requires m <= |out|
  {
    if m == 0 then [] else Owners(out, m - 1) + seq(out[m - 1].nNew, t => m - 1)
  }

  function BatchOf(bs: nat, reqs: map<Id, Request>, out: seq<Scheduled>): (b: Attn.Batch)
    requires AllReady(bs, reqs, out)
  {
    Attn.Batch(Positions(reqs, out, |out|), Owners(out, |out|), Contexts(bs, reqs, out, |out|))
  }

  method BuildContext(bs: nat, r: Request, e: Scheduled) returns (q: Attn.SeqInfo)
    requires Ready(bs, r, e)
    ensures q == Context(bs, r, e)
  {
    q := Attn.SeqInfo([], []);
    for j := 0 to r.computed + e.nNew
      invariant q == Attn.SeqInfo(Cells(bs, r.kv.blockIds, r.computed + e.nNew)[..j], Counting(j))
    {
      q := Attn.SeqInfo(q.cells + [CellOf(bs, r.kv.blockIds, j)], q.cellPos + [j]);
    }
  }

  method BuildPositions(r: Request, e: Scheduled, i: nat) returns (pos: seq<int>, owner: seq<nat>)
    ensures pos == seq(e.nNew, t requires 0 <= t < e.nNew => r.computed + t) && owner == seq(e.nNew, t => i)
  {
    pos, owner := [], [];
    for t := 0 to e.nNew
      invariant |pos| == |owner| == t && forall k :: 0 <= k < t ==> pos[k] == r.computed + k && owner[k] == i
    {
      pos, owner := pos + [r.computed + t], owner + [i];
    }
  }

  /** The loop of the step that fills positions, sequence numbers and contexts. */
  method BuildContexts(bs: nat, reqs: map<Id, Request>, out: seq<Scheduled>) returns (b: Attn.Batch)
    requires AllReady(bs, reqs, out)
    ensures b == BatchOf(bs, reqs, out)
  {
    b := Attn.Batch([], [], []);
    for i := 0 to |out|
      invariant b == Attn.Batch(Positions(reqs, out, i), Owners(out, i), Contexts(bs, reqs, out, i))
    {
      var q := BuildContext(bs, reqs[out[i].id], out[i]);
      var pos, owner := BuildPositions(reqs[out[i].id], out[i], i);
      assert Contexts(bs, reqs, out, i + 1) == b.seqs + [q];
      assert Positions(reqs, out, i + 1) == b.pos + pos;
      assert Owners(out, i + 1) == b.seqIdx + owner;
      b := Attn.Batch(b.pos + pos, b.seqIdx + owner, b.seqs + [q]);
    }
  }

  lemma {:induction false} BatchAt(bs: nat, reqs: map<Id, Request>, out: seq<Scheduled>, m: nat, i: nat, t: nat)
    requires AllReady(bs, reqs, out) && m <= |out|
    ensures |Positions(reqs, out, m)| == |Owners(out, m)| == RowStart(out, m)
    ensures i < m && t < out[i].nNew ==>
      && RowStart(out, i) + t < RowStart(out, m)
      && Positions(reqs, out, m)[RowStart(out, i) + t] == reqs[out[i].id].computed + t
      && Owners(out, m)[RowStart(out, i) + t] == i
    decreases m
  {
    if m > 0 { BatchAt(bs, reqs, out, m - 1, i, t); }
  }

  /** Row a of the forward pass and token a of the attention batch are the same token with the same context. */
  lemma SameRow(bs: nat, reqs: map<Id, Request>, out: seq<Scheduled>, a: nat)
    requires AllReady(bs, reqs, out) && a < |BatchRows(bs, reqs, out, |out|)|
    ensures var b, row := BatchOf(bs, reqs, out), BatchRows(bs, reqs, out, |out|)[a];
      && |b.pos| == |b.seqIdx| == |BatchRows(bs, reqs, out, |out|)| && b.seqIdx[a] < |b.seqs|
      && b.pos[a] == row.pos < |row.cells|
      && b.seqs[b.seqIdx[a]] == Attn.SeqInfo(row.cells, Counting(|row.cells|))
  {
    BatchRowsAt(bs, reqs, out, |out|, 0, 0);
    var i, t := EntryOf(out, |out|, a);
    BatchRowsAt(bs, reqs, out, |out|, i, t);
    BatchAt(bs, reqs, out, |out|, i, t);
  }

  lemma BatchIsOk(bs: nat, reqs: map<Id, Request>, out: seq<Scheduled>)
    requires AllReady(bs, reqs, out)
    ensures Attn.BatchOk(BatchOf(bs, reqs, out)) && |BatchOf(bs, reqs, out).pos| == |BatchRows(bs, reqs, out, |out|)|
  {
    var b := BatchOf(bs, reqs, out);
    BatchRowsAt(bs, reqs, out, |out|, 0, 0);
    BatchAt(bs, reqs, out, |out|, 0, 0);
    forall a | 0 <= a < |b.seqIdx| ensures b.seqIdx[a] < |b.seqs| { SameRow(bs, reqs, out, a); }
  }

  // ---- what a layer reads ----

  /** Cell x holds a position of the row's sequence that a query at the row's position sees. */
  ghost predicate RowSees(hp: Attn.Hparams, swa: bool, row: Row, x: int) {
    exists p :: 0 <= p < |row.cells| && row.cells[p] == x && Attn.Sees(hp, swa, p, row.pos)
  }

  lemma AttendsIsRowSees(bs: nat, reqs: map<Id, Request>, out: seq<Scheduled>, hp: Attn.Hparams, swa: bool, a: nat, x: int)
    requires AllReady(bs, reqs, out) && Attn.BatchOk(BatchOf(bs, reqs, out))
    requires a < |BatchOf(bs, reqs, out).pos| == |BatchRows(bs, reqs, out, |out|)|
    ensures Attn.Attends(BatchOf(bs, reqs, out), hp, swa, a, x) <==> RowSees(hp, swa, BatchRows(bs, reqs, out, |out|)[a], x)
  {
    var b, row := BatchOf(bs, reqs, out), BatchRows(bs, reqs, out, |out|)[a];
    SameRow(bs, reqs, out, a);
    if Attn.Attends(b, hp, swa, a, x) {
      var c: nat :| Attn.Marks(b, hp, swa, a, c, x);
      assert row.cells[c] == x;
    }
    if RowSees(hp, swa, row, x) {
      var p :| 0 <= p < |row.cells| && row.cells[p] == x && Attn.Sees(hp, swa, p, row.pos);
      assert Attn.Marks(b, hp, swa, a, p, x);
    }
  }

  /** In a causal model a layer without a window reads the row's prefix, the row itself included. */
  lemma GlobalReadsPrefix(hp: Attn.Hparams, row: Row, x: int)
    requires hp.causal && row.pos < |row.cells|
    ensures RowSees(hp, false, row, x) <==> x in row.cells[..row.pos + 1]
  {
    if x in row.cells[..row.pos + 1] {
      var p :| 0 <= p <= row.pos && row.cells[p] == x;
      assert Attn.Sees(hp, false, p, row.pos);
    }
  }

  /** In a causal model a layer with a window reads the last nSwa positions of it, the row itself included. */
  lemma WindowReadsTail(hp: Attn.Hparams, row: Row, x: int)
    requires hp.causal && row.pos < |row.cells|
    ensures RowSees(hp, true, row, x) <==> x in row.cells[Min(row.pos + 1, Max(0, row.pos + 1 - hp.nSwa))..row.pos + 1]
  {
    var from := Min(row.pos + 1, Max(0, row.pos + 1 - hp.nSwa));
    var tail := row.cells[from..row.pos + 1];
    if x in tail {
      var i :| 0 <= i < |tail| && tail[i] == x;
      assert row.cells[from + i] == x && Attn.Sees(hp, true, from + i, row.pos);
    }
    if RowSees(hp, true, row, x) {
      var p :| 0 <= p < |row.cells| && row.cells[p] == x && Attn.Sees(hp, true, p, row.pos);
      assert tail[p - from] == x;
    }
  }

  /** Which of the two a layer does: it looks through a window if the model has one and flags this layer, or no layer. */
  lemma LayerReads(hp: Attn.Hparams, il: nat, row: Row, x: int)
    requires hp.causal && row.pos < |row.cells| && (Attn.HasSwaLayers(hp) ==> il < |hp.isSwa|)
    ensures RowSees(hp, Attn.LayerSwa(hp, il), row, x) <==>
      if hp.nSwa > 0 && ((il < |hp.isSwa| && hp.isSwa[il]) || forall j :: 0 <= j < |hp.isSwa| ==> !hp.isSwa[j])
      then x in row.cells[Max(0, row.pos + 1 - hp.nSwa)..row.pos + 1] else x in row.cells[..row.pos + 1]
  {
    WindowReadsTail(hp, row, x);
    GlobalReadsPrefix(hp, row, x);
  }

  ghost predicate NonEmpty(b: Attn.Batch) {
    exists q :: 0 <= q < |b.seqs| && |b.seqs[q].cells| > 0
  }

  lemma InCache(bs: nat, reqs: map<Id, Request>, out: seq<Scheduled>, n: nat)
    requires AllReady(bs, reqs, out) && out != [] && RowsOk(BatchRows(bs, reqs, out, |out|), n)
    requires forall i :: 0 <= i < |out| ==> out[i].nNew > 0
    ensures Attn.CellsIn(BatchOf(bs, reqs, out), 0, n) && NonEmpty(BatchOf(bs, reqs, out))
  {
    var b, rows := BatchOf(bs, reqs, out), BatchRows(bs, reqs, out, |out|);
    forall q, c | 0 <= q < |b.seqs| && 0 <= c < |b.seqs[q].cells| ensures 0 <= b.seqs[q].cells[c] < n {
      BatchRowsAt(bs, reqs, out, |out|, q, 0);
      assert RowOk(rows[RowStart(out, q)], n);
    }
    assert |b.seqs[0].cells| > 0;
  }

  /** The mask of layer il for a scheduled batch. Over the window it marks exactly the cells that hold what the layer is
      to read for each row, and none of these lies outside. */
  method StepMask(bs: nat, reqs: map<Id, Request>, out: seq<Scheduled>, hp: Attn.Hparams, il: nat, numCells: nat)
    returns (kvStart: nat, nKv: nat, m: array2<bool>)
    requires AllReady(bs, reqs, out) && out != [] && RowsOk(BatchRows(bs, reqs, out, |out|), numCells)
    requires (forall i :: 0 <= i < |out| ==> out[i].nNew > 0) && (Attn.HasSwaLayers(hp) ==> il < |hp.isSwa|)
    ensures kvStart % 256 == 0 && kvStart + nKv <= numCells && (nKv % 256 == 0 || kvStart + nKv == numCells)
    ensures m.Length0 == |BatchRows(bs, reqs, out, |out|)| && m.Length1 == nKv
    ensures forall a, x :: 0 <= a < m.Length0 ==>
      (RowSees(hp, Attn.LayerSwa(hp, il), BatchRows(bs, reqs, out, |out|)[a], x) <==>
       kvStart <= x < kvStart + nKv && m[a, x - kvStart])
  {
    var b := BuildContexts(bs, reqs, out);
    BatchIsOk(bs, reqs, out);
    InCache(bs, reqs, out, numCells);
    kvStart, nKv := Attn.Window(b, numCells);
    m := Attn.LayerMask(b, hp, il, kvStart, nKv);
    ghost var swa := Attn.LayerSwa(hp, il);
    forall a, x | 0 <= a < m.Length0
      ensures RowSees(hp, swa, BatchRows(bs, reqs, out, |out|)[a], x) <==> kvStart <= x < kvStart + nKv && m[a, x - kvStart]
    {
      AttendsIsRowSees(bs, reqs, out, hp, swa, a, x);
    }
  }

  // ---- the paged kernel ----

  lemma {:induction false} SeenPrefix(b: Attn.Batch, hp: Attn.Hparams, a: nat, n: nat)
    requires Attn.BatchOk(b) && a < |b.pos| && hp.causal && 0 <= b.pos[a]
    requires var q := Attn.SeqOf(b, a); n <= |q.cells| && q.cellPos == Counting(|q.cells|)
    ensures Attn.SeenCells(b, hp, false, a, n) == Attn.SeqOf(b, a).cells[..Min(n, b.pos[a] + 1)]
    decreases n
  {
    if n > 0 { SeenPrefix(b, hp, a, n - 1); }
  }

  /** For a layer without a window of a causal model, the kernel sums over the cells of the row's prefix in order: what
      the forward pass reads for this row. */
  method StepPaged(bs: nat, reqs: map<Id, Request>, out: seq<Scheduled>, hp: Attn.Hparams, il: nat, a: nat, score: nat -> real)
    returns (attended: seq<nat>)
    requires AllReady(bs, reqs, out) && a < |BatchRows(bs, reqs, out, |out|)| && (Attn.HasSwaLayers(hp) ==> il < |hp.isSwa|)
    ensures var row := BatchRows(bs, reqs, out, |out|)[a]; row.pos < |row.cells|
    ensures forall x :: x in attended <==> RowSees(hp, Attn.LayerSwa(hp, il), BatchRows(bs, reqs, out, |out|)[a], x)
    ensures hp.causal && !Attn.LayerSwa(hp, il) ==>
      var row := BatchRows(bs, reqs, out, |out|)[a]; attended == row.cells[..row.pos + 1]
  {
    var b := BuildContexts(bs, reqs, out);
    BatchIsOk(bs, reqs, out);
    SameRow(bs, reqs, out, a);
    attended := Attn.PagedItem(b, hp, il, a, score);
    forall x ensures x in attended <==> RowSees(hp, Attn.LayerSwa(hp, il), BatchRows(bs, reqs, out, |out|)[a], x) {
      AttendsIsRowSees(bs, reqs, out, hp, Attn.LayerSwa(hp, il), a, x);
    }
    if hp.causal && !Attn.LayerSwa(hp, il) { SeenPrefix(b, hp, a, |Attn.SeqOf(b, a).cells|); }
  }

  // ---- gather attention ----

  lemma {:induction false} OwnersAscend(out: seq<Scheduled>, m: nat, a: nat, b: nat)
    requires m <= |out| && a <= b < |Owners(out, m)|
    ensures Owners(out, m)[a] <= Owners(out, m)[b] < m
    decreases m
  {
    var n := |Owners(out, m - 1)|;
    if b < n { OwnersAscend(out, m - 1, a, b); } else if a < n { OwnersAscend(out, m - 1, a, a); }
  }

  /** A scheduled batch has what the grouping needs, so its groups tile it. */
  method StepGroups(bs: nat, reqs: map<Id, Request>, out: seq<Scheduled>) returns (groups: seq<Gather.Group>)
    requires AllReady(bs, reqs, out) && |BatchRows(bs, reqs, out, |out|)| <= 0xffff_ffff
    ensures Attn.BatchOk(BatchOf(bs, reqs, out)) && Gather.Tiles(BatchOf(bs, reqs, out), groups)
  {
    var b := BuildContexts(bs, reqs, out);
    BatchIsOk(bs, reqs, out);
    forall i, j, k | 0 <= i < j < k < |b.seqIdx| && b.seqIdx[i] == b.seqIdx[k] ensures b.seqIdx[j] == b.seqIdx[i] {
      OwnersAscend(out, |out|, i, j);
      OwnersAscend(out, |out|, j, k);
    }
    groups := Gather.AttnGroups(b);
  }

  /** Row (si, t) of group g is a row of the forward pass, and reaches cell x exactly when the layer is to read it. */
  ghost predicate GatherRight(rows: seq<Row>, hp: Attn.Hparams, swa: bool, g: Gather.Group, idx: array2<nat>, m: array3<bool>,
                              si: nat, t: nat, x: int)
    reads idx, m
    requires si < |g.seqs| == idx.Length0 == m.Length0 && t < m.Length1 && idx.Length1 == m.Length2
  {
    && Gather.TokenAt(g, si, t) < |rows|
    && (RowSees(hp, swa, rows[Gather.TokenAt(g, si, t)], x) <==> exists j :: Gather.Reaches(idx, m, si, t, j, x))
  }

  lemma GroupFilled(bs: nat, reqs: map<Id, Request>, out: seq<Scheduled>, g: Gather.Group)
    requires AllReady(bs, reqs, out) && Attn.BatchOk(BatchOf(bs, reqs, out)) && Gather.GroupOk(BatchOf(bs, reqs, out), g)
    requires forall i :: 0 <= i < |out| ==> out[i].nNew > 0
    ensures forall si :: 0 <= si < |g.seqs| ==> |BatchOf(bs, reqs, out).seqs[g.seqs[si]].cells| > 0
  {
  }

  /** The gathered cells and the mask of layer il for a group of a scheduled batch: every row reaches exactly the cells that
      hold what the layer is to read for it. */
  method StepGather(bs: nat, reqs: map<Id, Request>, out: seq<Scheduled>, hp: Attn.Hparams, il: nat, g: Gather.Group)
    returns (idx: array2<nat>, m: array3<bool>)
    requires AllReady(bs, reqs, out) && Attn.BatchOk(BatchOf(bs, reqs, out)) && Gather.GroupOk(BatchOf(bs, reqs, out), g)
    requires (forall i :: 0 <= i < |out| ==> out[i].nNew > 0) && (Attn.HasSwaLayers(hp) ==> il < |hp.isSwa|)
    ensures idx.Length0 == m.Length0 == |g.seqs| && m.Length1 == g.T && idx.Length1 == m.Length2
    ensures forall si, t, x :: 0 <= si < |g.seqs| && 0 <= t < g.T ==>
      GatherRight(BatchRows(bs, reqs, out, |out|), hp, Attn.LayerSwa(hp, il), g, idx, m, si, t, x)
  {
    var b := BuildContexts(bs, reqs, out);
    BatchIsOk(bs, reqs, out);
    GroupFilled(bs, reqs, out, g);
    idx, m := Gather.GatherLayer(b, hp, il, g);
    ghost var rows, swa := BatchRows(bs, reqs, out, |out|), Attn.LayerSwa(hp, il);
    forall si, t, x | 0 <= si < |g.seqs| && 0 <= t < g.T ensures GatherRight(rows, hp, swa, g, idx, m, si, t, x) {
      assert Gather.RowRight(b, hp, swa, g, idx, m, si, t, x);
      AttendsIsRowSees(bs, reqs, out, hp, swa, Gather.TokenAt(g, si, t), x);
    }
  }
}
