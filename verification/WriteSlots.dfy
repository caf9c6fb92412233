/** Where a step writes: every row of the micro-batch has a cell of its own, in a block that nobody else can see. */
module WriteSlots {
  import opened Types
  import opened PagedKV
  import opened Serving
  import opened KvInvariant
  import opened SchedulerSpec
  import opened Steps
  import opened Forward
  import opened MicroBatch

  /** The row's cell is in a block that is not registered and has one reference. */
  ghost predicate PrivateSlot(c: Cfg, s: Sys, row: Row) {
    exists b, o :: InPrivate(c, s, row.slot, b, o)
  }

  ghost predicate InPrivate(c: Cfg, s: Sys, slot: nat, b: nat, o: nat) {
    && b < |s.reg.pool.hash| && b < |s.reg.pool.ref| && s.reg.pool.hash[b] == HASH_NONE && s.reg.pool.ref[b] == 1
    && o < c.bs && slot == Slot(c.bs, b, o)
  }

  /** Position n of running request k lies in a block of its own: unregistered, referenced once, in no other table and in
      this one once. */
  ghost predicate Own(c: Cfg, s: Sys, k: nat, n: nat) {
    && k < |s.running| && Known(s.reqs, s.running) && c.bs > 0
    && var t, q := TableOf(s, k), BlockNo(c.bs, n);
    && n < Times(|t|, c.bs) && Sole(t, q) && t[q] < |s.reg.pool.hash| && t[q] < |s.reg.pool.ref|
    && s.reg.pool.hash[t[q]] == HASH_NONE && s.reg.pool.ref[t[q]] == 1
    && forall k' :: 0 <= k' < |s.running| && k' != k ==> t[q] !in TableOf(s, k')
  }

  lemma OwnRow(c: Cfg, s: Sys, out: seq<Scheduled>, i: nat, t: nat) returns (k: nat)
    requires Ok(c, s) && KvSteady(c, s) && Entries(c, s, out) && AllReady(c.bs, s.reqs, out) && i < |out| && t < out[i].nNew
    ensures k < |s.running| && s.running[k] == out[i].id && Own(c, s, k, s.reqs[out[i].id].computed + t)
  {
    k := MidActive(c, s, out, i);
    OpenKvOk(c, s, FedOf(s.reqs));
    OwnHere(c, s, FedOf(s.reqs), k, s.reqs[out[i].id].computed + t);
  }

  lemma OwnHere(c: Cfg, s: Sys, fed: map<Id, Feed>, k: nat, n: nat)
    requires Inv(c, s) && KvInv(c, s, fed) && k < |s.running| && s.reqs[s.running[k]].computed <= n < Times(|TableOf(s, k)|, c.bs)
    ensures Own(c, s, k, n)
  {
    BlockIndex(c.bs, n, |TableOf(s, k)|);
    assert ReqKv(c, s.reg, s.cells, s.reqs[s.running[k]], fed[s.running[k]]);
    PastBlocks(c.bs, n, s.reqs[s.running[k]].kv.numCached);
    OwnAt(c, s, fed, k, BlockNo(c.bs, n));
  }

  lemma OwnSlot(c: Cfg, s: Sys, k: nat, n: nat)
    requires Own(c, s, k, n)
    ensures InPrivate(c, s, CellOf(c.bs, TableOf(s, k), n), TableOf(s, k)[BlockNo(c.bs, n)], Offset(c.bs, n))
  {
    BlockSplit(c.bs, n);
  }

  lemma RowIsPrivate(c: Cfg, s: Sys, out: seq<Scheduled>, i: nat, t: nat)
    requires Ok(c, s) && KvSteady(c, s) && Entries(c, s, out) && AllReady(c.bs, s.reqs, out) && i < |out| && t < out[i].nNew
    ensures PrivateSlot(c, s, EntryRow(c.bs, s.reqs[out[i].id], out[i], t))
  {
    var k := OwnRow(c, s, out, i, t);
    OwnSlot(c, s, k, s.reqs[out[i].id].computed + t);
  }

  /** Two positions of one request, or positions of two requests, have different cells. */
  lemma OwnApart(c: Cfg, s: Sys, k: nat, n: nat, k': nat, n': nat)
    requires Own(c, s, k, n) && Own(c, s, k', n') && (k != k' || n < n')
    ensures CellOf(c.bs, TableOf(s, k), n) != CellOf(c.bs, TableOf(s, k'), n')
  {
    if k == k' {
      OwnCells(c.bs, TableOf(s, k), n, n');
    } else {
      BlockSplit(c.bs, n');
      OffBlock(c.bs, TableOf(s, k), n, TableOf(s, k')[BlockNo(c.bs, n')], Offset(c.bs, n'));
    }
  }

  lemma RowsApart(c: Cfg, s: Sys, out: seq<Scheduled>, i: nat, t: nat, i': nat, t': nat)
    requires Ok(c, s) && KvSteady(c, s) && Entries(c, s, out) && AllReady(c.bs, s.reqs, out)
    requires i < |out| && t < out[i].nNew && i' < |out| && t' < out[i'].nNew && (i != i' || t < t')
    ensures EntryRow(c.bs, s.reqs[out[i].id], out[i], t).slot != EntryRow(c.bs, s.reqs[out[i'].id], out[i'], t').slot
  {
    var k := OwnRow(c, s, out, i, t);
    var k' := OwnRow(c, s, out, i', t');
    OwnApart(c, s, k, s.reqs[out[i].id].computed + t, k', s.reqs[out[i'].id].computed + t');
  }

  /** Which entry and which of its tokens a row of the batch is. */
  lemma {:induction false} EntryOf(out: seq<Scheduled>, m: nat, a: nat) returns (i: nat, t: nat)
    requires m <= |out| && a < RowStart(out, m)
    ensures i < m && t < out[i].nNew && a == RowStart(out, i) + t
    decreases m
  {
    if a < RowStart(out, m - 1) {
      i, t := EntryOf(out, m - 1, a);
    } else {
      i, t := m - 1, a - RowStart(out, m - 1);
    }
  }

  lemma RowAt(c: Cfg, s: Sys, out: seq<Scheduled>, a: nat) returns (i: nat, t: nat)
    requires AllReady(c.bs, s.reqs, out) && a < |BatchRows(c.bs, s.reqs, out, |out|)|
    ensures i < |out| && t < out[i].nNew && a == RowStart(out, i) + t
    ensures BatchRows(c.bs, s.reqs, out, |out|)[a] == EntryRow(c.bs, s.reqs[out[i].id], out[i], t)
  {
    BatchRowsAt(c.bs, s.reqs, out, |out|, 0, 0);
    i, t := EntryOf(out, |out|, a);
    BatchRowsAt(c.bs, s.reqs, out, |out|, i, t);
  }

  /** Every row of a step writes into an unregistered block with a single reference. */
  lemma SlotIsPrivate(c: Cfg, s: Sys, out: seq<Scheduled>, a: nat)
    requires Ok(c, s) && KvSteady(c, s) && Entries(c, s, out) && AllReady(c.bs, s.reqs, out)
    requires a < |BatchRows(c.bs, s.reqs, out, |out|)|
    ensures PrivateSlot(c, s, BatchRows(c.bs, s.reqs, out, |out|)[a])
  {
    var i, t := RowAt(c, s, out, a);
    RowIsPrivate(c, s, out, i, t);
  }

  /** The write slots of a step are pairwise distinct. */
  lemma SlotsDistinct(c: Cfg, s: Sys, out: seq<Scheduled>, a: nat, b: nat)
    requires Ok(c, s) && KvSteady(c, s) && Entries(c, s, out) && AllReady(c.bs, s.reqs, out)
    requires a < b < |BatchRows(c.bs, s.reqs, out, |out|)|
    ensures BatchRows(c.bs, s.reqs, out, |out|)[a].slot != BatchRows(c.bs, s.reqs, out, |out|)[b].slot
  {
    var i, t := RowAt(c, s, out, a);
    var i', t' := RowAt(c, s, out, b);
    RowsApart(c, s, out, i, t, i', t');
  }
}
