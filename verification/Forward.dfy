/** The forward pass of one step: every row writes its own KV cell from the cells of its prefix. */
module Forward {
  import opened Types
  import opened KvSpec
  import opened PagedKV
  import opened Serving
  import opened KvInvariant
  import opened SchedulerSpec
  import opened Steps

  /** One row of the micro-batch: a token, its position, the cell it writes and the cells of its sequence. */
  datatype Row = Row(tok: Token, pos: nat, slot: nat, cells: seq<nat>)

  predicate RowOk(row: Row, n: nat) {
    row.slot < n && row.pos < |row.cells| && forall j :: 0 <= j < |row.cells| ==> row.cells[j] < n
  }

  predicate RowsOk(rows: seq<Row>, n: nat) {
    forall i :: 0 <= i < |rows| ==> RowOk(rows[i], n)
  }

  /** The entries of the first m positions of the row's sequence. */
  function Attend(cells: seq<KV>, row: Row, m: nat): (a: seq<KV>)
    requires RowOk(row, |cells|) && m <= |row.cells|
  {
    seq(m, j requires 0 <= j < m => cells[row.cells[j]])
  }

  function Write(cells: seq<KV>, row: Row): (r: seq<KV>)
    requires RowOk(row, |cells|)
    ensures |r| == |cells|
  {
    cells[row.slot := KV(Attend(cells, row, row.pos), row.tok)]
  }

  function Run(cells: seq<KV>, rows: seq<Row>): (r: seq<KV>)
    requires RowsOk(rows, |cells|)
    ensures |r| == |cells|
    decreases |rows|
  {
    if rows == [] then cells else Write(Run(cells, rows[..|rows| - 1]), rows[|rows| - 1])
  }

  lemma {:induction false} RunConcat(cells: seq<KV>, a: seq<Row>, b: seq<Row>)
    requires RowsOk(a, |cells|) && RowsOk(b, |cells|)
    ensures RowsOk(a + b, |cells|) && Run(cells, a + b) == Run(Run(cells, a), b)
    decreases |b|
  {
    if b == [] {
      assert a + b == a;
    } else {
      RunConcat(cells, a, b[..|b| - 1]);
      assert (a + b)[..|a + b| - 1] == a + b[..|b| - 1];
    }
  }

  // ---- who owns a cell ----

  ghost predicate Sole(table: seq<nat>, q: nat) {
    q < |table| && forall j :: 0 <= j < |table| && j != q ==> table[j] != table[q]
  }

  /** The block a running request writes next is its own and not registered. */
  lemma OwnBlock(c: Cfg, s: Sys, fed: map<Id, Feed>, k: nat, n: nat)
    requires Inv(c, s) && KvInv(c, s, fed) && k < |s.running|
    requires s.reqs[s.running[k]].computed <= n < Times(|TableOf(s, k)|, c.bs)
    ensures var t, q := TableOf(s, k), BlockNo(c.bs, n);
      && Sole(t, q) && t[q] < c.numBlocks && s.reg.pool.hash[t[q]] == HASH_NONE
      && (forall k' :: 0 <= k' < |s.running| && k' != k ==> t[q] !in TableOf(s, k'))
  {
    BlockIndex(c.bs, n, |TableOf(s, k)|);
    PastBlocks(c.bs, n, s.reqs[s.running[k]].kv.numCached);
    OwnAt(c, s, fed, k, BlockNo(c.bs, n));
  }

  lemma PastBlocks(bs: nat, n: nat, m: nat)
    requires bs > 0 && Times(m, bs) <= n
    ensures m <= BlockNo(bs, n)
  {
    BlockSplit(bs, n);
    if BlockNo(bs, n) < m { TimesMono(BlockNo(bs, n) + 1, m, bs); }
  }

  lemma OwnAt(c: Cfg, s: Sys, fed: map<Id, Feed>, k: nat, q: nat)
    requires Inv(c, s) && KvInv(c, s, fed) && k < |s.running|
    requires s.reqs[s.running[k]].kv.numCached <= q < |TableOf(s, k)|
    ensures var t := TableOf(s, k);
      && t[q] < c.numBlocks && s.reg.pool.hash[t[q]] == HASH_NONE && s.reg.pool.ref[t[q]] == 1
      && Sole(t, q) && (forall k' :: 0 <= k' < |s.running| && k' != k ==> t[q] !in TableOf(s, k'))
  {
    var t := TableOf(s, k);
    assert ReqKv(c, s.reg, s.cells, s.reqs[s.running[k]], fed[s.running[k]]);
    assert s.reg.pool.hash[t[q]] == HASH_NONE && s.reg.pool.ref[t[q]] == 1;
    SoleOwner(s.reqs, s.running, k, q);
  }

  // ---- one write ----

  lemma OffBlock(bs: nat, table: seq<nat>, i: nat, b: nat, o: nat)
    requires bs > 0 && BlockNo(bs, i) < |table| && o < bs && table[BlockNo(bs, i)] != b
    ensures CellOf(bs, table, i) != Slot(bs, b, o)
  {
    if CellOf(bs, table, i) == Slot(bs, b, o) { SlotInjective(bs, table[BlockNo(bs, i)], Offset(bs, i), b, o); }
  }

  lemma WriteOther(c: Cfg, cells: seq<KV>, table: seq<nat>, n: nat, toks: seq<Token>, b: nat, o: nat, x: KV)
    requires c.bs > 0 && CellsHold(c, cells, table, n, toks) && b !in table && o < c.bs && Slot(c.bs, b, o) < |cells|
    ensures CellsHold(c, cells[Slot(c.bs, b, o) := x], table, n, toks)
  {
    var cells' := cells[Slot(c.bs, b, o) := x];
    forall i | 0 <= i < n ensures CellHolds(c, cells', table, i, toks) {
      assert CellHolds(c, cells, table, i, toks);
      OffBlock(c.bs, table, i, b, o);
    }
  }

  lemma WriteBlock(c: Cfg, g: Registry, cells: seq<KV>, b': nat, b: nat, o: nat, x: KV)
    requires c.bs > 0 && b' < |g.pool.ref| == |g.pool.hash| == |g.pool.toks| == |g.chains| && BlockKv(c, g, cells, b')
    requires b' == b ==> g.pool.hash[b] == HASH_NONE
    requires o < c.bs && Slot(c.bs, b, o) < |cells|
    ensures BlockKv(c, g, cells[Slot(c.bs, b, o) := x], b')
  {
    if b' != b {
      forall o' | 0 <= o' < c.bs ensures Slot(c.bs, b', o') != Slot(c.bs, b, o) {
        if Slot(c.bs, b', o') == Slot(c.bs, b, o) { SlotInjective(c.bs, b', o', b, o); }
      }
    }
  }

  lemma OwnCells(bs: nat, table: seq<nat>, i: nat, n: nat)
    requires bs > 0 && i < n < Times(|table|, bs) && Sole(table, BlockNo(bs, n))
    ensures BlockNo(bs, i) < |table| && BlockNo(bs, n) < |table| && CellOf(bs, table, i) != CellOf(bs, table, n)
  {
    BlockIndex(bs, i, |table|);
    BlockIndex(bs, n, |table|);
    if CellOf(bs, table, i) == CellOf(bs, table, n) {
      SlotInjective(bs, table[BlockNo(bs, i)], Offset(bs, i), table[BlockNo(bs, n)], Offset(bs, n));
    }
  }

  lemma WriteOwn(c: Cfg, cells: seq<KV>, table: seq<nat>, n: nat, toks: seq<Token>, row: Row)
    requires c.bs > 0 && CellsHold(c, cells, table, n, toks) && n < |toks| && n < Times(|table|, c.bs)
    requires Sole(table, BlockNo(c.bs, n)) && RowFor(c.bs, |cells|, table, n, row) && row.tok == toks[n]
    ensures CellsHold(c, Write(cells, row), table, n + 1, toks)
  {
    var a := Attend(cells, row, n);
    forall j | 0 <= j < n ensures a[j] == Ctx(toks)[j] {
      assert SameCell(c.bs, table, row, j) && CellHolds(c, cells, table, j, toks);
    }
    assert a == Ctx(toks)[..n];
    CtxAt(toks, n);
    forall i | 0 <= i < n + 1 ensures CellHolds(c, Write(cells, row), table, i, toks) {
      if i < n {
        assert CellHolds(c, cells, table, i, toks);
        OwnCells(c.bs, table, i, n);
      }
    }
  }

  ghost predicate SameCell(bs: nat, table: seq<nat>, row: Row, j: nat) {
    bs > 0 && j < |row.cells| && BlockNo(bs, j) < |table| && row.cells[j] == CellOf(bs, table, j)
  }

  /** A row at position n that lists and writes the cells of the given table. */
  ghost predicate RowFor(bs: nat, nCells: nat, table: seq<nat>, n: nat, row: Row) {
    && RowOk(row, nCells) && row.pos == n && SameCell(bs, table, row, n) && row.slot == row.cells[n]
    && forall j :: 0 <= j < n ==> SameCell(bs, table, row, j)
  }

  /** The row that computes the next position of running request k. */
  ghost predicate NextRow(c: Cfg, s: Sys, k: nat, f: Feed, row: Row)
    requires c.bs > 0 && k < |s.running| && Known(s.reqs, s.running)
  {
    var t := TableOf(s, k);
    && f.n < |f.toks| && f.n < Times(|t|, c.bs) && RowFor(c.bs, |s.cells|, t, f.n, row) && row.tok == f.toks[f.n]
  }

  lemma WriteReq(c: Cfg, g: Registry, cells: seq<KV>, r: Request, f: Feed, b: nat, o: nat, x: KV)
    requires c.bs > 0 && |g.pool.ref| == |g.pool.hash| == |g.pool.toks| == |g.chains| == c.numBlocks
    requires InRange(r.kv.blockIds, c.numBlocks) && ReqKv(c, g, cells, r, f)
    requires b !in r.kv.blockIds && o < c.bs && Slot(c.bs, b, o) < |cells|
    ensures ReqKv(c, g, cells[Slot(c.bs, b, o) := x], r, f)
  {
    WriteOther(c, cells, r.kv.blockIds, f.n, f.toks, b, o, x);
  }

  lemma NextReq(c: Cfg, g: Registry, cells: seq<KV>, r: Request, f: Feed, row: Row)
    requires c.bs > 0 && |g.pool.ref| == |g.pool.hash| == |g.pool.toks| == |g.chains| == c.numBlocks
    requires InRange(r.kv.blockIds, c.numBlocks) && ReqKv(c, g, cells, r, f)
    requires f.n < |f.toks| && f.n < Times(|r.kv.blockIds|, c.bs) && Sole(r.kv.blockIds, BlockNo(c.bs, f.n))
    requires RowFor(c.bs, |cells|, r.kv.blockIds, f.n, row) && row.tok == f.toks[f.n]
    ensures ReqKv(c, g, Write(cells, row), r, Feed(f.toks, f.n + 1))
  {
    WriteOwn(c, cells, r.kv.blockIds, f.n, f.toks, row);
  }

  ghost function NextFed(fed: map<Id, Feed>, id: Id): (f: map<Id, Feed>)
    requires id in fed
  {
    fed[id := Feed(fed[id].toks, fed[id].n + 1)]
  }

  lemma RowReq(c: Cfg, s: Sys, fed: map<Id, Feed>, k: nat, row: Row, k': nat)
    requires Inv(c, s) && KvInv(c, s, fed) && k < |s.running| && NextRow(c, s, k, fed[s.running[k]], row) && k' < |s.running|
    ensures ReqKv(c, s.reg, Write(s.cells, row), s.reqs[s.running[k']], NextFed(fed, s.running[k])[s.running[k']])
  {
    var id, f, t := s.running[k], fed[s.running[k]], TableOf(s, k);
    assert ReqKv(c, s.reg, s.cells, s.reqs[id], f);
    OwnBlock(c, s, fed, k, f.n);
    if k' == k {
      NextReq(c, s.reg, s.cells, s.reqs[id], f, row);
    } else {
      assert t[BlockNo(c.bs, f.n)] !in TableOf(s, k') && s.running[k'] != id;
      assert ReqKv(c, s.reg, s.cells, s.reqs[s.running[k']], fed[s.running[k']]);
      WriteReq(c, s.reg, s.cells, s.reqs[s.running[k']], fed[s.running[k']], t[BlockNo(c.bs, f.n)], Offset(c.bs, f.n),
               KV(Attend(s.cells, row, row.pos), row.tok));
    }
  }

  lemma RowBlock(c: Cfg, s: Sys, fed: map<Id, Feed>, k: nat, row: Row, b: nat)
    requires Inv(c, s) && KvInv(c, s, fed) && k < |s.running| && NextRow(c, s, k, fed[s.running[k]], row) && b < c.numBlocks
    ensures BlockKv(c, s.reg, Write(s.cells, row), b)
  {
    var f, t := fed[s.running[k]], TableOf(s, k);
    assert ReqKv(c, s.reg, s.cells, s.reqs[s.running[k]], f);
    OwnBlock(c, s, fed, k, f.n);
    WriteBlock(c, s.reg, s.cells, b, t[BlockNo(c.bs, f.n)], Offset(c.bs, f.n), KV(Attend(s.cells, row, row.pos), row.tok));
  }

  lemma CellsKv(c: Cfg, s: Sys, fed: map<Id, Feed>, cells: seq<KV>, fed': map<Id, Feed>)
    requires Inv(c, s) && KvInv(c, s, fed) && |cells| == |s.cells|
    requires forall k :: 0 <= k < |s.running| ==>
      s.running[k] in fed' && ReqKv(c, s.reg, cells, s.reqs[s.running[k]], fed'[s.running[k]])
    requires forall b :: 0 <= b < c.numBlocks ==> BlockKv(c, s.reg, cells, b)
    ensures Inv(c, s.(cells := cells)) && KvInv(c, s.(cells := cells), fed')
  {
  }

  /** One row: the request gains the entry of its next token; nothing else anyone relies on changes. */
  lemma RowKv(c: Cfg, s: Sys, fed: map<Id, Feed>, k: nat, row: Row)
    requires Inv(c, s) && KvInv(c, s, fed) && k < |s.running| && NextRow(c, s, k, fed[s.running[k]], row)
    ensures Inv(c, s.(cells := Write(s.cells, row)))
    ensures KvInv(c, s.(cells := Write(s.cells, row)), NextFed(fed, s.running[k]))
  {
    forall k' | 0 <= k' < |s.running|
      ensures ReqKv(c, s.reg, Write(s.cells, row), s.reqs[s.running[k']], NextFed(fed, s.running[k])[s.running[k']])
    {
      RowReq(c, s, fed, k, row, k');
    }
    forall b | 0 <= b < c.numBlocks ensures BlockKv(c, s.reg, Write(s.cells, row), b) {
      RowBlock(c, s, fed, k, row, b);
    }
    CellsKv(c, s, fed, Write(s.cells, row), NextFed(fed, s.running[k]));
  }

  // ---- one scheduled request ----

  /** What the step feeds the model for a request: its tokens and the drafts that ride along. */
  function FedToks(r: Request, e: Scheduled): (t: seq<Token>)
    requires e.nSpec <= |r.spec|
  {
    r.gen.tokens + r.spec[..e.nSpec]
  }

  ghost predicate CellsIn(bs: nat, table: seq<nat>, n: nat)
    requires bs > 0
  {
    forall j :: 0 <= j < n ==> BlockNo(bs, j) < |table|
  }

  lemma CellsInRange(bs: nat, table: seq<nat>, n: nat)
    requires bs > 0 && n <= Times(|table|, bs)
    ensures CellsIn(bs, table, n)
  {
    forall j | 0 <= j < n ensures BlockNo(bs, j) < |table| { BlockIndex(bs, j, |table|); }
  }

  function Cells(bs: nat, table: seq<nat>, n: nat): (t: seq<nat>)
    requires bs > 0 && CellsIn(bs, table, n)
  {
    seq(n, j requires 0 <= j < n => CellOf(bs, table, j))
  }

  /** Room and tokens for the window of a scheduled request. */
  ghost predicate Ready(bs: nat, r: Request, e: Scheduled) {
    && bs > 0 && e.nSpec <= |r.spec| && r.computed + e.nNew <= |r.gen.tokens| + e.nSpec
    && CellsIn(bs, r.kv.blockIds, r.computed + e.nNew)
  }

  lemma EntryReady(c: Cfg, r: Request, id: Id, e: Scheduled)
    requires c.bs > 0 && Entry(c, r, id, e)
    ensures Ready(c.bs, r, e)
  {
    CellsInRange(c.bs, r.kv.blockIds, r.computed + e.nNew);
  }

  function EntryRow(bs: nat, r: Request, e: Scheduled, i: nat): (row: Row)
    requires Ready(bs, r, e) && i < e.nNew
  {
    Row(FedToks(r, e)[r.computed + i], r.computed + i, CellOf(bs, r.kv.blockIds, r.computed + i),
        Cells(bs, r.kv.blockIds, r.computed + e.nNew))
  }

  function EntryRows(bs: nat, r: Request, e: Scheduled, m: nat): (rows: seq<Row>)
    requires Ready(bs, r, e) && m <= e.nNew
    ensures |rows| == m
  {
    if m == 0 then [] else EntryRows(bs, r, e, m - 1) + [EntryRow(bs, r, e, m - 1)]
  }

  lemma {:induction false} EntryRowsAt(bs: nat, r: Request, e: Scheduled, m: nat, i: nat)
    requires Ready(bs, r, e) && i < m <= e.nNew
    ensures EntryRows(bs, r, e, m)[i] == EntryRow(bs, r, e, i)
  {
    if i < m - 1 { EntryRowsAt(bs, r, e, m - 1, i); }
  }

  lemma EntryRowFor(c: Cfg, r: Request, e: Scheduled, i: nat, nCells: nat)
    requires Ready(c.bs, r, e) && i < e.nNew && InRange(r.kv.blockIds, c.numBlocks) && nCells == Times(c.numBlocks, c.bs)
    ensures RowFor(c.bs, nCells, r.kv.blockIds, r.computed + i, EntryRow(c.bs, r, e, i))
  {
    var row, t := EntryRow(c.bs, r, e, i), r.kv.blockIds;
    forall j | 0 <= j < |row.cells| ensures row.cells[j] < nCells && SameCell(c.bs, t, row, j) {
      SlotBound(c.bs, t[BlockNo(c.bs, j)], Offset(c.bs, j), c.numBlocks);
    }
    assert SameCell(c.bs, t, row, r.computed + i);
  }

  lemma EntryRowsOk(c: Cfg, r: Request, e: Scheduled, m: nat, nCells: nat)
    requires Ready(c.bs, r, e) && m <= e.nNew && InRange(r.kv.blockIds, c.numBlocks) && nCells == Times(c.numBlocks, c.bs)
    ensures RowsOk(EntryRows(c.bs, r, e, m), nCells)
  {
    forall i | 0 <= i < m ensures RowOk(EntryRows(c.bs, r, e, m)[i], nCells) {
      EntryRowsAt(c.bs, r, e, m, i);
      EntryRowFor(c, r, e, i, nCells);
    }
  }

  /** Running request k and what is needed to compute entry e for it. */
  ghost predicate Active(c: Cfg, s: Sys, k: nat, e: Scheduled) {
    && k < |s.running| && Known(s.reqs, s.running) && c.bs > 0 && |s.cells| == Times(c.numBlocks, c.bs)
    && var r := ReqAt(s, k);
    && Entry(c, r, s.running[k], e) && Ready(c.bs, r, e) && InRange(r.kv.blockIds, c.numBlocks)
  }

  /** Feeding drafts behind the request's own tokens does not disturb what is computed. */
  lemma FeedDrafts(c: Cfg, s: Sys, fed: map<Id, Feed>, k: nat, toks: seq<Token>)
    requires KvOk(c, s, fed) && k < |s.running| && s.running[k] in fed && fed[s.running[k]].toks <= toks
    ensures KvOk(c, s, fed[s.running[k] := Feed(toks, fed[s.running[k]].n)])
  {
    OpenKvOk(c, s, fed);
    var id := s.running[k];
    var f, fed' := fed[id], fed[id := Feed(toks, fed[id].n)];
    assert ReqKv(c, s.reg, s.cells, s.reqs[id], f);
    FeedMore(c, s.cells, s.reqs[id].kv.blockIds, f.n, f.toks, toks);
    forall k' | 0 <= k' < |s.running| ensures ReqKv(c, s.reg, s.cells, s.reqs[s.running[k']], fed'[s.running[k']]) {
      if k' != k { assert s.running[k'] != id; }
    }
    OpenKvOk(c, s, fed');
  }

  lemma FeedMore(c: Cfg, cells: seq<KV>, table: seq<nat>, n: nat, toks: seq<Token>, toks': seq<Token>)
    requires c.bs > 0 && CellsHold(c, cells, table, n, toks) && toks <= toks'
    ensures CellsHold(c, cells, table, n, toks')
  {
    assert toks[..n] == toks'[..n];
    CtxAgree(toks, toks', n);
    forall i | 0 <= i < n ensures CellHolds(c, cells, table, i, toks') { assert CellHolds(c, cells, table, i, toks); }
  }

  lemma RowClosed(c: Cfg, s: Sys, fed: map<Id, Feed>, k: nat, row: Row)
    requires KvOk(c, s, fed) && k < |s.running| && Known(s.reqs, s.running) && c.bs > 0
    requires s.running[k] in fed && NextRow(c, s, k, fed[s.running[k]], row)
    ensures KvOk(c, s.(cells := Write(s.cells, row)), NextFed(fed, s.running[k]))
  {
    OpenKvOk(c, s, fed);
    RowKv(c, s, fed, k, row);
    OpenKvOk(c, s.(cells := Write(s.cells, row)), NextFed(fed, s.running[k]));
  }

  lemma EntryNext(c: Cfg, s: Sys, fed: map<Id, Feed>, k: nat, e: Scheduled, i: nat)
    requires KvOk(c, s, fed) && Active(c, s, k, e) && i < e.nNew
    requires s.running[k] in fed && fed[s.running[k]] == Feed(FedToks(ReqAt(s, k), e), ReqAt(s, k).computed + i)
    ensures var r, row := ReqAt(s, k), EntryRow(c.bs, ReqAt(s, k), e, i);
      && RowOk(row, |s.cells|)
      && KvOk(c, s.(cells := Write(s.cells, row)), fed[s.running[k] := Feed(FedToks(r, e), r.computed + (i + 1))])
  {
    EntryRowFor(c, ReqAt(s, k), e, i, |s.cells|);
    RowClosed(c, s, fed, k, EntryRow(c.bs, ReqAt(s, k), e, i));
  }

  lemma Overwrite(fed: map<Id, Feed>, id: Id, x: Feed, y: Feed)
    ensures fed[id := x][id := y] == fed[id := y]
    ensures id in fed && fed[id] == x ==> fed[id := x] == fed
  {
  }

  ghost predicate EntryOk(bs: nat, r: Request, e: Scheduled, nCells: nat) {
    Ready(bs, r, e) && forall i :: 0 <= i < e.nNew ==> RowOk(EntryRow(bs, r, e, i), nCells)
  }

  /** The cells after the first m rows of an entry. */
  ghost function EntryRun(cells: seq<KV>, bs: nat, r: Request, e: Scheduled, m: nat): (cells': seq<KV>)
    requires EntryOk(bs, r, e, |cells|) && m <= e.nNew
    ensures |cells'| == |cells|
  {
    if m == 0 then cells else Write(EntryRun(cells, bs, r, e, m - 1), EntryRow(bs, r, e, m - 1))
  }

  lemma {:induction false} EntryRunIsRun(cells: seq<KV>, bs: nat, r: Request, e: Scheduled, m: nat)
    requires EntryOk(bs, r, e, |cells|) && m <= e.nNew
    ensures RowsOk(EntryRows(bs, r, e, m), |cells|) && Run(cells, EntryRows(bs, r, e, m)) == EntryRun(cells, bs, r, e, m)
  {
    if m > 0 {
      EntryRunIsRun(cells, bs, r, e, m - 1);
      var rows, pre := EntryRows(bs, r, e, m), EntryRows(bs, r, e, m - 1);
      assert rows == pre + [EntryRow(bs, r, e, m - 1)];
      assert rows[..m - 1] == pre;
    }
  }

  /** All rows of one scheduled request. */
  lemma {:induction false} EntryKv(c: Cfg, s: Sys, fed: map<Id, Feed>, k: nat, e: Scheduled, m: nat)
    requires KvOk(c, s, fed) && Active(c, s, k, e) && m <= e.nNew && EntryOk(c.bs, ReqAt(s, k), e, |s.cells|)
    requires s.running[k] in fed && fed[s.running[k]] == Feed(FedToks(ReqAt(s, k), e), ReqAt(s, k).computed)
    ensures KvOk(c, s.(cells := EntryRun(s.cells, c.bs, ReqAt(s, k), e, m)),
                 fed[s.running[k] := Feed(FedToks(ReqAt(s, k), e), ReqAt(s, k).computed + m)])
  {
    var r, id := ReqAt(s, k), s.running[k];
    if m == 0 {
      Overwrite(fed, id, fed[id], fed[id]);
      assert s.(cells := s.cells) == s;
    } else {
      EntryKv(c, s, fed, k, e, m - 1);
      var x := Feed(FedToks(r, e), r.computed + (m - 1));
      EntryNext(c, s.(cells := EntryRun(s.cells, c.bs, r, e, m - 1)), fed[id := x], k, e, m - 1);
      Overwrite(fed, id, x, Feed(FedToks(r, e), r.computed + m));
    }
  }

  // ---- the whole batch ----

  /** The first m entries can be computed. */
  ghost predicate AllReady(bs: nat, reqs: map<Id, Request>, out: seq<Scheduled>) {
    forall i :: 0 <= i < |out| ==> out[i].id in reqs && Ready(bs, reqs[out[i].id], out[i])
  }

  /** The flat micro-batch: the rows of the entries one after the other. */
  function BatchRows(bs: nat, reqs: map<Id, Request>, out: seq<Scheduled>, m: nat): (rows: seq<Row>)
    requires AllReady(bs, reqs, out) && m <= |out|
  {
    if m == 0 then [] else
      BatchRows(bs, reqs, out, m - 1) + EntryRows(bs, reqs[out[m - 1].id], out[m - 1], out[m - 1].nNew)
  }

  ghost function FedAll(reqs: map<Id, Request>, out: seq<Scheduled>, m: nat): (fed: map<Id, Feed>)
    requires m <= |out| && forall i :: 0 <= i < |out| ==> out[i].id in reqs && out[i].nSpec <= |reqs[out[i].id].spec|
  {
    if m == 0 then FedOf(reqs) else
      var e := out[m - 1];
      FedAll(reqs, out, m - 1)[e.id := Feed(FedToks(reqs[e.id], e), reqs[e.id].computed + e.nNew)]
  }

  lemma {:induction false} FedAt(reqs: map<Id, Request>, out: seq<Scheduled>, m: nat, id: Id)
    requires m <= |out| && forall i :: 0 <= i < |out| ==> out[i].id in reqs && out[i].nSpec <= |reqs[out[i].id].spec|
    requires id in reqs && forall i :: 0 <= i < m ==> out[i].id != id
    ensures id in FedAll(reqs, out, m) && FedAll(reqs, out, m)[id] == Feed(reqs[id].gen.tokens, reqs[id].computed)
  {
    if m > 0 { FedAt(reqs, out, m - 1, id); }
  }

  lemma MidActive(c: Cfg, s: Sys, out: seq<Scheduled>, i: nat) returns (k: nat)
    requires Ok(c, s) && Entries(c, s, out) && i < |out|
    ensures Active(c, s, k, out[i]) && s.running[k] == out[i].id
    ensures forall j :: 0 <= j < i ==> out[j].id != out[i].id
  {
    OpenOk(c, s);
    k := IndexIn(s.running, out[i].id);
    assert Entry(c, s.reqs[out[i].id], out[i].id, out[i]);
    EntryReady(c, s.reqs[out[i].id], out[i].id, out[i]);
  }

  lemma MidReady(c: Cfg, s: Sys, out: seq<Scheduled>)
    requires Ok(c, s) && Entries(c, s, out)
    ensures AllReady(c.bs, s.reqs, out)
  {
    forall i | 0 <= i < |out| ensures out[i].id in s.reqs && Ready(c.bs, s.reqs[out[i].id], out[i]) {
      var k := MidActive(c, s, out, i);
    }
  }

  /** All rows fit the cache, whatever it holds. */
  lemma {:induction false} BatchRowsOk(c: Cfg, s: Sys, out: seq<Scheduled>, m: nat)
    requires Ok(c, s) && Entries(c, s, out) && m <= |out| && AllReady(c.bs, s.reqs, out)
    ensures RowsOk(BatchRows(c.bs, s.reqs, out, m), |s.cells|)
  {
    if m > 0 {
      BatchRowsOk(c, s, out, m - 1);
      var k := MidActive(c, s, out, m - 1);
      EntryRowsOk(c, s.reqs[out[m - 1].id], out[m - 1], out[m - 1].nNew, |s.cells|);
    }
  }

  lemma BatchRowsNext(bs: nat, reqs: map<Id, Request>, out: seq<Scheduled>, m: nat, cells: seq<KV>)
    requires AllReady(bs, reqs, out) && 0 < m <= |out| && RowsOk(BatchRows(bs, reqs, out, m - 1), |cells|)
    requires RowsOk(EntryRows(bs, reqs[out[m - 1].id], out[m - 1], out[m - 1].nNew), |cells|)
    ensures RowsOk(BatchRows(bs, reqs, out, m), |cells|)
    ensures Run(cells, BatchRows(bs, reqs, out, m))
         == Run(Run(cells, BatchRows(bs, reqs, out, m - 1)), EntryRows(bs, reqs[out[m - 1].id], out[m - 1], out[m - 1].nNew))
  {
    RunConcat(cells, BatchRows(bs, reqs, out, m - 1), EntryRows(bs, reqs[out[m - 1].id], out[m - 1], out[m - 1].nNew));
  }

  /** After the forward pass every scheduled request's cells hold its window, and KV integrity still holds. */
  lemma {:induction false} BatchKv(c: Cfg, s: Sys, out: seq<Scheduled>, m: nat)
    requires Ok(c, s) && Entries(c, s, out) && KvSteady(c, s) && m <= |out| && AllReady(c.bs, s.reqs, out)
    requires RowsOk(BatchRows(c.bs, s.reqs, out, m), |s.cells|)
    ensures KvOk(c, s.(cells := Run(s.cells, BatchRows(c.bs, s.reqs, out, m))), FedAll(s.reqs, out, m))
  {
    if m == 0 {
      assert s.(cells := s.cells) == s;
    } else {
      BatchRowsOk(c, s, out, m - 1);
      BatchKv(c, s, out, m - 1);
      EntryAfter(c, s, out, m, Run(s.cells, BatchRows(c.bs, s.reqs, out, m - 1)));
      BatchRowsNext(c.bs, s.reqs, out, m, s.cells);
    }
  }

  lemma FedNext(reqs: map<Id, Request>, out: seq<Scheduled>, m: nat)
    requires 0 < m <= |out| && forall i :: 0 <= i < |out| ==> out[i].id in reqs && out[i].nSpec <= |reqs[out[i].id].spec|
    ensures var e := out[m - 1];
      FedAll(reqs, out, m) == FedAll(reqs, out, m - 1)[e.id := Feed(FedToks(reqs[e.id], e), reqs[e.id].computed + e.nNew)]
  {
  }

  lemma EntryAfter(c: Cfg, s: Sys, out: seq<Scheduled>, m: nat, cells: seq<KV>)
    requires Ok(c, s) && Entries(c, s, out) && 0 < m <= |out| && AllReady(c.bs, s.reqs, out) && |cells| == |s.cells|
    requires KvOk(c, s.(cells := cells), FedAll(s.reqs, out, m - 1))
    ensures RowsOk(EntryRows(c.bs, s.reqs[out[m - 1].id], out[m - 1], out[m - 1].nNew), |cells|)
    ensures KvOk(c, s.(cells := Run(cells, EntryRows(c.bs, s.reqs[out[m - 1].id], out[m - 1], out[m - 1].nNew))),
                 FedAll(s.reqs, out, m))
  {
    var e, s1, fed := out[m - 1], s.(cells := cells), FedAll(s.reqs, out, m - 1);
    var k := MidActive(c, s, out, m - 1);
    FedAt(s.reqs, out, m - 1, e.id);
    FedNext(s.reqs, out, m);
    ComputeEntry(c, s1, fed, k, e);
  }

  lemma ComputeEntry(c: Cfg, s: Sys, fed: map<Id, Feed>, k: nat, e: Scheduled)
    requires KvOk(c, s, fed) && Active(c, s, k, e)
    requires s.running[k] in fed && fed[s.running[k]] == Feed(ReqAt(s, k).gen.tokens, ReqAt(s, k).computed)
    ensures RowsOk(EntryRows(c.bs, ReqAt(s, k), e, e.nNew), |s.cells|)
    ensures KvOk(c, s.(cells := Run(s.cells, EntryRows(c.bs, ReqAt(s, k), e, e.nNew))),
                 fed[s.running[k] := Feed(FedToks(ReqAt(s, k), e), ReqAt(s, k).computed + e.nNew)])
  {
    var r, id := ReqAt(s, k), s.running[k];
    forall i | 0 <= i < e.nNew ensures RowOk(EntryRow(c.bs, r, e, i), |s.cells|) { EntryRowFor(c, r, e, i, |s.cells|); }
    EntryRunIsRun(s.cells, c.bs, r, e, e.nNew);
    FeedDrafts(c, s, fed, k, FedToks(r, e));
    var x := Feed(FedToks(r, e), r.computed);
    EntryKv(c, s, fed[id := x], k, e, e.nNew);
    Overwrite(fed, id, x, Feed(FedToks(r, e), r.computed + e.nNew));
  }
}
