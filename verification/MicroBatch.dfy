/** Building the flat micro-batch of a step and finding each request's logits rows in it. */
module MicroBatch {
  import opened KvSpec
  import opened PagedKV
  import opened Serving
  import opened SchedulerSpec
  import opened Forward
  import opened StepKv

  /** The first row of entry i. */
  function RowStart(out: seq<Scheduled>, i: nat): (n: nat)
    requires i <= |out|
  {
    if i == 0 then 0 else RowStart(out, i - 1) + out[i - 1].nNew
  }

  lemma {:induction false} BatchRowsAt(bs: nat, reqs: map<Id, Request>, out: seq<Scheduled>, m: nat, i: nat, t: nat)
    requires AllReady(bs, reqs, out) && m <= |out|
    ensures |BatchRows(bs, reqs, out, m)| == RowStart(out, m)
    ensures i < m && t < out[i].nNew ==>
      && RowStart(out, i) + t < RowStart(out, m)
      && BatchRows(bs, reqs, out, m)[RowStart(out, i) + t] == EntryRow(bs, reqs[out[i].id], out[i], t)
    decreases m
  {
    if m > 0 {
      BatchRowsAt(bs, reqs, out, m - 1, i, t);
      if i == m - 1 && t < out[i].nNew { EntryRowsAt(bs, reqs[out[i].id], out[i], out[i].nNew, t); }
    }
  }

  ghost predicate NeedsLogits(r: Request, e: Scheduled) {
    r.computed + e.nNew >= |r.gen.tokens|
  }

  /** Where the logits of entry i are: one row for the last real token and one per draft. */
  ghost predicate Indexes(reqs: map<Id, Request>, out: seq<Scheduled>, outIds: seq<nat>, i: nat, at: int)
    requires i < |out| && out[i].id in reqs
  {
    if NeedsLogits(reqs[out[i].id], out[i]) then
      0 <= at && at + out[i].nSpec < |outIds| && forall k :: 0 <= k <= out[i].nSpec ==> IdAt(out, outIds, i, at, k)
    else at == -1
  }

  ghost predicate IdAt(out: seq<Scheduled>, outIds: seq<nat>, i: nat, at: int, k: nat)
    requires i < |out|
  {
    0 <= at + k < |outIds| && outIds[at + k] == RowStart(out, i) + out[i].nNew - 1 - out[i].nSpec + k
  }

  ghost predicate LogitIndex(reqs: map<Id, Request>, out: seq<Scheduled>, outIds: seq<nat>, logitRows: seq<int>) {
    && |logitRows| <= |out|
    && forall i :: 0 <= i < |logitRows| ==> out[i].id in reqs && Indexes(reqs, out, outIds, i, logitRows[i])
  }

  ghost predicate IdsIn(outIds: seq<nat>, n: nat) {
    forall j :: 0 <= j < |outIds| ==> outIds[j] < n
  }

  lemma IndexGrows(reqs: map<Id, Request>, out: seq<Scheduled>, outIds: seq<nat>, logitRows: seq<int>, more: seq<nat>)
    requires LogitIndex(reqs, out, outIds, logitRows)
    ensures LogitIndex(reqs, out, outIds + more, logitRows)
  {
    forall i | 0 <= i < |logitRows| ensures Indexes(reqs, out, outIds + more, i, logitRows[i]) {
      assert Indexes(reqs, out, outIds, i, logitRows[i]);
      if NeedsLogits(reqs[out[i].id], out[i]) {
        forall k | 0 <= k <= out[i].nSpec ensures IdAt(out, outIds + more, i, logitRows[i], k) {
          assert IdAt(out, outIds, i, logitRows[i], k);
        }
      }
    }
  }

  /** Row indices first, first + 1, ..., first + n. */
  function Upwards(first: nat, n: nat): (s: seq<nat>)
    ensures |s| == n + 1 && forall k :: 0 <= k <= n ==> s[k] == first + k
  {
    seq(n + 1, k requires 0 <= k < n + 1 => first + k)
  }

  lemma IndexMore(reqs: map<Id, Request>, out: seq<Scheduled>, outIds: seq<nat>, logitRows: seq<int>)
    requires LogitIndex(reqs, out, outIds, logitRows) && |logitRows| < |out| && out[|logitRows|].id in reqs
    requires out[|logitRows|].nSpec < out[|logitRows|].nNew
    ensures var i := |logitRows|; var e := out[i];
      if NeedsLogits(reqs[e.id], e) then
        LogitIndex(reqs, out, outIds + Upwards(RowStart(out, i) + e.nNew - 1 - e.nSpec, e.nSpec), logitRows + [|outIds|])
      else LogitIndex(reqs, out, outIds, logitRows + [-1])
  {
    var i := |logitRows|;
    var e := out[i];
    if NeedsLogits(reqs[e.id], e) {
      var more := Upwards(RowStart(out, i) + e.nNew - 1 - e.nSpec, e.nSpec);
      IndexGrows(reqs, out, outIds, logitRows, more);
      IndexNew(reqs, out, outIds, i);
      IndexSnoc(reqs, out, outIds + more, logitRows, |outIds|);
    } else {
      IndexSnoc(reqs, out, outIds, logitRows, -1);
    }
  }

  lemma IndexNew(reqs: map<Id, Request>, out: seq<Scheduled>, outIds: seq<nat>, i: nat)
    requires i < |out| && out[i].id in reqs && out[i].nSpec < out[i].nNew && NeedsLogits(reqs[out[i].id], out[i])
    ensures var more := Upwards(RowStart(out, i) + out[i].nNew - 1 - out[i].nSpec, out[i].nSpec);
      Indexes(reqs, out, outIds + more, i, |outIds|)
  {
    var more := Upwards(RowStart(out, i) + out[i].nNew - 1 - out[i].nSpec, out[i].nSpec);
    forall k | 0 <= k <= out[i].nSpec ensures IdAt(out, outIds + more, i, |outIds|, k) {
      assert (outIds + more)[|outIds| + k] == more[k];
    }
  }

  lemma IndexSnoc(reqs: map<Id, Request>, out: seq<Scheduled>, outIds: seq<nat>, logitRows: seq<int>, at: int)
    requires LogitIndex(reqs, out, outIds, logitRows) && |logitRows| < |out| && out[|logitRows|].id in reqs
    requires Indexes(reqs, out, outIds, |logitRows|, at)
    ensures LogitIndex(reqs, out, outIds, logitRows + [at])
  {
    var rows := logitRows + [at];
    forall i | 0 <= i < |rows| ensures out[i].id in reqs && Indexes(reqs, out, outIds, i, rows[i]) {
      if i < |logitRows| { assert Indexes(reqs, out, outIds, i, logitRows[i]); }
    }
  }

  /** The rows of one entry, token by token. */
  method AppendRows(bs: nat, r: Request, e: Scheduled, rows: seq<Row>) returns (rows': seq<Row>)
    requires Ready(bs, r, e)
    ensures rows' == rows + EntryRows(bs, r, e, e.nNew)
  {
    rows' := rows;
    var n := r.computed + e.nNew;
    var cells := Cells(bs, r.kv.blockIds, n);
    for i := 0 to e.nNew
      invariant rows' == rows + EntryRows(bs, r, e, i)
    {
      var p := r.computed + i;
      var tok := if p < |r.gen.tokens| then r.gen.tokens[p] else r.spec[p - |r.gen.tokens|];
      rows' := rows' + [Row(tok, p, CellOf(bs, r.kv.blockIds, p), cells)];
    }
  }

  /** Records where the next entry's logits will be, given that its rows have just been appended. */
  method AppendIndex(reqs: map<Id, Request>, out: seq<Scheduled>, nRows: nat, outIds: seq<nat>, logitRows: seq<int>)
    returns (outIds': seq<nat>, logitRows': seq<int>)
    requires LogitIndex(reqs, out, outIds, logitRows) && |logitRows| < |out| && out[|logitRows|].id in reqs
    requires out[|logitRows|].nSpec < out[|logitRows|].nNew && nRows == RowStart(out, |logitRows| + 1) && IdsIn(outIds, nRows)
    ensures |logitRows'| == |logitRows| + 1 && LogitIndex(reqs, out, outIds', logitRows') && IdsIn(outIds', nRows)
  {
    var e := out[|logitRows|];
    var r := reqs[e.id];
    IndexMore(reqs, out, outIds, logitRows);
    if r.computed + e.nNew >= |r.gen.tokens| {
      logitRows' := logitRows + [|outIds|];
      outIds' := outIds + Upwards(nRows - 1 - e.nSpec, e.nSpec);
    } else {
      logitRows' := logitRows + [-1];
      outIds' := outIds;
    }
  }

  /** Flattens the scheduled requests into rows and records where their logits will be. */
  method BuildBatch(bs: nat, reqs: map<Id, Request>, out: seq<Scheduled>)
    returns (rows: seq<Row>, outIds: seq<nat>, logitRows: seq<int>)
    requires AllReady(bs, reqs, out) && out != [] && forall i :: 0 <= i < |out| ==> out[i].nSpec < out[i].nNew
    ensures rows == BatchRows(bs, reqs, out, |out|)
    ensures |logitRows| == |out| && LogitIndex(reqs, out, outIds, logitRows) && IdsIn(outIds, |rows|)
  {
    rows, outIds, logitRows := [], [], [];
    for i := 0 to |out|
      invariant rows == BatchRows(bs, reqs, out, i) && |rows| == RowStart(out, i)
      invariant |logitRows| == i && LogitIndex(reqs, out, outIds, logitRows) && IdsIn(outIds, |rows|)
    {
      rows := AppendRows(bs, reqs[out[i].id], out[i], rows);
      outIds, logitRows := AppendIndex(reqs, out, |rows|, outIds, logitRows);
    }
    outIds := AtLeastOne(bs, reqs, out, rows, outIds, logitRows);
  }

  /** A batch without logits still reads one row, so that the graph keeps its shape. */
  method AtLeastOne(bs: nat, reqs: map<Id, Request>, out: seq<Scheduled>, rows: seq<Row>, outIds: seq<nat>, logitRows: seq<int>)
    returns (outIds': seq<nat>)
    requires AllReady(bs, reqs, out) && out != [] && out[0].nNew > 0 && rows == BatchRows(bs, reqs, out, |out|)
    requires LogitIndex(reqs, out, outIds, logitRows) && IdsIn(outIds, |rows|)
    ensures LogitIndex(reqs, out, outIds', logitRows) && IdsIn(outIds', |rows|) && outIds' != []
  {
    outIds' := outIds;
    if outIds == [] {
      BatchRowsAt(bs, reqs, out, |out|, 0, 0);
      IndexGrows(reqs, out, outIds, logitRows, [0]);
      outIds' := [0];
    }
  }

  /** Every output row reads the entries its token attends, itself included. */
  method ReadLogits(cells: seq<KV>, rows: seq<Row>, outIds: seq<nat>) returns (logits: seq<seq<KV>>)
    requires RowsOk(rows, |cells|) && IdsIn(outIds, |rows|)
    ensures |logits| == |outIds|
    ensures forall j :: 0 <= j < |outIds| ==> logits[j] == Attend(cells, rows[outIds[j]], rows[outIds[j]].pos + 1)
  {
    logits := [];
    for j := 0 to |outIds|
      invariant |logits| == j
      invariant forall i :: 0 <= i < j ==> logits[i] == Attend(cells, rows[outIds[i]], rows[outIds[i]].pos + 1)
    {
      var row := rows[outIds[j]];
      logits := logits + [Attend(cells, row, row.pos + 1)];
    }
  }

  /** Entry i's logits, cut out of the flat output. */
  function AnswerRows(out: seq<Scheduled>, logits: seq<seq<KV>>, logitRows: seq<int>, i: nat): (a: seq<seq<KV>>)
    requires i < |logitRows| <= |out| && (logitRows[i] >= 0 ==> logitRows[i] + out[i].nSpec < |logits|)
  {
    if logitRows[i] < 0 then [] else logits[logitRows[i]..logitRows[i] + out[i].nSpec + 1]
  }

  /** The flat output holds the logits of exactly the rows asked for. */
  ghost predicate LogitsOf(cells: seq<KV>, rows: seq<Row>, outIds: seq<nat>, logits: seq<seq<KV>>) {
    && RowsOk(rows, |cells|) && IdsIn(outIds, |rows|) && |logits| == |outIds|
    && forall j :: 0 <= j < |outIds| ==> logits[j] == Attend(cells, rows[outIds[j]], rows[outIds[j]].pos + 1)
  }

  lemma AnswerRowIs(bs: nat, reqs: map<Id, Request>, out: seq<Scheduled>, cells: seq<KV>, rows: seq<Row>, logits: seq<seq<KV>>, outIds: seq<nat>, i: nat, at: int, k: nat)
    requires AllReady(bs, reqs, out) && i < |out| && rows == BatchRows(bs, reqs, out, |out|) && LogitsOf(cells, rows, outIds, logits)
    requires k <= out[i].nSpec < out[i].nNew && IdAt(out, outIds, i, at, k)
    ensures var e, r := out[i], reqs[out[i].id]; var row := EntryRow(bs, r, e, e.nNew - 1 - e.nSpec + k);
      RowOk(row, |cells|) && logits[at + k] == Attend(cells, row, r.computed + e.nNew - e.nSpec + k)
  {
    BatchRowsAt(bs, reqs, out, |out|, i, out[i].nNew - 1 - out[i].nSpec + k);
    assert RowOk(rows[outIds[at + k]], |cells|);
  }

  lemma AnswerRowsAre(bs: nat, reqs: map<Id, Request>, out: seq<Scheduled>, cells: seq<KV>, rows: seq<Row>, logits: seq<seq<KV>>, outIds: seq<nat>, logitRows: seq<int>, i: nat)
    requires AllReady(bs, reqs, out) && i < |out| == |logitRows| && LogitIndex(reqs, out, outIds, logitRows)
    requires EntryOk(bs, reqs[out[i].id], out[i], |cells|) && out[i].nSpec < out[i].nNew
    requires rows == BatchRows(bs, reqs, out, |out|) && LogitsOf(cells, rows, outIds, logits)
    ensures logitRows[i] >= 0 ==> logitRows[i] + out[i].nSpec < |logits|
    ensures AnswerRows(out, logits, logitRows, i) == AnswerOf(cells, bs, reqs[out[i].id], out[i])
  {
    var r, e, at := reqs[out[i].id], out[i], logitRows[i];
    assert Indexes(reqs, out, outIds, i, at);
    if NeedsLogits(r, e) {
      forall k | 0 <= k <= e.nSpec ensures RowAt(bs, r, e, cells, logits, at, k) {
        assert IdAt(out, outIds, i, at, k);
        AnswerRowIs(bs, reqs, out, cells, rows, logits, outIds, i, at, k);
      }
      CutIsAnswer(bs, r, e, cells, logits, at);
    }
  }

  ghost predicate RowAt(bs: nat, r: Request, e: Scheduled, cells: seq<KV>, logits: seq<seq<KV>>, at: nat, k: nat)
    requires EntryOk(bs, r, e, |cells|) && k <= e.nSpec < e.nNew && at + k < |logits|
  {
    logits[at + k] == Attend(cells, EntryRow(bs, r, e, e.nNew - 1 - e.nSpec + k), r.computed + e.nNew - e.nSpec + k)
  }

  lemma CutIsAnswer(bs: nat, r: Request, e: Scheduled, cells: seq<KV>, logits: seq<seq<KV>>, at: nat)
    requires EntryOk(bs, r, e, |cells|) && e.nSpec < e.nNew && NeedsLogits(r, e) && at + e.nSpec < |logits|
    requires forall k :: 0 <= k <= e.nSpec ==> RowAt(bs, r, e, cells, logits, at, k)
    ensures logits[at..at + e.nSpec + 1] == AnswerOf(cells, bs, r, e)
  {
    var a, b := logits[at..at + e.nSpec + 1], AnswerOf(cells, bs, r, e);
    forall k | 0 <= k < |a| ensures a[k] == b[k] {
      assert a[k] == logits[at + k];
      assert RowAt(bs, r, e, cells, logits, at, k);
    }
  }
}
