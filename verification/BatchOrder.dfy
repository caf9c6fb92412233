/** The order of a step's batch: gather attention wants requests with equally many tokens side by side. */
module BatchOrder {
  import opened Serving
  import opened SchedulerSpec
  import opened Steps

  /** The entry goes behind the last one that has at least as many tokens. */
  function Slide(q: seq<Scheduled>, e: Scheduled): (r: seq<Scheduled>) {
    if q == [] || q[|q| - 1].nNew >= e.nNew then q + [e]
    else Slide(q[..|q| - 1], e) + [q[|q| - 1]]
  }

  /** The batch by descending token count; a stable sort. */
  function ByCount(out: seq<Scheduled>): (r: seq<Scheduled>) {
    if out == [] then [] else Slide(ByCount(out[..|out| - 1]), out[|out| - 1])
  }

  ghost predicate Descending(q: seq<Scheduled>) {
    forall i, j :: 0 <= i < j < |q| ==> q[i].nNew >= q[j].nNew
  }

  /** The entries with n tokens, in order. */
  function WithCount(q: seq<Scheduled>, n: nat): (r: seq<Scheduled>) {
    if q == [] then [] else WithCount(q[..|q| - 1], n) + if q[|q| - 1].nNew == n then [q[|q| - 1]] else []
  }

  lemma WithCountSnoc(q: seq<Scheduled>, e: Scheduled, n: nat)
    ensures WithCount(q + [e], n) == WithCount(q, n) + if e.nNew == n then [e] else []
  {
    assert (q + [e])[..|q|] == q;
  }

  lemma {:induction false} SlideMembers(q: seq<Scheduled>, e: Scheduled)
    ensures forall x :: x in Slide(q, e) <==> x in q || x == e
  {
    if q != [] {
      SlideMembers(q[..|q| - 1], e);
      assert q == q[..|q| - 1] + [q[|q| - 1]];
    }
  }

  lemma {:induction false} SlideSorts(q: seq<Scheduled>, e: Scheduled)
    requires Descending(q)
    ensures Descending(Slide(q, e))
  {
    if q != [] && q[|q| - 1].nNew < e.nNew {
      var rest, last := q[..|q| - 1], q[|q| - 1];
      SlideSorts(rest, e);
      SlideMembers(rest, e);
      var r := Slide(rest, e);
      forall i | 0 <= i < |r| ensures r[i].nNew >= last.nNew { assert r[i] in r; }
    }
  }

  lemma {:induction false} SlideStable(q: seq<Scheduled>, e: Scheduled, n: nat)
    requires Descending(q)
    ensures WithCount(Slide(q, e), n) == WithCount(q, n) + if e.nNew == n then [e] else []
  {
    if q == [] || q[|q| - 1].nNew >= e.nNew {
      WithCountSnoc(q, e, n);
    } else {
      var rest, last := q[..|q| - 1], q[|q| - 1];
      SlideStable(rest, e, n);
      WithCountSnoc(Slide(rest, e), last, n);
      if n == last.nNew {
      } else {
        assert WithCount(q, n) == WithCount(rest, n);
      }
    }
  }

  lemma {:induction false} SlideDistinct(q: seq<Scheduled>, e: Scheduled)
    requires DistinctIds(q) && forall x :: x in q ==> x.id != e.id
    ensures DistinctIds(Slide(q, e))
  {
    if q == [] || q[|q| - 1].nNew >= e.nNew {
      forall i | 0 <= i < |q| ensures q[i].id != e.id { assert q[i] in q; }
    } else {
      var rest, last := q[..|q| - 1], q[|q| - 1];
      SlideDistinct(rest, e);
      SlideMembers(rest, e);
      var r := Slide(rest, e);
      assert last in q;
      forall i | 0 <= i < |r| ensures r[i].id != last.id {
        assert r[i] in r;
        if r[i] in rest { var j :| 0 <= j < |rest| && rest[j] == r[i]; }
      }
    }
  }

  lemma {:induction false} ByCountMembers(out: seq<Scheduled>)
    ensures forall x :: x in ByCount(out) <==> x in out
  {
    if out != [] {
      ByCountMembers(out[..|out| - 1]);
      SlideMembers(ByCount(out[..|out| - 1]), out[|out| - 1]);
      assert out == out[..|out| - 1] + [out[|out| - 1]];
    }
  }

  /** Those with more tokens come first. */
  lemma {:induction false} ByCountDescends(out: seq<Scheduled>)
    ensures Descending(ByCount(out))
  {
    if out != [] {
      ByCountDescends(out[..|out| - 1]);
      SlideSorts(ByCount(out[..|out| - 1]), out[|out| - 1]);
    }
  }

  /** Those with equally many tokens stay in their order. */
  lemma {:induction false} ByCountStable(out: seq<Scheduled>, n: nat)
    ensures WithCount(ByCount(out), n) == WithCount(out, n)
  {
    if out != [] {
      ByCountStable(out[..|out| - 1], n);
      ByCountDescends(out[..|out| - 1]);
      SlideStable(ByCount(out[..|out| - 1]), out[|out| - 1], n);
    }
  }

  lemma {:induction false} ByCountDistinct(out: seq<Scheduled>)
    requires DistinctIds(out)
    ensures DistinctIds(ByCount(out))
  {
    if out != [] {
      var rest, last := out[..|out| - 1], out[|out| - 1];
      ByCountDistinct(rest);
      ByCountMembers(rest);
      forall x | x in ByCount(rest) ensures x.id != last.id {
        var i :| 0 <= i < |rest| && rest[i] == x;
        assert out[i] == x;
      }
      SlideDistinct(ByCount(rest), last);
    }
  }

  /** The reordered batch is as good as the scheduler's. */
  lemma OrderEntries(c: Cfg, s: Sys, out: seq<Scheduled>)
    requires Entries(c, s, out)
    ensures Entries(c, s, ByCount(out)) && (out != [] ==> out[0] in ByCount(out))
  {
    ByCountMembers(out);
    ByCountDistinct(out);
    forall i | 0 <= i < |ByCount(out)|
      ensures ByCount(out)[i].id in s.running && ByCount(out)[i].id in s.reqs
      ensures Entry(c, s.reqs[ByCount(out)[i].id], ByCount(out)[i].id, ByCount(out)[i])
    {
      assert ByCount(out)[i] in out;
    }
    if out != [] { assert out[0] in out; }
  }
}
