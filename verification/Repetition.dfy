/** The rewriting of S{m,n}, S*, S+ and S? into plain rules. */
module Repetition {
  import opened Types
  import opened Pushdown
  import opened Grammars

  // ---- what a stretch of elements derives ----

  /** From off on, es is a sequence of references and complete terminals. */
  predicate Solid(es: seq<Elem>, off: nat)
    decreases |es| - off
  {
    off >= |es| || match es[off]
      case REF(_) => Solid(es, off + 1)
      case CHAR(_) => Solid(es, ClassEnd(es, off))
      case NOT(_) => Solid(es, ClassEnd(es, off))
      case ANY => !HasUpper(es, off) && Solid(es, ClassEnd(es, off))
      case _ => false
  }

  /** w is a string for the elements from off on, in the grammar of m. */
  ghost predicate Seg(m: Machine, es: seq<Elem>, off: nat, w: seq<nat>)
    decreases |es| - off, 1
  {
    if off >= |es| then w == [] else match es[off]
      case REF(k) => exists i :: 0 <= i <= |w| && SegSplit(m, es, off, k, w, i)
      case CHAR(_) => |w| > 0 && InClass(es, off, w[0]) && Seg(m, es, ClassEnd(es, off), w[1..])
      case NOT(_) => |w| > 0 && InClass(es, off, w[0]) && Seg(m, es, ClassEnd(es, off), w[1..])
      case ANY => |w| > 0 && InClass(es, off, w[0]) && Seg(m, es, ClassEnd(es, off), w[1..])
      case _ => false
  }

  ghost predicate SegSplit(m: Machine, es: seq<Elem>, off: nat, k: nat, w: seq<nat>, i: nat)
    requires off < |es| && i <= |w|
    decreases |es| - off, 0
  {
    Derives(m, k, w[..i]) && Seg(m, es, off + 1, w[i..])
  }

  lemma WhereSplit(m: Machine, es: seq<Elem>, off: nat, w: seq<nat>) returns (i: nat)
    requires off < |es| && es[off].REF? && Seg(m, es, off, w)
    ensures i <= |w| && Derives(m, es[off].rule, w[..i]) && Seg(m, es, off + 1, w[i..])
  {
    i :| 0 <= i <= |w| && SegSplit(m, es, off, es[off].rule, w, i);
  }

  lemma Splice(m: Machine, es: seq<Elem>, off: nat, u: seq<nat>, v: seq<nat>)
    requires off < |es| && es[off].REF? && Derives(m, es[off].rule, u) && Seg(m, es, off + 1, v)
    ensures Seg(m, es, off, u + v)
  {
    assert (u + v)[..|u|] == u && (u + v)[|u|..] == v;
    assert SegSplit(m, es, off, es[off].rule, u + v, |u|);
  }

  /** es stands in r at a, and the terminal that ends it is complete there. */
  predicate At(r: Rule, a: nat, es: seq<Elem>) {
    a + |es| <= |r| && r[a..a + |es|] == es && (a + |es| < |r| ==> !r[a + |es|].UPPER? && !r[a + |es|].MORE?)
  }

  lemma ItemAt(r: Rule, a: nat, es: seq<Elem>, off: nat)
    requires At(r, a, es) && off < |es|
    ensures r[a + off] == es[off] && ItemEnd(es, off) <= |es| && ItemEnd(r, a + off) == a + ItemEnd(es, off)
    ensures ItemRange(r, a + off) == ItemRange(es, off)
  {
    assert r[a + off] == r[a..a + |es|][off];
    if off + 1 < |es| { assert r[a + off + 1] == r[a..a + |es|][off + 1]; }
  }

  lemma {:induction false} ClassAt(r: Rule, a: nat, es: seq<Elem>, off: nat)
    requires At(r, a, es) && off < |es|
    ensures ClassEnd(es, off) <= |es| && ClassEnd(r, a + off) == a + ClassEnd(es, off)
    ensures Ranges(r, a + off) == Ranges(es, off)
    decreases |es| - off
  {
    ItemAt(r, a, es, off);
    var k := ItemEnd(es, off);
    if k < |es| {
      ItemAt(r, a, es, k);
      if es[k].MORE? { ClassAt(r, a, es, k); }
    }
  }

  lemma PartAt(r: Rule, a: nat, es: seq<Elem>, off: nat)
    requires At(r, a, es) && off < |es|
    ensures r[a + off] == es[off] && (HasUpper(r, a + off) <==> HasUpper(es, off))
    ensures ClassEnd(es, off) <= |es| && ClassEnd(r, a + off) == a + ClassEnd(es, off)
    ensures forall chr :: InClass(r, a + off, chr) == InClass(es, off, chr)
  {
    ItemAt(r, a, es, off);
    ClassAt(r, a, es, off);
  }

  /** What the machine does at element off of a stretch es that stands in a rule at a. */
  ghost predicate Stands(m: Machine, rule: nat, a: nat, es: seq<Elem>, off: nat)
    requires off < |es|
  {
    var p := Pos(rule, a + off);
    if es[off].REF? then m.node(p) == Sub(es[off].rule, Pos(rule, a + (off + 1)))
    else
      && IsClass(es[off]) && ClassEnd(es, off) <= |es| && m.node(p) == Term(Pos(rule, a + ClassEnd(es, off)))
      && forall chr :: m.hit(p, chr) == InClass(es, off, chr)
  }

  ghost predicate StandsFrom(m: Machine, rule: nat, a: nat, es: seq<Elem>, off: nat)
    decreases |es| - off
  {
    off < |es| ==> Stands(m, rule, a, es, off) && StandsFrom(m, rule, a, es, if es[off].REF? then off + 1 else ClassEnd(es, off))
  }

  lemma NodeOf(g: Rules, p: Pos)
    requires p.rule < |g| && p.off < |g[p.rule]|
    ensures g[p.rule][p.off].REF? ==> MachineOf(g).node(p) == Sub(g[p.rule][p.off].rule, Pos(p.rule, p.off + 1))
    ensures IsClass(g[p.rule][p.off]) ==> MachineOf(g).node(p) == Term(Pos(p.rule, ClassEnd(g[p.rule], p.off)))
    ensures forall chr :: MachineOf(g).hit(p, chr) == InClass(g[p.rule], p.off, chr)
  {
  }

  lemma StandsAt(g: Rules, rule: nat, a: nat, es: seq<Elem>, off: nat)
    requires rule < |g| && At(g[rule], a, es) && off < |es| && (es[off].REF? || IsClass(es[off]))
    ensures Stands(MachineOf(g), rule, a, es, off)
  {
    PartAt(g[rule], a, es, off);
    NodeOf(g, Pos(rule, a + off));
  }

  lemma {:induction false} StandsAll(g: Rules, rule: nat, a: nat, es: seq<Elem>, off: nat)
    requires rule < |g| && At(g[rule], a, es) && Solid(es, off)
    ensures StandsFrom(MachineOf(g), rule, a, es, off)
    decreases |es| - off
  {
    if off < |es| {
      StandsAt(g, rule, a, es, off);
      StandsAll(g, rule, a, es, if es[off].REF? then off + 1 else ClassEnd(es, off));
    }
  }

  /** A derivation from inside a rule starts with a string for the stretch of elements that stands there. */
  lemma {:induction false} SeqToSeg(m: Machine, rule: nat, a: nat, es: seq<Elem>, off: nat, w: seq<nat>, n: nat)
    returns (i: nat, n': nat)
    requires off <= |es| && StandsFrom(m, rule, a, es, off) && SeqDerives(m, Pos(rule, a + off), w, n)
    ensures i <= |w| && Seg(m, es, off, w[..i]) && SeqDerives(m, Pos(rule, a + |es|), w[i..], n')
    ensures n' <= n && (off < |es| ==> n' < n)
    decreases |es| - off
  {
    if off == |es| {
      i, n' := 0, n;
      assert w[0..] == w;
    } else if es[off].REF? {
      var j := SplitAt(m, Pos(rule, a + off), w, n);
      i, n' := SeqToSeg(m, rule, a, es, off + 1, w[j..], n - 1);
      AddRef(m, es, off, w, j, i);
      i := j + i;
    } else {
      TermStep(m, Pos(rule, a + off), w, n);
      i, n' := SeqToSeg(m, rule, a, es, ClassEnd(es, off), w[1..], n - 1);
      AddTerm(m, es, off, w, i);
      i := i + 1;
    }
  }

  lemma AddRef(m: Machine, es: seq<Elem>, off: nat, w: seq<nat>, j: nat, i: nat)
    requires off < |es| && es[off].REF? && j + i <= |w| && Derives(m, es[off].rule, w[..j]) && Seg(m, es, off + 1, w[j..][..i])
    ensures Seg(m, es, off, w[..j + i]) && w[j..][i..] == w[j + i..]
  {
    Splice(m, es, off, w[..j], w[j..][..i]);
    assert w[..j] + w[j..][..i] == w[..j + i];
  }

  lemma AddTerm(m: Machine, es: seq<Elem>, off: nat, w: seq<nat>, i: nat)
    requires off < |es| && IsClass(es[off]) && i < |w| && InClass(es, off, w[0]) && Seg(m, es, ClassEnd(es, off), w[1..][..i])
    ensures Seg(m, es, off, w[..i + 1]) && w[1..][i..] == w[i + 1..]
  {
    assert w[..i + 1][1..] == w[1..][..i];
  }

  lemma TermStep(m: Machine, p: Pos, w: seq<nat>, n: nat)
    requires m.node(p).Term? && SeqDerives(m, p, w, n)
    ensures n > 0 && |w| > 0 && m.hit(p, w[0]) && SeqDerives(m, m.node(p).next, w[1..], n - 1)
  {
  }

  lemma SplitAt(m: Machine, p: Pos, w: seq<nat>, n: nat) returns (j: nat)
    requires m.node(p).Sub? && SeqDerives(m, p, w, n)
    ensures n > 0 && j <= |w| && RuleDerives(m, m.node(p).rule, w[..j], n - 1) && Derives(m, m.node(p).rule, w[..j])
    ensures SeqDerives(m, m.node(p).next, w[j..], n - 1)
  {
    j :| 0 <= j <= |w| && Splits(m, m.node(p).rule, m.node(p).next, w, j, n);
  }

  lemma JoinAt(m: Machine, p: Pos, u: seq<nat>, v: seq<nat>, n: nat) returns (n': nat)
    requires m.node(p).Sub? && Derives(m, m.node(p).rule, u) && SeqDerives(m, m.node(p).next, v, n)
    ensures SeqDerives(m, p, u + v, n')
  {
    var k: nat :| RuleDerives(m, m.node(p).rule, u, k);
    HigherRule(m, m.node(p).rule, u, k, Max(k, n));
    HigherSeq(m, m.node(p).next, v, n, Max(k, n));
    n' := Max(k, n) + 1;
    assert (u + v)[..|u|] == u && (u + v)[|u|..] == v;
    assert Splits(m, m.node(p).rule, m.node(p).next, u + v, |u|, n');
  }

  lemma {:induction false} SegToSeq(m: Machine, rule: nat, a: nat, es: seq<Elem>, off: nat, u: seq<nat>, v: seq<nat>, n: nat)
    returns (n': nat)
    requires off <= |es| && StandsFrom(m, rule, a, es, off)
    requires Seg(m, es, off, u) && SeqDerives(m, Pos(rule, a + |es|), v, n)
    ensures SeqDerives(m, Pos(rule, a + off), u + v, n')
    decreases |es| - off
  {
    if off == |es| {
      n' := n;
      assert u + v == v;
    } else if es[off].REF? {
      var i := WhereSplit(m, es, off, u);
      var n1 := SegToSeq(m, rule, a, es, off + 1, u[i..], v, n);
      n' := JoinAt(m, Pos(rule, a + off), u[..i], u[i..] + v, n1);
      assert u[..i] + (u[i..] + v) == u + v;
    } else {
      var n1 := SegToSeq(m, rule, a, es, ClassEnd(es, off), u[1..], v, n);
      assert (u + v)[1..] == u[1..] + v;
      n' := n1 + 1;
    }
  }

  // ---- sequences and powers ----

  ghost predicate Lang(m: Machine, es: seq<Elem>, w: seq<nat>) { Seg(m, es, 0, w) }

  /** A stretch at the end of a longer one derives the same there. */
  lemma {:induction false} SegShift(m: Machine, r: seq<Elem>, a: nat, es: seq<Elem>, off: nat, w: seq<nat>)
    requires At(r, a, es) && a + |es| == |r| && off <= |es|
    ensures Seg(m, r, a + off, w) <==> Seg(m, es, off, w)
    decreases |es| - off
  {
    if off < |es| {
      PartAt(r, a, es, off);
      if es[off].REF? {
        if Seg(m, r, a + off, w) {
          var i := WhereSplit(m, r, a + off, w);
          SegShift(m, r, a, es, off + 1, w[i..]);
          Splice(m, es, off, w[..i], w[i..]);
          assert w[..i] + w[i..] == w;
        }
        if Seg(m, es, off, w) {
          var i := WhereSplit(m, es, off, w);
          SegShift(m, r, a, es, off + 1, w[i..]);
          Splice(m, r, a + off, w[..i], w[i..]);
          assert w[..i] + w[i..] == w;
        }
      } else if IsClass(es[off]) && |w| > 0 {
        SegShift(m, r, a, es, ClassEnd(es, off), w[1..]);
      }
    }
  }

  lemma {:induction false} SegCut(m: Machine, r: seq<Elem>, es: seq<Elem>, off: nat, w: seq<nat>) returns (i: nat)
    requires At(r, 0, es) && off <= |es| && Seg(m, r, off, w)
    ensures i <= |w| && Seg(m, es, off, w[..i]) && Seg(m, r, |es|, w[i..])
    decreases |es| - off
  {
    if off == |es| {
      i := 0;
      assert w[0..] == w;
    } else {
      PartAt(r, 0, es, off);
      if es[off].REF? {
        var j := WhereSplit(m, r, off, w);
        i := SegCut(m, r, es, off + 1, w[j..]);
        AddRef(m, es, off, w, j, i);
        i := j + i;
      } else {
        i := SegCut(m, r, es, ClassEnd(es, off), w[1..]);
        AddTerm(m, es, off, w, i);
        i := i + 1;
      }
    }
  }

  lemma {:induction false} SegPaste(m: Machine, r: seq<Elem>, es: seq<Elem>, off: nat, u: seq<nat>, v: seq<nat>)
    requires At(r, 0, es) && off <= |es| && Seg(m, es, off, u) && Seg(m, r, |es|, v)
    ensures Seg(m, r, off, u + v)
    decreases |es| - off
  {
    if off == |es| {
      assert u + v == v;
    } else {
      PartAt(r, 0, es, off);
      if es[off].REF? {
        var i := WhereSplit(m, es, off, u);
        SegPaste(m, r, es, off + 1, u[i..], v);
        Splice(m, r, off, u[..i], u[i..] + v);
        assert u[..i] + (u[i..] + v) == u + v;
      } else {
        SegPaste(m, r, es, ClassEnd(es, off), u[1..], v);
        assert (u + v)[1..] == u[1..] + v;
      }
    }
  }

  lemma SolidAt(x: seq<Elem>, y: seq<Elem>)
    requires Solid(y, 0)
    ensures At(x + y, 0, x) && At(x + y, |x|, y)
  {
    assert (x + y)[0..|x|] == x && (x + y)[|x|..|x| + |y|] == y;
    if y != [] { assert (x + y)[|x|] == y[0]; }
  }

  lemma ConcatCut(m: Machine, x: seq<Elem>, y: seq<Elem>, w: seq<nat>) returns (i: nat)
    requires Solid(y, 0) && Lang(m, x + y, w)
    ensures i <= |w| && Lang(m, x, w[..i]) && Lang(m, y, w[i..])
  {
    SolidAt(x, y);
    i := SegCut(m, x + y, x, 0, w);
    SegShift(m, x + y, |x|, y, 0, w[i..]);
  }

  lemma ConcatPaste(m: Machine, x: seq<Elem>, y: seq<Elem>, u: seq<nat>, v: seq<nat>)
    requires Solid(y, 0) && Lang(m, x, u) && Lang(m, y, v)
    ensures Lang(m, x + y, u + v)
  {
    SolidAt(x, y);
    SegShift(m, x + y, |x|, y, 0, v);
    SegPaste(m, x + y, x, 0, u, v);
  }

  /** w is a concatenation of k strings for es. */
  ghost predicate Power(m: Machine, es: seq<Elem>, k: nat, w: seq<nat>)
    decreases k, 1
  {
    if k == 0 then w == [] else exists i :: 0 <= i <= |w| && PowerCut(m, es, k, w, i)
  }

  ghost predicate PowerCut(m: Machine, es: seq<Elem>, k: nat, w: seq<nat>, i: nat)
    requires k > 0 && i <= |w|
    decreases k, 0
  {
    Lang(m, es, w[..i]) && Power(m, es, k - 1, w[i..])
  }

  lemma FirstFactor(m: Machine, es: seq<Elem>, k: nat, w: seq<nat>) returns (i: nat)
    requires k > 0 && Power(m, es, k, w)
    ensures i <= |w| && Lang(m, es, w[..i]) && Power(m, es, k - 1, w[i..])
  {
    i :| 0 <= i <= |w| && PowerCut(m, es, k, w, i);
  }

  lemma OneMore(m: Machine, es: seq<Elem>, k: nat, u: seq<nat>, v: seq<nat>)
    requires Lang(m, es, u) && Power(m, es, k, v)
    ensures Power(m, es, k + 1, u + v)
  {
    assert (u + v)[..|u|] == u && (u + v)[|u|..] == v;
    assert PowerCut(m, es, k + 1, u + v, |u|);
  }

  lemma {:induction false} PowerCutAt(m: Machine, es: seq<Elem>, j: nat, k: nat, w: seq<nat>) returns (i: nat)
    requires Power(m, es, j + k, w)
    ensures i <= |w| && Power(m, es, j, w[..i]) && Power(m, es, k, w[i..])
    decreases j
  {
    if j == 0 {
      i := 0;
      assert w[0..] == w;
    } else {
      var a := FirstFactor(m, es, j + k, w);
      var b := PowerCutAt(m, es, j - 1, k, w[a..]);
      i := a + b;
      OneMore(m, es, j - 1, w[..a], w[a..][..b]);
      assert w[..a] + w[a..][..b] == w[..i] && w[a..][b..] == w[i..];
    }
  }

  lemma {:induction false} PowerPaste(m: Machine, es: seq<Elem>, j: nat, k: nat, u: seq<nat>, v: seq<nat>)
    requires Power(m, es, j, u) && Power(m, es, k, v)
    ensures Power(m, es, j + k, u + v)
    decreases j
  {
    if j == 0 {
      assert u + v == v;
    } else {
      var a := FirstFactor(m, es, j, u);
      PowerPaste(m, es, j - 1, k, u[a..], v);
      OneMore(m, es, j - 1 + k, u[..a], u[a..] + v);
      assert u[..a] + (u[a..] + v) == u + v;
    }
  }

  /** es written k times. */
  function Copies(es: seq<Elem>, k: nat): (r: seq<Elem>) {
    if k == 0 then [] else es + Copies(es, k - 1)
  }

  lemma {:induction false} SolidJoin(x: seq<Elem>, y: seq<Elem>, off: nat)
    requires Solid(x, off) && Solid(y, 0) && off <= |x|
    ensures Solid(x + y, off)
    decreases |x| - off
  {
    SolidAt(x, y);
    if off < |x| {
      PartAt(x + y, 0, x, off);
      SolidJoin(x, y, if x[off].REF? then off + 1 else ClassEnd(x, off));
    } else {
      SolidTail(x, y, 0);
    }
  }

  lemma {:induction false} SolidTail(x: seq<Elem>, y: seq<Elem>, off: nat)
    requires Solid(y, off) && At(x + y, |x|, y) && off <= |y|
    ensures Solid(x + y, |x| + off)
    decreases |y| - off
  {
    if off < |y| {
      PartAt(x + y, |x|, y, off);
      SolidTail(x, y, if y[off].REF? then off + 1 else ClassEnd(y, off));
    }
  }

  lemma {:induction false} CopiesPower(m: Machine, es: seq<Elem>, k: nat, w: seq<nat>)
    requires Solid(es, 0)
    ensures Solid(Copies(es, k), 0) && (Lang(m, Copies(es, k), w) <==> Power(m, es, k, w))
    decreases k
  {
    if k > 0 {
      CopiesPower(m, es, k - 1, w);
      SolidJoin(es, Copies(es, k - 1), 0);
      if Lang(m, Copies(es, k), w) {
        var i := ConcatCut(m, es, Copies(es, k - 1), w);
        CopiesPower(m, es, k - 1, w[i..]);
        OneMore(m, es, k - 1, w[..i], w[i..]);
        assert w[..i] + w[i..] == w;
      }
      if Power(m, es, k, w) {
        var i := FirstFactor(m, es, k, w);
        CopiesPower(m, es, k - 1, w[i..]);
        ConcatPaste(m, es, Copies(es, k - 1), w[..i], w[i..]);
        assert w[..i] + w[i..] == w;
      }
    }
  }
}
