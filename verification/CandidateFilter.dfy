/** The batched vocabulary filter: all candidate tokens are checked against the stacks together. */
module CandidateFilter {
  import opened Pushdown
  import opened Grammars
  import opened GrammarEngine

  /** A token under test: a zero-terminated array of code points and the place reached in it. */
  datatype Cand = Cand(index: nat, cps: seq<nat>, at: nat)

  /** A code point zero reads as the end of the token. */
  predicate Ended(c: Cand) { c.at >= |c.cps| || c.cps[c.at] == 0 }

  function UpToZero(w: seq<nat>): (r: seq<nat>) {
    if w == [] || w[0] == 0 then [] else [w[0]] + UpToZero(w[1..])
  }

  /** What is left to read of a candidate. */
  function Rest(c: Cand): (r: seq<nat>) {
    if c.at <= |c.cps| then UpToZero(c.cps[c.at..]) else []
  }

  function Next(c: Cand): (d: Cand) { c.(at := c.at + 1) }

  lemma RestStep(c: Cand)
    ensures Ended(c) <==> Rest(c) == []
    ensures !Ended(c) ==> Rest(c)[0] == c.cps[c.at] && Rest(c)[1..] == Rest(Next(c))
  {
    if !Ended(c) { assert c.cps[c.at..][1..] == c.cps[c.at + 1..]; }
  }

  function Prev(c: Cand): (d: Cand) { if c.at > 0 then c.(at := c.at - 1) else c }

  ghost predicate Short(cs: seq<Cand>, n: nat) {
    forall c :: c in cs ==> |c.cps| - c.at <= n
  }

  /** Exactly the candidates no stack can read are rejected. */
  ghost predicate Sifted(m: Machine, ss: seq<Stack>, cs: seq<Cand>, rejects: seq<Cand>) {
    forall c :: c in rejects <==> c in cs && !AnyLives(m, ss, Rest(c))
  }

  /** reject_candidates_for_stack */
  method RejectFor(g: Rules, s: Stack, cs: seq<Cand>, ghost n: nat) returns (rejects: seq<Cand>)
    requires Usable(g) && StackOk(g, s) && IsLeaf(MachineOf(g), s) && Short(cs, n)
    ensures Sifted(MachineOf(g), [s], cs, rejects)
    decreases n, 0
  {
    ghost var m := MachineOf(g);
    if s == [] {
      rejects := RejectUnended(g, cs);
      return;
    }
    PopOk(g, s);
    var p := s[|s| - 1];
    ClassFits(g, p);
    var next;
    rejects, next := Sort(g, s, cs);
    var _, end := MatchChar(g[p.rule], p.off, 0);
    var after := PushPos(g, s[..|s| - 1], Pos(p.rule, end));
    assert after == Pop(m, s);
    assert Settles(g, after);
    var stacks := AdvanceStack(g, after, []);
    NeverEmpty(g, after, stacks);
    if next != [] {
      NextShort(m, s, cs, next, n);
      var more := RejectAll(g, stacks, next, n - 1);
      var back := StepBack(more);
      SiftBack(m, s, cs, rejects, next, stacks, more, back);
      rejects := rejects + back;
    } else {
      SiftBack(m, s, cs, rejects, next, stacks, [], []);
      assert rejects + [] == rejects;
    }
  }

  /** reject_candidates: a later stack is asked only about what the earlier ones rejected. */
  method RejectAll(g: Rules, ss: seq<Stack>, cs: seq<Cand>, ghost n: nat) returns (rejects: seq<Cand>)
    requires Usable(g) && StacksOk(g, ss) && ss != [] && Short(cs, n)
    ensures Sifted(MachineOf(g), ss, cs, rejects)
    decreases n, 1
  {
    ghost var m := MachineOf(g);
    if cs == [] { return []; }
    assert ss[0] in ss;
    rejects := RejectFor(g, ss[0], cs, n);
    assert ss[..1] == [ss[0]];
    for i := 1 to |ss|
      invariant Sifted(m, ss[..i], cs, rejects)
    {
      assert ss[i] in ss && ss[..i + 1] == ss[..i] + [ss[i]];
      var fewer := RejectFor(g, ss[i], rejects, n);
      SiftMore(m, ss[..i], ss[i], cs, rejects, fewer);
      rejects := fewer;
    }
    assert ss[..|ss|] == ss;
  }

  /** A finished stack reads nothing more. */
  method RejectUnended(g: Rules, cs: seq<Cand>) returns (rejects: seq<Cand>)
    ensures Sifted(MachineOf(g), [[]], cs, rejects)
  {
    rejects := [];
    for i := 0 to |cs|
      invariant forall c :: c in rejects <==> c in cs[..i] && !Ended(c)
    {
      if !Ended(cs[i]) { rejects := rejects + [cs[i]]; }
    }
    forall c ensures AnyLives(MachineOf(g), [[]], Rest(c)) <==> Ended(c) {
      RestStep(c);
      FinishedLives(MachineOf(g), Rest(c));
      OneLives(MachineOf(g), [], Rest(c));
    }
  }

  lemma OneLives(m: Machine, s: Stack, w: seq<nat>)
    ensures AnyLives(m, [s], w) <==> Lives(m, s, w)
  {
    assert s in [s];
  }

  lemma FinishedLives(m: Machine, w: seq<nat>)
    ensures Lives(m, [], w) <==> w == []
  {
    if w != [] { FinishedStuck(m, w); } else { assert Through(m, [], w, []); }
  }

  ghost predicate Misses(m: Machine, s: Stack, c: Cand) { !Ended(c) && !Hits(m, s, c.cps[c.at]) }
  ghost predicate Goes(m: Machine, s: Stack, c: Cand) { !Ended(c) && Hits(m, s, c.cps[c.at]) }

  ghost predicate Sorted(m: Machine, s: Stack, cs: seq<Cand>, rejects: seq<Cand>, next: seq<Cand>) {
    && (forall c :: c in rejects <==> c in cs && Misses(m, s, c))
    && (forall d :: d in next <==> d.at > 0 && Prev(d) in cs && Goes(m, s, Prev(d)))
  }

  /** Splits the candidates at the terminal on top: ended ones pass, the others miss it or go on behind it. */
  method Sort(g: Rules, s: Stack, cs: seq<Cand>) returns (rejects: seq<Cand>, next: seq<Cand>)
    requires s != [] && StackOk(g, s) && IsLeaf(MachineOf(g), s)
    ensures Sorted(MachineOf(g), s, cs, rejects, next)
  {
    ghost var m := MachineOf(g);
    PopOk(g, s);
    var p := s[|s| - 1];
    ClassFits(g, p);
    rejects, next := [], [];
    for i := 0 to |cs|
      invariant Sorted(m, s, cs[..i], rejects, next)
    {
      var c := cs[i];
      assert cs[..i + 1] == cs[..i] + [c];
      SortMore(m, s, cs[..i], c, rejects, next);
      if !Ended(c) {
        var ok, _ := MatchChar(g[p.rule], p.off, c.cps[c.at]);
        if ok { next := next + [Next(c)]; } else { rejects := rejects + [c]; }
      }
    }
    assert cs[..|cs|] == cs;
  }

  lemma SortMore(m: Machine, s: Stack, cs: seq<Cand>, c: Cand, rejects: seq<Cand>, next: seq<Cand>)
    requires Sorted(m, s, cs, rejects, next)
    ensures Sorted(m, s, cs + [c], if Misses(m, s, c) then rejects + [c] else rejects,
                   if Goes(m, s, c) then next + [Next(c)] else next)
  {
    assert Prev(Next(c)) == c;
    assert forall d: Cand :: d.at > 0 && Prev(d) == c ==> d == Next(c);
  }

  lemma NextShort(m: Machine, s: Stack, cs: seq<Cand>, next: seq<Cand>, n: nat)
    requires Short(cs, n) && next != [] && forall d :: d in next <==> d.at > 0 && Prev(d) in cs && Goes(m, s, Prev(d))
    ensures n > 0 && Short(next, n - 1)
  {
    assert next[0] in next;
    assert Prev(next[0]) in cs;
  }

  method StepBack(ds: seq<Cand>) returns (cs: seq<Cand>)
    ensures forall c :: c in cs <==> exists d :: d in ds && Prev(d) == c
  {
    cs := [];
    for i := 0 to |ds|
      invariant forall c :: c in cs <==> exists d :: d in ds[..i] && Prev(d) == c
    {
      BackMore(ds[..i], ds[i], cs);
      assert ds[..i + 1] == ds[..i] + [ds[i]];
      cs := cs + [Prev(ds[i])];
    }
    assert ds[..|ds|] == ds;
  }

  lemma BackMore(ds: seq<Cand>, e: Cand, cs: seq<Cand>)
    requires forall c :: c in cs <==> exists d :: d in ds && Prev(d) == c
    ensures forall c :: c in cs + [Prev(e)] <==> exists d :: d in ds + [e] && Prev(d) == c
  {
    forall c ensures c in cs + [Prev(e)] <==> exists d :: d in ds + [e] && Prev(d) == c {
      if c in cs {
        var d :| d in ds && Prev(d) == c;
        assert d in ds + [e];
      }
      if c == Prev(e) { assert e in ds + [e]; }
    }
  }

  /** One step of the filter: what misses the terminal, and what goes on behind it and is rejected there. */
  lemma SiftBack(m: Machine, s: Stack, cs: seq<Cand>, rejects: seq<Cand>, next: seq<Cand>, ss: seq<Stack>, more: seq<Cand>, back: seq<Cand>)
    requires Sorted(m, s, cs, rejects, next) && s != [] && m.node(Top(s)).Term?
    requires forall t :: t in ss <==> InClosure(m, Pop(m, s), t)
    requires Sifted(m, ss, next, more) && forall c :: c in back <==> exists d :: d in more && Prev(d) == c
    ensures Sifted(m, [s], cs, rejects + back)
  {
    forall c ensures c in rejects + back <==> c in cs && !AnyLives(m, [s], Rest(c)) {
      OneLives(m, s, Rest(c));
      CandLives(m, s, ss, c);
      BackIs(m, s, cs, next, ss, more, back, c);
    }
  }

  lemma CandLives(m: Machine, s: Stack, ss: seq<Stack>, c: Cand)
    requires s != [] && m.node(Top(s)).Term? && forall t :: t in ss <==> InClosure(m, Pop(m, s), t)
    ensures Lives(m, s, Rest(c)) <==> !Misses(m, s, c) && (Goes(m, s, c) ==> AnyLives(m, ss, Rest(Next(c))))
  {
    RestStep(c);
    if Ended(c) {
      assert Through(m, s, [], s);
    } else {
      LivesStep(m, s, Rest(c));
    }
  }

  lemma BackIs(m: Machine, s: Stack, cs: seq<Cand>, next: seq<Cand>, ss: seq<Stack>, more: seq<Cand>, back: seq<Cand>, c: Cand)
    requires forall d :: d in next <==> d.at > 0 && Prev(d) in cs && Goes(m, s, Prev(d))
    requires Sifted(m, ss, next, more) && forall c :: c in back <==> exists d :: d in more && Prev(d) == c
    ensures c in back <==> c in cs && Goes(m, s, c) && !AnyLives(m, ss, Rest(Next(c)))
  {
    assert Prev(Next(c)) == c;
    if c in back {
      var d :| d in more && Prev(d) == c;
      assert d in next && d == Next(c);
    }
    if c in cs && Goes(m, s, c) && !AnyLives(m, ss, Rest(Next(c))) {
      assert Next(c) in next;
      assert Next(c) in more;
    }
  }

  lemma SiftMore(m: Machine, ss: seq<Stack>, s: Stack, cs: seq<Cand>, rejects: seq<Cand>, fewer: seq<Cand>)
    requires Sifted(m, ss, cs, rejects) && Sifted(m, [s], rejects, fewer)
    ensures Sifted(m, ss + [s], cs, fewer)
  {
    forall c ensures AnyLives(m, ss + [s], Rest(c)) <==> AnyLives(m, ss, Rest(c)) || AnyLives(m, [s], Rest(c)) {
      AnyLivesMore(m, ss, s, Rest(c));
    }
  }

  lemma AnyLivesMore(m: Machine, ss: seq<Stack>, s: Stack, w: seq<nat>)
    ensures AnyLives(m, ss + [s], w) <==> AnyLives(m, ss, w) || AnyLives(m, [s], w)
  {
    if AnyLives(m, ss, w) {
      var x :| x in ss && Lives(m, x, w);
      assert x in ss + [s];
    }
    if AnyLives(m, [s], w) { assert s in ss + [s]; }
  }
}
