/** Constrained sampling: accepting code points and tokens, and filtering a whole vocabulary at once. */
module GrammarEngine {
  import opened Types
  import opened Pushdown
  import opened Grammars

  /** A usable grammar: well-formed rules, and no way to enter rules forever without reading. */
  ghost predicate Usable(g: Rules) {
    Wf(g) && forall s {:trigger Settles(g, s)} :: StackOk(g, s) ==> Settles(g, s)
  }

  ghost predicate StacksOk(g: Rules, ss: seq<Stack>) {
    forall s :: s in ss ==> StackOk(g, s) && IsLeaf(MachineOf(g), s)
  }

  lemma PopOk(g: Rules, s: Stack)
    requires StackOk(g, s) && s != [] && IsLeaf(MachineOf(g), s)
    ensures MachineOf(g).node(Top(s)).Term? && StackOk(g, Pop(MachineOf(g), s))
  {
    NextGood(g, Top(s));
    PushOk(g, Base(s), MachineOf(g).node(Top(s)).next);
  }

  lemma ClassFits(g: Rules, p: Pos)
    requires GoodPos(g, p) && IsClass(g[p.rule][p.off])
    ensures p.off < |g[p.rule]| && ClassEnd(g[p.rule], p.off) < |g[p.rule]|
    ensures NodeAt(g, p) == Term(Pos(p.rule, ClassEnd(g[p.rule], p.off))) && GoodPos(g, NodeAt(g, p).next)
  {
    assert Good(g[p.rule], |g|, ClassEnd(g[p.rule], p.off));
  }

  /** accept_chr: the stack's successors for one code point are added. */
  method AcceptChr(g: Rules, s: Stack, chr: nat, news: seq<Stack>) returns (news': seq<Stack>)
    requires Usable(g) && StackOk(g, s) && IsLeaf(MachineOf(g), s) && StacksOk(g, news)
    ensures forall t :: t in news' <==> t in news || Follows(MachineOf(g), s, chr, t)
    ensures StacksOk(g, news') && (NoDup(news) ==> NoDup(news'))
  {
    news' := news;
    if s == [] { return; }
    PopOk(g, s);
    var p := s[|s| - 1];
    ClassFits(g, p);
    var ok, next := MatchChar(g[p.rule], p.off, chr);
    if ok {
      var t := PushPos(g, s[..|s| - 1], Pos(p.rule, next));
      assert t == Pop(MachineOf(g), s);
      assert Settles(g, t);
      news' := AdvanceStack(g, t, news);
    }
  }

  /** All stacks for one code point. */
  method AcceptAll(g: Rules, ss: seq<Stack>, chr: nat) returns (news: seq<Stack>)
    requires Usable(g) && StacksOk(g, ss)
    ensures Stepped(MachineOf(g), ss, chr, news) && StacksOk(g, news) && NoDup(news)
  {
    ghost var m := MachineOf(g);
    news := [];
    for i := 0 to |ss|
      invariant StacksOk(g, news) && NoDup(news) && Stepped(m, ss[..i], chr, news)
    {
      ghost var before := news;
      assert ss[i] in ss;
      news := AcceptChr(g, ss[i], chr, news);
      StepMore(m, ss[..i], ss[i], chr, before, news);
      assert ss[..i] + [ss[i]] == ss[..i + 1];
    }
    assert ss[..|ss|] == ss;
  }

  lemma StepMore(m: Machine, ss: seq<Stack>, s: Stack, chr: nat, news: seq<Stack>, news': seq<Stack>)
    requires Stepped(m, ss, chr, news) && forall t :: t in news' <==> t in news || Follows(m, s, chr, t)
    ensures Stepped(m, ss + [s], chr, news')
  {
    forall t ensures t in news' <==> exists x :: x in ss + [s] && Follows(m, x, chr, t) {
      if t in news {
        var x :| x in ss && Follows(m, x, chr, t);
        assert x in ss + [s];
      }
      if Follows(m, s, chr, t) { assert s in ss + [s]; }
    }
  }

  /** The grammar state of one request. */
  class Grammar {
    const rules: Rules
    const root: nat
    var stacks: seq<Stack>
    ghost var text: seq<nat>       // the code points accepted so far

    /** The stacks stand for exactly what the grammar allows after the text. */
    ghost predicate Valid()
      reads this
    {
      Usable(rules) && StacksOk(rules, stacks) && Residual(MachineOf(rules), root, text, stacks)
    }

    constructor (g: Rules, root: nat)
      requires Usable(g) && root < |g|
      ensures Valid() && rules == g && this.root == root && text == [] && stacks != []
    {
      var ss := StartStacks(g, root);
      StartNonempty(g, root, ss);
      ResidualStart(MachineOf(g), root, ss);
      rules, this.root, stacks, text := g, root, ss, [];
    }

    /** llama_grammar_accept: one code point. */
    method Accept(chr: nat)
      requires Valid()
      modifies this
      ensures Valid() && text == old(text) + [chr]
    {
      var news := AcceptAll(rules, stacks, chr);
      ResidualStep(MachineOf(rules), root, text, stacks, chr, news);
      stacks, text := news, text + [chr];
    }

    /** End of generation is allowed exactly when the text is a sentence of the grammar. */
    method AllowsEnd() returns (ok: bool)
      requires Valid()
      ensures ok <==> Derives(MachineOf(rules), root, text)
    {
      ghost var m := MachineOf(rules);
      ok := [] in stacks;
      assert text + [] == text;
      EndIsEmpty(m, stacks);
    }

    /** accept_token: ok tells whether a stack is left; if none is, the token is refused. The stacks stand for the longer
        text exactly when the token has a code point or no stack was finished: a token without one drops finished stacks. */
    method AcceptToken(cps: seq<nat>) returns (ok: bool)
      requires Valid()
      modifies this
      ensures text == old(text) + cps && StacksOk(rules, stacks) && (ok <==> stacks != [])
      ensures Valid() <==> cps != [] || [] !in old(stacks)
      ensures cps != [] ==> (ok <==> AnyLives(MachineOf(rules), old(stacks), cps))
    {
      var news := AcceptWord(rules, stacks, cps);
      TokenResidual(MachineOf(rules), root, text, stacks, cps, news);
      stacks, text := news, text + cps;
      ok := stacks != [];
    }
  }

  lemma EndIsEmpty(m: Machine, ss: seq<Stack>)
    requires Leaves(m, ss)
    ensures AnyAccepts(m, ss, []) <==> [] in ss
  {
    if AnyAccepts(m, ss, []) {
      var s :| s in ss && Accepts(m, s, []);
      var n: nat :| Reads(m, s, [], n);
      assert s == [];
    }
    if [] in ss {
      assert Reads(m, [], [], 0);
      assert Accepts(m, [], []);
    }
  }

  /** A closure is never empty, so neither the start nor the filter meets an empty set of stacks. */
  lemma NeverEmpty(g: Rules, s: Stack, ss: seq<Stack>)
    requires Usable(g) && StackOk(g, s) && forall t :: t in ss <==> InClosure(MachineOf(g), s, t)
    ensures ss != []
  {
    assert Settles(g, s);
    var n: nat :| Rests(MachineOf(g), s, n);
    var t := SomeLeaf(g, s, n);
    assert t in ss;
  }

  lemma {:induction false} SomeLeaf(g: Rules, s: Stack, n: nat) returns (t: Stack)
    requires Wf(g) && StackOk(g, s) && Rests(MachineOf(g), s, n)
    ensures InClosure(MachineOf(g), s, t)
    decreases n
  {
    var m := MachineOf(g);
    if IsLeaf(m, s) {
      t := s;
      assert Enters(m, s, t, 0);
    } else {
      NextGood(g, Top(s));
      AltsAtGood(g, m.node(Top(s)).rule);
      assert RestsVia(m, s, 0, n);
      WayOk(g, s, 0);
      t := SomeLeaf(g, Way(m, s, 0), n - 1);
      var k: nat :| Enters(m, Way(m, s, 0), t, k);
      assert EntersVia(m, s, t, 0, k + 1);
      assert Enters(m, s, t, k + 1);
    }
  }

  lemma StartNonempty(g: Rules, root: nat, ss: seq<Stack>)
    requires Usable(g) && root < |g| && Started(MachineOf(g), root, ss)
    ensures ss != []
  {
    AltsAtGood(g, root);
    var m := MachineOf(g);
    var s := Push(m, [], m.alts(root)[0]);
    PushOk(g, [], m.alts(root)[0]);
    assert Settles(g, s);
    var n: nat :| Rests(m, s, n);
    var t := SomeLeaf(g, s, n);
    assert Begins(m, root, 0, t);
    assert t in ss;
  }

  /** init: the closure of every alternative of the root rule. */
  method StartStacks(g: Rules, root: nat) returns (ss: seq<Stack>)
    requires Usable(g) && root < |g|
    ensures Started(MachineOf(g), root, ss) && StacksOk(g, ss) && NoDup(ss)
  {
    ghost var m := MachineOf(g);
    AltsAtGood(g, root);
    var a := AltStarts(g[root]);
    ss := [];
    for j := 0 to |a|
      invariant StacksOk(g, ss) && NoDup(ss) && (forall t :: t in ss <==> BeganBefore(m, root, j, t))
    {
      assert m.alts(root)[j] == Pos(root, a[j]);
      PushOk(g, [], Pos(root, a[j]));
      var s := PushPos(g, [], Pos(root, a[j]));
      assert Settles(g, s);
      ghost var before := ss;
      ss := AdvanceStack(g, s, ss);
      BeganMore(m, root, j, before, ss);
    }
  }

  ghost predicate BeganBefore(m: Machine, root: nat, k: nat, t: Stack) {
    exists j :: 0 <= j < k && j < |m.alts(root)| && Begins(m, root, j, t)
  }

  lemma BeganMore(m: Machine, root: nat, k: nat, ss: seq<Stack>, ss': seq<Stack>)
    requires k < |m.alts(root)| && forall t :: t in ss <==> BeganBefore(m, root, k, t)
    requires forall t :: t in ss' <==> t in ss || Begins(m, root, k, t)
    ensures forall t :: t in ss' <==> BeganBefore(m, root, k + 1, t)
  {
  }

  // ---- whole tokens ----

  ghost predicate AnyLives(m: Machine, ss: seq<Stack>, w: seq<nat>) {
    exists s :: s in ss && Lives(m, s, w)
  }

  lemma SomeLeft(m: Machine, ss: seq<Stack>, w: seq<nat>, ss': seq<Stack>)
    requires SteppedAll(m, ss, w, ss')
    ensures ss' != [] <==> AnyLives(m, ss, w)
  {
    if ss' != [] {
      assert ss'[0] in ss';
      var s :| s in ss && Through(m, s, w, ss'[0]);
      assert Lives(m, s, w);
    }
    if AnyLives(m, ss, w) {
      var s :| s in ss && Lives(m, s, w);
      var t :| Through(m, s, w, t);
      assert t in ss';
    }
  }

  /** The stacks one stack leads to, code point by code point. */
  method FollowWord(g: Rules, s: Stack, cps: seq<nat>) returns (cur: seq<Stack>)
    requires Usable(g) && StackOk(g, s) && IsLeaf(MachineOf(g), s)
    ensures (forall t :: t in cur <==> Through(MachineOf(g), s, cps, t)) && StacksOk(g, cur) && NoDup(cur)
  {
    ghost var m := MachineOf(g);
    cur := [s];
    for i := 0 to |cps|
      invariant (forall t :: t in cur <==> Through(m, s, cps[..i], t)) && StacksOk(g, cur) && NoDup(cur)
    {
      var next := AcceptAll(g, cur, cps[i]);
      WordMore(m, s, cps[..i], cps[i], cur, next);
      assert cps[..i] + [cps[i]] == cps[..i + 1];
      cur := next;
      if cur == [] {
        WordStuck(m, s, cps[..i + 1], cps[i + 1..]);
        assert cps[..i + 1] + cps[i + 1..] == cps;
        return;
      }
    }
    assert cps[..|cps|] == cps;
  }

  lemma WordMore(m: Machine, s: Stack, w: seq<nat>, c: nat, cur: seq<Stack>, next: seq<Stack>)
    requires (forall t :: t in cur <==> Through(m, s, w, t)) && Stepped(m, cur, c, next)
    ensures forall t :: t in next <==> Through(m, s, w + [c], t)
  {
    forall t ensures t in next <==> Through(m, s, w + [c], t) { ThroughSnoc(m, s, w, c, t); }
  }

  /** Where reading has got stuck, it stays stuck. */
  lemma {:induction false} WordStuck(m: Machine, s: Stack, w: seq<nat>, v: seq<nat>)
    requires forall t :: !Through(m, s, w, t)
    ensures forall t :: !Through(m, s, w + v, t)
    decreases |v|
  {
    if v == [] {
      assert w + v == w;
    } else {
      forall t ensures !Through(m, s, w + [v[0]], t) { ThroughSnoc(m, s, w, v[0], t); }
      assert w + v == w + [v[0]] + v[1..];
      WordStuck(m, s, w + [v[0]], v[1..]);
    }
  }

  ghost predicate Open(m: Machine, s: Stack, w: seq<nat>, t: Stack) { s != [] && Through(m, s, w, t) }

  /** What an accepted token makes of a set of stacks. */
  ghost predicate Taken(m: Machine, ss: seq<Stack>, w: seq<nat>, ss': seq<Stack>) {
    forall t :: t in ss' <==> exists s :: s in ss && Open(m, s, w, t)
  }

  /** accept_token: every unfinished stack follows the token on its own; survivors are kept once. */
  method AcceptWord(g: Rules, ss: seq<Stack>, cps: seq<nat>) returns (news: seq<Stack>)
    requires Usable(g) && StacksOk(g, ss)
    ensures Taken(MachineOf(g), ss, cps, news) && StacksOk(g, news) && NoDup(news)
  {
    ghost var m := MachineOf(g);
    news := [];
    for i := 0 to |ss|
      invariant Taken(m, ss[..i], cps, news) && StacksOk(g, news) && NoDup(news)
    {
      assert ss[i] in ss && ss[..i] + [ss[i]] == ss[..i + 1];
      ghost var before := news;
      var cur: seq<Stack> := [];
      if ss[i] != [] { cur := FollowWord(g, ss[i], cps); }
      news := Union(news, cur);
      WordsMore(m, ss[..i], ss[i], cps, before, cur, news);
    }
    assert ss[..|ss|] == ss;
  }

  lemma WordsMore(m: Machine, ss: seq<Stack>, s: Stack, w: seq<nat>, news: seq<Stack>, cur: seq<Stack>, news': seq<Stack>)
    requires Taken(m, ss, w, news) && (forall t :: t in cur <==> Open(m, s, w, t))
    requires forall t :: t in news' <==> t in news || t in cur
    ensures Taken(m, ss + [s], w, news')
  {
    forall t ensures t in news' <==> exists x :: x in ss + [s] && Open(m, x, w, t) {
      if t in news {
        var x :| x in ss && Open(m, x, w, t);
        assert x in ss + [s];
      }
      if t in cur { assert s in ss + [s]; }
    }
  }

  lemma FinishedStuck(m: Machine, cps: seq<nat>)
    requires cps != []
    ensures forall t :: !Through(m, [], cps, t)
  {
    forall t ensures !Through(m, [], cps, t) {
      if Through(m, [], cps, t) { var x := FirstOf(m, [], cps, t); }
    }
  }

  lemma TakenIsStepped(m: Machine, ss: seq<Stack>, w: seq<nat>, ss': seq<Stack>)
    requires Taken(m, ss, w, ss') && (w != [] || [] !in ss)
    ensures SteppedAll(m, ss, w, ss')
  {
    if w != [] { FinishedStuck(m, w); }
    forall t ensures t in ss' <==> exists s :: s in ss && Through(m, s, w, t) {
      if s :| s in ss && Through(m, s, w, t) { assert Open(m, s, w, t); }
    }
  }

  lemma TokenResidual(m: Machine, root: nat, text: seq<nat>, ss: seq<Stack>, w: seq<nat>, ss': seq<Stack>)
    requires Residual(m, root, text, ss) && Taken(m, ss, w, ss')
    ensures Residual(m, root, text + w, ss') <==> w != [] || [] !in ss
    ensures w != [] ==> (ss' != [] <==> AnyLives(m, ss, w))
  {
    if w != [] || [] !in ss {
      TakenIsStepped(m, ss, w, ss');
      ResidualSteps(m, root, text, ss, w, ss');
      SomeLeft(m, ss, w, ss');
    } else {
      EndIsEmpty(m, ss);
      assert text + w + [] == text + [];
      if Leaves(m, ss') { EndIsEmpty(m, ss'); }
      assert [] !in ss';
    }
  }

  method Union(a: seq<Stack>, b: seq<Stack>) returns (c: seq<Stack>)
    requires NoDup(a)
    ensures NoDup(c) && forall t :: t in c <==> t in a || t in b
  {
    c := a;
    for i := 0 to |b|
      invariant NoDup(c) && forall t :: t in c <==> t in a || t in b[..i]
    {
      if b[i] !in c { c := c + [b[i]]; }
    }
  }
}
