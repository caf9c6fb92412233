/** A pushdown simulation in the abstract: what the alternatives of a grammar derive, and what stacks of positions read.
    Positions are opaque here; a machine says what stands at each of them. */
module Pushdown {
  import opened Types

  datatype Pos = Pos(rule: nat, off: nat)

  /** At a position an alternative is finished, goes into a rule, or reads one code point. */
  datatype Node = Done | Sub(rule: nat, next: Pos) | Term(next: Pos)

  datatype Machine = Machine(node: Pos -> Node, alts: nat -> seq<Pos>, hit: (Pos, nat) -> bool)

  type Stack = seq<Pos>      // the top is the last element

  // ---- derivations ----

  /** The rest of the alternative from p derives w, by a derivation of height at most n. */
  ghost predicate SeqDerives(m: Machine, p: Pos, w: seq<nat>, n: nat)
    decreases n, 0
  {
    match m.node(p)
    case Done => w == []
    case Sub(k, q) => n > 0 && exists i :: 0 <= i <= |w| && Splits(m, k, q, w, i, n)
    case Term(q) => n > 0 && |w| > 0 && m.hit(p, w[0]) && SeqDerives(m, q, w[1..], n - 1)
  }

  ghost predicate Splits(m: Machine, k: nat, q: Pos, w: seq<nat>, i: nat, n: nat)
    requires i <= |w| && n > 0
    decreases n - 1, 2
  {
    RuleDerives(m, k, w[..i], n - 1) && SeqDerives(m, q, w[i..], n - 1)
  }

  /** Some alternative of rule k derives w. */
  ghost predicate RuleDerives(m: Machine, k: nat, w: seq<nat>, n: nat)
    decreases n, 1
  {
    exists j :: 0 <= j < |m.alts(k)| && SeqDerives(m, m.alts(k)[j], w, n)
  }

  ghost predicate Derives(m: Machine, k: nat, w: seq<nat>) {
    exists n :: RuleDerives(m, k, w, n)
  }

  lemma {:induction false} HigherSeq(m: Machine, p: Pos, w: seq<nat>, n: nat, n': nat)
    requires SeqDerives(m, p, w, n) && n <= n'
    ensures SeqDerives(m, p, w, n')
    decreases n, 0
  {
    match m.node(p)
    case Done =>
    case Sub(k, q) =>
      var i :| 0 <= i <= |w| && Splits(m, k, q, w, i, n);
      HigherRule(m, k, w[..i], n - 1, n' - 1);
      HigherSeq(m, q, w[i..], n - 1, n' - 1);
      assert Splits(m, k, q, w, i, n');
    case Term(q) =>
      HigherSeq(m, q, w[1..], n - 1, n' - 1);
  }

  lemma {:induction false} HigherRule(m: Machine, k: nat, w: seq<nat>, n: nat, n': nat)
    requires RuleDerives(m, k, w, n) && n <= n'
    ensures RuleDerives(m, k, w, n')
    decreases n, 1
  {
    var j :| 0 <= j < |m.alts(k)| && SeqDerives(m, m.alts(k)[j], w, n);
    HigherSeq(m, m.alts(k)[j], w, n, n');
  }

  lemma WhichAlt(m: Machine, k: nat, w: seq<nat>, n: nat) returns (j: nat)
    requires RuleDerives(m, k, w, n)
    ensures j < |m.alts(k)| && SeqDerives(m, m.alts(k)[j], w, n)
  {
    j :| 0 <= j < |m.alts(k)| && SeqDerives(m, m.alts(k)[j], w, n);
  }

  // ---- runs ----

  /** The stack with p on top, unless the alternative is finished there. */
  function Push(m: Machine, s: Stack, p: Pos): (t: Stack) {
    if m.node(p).Done? then s else s + [p]
  }

  /** Finished, or about to read a code point. */
  predicate IsLeaf(m: Machine, s: Stack) {
    s == [] || !m.node(s[|s| - 1]).Sub?
  }

  function Base(s: Stack): (t: Stack)
    requires s != []
  {
    s[..|s| - 1]
  }

  function Top(s: Stack): (p: Pos)
    requires s != []
  {
    s[|s| - 1]
  }

  /** How many ways the rule on top can be entered. */
  function Ways(m: Machine, s: Stack): (n: nat) {
    if IsLeaf(m, s) then 0 else |m.alts(m.node(Top(s)).rule)|
  }

  /** The stack after entering alternative j of the rule on top. */
  function Way(m: Machine, s: Stack, j: nat): (t: Stack)
    requires j < Ways(m, s)
  {
    Push(m, Push(m, Base(s), m.node(Top(s)).next), m.alts(m.node(Top(s)).rule)[j])
  }

  /** The stack after reading the code point on top. */
  function Pop(m: Machine, s: Stack): (t: Stack)
    requires s != [] && m.node(Top(s)).Term?
  {
    Push(m, Base(s), m.node(Top(s)).next)
  }

  predicate Hits(m: Machine, s: Stack, chr: nat) {
    s != [] && m.node(Top(s)).Term? && m.hit(Top(s), chr)
  }

  /** The stack reads w to the end within n moves: entering a rule or reading a code point. */
  ghost predicate Reads(m: Machine, s: Stack, w: seq<nat>, n: nat)
    decreases n, 1
  {
    if s == [] then w == []
    else if n == 0 then false
    else if IsLeaf(m, s) then |w| > 0 && Hits(m, s, w[0]) && Reads(m, Pop(m, s), w[1..], n - 1)
    else exists j :: 0 <= j < Ways(m, s) && ReadsVia(m, s, w, j, n)
  }

  ghost predicate ReadsVia(m: Machine, s: Stack, w: seq<nat>, j: nat, n: nat)
    requires j < Ways(m, s) && n > 0
    decreases n, 0
  {
    Reads(m, Way(m, s, j), w, n - 1)
  }

  ghost predicate Accepts(m: Machine, s: Stack, w: seq<nat>) {
    exists n :: Reads(m, s, w, n)
  }

  lemma PushTop(m: Machine, s: Stack, p: Pos)
    requires !m.node(p).Done?
    ensures var t := Push(m, s, p); t != [] && Top(t) == p && Base(t) == s
  {
  }

  lemma ReadFirst(m: Machine, s: Stack, p: Pos, j: nat, w: seq<nat>, n: nat)
    requires m.node(p).Sub? && j < |m.alts(m.node(p).rule)|
    requires Reads(m, Push(m, Push(m, s, m.node(p).next), m.alts(m.node(p).rule)[j]), w, n)
    ensures Reads(m, Push(m, s, p), w, n + 1)
  {
    PushTop(m, s, p);
    assert ReadsVia(m, Push(m, s, p), w, j, n + 1);
  }

  lemma ReadChar(m: Machine, s: Stack, p: Pos, w: seq<nat>, n: nat)
    requires m.node(p).Term? && |w| > 0 && m.hit(p, w[0]) && Reads(m, Push(m, s, m.node(p).next), w[1..], n)
    ensures Reads(m, Push(m, s, p), w, n + 1)
  {
    PushTop(m, s, p);
  }

  /** A derivation of u on top of a stack that reads v makes a run over u + v. */
  lemma {:induction false} DeriveThenRead(m: Machine, s: Stack, p: Pos, u: seq<nat>, n: nat, v: seq<nat>, l: nat) returns (k: nat)
    requires SeqDerives(m, p, u, n) && Reads(m, s, v, l)
    ensures Reads(m, Push(m, s, p), u + v, k)
    decreases n
  {
    match m.node(p)
    case Done =>
      k := l;
      assert u + v == v;
    case Sub(r, q) =>
      var i :| 0 <= i <= |u| && Splits(m, r, q, u, i, n);
      var j := WhichAlt(m, r, u[..i], n - 1);
      var k1 := DeriveThenRead(m, s, q, u[i..], n - 1, v, l);
      var k2 := DeriveThenRead(m, Push(m, s, q), m.alts(r)[j], u[..i], n - 1, u[i..] + v, k1);
      assert u[..i] + (u[i..] + v) == u + v;
      k := k2 + 1;
      ReadFirst(m, s, p, j, u + v, k2);
    case Term(q) =>
      var k1 := DeriveThenRead(m, s, q, u[1..], n - 1, v, l);
      assert (u + v)[1..] == u[1..] + v;
      k := k1 + 1;
      ReadChar(m, s, p, u + v, k1);
  }

  /** A run splits at the point where the top of the stack has been read completely. */
  lemma {:induction false} ReadTop(m: Machine, s: Stack, w: seq<nat>, n: nat) returns (i: nat, h: nat, l: nat)
    requires s != [] && Reads(m, s, w, n)
    ensures i <= |w| && SeqDerives(m, Top(s), w[..i], h) && l < n && Reads(m, Base(s), w[i..], l)
    decreases n, 0
  {
    var p := Top(s);
    if IsLeaf(m, s) {
      i, h, l := ReadRest(m, Base(s), m.node(p).next, w[1..], n - 1);
      assert w[..i + 1][1..] == w[1..][..i] && w[1..][i..] == w[i + 1..];
      i, h := i + 1, h + 1;
    } else {
      var j :| 0 <= j < Ways(m, s) && ReadsVia(m, s, w, j, n);
      var r, q := m.node(p).rule, m.node(p).next;
      var i1, h1, l1 := ReadRest(m, Push(m, Base(s), q), m.alts(r)[j], w, n - 1);
      var i2, h2, l2 := ReadRest(m, Base(s), q, w[i1..], l1);
      assert w[i1..][i2..] == w[i1 + i2..];
      JoinParts(m, p, j, w, i1, i2, h1, h2);
      i, h, l := i1 + i2, Max(h1, h2) + 1, l2;
    }
  }

  lemma JoinParts(m: Machine, p: Pos, j: nat, w: seq<nat>, i1: nat, i2: nat, h1: nat, h2: nat)
    requires m.node(p).Sub? && j < |m.alts(m.node(p).rule)| && i1 + i2 <= |w|
    requires SeqDerives(m, m.alts(m.node(p).rule)[j], w[..i1], h1) && SeqDerives(m, m.node(p).next, w[i1..][..i2], h2)
    ensures SeqDerives(m, p, w[..i1 + i2], Max(h1, h2) + 1)
  {
    var i, h, r, q := i1 + i2, Max(h1, h2), m.node(p).rule, m.node(p).next;
    HigherSeq(m, m.alts(r)[j], w[..i1], h1, h);
    HigherSeq(m, q, w[i1..][..i2], h2, h);
    assert w[..i][..i1] == w[..i1] && w[..i][i1..] == w[i1..][..i2];
    assert Splits(m, r, q, w[..i], i1, h + 1);
  }

  lemma {:induction false} ReadRest(m: Machine, base: Stack, p: Pos, w: seq<nat>, n: nat) returns (i: nat, h: nat, l: nat)
    requires Reads(m, Push(m, base, p), w, n)
    ensures i <= |w| && SeqDerives(m, p, w[..i], h) && l <= n && Reads(m, base, w[i..], l)
    decreases n, 1
  {
    if m.node(p).Done? {
      i, h, l := 0, 0, n;
      assert w[0..] == w;
    } else {
      PushTop(m, base, p);
      i, h, l := ReadTop(m, Push(m, base, p), w, n);
    }
  }

  /** The runs over a single position read exactly what the grammar derives from there. */
  lemma RunsAreDerivations(m: Machine, p: Pos, w: seq<nat>)
    ensures Accepts(m, Push(m, [], p), w) <==> exists n :: SeqDerives(m, p, w, n)
  {
    if Accepts(m, Push(m, [], p), w) {
      var n: nat :| Reads(m, Push(m, [], p), w, n);
      var i, h, l := ReadRest(m, [], p, w, n);
      assert w[..i] == w;
      assert SeqDerives(m, p, w, h);
    }
    if exists n :: SeqDerives(m, p, w, n) {
      var n: nat :| SeqDerives(m, p, w, n);
      var k := DeriveThenRead(m, [], p, w, n, [], 0);
      assert w + [] == w;
      assert Reads(m, Push(m, [], p), w, k);
    }
  }

  // ---- closure: the stacks at which reading goes on ----

  /** t comes out of s by entering rules n times. */
  ghost predicate Enters(m: Machine, s: Stack, t: Stack, n: nat)
    decreases n, 1
  {
    if n == 0 then t == s else exists j :: 0 <= j < Ways(m, s) && EntersVia(m, s, t, j, n)
  }

  ghost predicate EntersVia(m: Machine, s: Stack, t: Stack, j: nat, n: nat)
    requires j < Ways(m, s) && n > 0
    decreases n, 0
  {
    Enters(m, Way(m, s, j), t, n - 1)
  }

  lemma FirstWay(m: Machine, s: Stack, t: Stack, n: nat) returns (j: nat)
    requires Enters(m, s, t, n) && n > 0
    ensures j < Ways(m, s) && Enters(m, Way(m, s, j), t, n - 1)
  {
    j :| 0 <= j < Ways(m, s) && EntersVia(m, s, t, j, n);
  }

  ghost predicate KeptByWays(m: Machine, ok: Stack -> bool) {
    forall s, j :: ok(s) && 0 <= j < Ways(m, s) ==> ok(Way(m, s, j))
  }

  lemma {:induction false} EntersKeeps(m: Machine, ok: Stack -> bool, s: Stack, t: Stack, n: nat)
    requires KeptByWays(m, ok) && ok(s) && Enters(m, s, t, n)
    ensures ok(t)
    decreases n
  {
    if n > 0 {
      var j := FirstWay(m, s, t, n);
      EntersKeeps(m, ok, Way(m, s, j), t, n - 1);
    }
  }

  /** t is a stack at which reading goes on from s without having read anything. */
  ghost predicate InClosure(m: Machine, s: Stack, t: Stack) {
    IsLeaf(m, t) && exists n :: Enters(m, s, t, n)
  }

  lemma {:induction false} EntersSnoc(m: Machine, s: Stack, t: Stack, n: nat, j: nat)
    requires Enters(m, s, t, n) && j < Ways(m, t)
    ensures Enters(m, s, Way(m, t, j), n + 1)
    decreases n
  {
    if n == 0 {
      assert Enters(m, Way(m, t, j), Way(m, t, j), 0);
      assert EntersVia(m, s, Way(m, t, j), j, 1);
    } else {
      var i :| 0 <= i < Ways(m, s) && EntersVia(m, s, t, i, n);
      EntersSnoc(m, Way(m, s, i), t, n - 1, j);
      assert EntersVia(m, s, Way(m, t, j), i, n + 1);
    }
  }

  lemma {:induction false} ReadAfterEnter(m: Machine, s: Stack, t: Stack, n: nat, w: seq<nat>, k: nat)
    requires Enters(m, s, t, n) && Reads(m, t, w, k)
    ensures Reads(m, s, w, k + n)
    decreases n
  {
    if n > 0 {
      var j :| 0 <= j < Ways(m, s) && EntersVia(m, s, t, j, n);
      ReadAfterEnter(m, Way(m, s, j), t, n - 1, w, k);
      assert ReadsVia(m, s, w, j, k + n);
    }
  }

  lemma {:induction false} EnterBeforeRead(m: Machine, s: Stack, w: seq<nat>, n: nat) returns (t: Stack, l: nat)
    requires Reads(m, s, w, n)
    ensures l <= n && IsLeaf(m, t) && Enters(m, s, t, l) && Reads(m, t, w, n - l)
    decreases n
  {
    if IsLeaf(m, s) {
      t, l := s, 0;
    } else {
      var j :| 0 <= j < Ways(m, s) && ReadsVia(m, s, w, j, n);
      t, l := EnterBeforeRead(m, Way(m, s, j), w, n - 1);
      l := l + 1;
      assert EntersVia(m, s, t, j, l);
    }
  }

  /** Nothing is lost and nothing gained by going on from the closure. */
  lemma ClosureExact(m: Machine, s: Stack, w: seq<nat>)
    ensures Accepts(m, s, w) <==> exists t :: InClosure(m, s, t) && Accepts(m, t, w)
  {
    if Accepts(m, s, w) {
      var n: nat :| Reads(m, s, w, n);
      var t, l := EnterBeforeRead(m, s, w, n);
      assert InClosure(m, s, t) && Accepts(m, t, w);
    }
    if exists t :: InClosure(m, s, t) && Accepts(m, t, w) {
      var t :| InClosure(m, s, t) && Accepts(m, t, w);
      var n: nat :| Enters(m, s, t, n);
      var k: nat :| Reads(m, t, w, k);
      ReadAfterEnter(m, s, t, n, w, k);
    }
  }

  lemma LeafReads(m: Machine, s: Stack, chr: nat, v: seq<nat>)
    requires IsLeaf(m, s)
    ensures Accepts(m, s, [chr] + v) <==> Hits(m, s, chr) && Accepts(m, Pop(m, s), v)
  {
    assert ([chr] + v)[1..] == v && ([chr] + v)[0] == chr;
    if Accepts(m, s, [chr] + v) {
      var n: nat :| Reads(m, s, [chr] + v, n);
      assert Reads(m, Pop(m, s), v, n - 1);
    }
    if Hits(m, s, chr) && Accepts(m, Pop(m, s), v) {
      var n: nat :| Reads(m, Pop(m, s), v, n);
      assert Reads(m, s, [chr] + v, n + 1);
    }
  }

  // ---- sets of stacks ----

  ghost predicate AnyAccepts(m: Machine, ss: seq<Stack>, w: seq<nat>) {
    exists s :: s in ss && Accepts(m, s, w)
  }

  ghost predicate Leaves(m: Machine, ss: seq<Stack>) {
    forall s :: s in ss ==> IsLeaf(m, s)
  }

  /** What reading chr makes of a set of stacks. */
  ghost predicate Follows(m: Machine, s: Stack, chr: nat, t: Stack) {
    Hits(m, s, chr) && InClosure(m, Pop(m, s), t)
  }

  ghost predicate Stepped(m: Machine, ss: seq<Stack>, chr: nat, ss': seq<Stack>) {
    forall t :: t in ss' <==> exists s :: s in ss && Follows(m, s, chr, t)
  }

  lemma StepExact(m: Machine, ss: seq<Stack>, chr: nat, ss': seq<Stack>, v: seq<nat>)
    requires Leaves(m, ss) && Stepped(m, ss, chr, ss')
    ensures AnyAccepts(m, ss', v) <==> AnyAccepts(m, ss, [chr] + v)
  {
    if AnyAccepts(m, ss', v) {
      var t :| t in ss' && Accepts(m, t, v);
      var s :| s in ss && Follows(m, s, chr, t);
      ClosureExact(m, Pop(m, s), v);
      LeafReads(m, s, chr, v);
    }
    if AnyAccepts(m, ss, [chr] + v) {
      var s :| s in ss && Accepts(m, s, [chr] + v);
      LeafReads(m, s, chr, v);
      ClosureExact(m, Pop(m, s), v);
      var t :| InClosure(m, Pop(m, s), t) && Accepts(m, t, v);
      assert Follows(m, s, chr, t);
    }
  }

  /** The stacks to start with: the closure of every alternative of the root rule. */
  ghost predicate Begins(m: Machine, root: nat, j: nat, t: Stack)
    requires j < |m.alts(root)|
  {
    InClosure(m, Push(m, [], m.alts(root)[j]), t)
  }

  ghost predicate Started(m: Machine, root: nat, ss: seq<Stack>) {
    forall t :: t in ss <==> exists j :: 0 <= j < |m.alts(root)| && Begins(m, root, j, t)
  }

  lemma StartExact(m: Machine, root: nat, ss: seq<Stack>, w: seq<nat>)
    requires Started(m, root, ss)
    ensures AnyAccepts(m, ss, w) <==> Derives(m, root, w)
  {
    if AnyAccepts(m, ss, w) {
      var t :| t in ss && Accepts(m, t, w);
      var j :| 0 <= j < |m.alts(root)| && Begins(m, root, j, t);
      ClosureExact(m, Push(m, [], m.alts(root)[j]), w);
      RunsAreDerivations(m, m.alts(root)[j], w);
      var n: nat :| SeqDerives(m, m.alts(root)[j], w, n);
      assert RuleDerives(m, root, w, n);
    }
    if Derives(m, root, w) {
      var n: nat :| RuleDerives(m, root, w, n);
      var j := WhichAlt(m, root, w, n);
      var p := m.alts(root)[j];
      assert exists n :: SeqDerives(m, p, w, n);
      RunsAreDerivations(m, p, w);
      ClosureExact(m, Push(m, [], p), w);
      var t :| InClosure(m, Push(m, [], p), t) && Accepts(m, t, w);
      assert Begins(m, root, j, t);
    }
  }

  /** The stacks stand for exactly what may follow the text read so far: they accept v if and only if the root rule
      derives the text followed by v. */
  ghost predicate Residual(m: Machine, root: nat, text: seq<nat>, ss: seq<Stack>) {
    Leaves(m, ss) && forall v :: AnyAccepts(m, ss, v) <==> Derives(m, root, text + v)
  }

  lemma ResidualStart(m: Machine, root: nat, ss: seq<Stack>)
    requires Started(m, root, ss)
    ensures Residual(m, root, [], ss)
  {
    forall v ensures AnyAccepts(m, ss, v) <==> Derives(m, root, [] + v) {
      StartExact(m, root, ss, v);
      assert [] + v == v;
    }
  }

  /** The pushdown simulation is right, code point by code point. */
  lemma ResidualStep(m: Machine, root: nat, text: seq<nat>, ss: seq<Stack>, chr: nat, ss': seq<Stack>)
    requires Residual(m, root, text, ss) && Stepped(m, ss, chr, ss')
    ensures Residual(m, root, text + [chr], ss')
  {
    forall v ensures AnyAccepts(m, ss', v) <==> Derives(m, root, text + [chr] + v) {
      StepExact(m, ss, chr, ss', v);
      assert text + [chr] + v == text + ([chr] + v);
    }
  }

  // ---- grammars without left recursion ----

  /** Entering rules from s comes to an end after at most n times, whichever alternatives are taken. */
  ghost predicate Rests(m: Machine, s: Stack, n: nat)
    decreases n, 1
  {
    Ways(m, s) > 0 ==> n > 0 && forall j :: 0 <= j < Ways(m, s) ==> RestsVia(m, s, j, n)
  }

  ghost predicate RestsVia(m: Machine, s: Stack, j: nat, n: nat)
    requires j < Ways(m, s) && n > 0
    decreases n, 0
  {
    Rests(m, Way(m, s, j), n - 1)
  }

  /** Every stack passed on the way, s included. */
  ghost function Passed(m: Machine, s: Stack, n: nat): (r: set<Stack>)
    requires Rests(m, s, n)
    decreases n, Ways(m, s) + 1
  {
    {s} + PassedBy(m, s, n, Ways(m, s))
  }

  ghost function PassedBy(m: Machine, s: Stack, n: nat, k: nat): (r: set<Stack>)
    requires Rests(m, s, n) && k <= Ways(m, s)
    decreases n, k
  {
    if k == 0 then {} else
      assert RestsVia(m, s, k - 1, n);
      PassedBy(m, s, n, k - 1) + Passed(m, Way(m, s, k - 1), n - 1)
  }

  lemma {:induction false} PassedClosed(m: Machine, s: Stack, n: nat, t: Stack, j: nat)
    requires Rests(m, s, n) && t in Passed(m, s, n) && j < Ways(m, t)
    ensures Way(m, t, j) in Passed(m, s, n)
    decreases n, Ways(m, s) + 1
  {
    if t == s {
      PassedHas(m, s, n, Ways(m, s), j);
    } else {
      PassedByClosed(m, s, n, Ways(m, s), t, j);
    }
  }

  lemma {:induction false} PassedHas(m: Machine, s: Stack, n: nat, k: nat, j: nat)
    requires Rests(m, s, n) && j < k <= Ways(m, s)
    ensures Way(m, s, j) in PassedBy(m, s, n, k)
    decreases k
  {
    assert RestsVia(m, s, k - 1, n);
    if j < k - 1 { PassedHas(m, s, n, k - 1, j); }
  }

  lemma {:induction false} PassedByClosed(m: Machine, s: Stack, n: nat, k: nat, t: Stack, j: nat)
    requires Rests(m, s, n) && k <= Ways(m, s) && t in PassedBy(m, s, n, k) && j < Ways(m, t)
    ensures Way(m, t, j) in PassedBy(m, s, n, k)
    decreases n, k
  {
    assert RestsVia(m, s, k - 1, n);
    if t in PassedBy(m, s, n, k - 1) {
      PassedByClosed(m, s, n, k - 1, t, j);
    } else {
      PassedClosed(m, Way(m, s, k - 1), n - 1, t, j);
    }
  }

  // ---- several code points at once ----

  /** Reading all of w from leaf s may end at leaf t. */
  ghost predicate Through(m: Machine, s: Stack, w: seq<nat>, t: Stack)
    decreases |w|, 1
  {
    if w == [] then t == s else exists x :: ThroughVia(m, s, w, x, t)
  }

  ghost predicate ThroughVia(m: Machine, s: Stack, w: seq<nat>, x: Stack, t: Stack)
    requires w != []
    decreases |w|, 0
  {
    Follows(m, s, w[0], x) && Through(m, x, w[1..], t)
  }

  lemma FirstOf(m: Machine, s: Stack, w: seq<nat>, t: Stack) returns (x: Stack)
    requires |w| > 0 && Through(m, s, w, t)
    ensures ThroughVia(m, s, w, x, t)
  {
    x :| ThroughVia(m, s, w, x, t);
  }

  /** Reading w from s may go on. */
  ghost predicate Lives(m: Machine, s: Stack, w: seq<nat>) {
    exists t :: Through(m, s, w, t)
  }

  lemma {:induction false} ThroughLeaf(m: Machine, s: Stack, w: seq<nat>, t: Stack)
    requires IsLeaf(m, s) && Through(m, s, w, t)
    ensures IsLeaf(m, t)
    decreases |w|
  {
    if w != [] {
      var x := FirstOf(m, s, w, t);
      ThroughLeaf(m, x, w[1..], t);
    }
  }

  lemma {:induction false} ThroughSnoc(m: Machine, s: Stack, w: seq<nat>, c: nat, t: Stack)
    ensures Through(m, s, w + [c], t) <==> exists x :: Through(m, s, w, x) && Follows(m, x, c, t)
    decreases |w|
  {
    var w' := w + [c];
    if w == [] {
      assert w'[0] == c && w'[1..] == [];
      if Through(m, s, w', t) {
        var x := FirstOf(m, s, w', t);
        assert Through(m, s, w, s) && Follows(m, s, c, t);
      }
      if exists x :: Through(m, s, w, x) && Follows(m, x, c, t) {
        assert Through(m, t, [], t);
        assert ThroughVia(m, s, w', t, t);
      }
    } else {
      assert w'[0] == w[0] && w'[1..] == w[1..] + [c];
      if Through(m, s, w', t) {
        var y := FirstOf(m, s, w', t);
        ThroughSnoc(m, y, w[1..], c, t);
        var x :| Through(m, y, w[1..], x) && Follows(m, x, c, t);
        assert ThroughVia(m, s, w, y, x);
      }
      if exists x :: Through(m, s, w, x) && Follows(m, x, c, t) {
        var x :| Through(m, s, w, x) && Follows(m, x, c, t);
        var y := FirstOf(m, s, w, x);
        ThroughSnoc(m, y, w[1..], c, t);
        assert ThroughVia(m, s, w', y, t);
      }
    }
  }

  lemma LivesStep(m: Machine, s: Stack, w: seq<nat>)
    requires w != []
    ensures Lives(m, s, w) <==> Hits(m, s, w[0]) && exists x :: InClosure(m, Pop(m, s), x) && Lives(m, x, w[1..])
  {
    if Lives(m, s, w) {
      var t :| Through(m, s, w, t);
      var x := FirstOf(m, s, w, t);
      assert InClosure(m, Pop(m, s), x) && Lives(m, x, w[1..]);
    }
    if Hits(m, s, w[0]) && exists x :: InClosure(m, Pop(m, s), x) && Lives(m, x, w[1..]) {
      var x :| InClosure(m, Pop(m, s), x) && Lives(m, x, w[1..]);
      var t :| Through(m, x, w[1..], t);
      assert ThroughVia(m, s, w, x, t);
      assert Through(m, s, w, t);
    }
  }

  /** What reading w makes of a set of stacks. */
  ghost predicate SteppedAll(m: Machine, ss: seq<Stack>, w: seq<nat>, ss': seq<Stack>) {
    forall t :: t in ss' <==> exists s :: s in ss && Through(m, s, w, t)
  }

  lemma {:induction false} ThroughReads(m: Machine, s: Stack, w: seq<nat>, v: seq<nat>)
    requires IsLeaf(m, s)
    ensures Accepts(m, s, w + v) <==> exists t :: Through(m, s, w, t) && Accepts(m, t, v)
    decreases |w|
  {
    if w == [] {
      assert w + v == v;
      assert Through(m, s, w, s);
    } else {
      var c, r := w[0], w[1..];
      assert w + v == [c] + (r + v);
      LeafReads(m, s, c, r + v);
      if Accepts(m, s, w + v) {
        ClosureExact(m, Pop(m, s), r + v);
        var x :| InClosure(m, Pop(m, s), x) && Accepts(m, x, r + v);
        ThroughReads(m, x, r, v);
        var t :| Through(m, x, r, t) && Accepts(m, t, v);
        assert ThroughVia(m, s, w, x, t);
      }
      if exists t :: Through(m, s, w, t) && Accepts(m, t, v) {
        var t :| Through(m, s, w, t) && Accepts(m, t, v);
        var x := FirstOf(m, s, w, t);
        ThroughReads(m, x, r, v);
        ClosureExact(m, Pop(m, s), r + v);
      }
    }
  }

  /** The simulation is right for whole tokens. */
  lemma ResidualSteps(m: Machine, root: nat, text: seq<nat>, ss: seq<Stack>, w: seq<nat>, ss': seq<Stack>)
    requires Residual(m, root, text, ss) && SteppedAll(m, ss, w, ss')
    ensures Residual(m, root, text + w, ss')
  {
    forall t | t in ss' ensures IsLeaf(m, t) {
      var s :| s in ss && Through(m, s, w, t);
      ThroughLeaf(m, s, w, t);
    }
    forall v ensures AnyAccepts(m, ss', v) <==> Derives(m, root, text + w + v) {
      assert text + w + v == text + (w + v);
      if AnyAccepts(m, ss', v) {
        var t :| t in ss' && Accepts(m, t, v);
        var s :| s in ss && Through(m, s, w, t);
        ThroughReads(m, s, w, v);
        assert AnyAccepts(m, ss, w + v);
      }
      if AnyAccepts(m, ss, w + v) {
        var s :| s in ss && Accepts(m, s, w + v);
        ThroughReads(m, s, w, v);
        var t :| Through(m, s, w, t) && Accepts(m, t, v);
        assert t in ss';
      }
    }
  }
}
