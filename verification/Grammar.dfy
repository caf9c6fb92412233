/** The grammar engine: rules as element arrays, stacks of positions, and the advance and accept steps. */
module Grammars {
  import opened Types
  import opened Pushdown

  /** A grammar element. CHAR, NOT and ANY start a terminal; UPPER and MORE continue one. */
  datatype Elem = END | ALT | REF(rule: nat) | CHAR(lo: nat) | NOT(lo: nat) | UPPER(hi: nat) | MORE(lo: nat) | ANY

  type Rule = seq<Elem>
  type Rules = seq<Rule>

  predicate IsEnd(e: Elem) { e.END? || e.ALT? }
  predicate IsClass(e: Elem) { e.CHAR? || e.NOT? || e.ANY? }

  // ---- terminals ----

  predicate HasUpper(r: Rule, off: nat) { off + 1 < |r| && r[off + 1].UPPER? }

  function ItemEnd(r: Rule, off: nat): (k: nat) { if HasUpper(r, off) then off + 2 else off + 1 }

  /** The element after the terminal that starts at off. */
  function ClassEnd(r: Rule, off: nat): (k: nat)
    requires off < |r|
    ensures off < k
    decreases |r| - off
  {
    var k := ItemEnd(r, off);
    if k < |r| && r[k].MORE? then ClassEnd(r, k) else k
  }

  datatype Range = Range(lo: nat, hi: nat) | Every

  predicate Contains(x: Range, chr: nat) { x.Every? || x.lo <= chr <= x.hi }

  function Low(e: Elem): nat {
    match e case CHAR(lo) => lo case NOT(lo) => lo case MORE(lo) => lo case _ => 0
  }

  function ItemRange(r: Rule, off: nat): (x: Range)
    requires off < |r|
  {
    if HasUpper(r, off) then Range(Low(r[off]), r[off + 1].hi)
    else if r[off].ANY? then Every
    else Range(Low(r[off]), Low(r[off]))
  }

  /** The code point ranges a terminal lists. */
  function Ranges(r: Rule, off: nat): (xs: seq<Range>)
    requires off < |r|
    decreases |r| - off
  {
    var k := ItemEnd(r, off);
    [ItemRange(r, off)] + if k < |r| && r[k].MORE? then Ranges(r, k) else []
  }

  ghost predicate Listed(xs: seq<Range>, chr: nat) {
    exists i :: 0 <= i < |xs| && Contains(xs[i], chr)
  }

  /** chr satisfies the terminal: it is in a listed range, or for an inverse class in none. */
  ghost predicate InClass(r: Rule, off: nat, chr: nat)
    requires off < |r|
  {
    Listed(Ranges(r, off), chr) == !r[off].NOT?
  }

  /** match_char: one pass over the terminal decides membership and finds its end. */
  method MatchChar(r: Rule, off: nat, chr: nat) returns (ok: bool, next: nat)
    requires off < |r| && IsClass(r[off]) && ClassEnd(r, off) < |r|
    ensures next == ClassEnd(r, off) && ok == InClass(r, off, chr)
  {
    var found := false;
    var p := off;
    while true
      invariant off <= p < |r| && ClassEnd(r, p) == ClassEnd(r, off) && (p > off ==> r[p].MORE?)
      invariant Listed(Ranges(r, off), chr) <==> found || Listed(Ranges(r, p), chr)
      decreases |r| - p
    {
      RangesStep(r, p, chr);
      var hit;
      hit, next := MatchItem(r, p, chr);
      found := found || hit;
      if !r[next].MORE? { break; }
      p := next;
    }
    ok := found == (r[off].CHAR? || r[off].ANY?);
  }

  /** One range, any character, or one exact character. */
  method MatchItem(r: Rule, p: nat, chr: nat) returns (hit: bool, next: nat)
    requires p < |r| && (IsClass(r[p]) || r[p].MORE?)
    ensures next == ItemEnd(r, p) && hit == Contains(ItemRange(r, p), chr)
  {
    if p + 1 < |r| && r[p + 1].UPPER? {
      return Low(r[p]) <= chr <= r[p + 1].hi, p + 2;
    } else if r[p].ANY? {
      return true, p + 1;
    } else {
      return Low(r[p]) == chr, p + 1;
    }
  }

  lemma RangesStep(r: Rule, p: nat, chr: nat)
    requires p < |r|
    ensures var k := ItemEnd(r, p);
      Listed(Ranges(r, p), chr) <==> Contains(ItemRange(r, p), chr) || (k < |r| && r[k].MORE? && Listed(Ranges(r, k), chr))
  {
    var k := ItemEnd(r, p);
    ListedCons(ItemRange(r, p), if k < |r| && r[k].MORE? then Ranges(r, k) else [], chr);
  }

  lemma ListedCons(x: Range, xs: seq<Range>, chr: nat)
    ensures Listed([x] + xs, chr) <==> Contains(x, chr) || Listed(xs, chr)
  {
    if Listed(xs, chr) {
      var i :| 0 <= i < |xs| && Contains(xs[i], chr);
      assert ([x] + xs)[i + 1] == xs[i];
    }
    if Contains(x, chr) { assert ([x] + xs)[0] == x; }
  }

  // ---- shape ----

  /** From off on, the rule is a sequence of alternatives of references and complete terminals, closed by END. */
  predicate Good(r: Rule, n: nat, off: nat)
    decreases |r| - off
  {
    off < |r| && match r[off]
      case END => off == |r| - 1
      case ALT => Good(r, n, off + 1)
      case REF(k) => k < n && Good(r, n, off + 1)
      case UPPER(_) => false
      case MORE(_) => false
      case ANY => !HasUpper(r, off) && Good(r, n, ClassEnd(r, off))
      case _ => Good(r, n, ClassEnd(r, off))
  }

  predicate Wf(g: Rules) {
    forall i :: 0 <= i < |g| ==> Good(g[i], |g|, 0)
  }

  lemma {:induction false} GoodEnds(r: Rule, n: nat, off: nat)
    requires Good(r, n, off)
    ensures off < |r| && r[|r| - 1].END?
    decreases |r| - off
  {
    if r[off].ALT? || r[off].REF? {
      GoodEnds(r, n, off + 1);
    } else if IsClass(r[off]) {
      GoodEnds(r, n, ClassEnd(r, off));
    }
  }

  /** The end of the alternative that contains off. */
  function SkipAlt(r: Rule, off: nat): (k: nat)
    requires off < |r| && r[|r| - 1].END?
    ensures off <= k < |r| && IsEnd(r[k])
    decreases |r| - off
  {
    if IsEnd(r[off]) then off else SkipAlt(r, off + 1)
  }

  method ScanAlt(r: Rule, off: nat) returns (k: nat)
    requires off < |r| && r[|r| - 1].END?
    ensures k == SkipAlt(r, off)
  {
    k := off;
    while !IsEnd(r[k])
      invariant off <= k < |r| && SkipAlt(r, k) == SkipAlt(r, off)
      decreases |r| - k
    {
      k := k + 1;
    }
  }

  lemma {:induction false} SkipClass(r: Rule, off: nat)
    requires off < |r| && r[|r| - 1].END? && (IsClass(r[off]) || r[off].MORE?) && ClassEnd(r, off) < |r|
    ensures SkipAlt(r, off) == SkipAlt(r, ClassEnd(r, off))
    decreases |r| - off
  {
    var k := ItemEnd(r, off);
    assert SkipAlt(r, off) == SkipAlt(r, off + 1);
    if r[k].MORE? { SkipClass(r, k); }
  }

  lemma {:induction false} SkipGood(r: Rule, n: nat, off: nat)
    requires Good(r, n, off)
    ensures off < |r| && r[|r| - 1].END? && Good(r, n, SkipAlt(r, off))
    decreases |r| - off
  {
    GoodEnds(r, n, off);
    if !IsEnd(r[off]) {
      if r[off].REF? {
        SkipGood(r, n, off + 1);
      } else {
        GoodEnds(r, n, ClassEnd(r, off));
        SkipClass(r, off);
        SkipGood(r, n, ClassEnd(r, off));
      }
    }
  }

  /** Where the alternatives from off on start. */
  function Alts(r: Rule, off: nat): (a: seq<nat>)
    requires off < |r| && r[|r| - 1].END?
    ensures a != []
    decreases |r| - off
  {
    var k := SkipAlt(r, off);
    [off] + if r[k].ALT? then Alts(r, k + 1) else []
  }

  lemma {:induction false} AltsGood(r: Rule, n: nat, off: nat, i: nat)
    requires Good(r, n, off) && off < |r| && r[|r| - 1].END? && i < |Alts(r, off)|
    ensures Good(r, n, Alts(r, off)[i])
    decreases |r| - off
  {
    SkipGood(r, n, off);
    var k := SkipAlt(r, off);
    if i > 0 { AltsGood(r, n, k + 1, i - 1); }
  }

  // ---- the machine a grammar stands for ----

  function NodeAt(g: Rules, p: Pos): (x: Node) {
    if p.rule < |g| && p.off < |g[p.rule]| then
      match g[p.rule][p.off]
      case REF(k) => Sub(k, Pos(p.rule, p.off + 1))
      case CHAR(_) => Term(Pos(p.rule, ClassEnd(g[p.rule], p.off)))
      case NOT(_) => Term(Pos(p.rule, ClassEnd(g[p.rule], p.off)))
      case ANY => Term(Pos(p.rule, ClassEnd(g[p.rule], p.off)))
      case _ => Done
    else Done
  }

  function AltsAt(g: Rules, k: nat): (ps: seq<Pos>) {
    if k < |g| && g[k] != [] && g[k][|g[k]| - 1].END? then
      var a := Alts(g[k], 0);
      seq(|a|, i requires 0 <= i < |a| => Pos(k, a[i]))
    else []
  }

  ghost predicate HitAt(g: Rules, p: Pos, chr: nat) {
    p.rule < |g| && p.off < |g[p.rule]| && InClass(g[p.rule], p.off, chr)
  }

  ghost function MachineOf(g: Rules): (m: Machine) {
    Machine((p: Pos) => NodeAt(g, p), (k: nat) => AltsAt(g, k), (p: Pos, chr: nat) => HitAt(g, p, chr))
  }

  ghost predicate GoodPos(g: Rules, p: Pos) {
    p.rule < |g| && Good(g[p.rule], |g|, p.off)
  }

  /** Every position of the stack is at a reference or at the start of a terminal. */
  ghost predicate StackOk(g: Rules, s: Stack) {
    forall i :: 0 <= i < |s| ==> GoodPos(g, s[i]) && !IsEnd(g[s[i].rule][s[i].off])
  }

  lemma NextGood(g: Rules, p: Pos)
    requires GoodPos(g, p) && !IsEnd(g[p.rule][p.off])
    ensures !NodeAt(g, p).Done? && GoodPos(g, NodeAt(g, p).next)
    ensures NodeAt(g, p).Sub? ==> NodeAt(g, p).rule < |g|
  {
  }

  lemma DoneIsEnd(g: Rules, p: Pos)
    requires GoodPos(g, p)
    ensures p.off < |g[p.rule]| && (NodeAt(g, p).Done? <==> IsEnd(g[p.rule][p.off]))
  {
  }

  lemma AltsAtGood(g: Rules, k: nat)
    requires Wf(g) && k < |g|
    ensures |g[k]| > 0 && g[k][|g[k]| - 1].END? && AltsAt(g, k) != []
    ensures forall j :: 0 <= j < |AltsAt(g, k)| ==> GoodPos(g, AltsAt(g, k)[j])
  {
    GoodEnds(g[k], |g|, 0);
    forall j | 0 <= j < |AltsAt(g, k)| ensures GoodPos(g, AltsAt(g, k)[j]) { AltsGood(g[k], |g|, 0, j); }
  }

  lemma PushOk(g: Rules, s: Stack, p: Pos)
    requires StackOk(g, s) && GoodPos(g, p)
    ensures StackOk(g, Push(MachineOf(g), s, p))
  {
    DoneIsEnd(g, p);
  }

  lemma WayOk(g: Rules, s: Stack, j: nat)
    requires Wf(g) && StackOk(g, s) && j < Ways(MachineOf(g), s)
    ensures StackOk(g, Way(MachineOf(g), s, j))
  {
    var m, p := MachineOf(g), Top(s);
    NextGood(g, p);
    AltsAtGood(g, m.node(p).rule);
    PushOk(g, Base(s), m.node(p).next);
    PushOk(g, Push(m, Base(s), m.node(p).next), m.alts(m.node(p).rule)[j]);
  }

  // ---- advance_stack ----

  /** Scans a rule for the starts of its alternatives. */
  method AltStarts(r: Rule) returns (a: seq<nat>)
    requires |r| > 0 && r[|r| - 1].END?
    ensures a == Alts(r, 0)
  {
    a := [];
    var sub: nat := 0;
    var more := true;
    ghost var all := Alts(r, 0);
    OpenStarts(r, [], 0, all, Depth());
    while more
      invariant sub < |r| && if more then StartsLeft(r, a, sub, all, Depth()) else a == all
      decreases more, |r| - sub
    {
      var end := ScanAlt(r, sub);
      AltsStep(r, a, sub, all);
      a, more := a + [sub], r[end].ALT?;
      if more { sub := end + 1; }
    }
  }

  /** Those found so far and those from sub on are all. */
  ghost predicate StartsLeft(r: Rule, a: seq<nat>, sub: nat, all: seq<nat>, n: Layers)
    requires sub < |r| && r[|r| - 1].END?
    decreases n
  {
    match n case Bare => a + Alts(r, sub) == all case Over(m) => StartsLeft(r, a, sub, all, m)
  }

  lemma {:induction false} OpenStarts(r: Rule, a: seq<nat>, sub: nat, all: seq<nat>, n: Layers)
    requires sub < |r| && r[|r| - 1].END?
    ensures StartsLeft(r, a, sub, all, n) <==> a + Alts(r, sub) == all
  {
    if n.Over? { OpenStarts(r, a, sub, all, n.under); }
  }

  lemma AltsStep(r: Rule, a: seq<nat>, sub: nat, all: seq<nat>)
    requires |r| > 0 && r[|r| - 1].END? && sub < |r| && StartsLeft(r, a, sub, all, Depth())
    ensures var k := SkipAlt(r, sub);
      if r[k].ALT? then k + 1 < |r| && StartsLeft(r, a + [sub], k + 1, all, Depth()) else a + [sub] == all
  {
    var k := SkipAlt(r, sub);
    OpenStarts(r, a, sub, all, Depth());
    if r[k].ALT? { OpenStarts(r, a + [sub], k + 1, all, Depth()); }
    var rest := if r[k].ALT? then Alts(r, k + 1) else [];
    assert Alts(r, sub) == [sub] + rest;
    assert a + ([sub] + rest) == (a + [sub]) + rest;
  }

  ghost predicate IsWay(m: Machine, s: Stack, j: nat, t: Stack) {
    j < Ways(m, s) && t == Way(m, s, j)
  }

  /** One stack per alternative of the rule on top. */
  method ExpandTop(g: Rules, s: Stack) returns (xs: seq<Stack>)
    requires Wf(g) && StackOk(g, s) && !IsLeaf(MachineOf(g), s)
    ensures |xs| == Ways(MachineOf(g), s) && forall j :: 0 <= j < |xs| ==> IsWay(MachineOf(g), s, j, xs[j])
  {
    var p := s[|s| - 1];
    NextGood(g, p);
    var k := g[p.rule][p.off].rule;
    AltsAtGood(g, k);
    var base := PushPos(g, s[..|s| - 1], Pos(p.rule, p.off + 1));
    var a := AltStarts(g[k]);
    xs := [];
    for j := 0 to |a|
      invariant |xs| == j && forall i :: 0 <= i < j ==> IsWay(MachineOf(g), s, i, xs[i])
    {
      assert MachineOf(g).alts(k)[j] == Pos(k, a[j]);
      var x := PushPos(g, base, Pos(k, a[j]));
      assert IsWay(MachineOf(g), s, j, x);
      xs := xs + [x];
    }
  }

  method PushPos(g: Rules, s: Stack, p: Pos) returns (t: Stack)
    requires GoodPos(g, p)
    ensures t == Push(MachineOf(g), s, p)
  {
    DoneIsEnd(g, p);
    t := if IsEnd(g[p.rule][p.off]) then s else s + [p];
  }

  /** Entering rules from a stack comes to an end. */
  ghost predicate Settles(g: Rules, s: Stack) {
    exists n :: Rests(MachineOf(g), s, n)
  }

  ghost predicate Entered(m: Machine, s: Stack, t: Stack) {
    exists n :: Enters(m, s, t, n)
  }

  ghost predicate Fair(g: Rules, stack: Stack, all: set<Stack>, t: Stack) {
    t in all && Entered(MachineOf(g), stack, t) && StackOk(g, t)
  }

  /** The worklist: everything is on the way from the stack, and what a seen stack expands to has been seen or is still
      to do. */
  ghost predicate Work(g: Rules, stack: Stack, all: set<Stack>, seen: set<Stack>, todo: seq<Stack>) {
    && (forall t :: t in seen || t in todo ==> Fair(g, stack, all, t))
    && (stack in seen || stack in todo)
    && (forall t, j :: t in seen && 0 <= j < Ways(MachineOf(g), t) ==> Due(MachineOf(g), t, j, seen, todo))
  }

  ghost predicate Due(m: Machine, t: Stack, j: nat, seen: set<Stack>, todo: seq<Stack>)
    requires j < Ways(m, t)
  {
    Way(m, t, j) in seen || Way(m, t, j) in todo
  }

  lemma WorkStart(g: Rules, stack: Stack, n: nat)
    requires StackOk(g, stack) && Rests(MachineOf(g), stack, n)
    ensures Work(g, stack, Passed(MachineOf(g), stack, n), {}, [stack])
  {
    assert Enters(MachineOf(g), stack, stack, 0);
  }

  lemma WorkSkip(g: Rules, stack: Stack, all: set<Stack>, seen: set<Stack>, rest: seq<Stack>, cur: Stack)
    requires Work(g, stack, all, seen, rest + [cur]) && cur in seen
    ensures Work(g, stack, all, seen, rest)
  {
    forall t, j | t in seen && 0 <= j < Ways(MachineOf(g), t) ensures Due(MachineOf(g), t, j, seen, rest) {
      assert Due(MachineOf(g), t, j, seen, rest + [cur]);
    }
  }

  lemma WorkExpand(g: Rules, stack: Stack, n: nat, seen: set<Stack>, rest: seq<Stack>, cur: Stack, more: seq<Stack>)
    requires Wf(g) && Rests(MachineOf(g), stack, n)
    requires var all := Passed(MachineOf(g), stack, n); Work(g, stack, all, seen, rest + [cur])
    requires |more| == Ways(MachineOf(g), cur) && forall j :: 0 <= j < |more| ==> IsWay(MachineOf(g), cur, j, more[j])
    ensures Work(g, stack, Passed(MachineOf(g), stack, n), seen + {cur}, rest + more)
  {
    var m, all := MachineOf(g), Passed(MachineOf(g), stack, n);
    assert Fair(g, stack, all, cur);
    forall j | 0 <= j < |more| ensures Fair(g, stack, all, more[j]) {
      assert IsWay(m, cur, j, more[j]);
      FairWay(g, stack, n, cur, j);
    }
    forall t, j | t in seen + {cur} && 0 <= j < Ways(m, t) ensures Due(m, t, j, seen + {cur}, rest + more) {
      if t == cur { assert IsWay(m, cur, j, more[j]) && more[j] in more; } else { assert Due(m, t, j, seen, rest + [cur]); }
    }
  }

  lemma FairWay(g: Rules, stack: Stack, n: nat, cur: Stack, j: nat)
    requires Wf(g) && Rests(MachineOf(g), stack, n) && j < Ways(MachineOf(g), cur)
    requires Fair(g, stack, Passed(MachineOf(g), stack, n), cur)
    ensures Fair(g, stack, Passed(MachineOf(g), stack, n), Way(MachineOf(g), cur, j))
  {
    var m := MachineOf(g);
    PassedClosed(m, stack, n, cur, j);
    var k: nat :| Enters(m, stack, cur, k);
    EntersSnoc(m, stack, cur, k, j);
    WayOk(g, cur, j);
  }

  /** Once nothing is left to do, everything on the way has been seen. */
  lemma {:induction false} AllSeen(g: Rules, stack: Stack, all: set<Stack>, seen: set<Stack>, s: Stack, t: Stack, n: nat)
    requires Work(g, stack, all, seen, []) && s in seen && Enters(MachineOf(g), s, t, n)
    ensures t in seen
    decreases n
  {
    if n > 0 {
      var m := MachineOf(g);
      var j :| 0 <= j < Ways(m, s) && EntersVia(m, s, t, j, n);
      assert Due(m, s, j, seen, []);
      AllSeen(g, stack, all, seen, Way(m, s, j), t, n - 1);
    }
  }

  lemma WorkDone(g: Rules, stack: Stack, all: set<Stack>, seen: set<Stack>)
    requires Work(g, stack, all, seen, [])
    ensures forall t :: t in seen && IsLeaf(MachineOf(g), t) <==> InClosure(MachineOf(g), stack, t)
  {
    forall t | InClosure(MachineOf(g), stack, t) ensures t in seen {
      var n: nat :| Enters(MachineOf(g), stack, t, n);
      AllSeen(g, stack, all, seen, stack, t, n);
    }
    forall t | t in seen && IsLeaf(MachineOf(g), t) ensures InClosure(MachineOf(g), stack, t) {
      assert Fair(g, stack, all, t);
    }
  }

  /** What has been found so far: the leaves among the stacks seen. */
  ghost predicate Found(g: Rules, news: seq<Stack>, seen: set<Stack>, news': seq<Stack>) {
    && (forall t :: t in news' <==> t in news || (t in seen && IsLeaf(MachineOf(g), t)))
    && (NoDup(news) ==> NoDup(news'))
  }

  lemma FoundLeaf(g: Rules, news: seq<Stack>, seen: set<Stack>, news': seq<Stack>, cur: Stack)
    requires Found(g, news, seen, news') && IsLeaf(MachineOf(g), cur)
    ensures Found(g, news, seen + {cur}, if cur in news' then news' else news' + [cur])
  {
  }

  /** advance_stack: adds the closure of the stack, without duplicates. */
  method AdvanceStack(g: Rules, stack: Stack, news: seq<Stack>) returns (news': seq<Stack>)
    requires Wf(g) && StackOk(g, stack) && Settles(g, stack)
    ensures forall t :: t in news' <==> t in news || InClosure(MachineOf(g), stack, t)
    ensures forall t :: t in news' && t !in news ==> StackOk(g, t)
    ensures NoDup(news) ==> NoDup(news')
  {
    ghost var n: nat :| Rests(MachineOf(g), stack, n);
    ghost var all := Passed(MachineOf(g), stack, n);
    WorkStart(g, stack, n);
    var todo, seen: set<Stack> := [stack], {};
    news' := news;
    while todo != []
      invariant Work(g, stack, all, seen, todo) && Found(g, news, seen, news')
      decreases |all - seen|, |todo|
    {
      var cur := todo[|todo| - 1];
      var rest := todo[..|todo| - 1];
      assert todo == rest + [cur];
      assert Fair(g, stack, all, cur);
      if cur in seen {
        WorkSkip(g, stack, all, seen, rest, cur);
        todo := rest;
      } else {
        var more;
        more, news' := Explore(g, cur, news, news', seen);
        WorkExpand(g, stack, n, seen, rest, cur, more);
        assert all - (seen + {cur}) < all - seen;
        seen := seen + {cur};
        todo := rest + more;
      }
    }
    WorkDone(g, stack, all, seen);
  }

  /** A reference is expanded; a stack that is finished or at a terminal is kept; nothing else can be on top. */
  method Explore(g: Rules, cur: Stack, ghost news: seq<Stack>, news1: seq<Stack>, ghost seen: set<Stack>)
    returns (more: seq<Stack>, news': seq<Stack>)
    requires Wf(g) && StackOk(g, cur) && Found(g, news, seen, news1)
    ensures |more| == Ways(MachineOf(g), cur) && forall j :: 0 <= j < |more| ==> IsWay(MachineOf(g), cur, j, more[j])
    ensures Found(g, news, seen + {cur}, news')
  {
    more, news' := [], news1;
    if cur != [] {
      var p := cur[|cur| - 1];
      NextGood(g, p);
      match g[p.rule][p.off] {
        case REF(_) => more := ExpandTop(g, cur); return;
        case CHAR(_) =>
        case NOT(_) =>
        case ANY =>
        case _ => assert false;
      }
    }
    FoundLeaf(g, news, seen, news1, cur);
    if cur !in news1 { news' := news1 + [cur]; }
  }
}
