/** The helper rules of a repetition, and the symbol table they are entered in. */
module Rewriting {
  import opened Types
  import opened Pushdown
  import opened Grammars
  import opened Repetition

  const MAX_REPETITION_THRESHOLD := 2000

  // ---- rules of the form  body |  ----

  function Optionally(body: seq<Elem>): (r: Rule) { body + [ALT, END] }

  lemma {:induction false} SkipSolid(body: seq<Elem>, off: nat)
    requires Solid(body, off) && off <= |body|
    ensures var r := Optionally(body); r[|r| - 1].END? && SkipAlt(r, off) == |body|
    decreases |body| - off
  {
    var r := Optionally(body);
    assert r[|body|].ALT? && r[|r| - 1].END?;
    if off < |body| {
      BodyAt(body);
      PartAt(r, 0, body, off);
      if body[off].REF? {
        SkipSolid(body, off + 1);
      } else {
        SkipClass(r, off);
        SkipSolid(body, ClassEnd(body, off));
      }
    }
  }

  lemma BodyAt(body: seq<Elem>)
    ensures At(Optionally(body), 0, body)
  {
    assert Optionally(body)[0..|body|] == body;
    assert Optionally(body)[|body|].ALT?;
  }

  /** What the machine does in such a rule. */
  ghost predicate OptionalAt(m: Machine, id: nat, body: seq<Elem>) {
    && m.alts(id) == [Pos(id, 0), Pos(id, |body| + 1)]
    && m.node(Pos(id, |body|)).Done? && m.node(Pos(id, |body| + 1)).Done?
    && StandsFrom(m, id, 0, body, 0)
  }

  lemma OptionalHere(g: Rules, id: nat, body: seq<Elem>)
    requires id < |g| && g[id] == Optionally(body) && Solid(body, 0)
    ensures OptionalAt(MachineOf(g), id, body)
  {
    var r := g[id];
    assert r[|body|].ALT? && r[|body| + 1].END?;
    SkipSolid(body, 0);
    assert SkipAlt(r, |body| + 1) == |body| + 1;
    assert Alts(r, |body| + 1) == [|body| + 1];
    assert Alts(r, 0) == [0] + Alts(r, |body| + 1);
    BodyAt(body);
    StandsAll(g, id, 0, body, 0);
  }

  lemma OptionalTake(m: Machine, id: nat, body: seq<Elem>, w: seq<nat>, n: nat)
    requires OptionalAt(m, id, body) && RuleDerives(m, id, w, n)
    ensures w == [] || SeqDerives(m, Pos(id, 0), w, n)
  {
    var j := WhichAlt(m, id, w, n);
    if j == 1 { assert m.alts(id)[1] == Pos(id, |body| + 1); }
  }

  lemma OptionalGive(m: Machine, id: nat, body: seq<Elem>, w: seq<nat>, n: nat)
    requires OptionalAt(m, id, body) && SeqDerives(m, Pos(id, 0), w, n)
    ensures Derives(m, id, w)
  {
    assert m.alts(id)[0] == Pos(id, 0);
    assert RuleDerives(m, id, w, n);
  }

  lemma OptionalEmpty(m: Machine, id: nat, body: seq<Elem>)
    requires OptionalAt(m, id, body)
    ensures Derives(m, id, [])
  {
    assert m.alts(id)[1] == Pos(id, |body| + 1);
    assert SeqDerives(m, Pos(id, |body| + 1), [], 0);
    assert RuleDerives(m, id, [], 0);
  }

  /** Such a rule derives the empty string and what its body derives. */
  lemma OptionalExact(m: Machine, id: nat, body: seq<Elem>, w: seq<nat>)
    requires OptionalAt(m, id, body)
    ensures Derives(m, id, w) <==> w == [] || Lang(m, body, w)
  {
    if Derives(m, id, w) && w != [] {
      var n: nat :| RuleDerives(m, id, w, n);
      OptionalTake(m, id, body, w, n);
      var i, n' := SeqToSeg(m, id, 0, body, 0, w, n);
      assert w[..i] == w;
    }
    if Lang(m, body, w) {
      assert SeqDerives(m, Pos(id, |body|), [], 0);
      var n := SegToSeq(m, id, 0, body, 0, w, [], 0);
      assert w + [] == w;
      OptionalGive(m, id, body, w, n);
    }
    if w == [] { OptionalEmpty(m, id, body); }
  }

  lemma RefLang(m: Machine, k: nat, w: seq<nat>)
    ensures Solid([REF(k)], 0) && (Lang(m, [REF(k)], w) <==> Derives(m, k, w))
  {
    if Lang(m, [REF(k)], w) {
      var i := WhereSplit(m, [REF(k)], 0, w);
      assert w[..i] == w;
    }
    if Derives(m, k, w) {
      Splice(m, [REF(k)], 0, w, []);
      assert w + [] == w;
    }
  }

  // ---- the helper rules ----

  ghost predicate UpTo(m: Machine, es: seq<Elem>, hi: nat, w: seq<nat>) {
    exists k :: 0 <= k <= hi && Power(m, es, k, w)
  }

  ghost predicate AnyTimes(m: Machine, es: seq<Elem>, w: seq<nat>) {
    exists k :: Power(m, es, k, w)
  }

  /** Helper i: the item, then the helper before it if there is one. */
  function Link(es: seq<Elem>, from: nat, i: nat): (body: seq<Elem>) {
    if i == 0 then es else es + [REF(from + i - 1)]
  }

  ghost predicate LinkAt(g: Rules, es: seq<Elem>, from: nat, i: nat) {
    from + i < |g| && g[from + i] == Optionally(Link(es, from, i))
  }

  ghost predicate Chained(g: Rules, es: seq<Elem>, from: nat, q: nat) {
    forall i :: 0 <= i < q ==> LinkAt(g, es, from, i)
  }

  lemma ChainMore(g: Rules, g': Rules, es: seq<Elem>, from: nat, i: nat)
    requires Chained(g, es, from, i) && g <= g' && LinkAt(g', es, from, i)
    ensures Chained(g', es, from, i + 1)
  {
    forall j | 0 <= j < i + 1 ensures LinkAt(g', es, from, j) {
      if j < i { assert LinkAt(g, es, from, j); }
    }
  }

  ghost predicate Looped(g: Rules, es: seq<Elem>, id: nat) {
    id < |g| && g[id] == Optionally(es + [REF(id)])
  }

  lemma SolidThen(es: seq<Elem>, k: nat)
    requires Solid(es, 0)
    ensures Solid(es + [REF(k)], 0)
  {
    SolidJoin(es, [REF(k)], 0);
  }

  /** Helper i derives up to i + 1 items. */
  lemma {:induction false} ChainExact(g: Rules, es: seq<Elem>, from: nat, q: nat, i: nat, w: seq<nat>)
    requires Chained(g, es, from, q) && i < q && Solid(es, 0)
    ensures Derives(MachineOf(g), from + i, w) <==> UpTo(MachineOf(g), es, i + 1, w)
    decreases i
  {
    var m, body := MachineOf(g), Link(es, from, i);
    assert LinkAt(g, es, from, i);
    if i > 0 { SolidThen(es, from + i - 1); }
    OptionalHere(g, from + i, body);
    OptionalExact(m, from + i, body, w);
    if i == 0 {
      UpToOne(m, es, w);
    } else {
      forall v ensures Lang(m, [REF(from + i - 1)], v) <==> UpTo(m, es, i, v) {
        ChainExact(g, es, from, q, i - 1, v);
        RefLang(m, from + i - 1, v);
      }
      UpToMore(m, es, [REF(from + i - 1)], i, w);
    }
  }

  lemma UpToOne(m: Machine, es: seq<Elem>, w: seq<nat>)
    ensures UpTo(m, es, 1, w) <==> w == [] || Lang(m, es, w)
  {
    if UpTo(m, es, 1, w) {
      var k :| 0 <= k <= 1 && Power(m, es, k, w);
      if k == 1 {
        var i := FirstFactor(m, es, 1, w);
        assert w[..i] == w;
      }
    }
    if w == [] { assert Power(m, es, 0, w); }
    if Lang(m, es, w) {
      OneMore(m, es, 0, w, []);
      assert w + [] == w;
    }
  }

  lemma UpToMore(m: Machine, es: seq<Elem>, rest: seq<Elem>, i: nat, w: seq<nat>)
    requires Solid(rest, 0) && forall v :: Lang(m, rest, v) <==> UpTo(m, es, i, v)
    ensures UpTo(m, es, i + 1, w) <==> w == [] || Lang(m, es + rest, w)
  {
    if UpTo(m, es, i + 1, w) {
      var k :| 0 <= k <= i + 1 && Power(m, es, k, w);
      if k > 0 {
        var a := FirstFactor(m, es, k, w);
        assert UpTo(m, es, i, w[a..]);
        ConcatPaste(m, es, rest, w[..a], w[a..]);
        assert w[..a] + w[a..] == w;
      }
    }
    if w == [] { assert Power(m, es, 0, w); }
    if Lang(m, es + rest, w) {
      var a := ConcatCut(m, es, rest, w);
      var k :| 0 <= k <= i && Power(m, es, k, w[a..]);
      OneMore(m, es, k, w[..a], w[a..]);
      assert w[..a] + w[a..] == w;
    }
  }

  ghost predicate LoopAt(m: Machine, es: seq<Elem>, id: nat) {
    && OptionalAt(m, id, es + [REF(id)]) && StandsFrom(m, id, 0, es, 0)
    && m.node(Pos(id, |es|)) == Sub(id, Pos(id, |es| + 1)) && m.node(Pos(id, |es| + 1)).Done?
  }

  lemma LoopHere(g: Rules, es: seq<Elem>, id: nat)
    requires Looped(g, es, id) && Solid(es, 0)
    ensures LoopAt(MachineOf(g), es, id)
  {
    SolidThen(es, id);
    OptionalHere(g, id, es + [REF(id)]);
    assert g[id][|es|] == REF(id) && g[id][0..|es|] == es;
    StandsAll(g, id, 0, es, 0);
  }

  /** The helper that refers to itself derives any number of items. */
  lemma LoopExact(g: Rules, es: seq<Elem>, id: nat, w: seq<nat>)
    requires Looped(g, es, id) && Solid(es, 0)
    ensures Derives(MachineOf(g), id, w) <==> AnyTimes(MachineOf(g), es, w)
  {
    var m := MachineOf(g);
    LoopHere(g, es, id);
    if Derives(m, id, w) {
      var n: nat :| RuleDerives(m, id, w, n);
      var k := LoopTimes(m, es, id, w, n);
    }
    if AnyTimes(m, es, w) {
      var k: nat :| Power(m, es, k, w);
      TimesLoop(m, es, id, w, k);
    }
  }

  lemma {:induction false} LoopTimes(m: Machine, es: seq<Elem>, id: nat, w: seq<nat>, n: nat) returns (k: nat)
    requires LoopAt(m, es, id) && RuleDerives(m, id, w, n)
    ensures Power(m, es, k, w)
    decreases n
  {
    OptionalTake(m, id, es + [REF(id)], w, n);
    if w == [] {
      k := 0;
    } else {
      var i, n' := LoopFirst(m, es, id, w, n);
      k := LoopTimes(m, es, id, w[i..], n');
      OneMore(m, es, k, w[..i], w[i..]);
      assert w[..i] + w[i..] == w;
      k := k + 1;
    }
  }

  lemma LoopFirst(m: Machine, es: seq<Elem>, id: nat, w: seq<nat>, n: nat) returns (i: nat, n': nat)
    requires LoopAt(m, es, id) && SeqDerives(m, Pos(id, 0), w, n)
    ensures i <= |w| && Lang(m, es, w[..i]) && n' < n && RuleDerives(m, id, w[i..], n')
  {
    var h;
    i, h := SeqToSeg(m, id, 0, es, 0, w, n);
    var j := SplitAt(m, Pos(id, |es|), w[i..], h);
    assert w[i..][..j] == w[i..];
    n' := h - 1;
  }

  lemma {:induction false} TimesLoop(m: Machine, es: seq<Elem>, id: nat, w: seq<nat>, k: nat)
    requires LoopAt(m, es, id) && Power(m, es, k, w)
    ensures Derives(m, id, w)
    decreases k
  {
    if k == 0 {
      OptionalEmpty(m, id, es + [REF(id)]);
    } else {
      var i := FirstFactor(m, es, k, w);
      TimesLoop(m, es, id, w[i..], k - 1);
      LoopAgain(m, es, id, w[..i], w[i..]);
      assert w[..i] + w[i..] == w;
    }
  }

  lemma LoopAgain(m: Machine, es: seq<Elem>, id: nat, u: seq<nat>, v: seq<nat>)
    requires LoopAt(m, es, id) && Lang(m, es, u) && Derives(m, id, v)
    ensures Derives(m, id, u + v)
  {
    assert SeqDerives(m, Pos(id, |es| + 1), [], 0);
    var n := JoinAt(m, Pos(id, |es|), v, [], 0);
    assert v + [] == v;
    var n' := SegToSeq(m, id, 0, es, 0, u, v, n);
    OptionalGive(m, id, es + [REF(id)], u + v, n');
  }

  // ---- the rewritten item ----

  /** How often beyond the minimum: without end, or up to a number of times. */
  datatype Extra = Endless | Most(q: nat)

  predicate Within(k: nat, min: nat, extra: Extra) { min <= k && (extra.Most? ==> k <= min + extra.q) }

  /** What replaces the item: the copies it must have, then the last helper rule. */
  function Tail(es: seq<Elem>, min: nat, extra: Extra, from: nat): (t: seq<Elem>) {
    Copies(es, min) + Ending(extra, from)
  }

  /** The helper rules of the item are in place. */
  ghost predicate Helped(g: Rules, es: seq<Elem>, extra: Extra, from: nat) {
    match extra
    case Endless => Looped(g, es, from)
    case Most(q) => Chained(g, es, from, q)
  }

  ghost predicate Repeated(m: Machine, es: seq<Elem>, min: nat, extra: Extra, w: seq<nat>) {
    exists k :: Within(k, min, extra) && Power(m, es, k, w)
  }

  ghost predicate Beyond(m: Machine, es: seq<Elem>, extra: Extra, w: seq<nat>) {
    exists k :: Within(k, 0, extra) && Power(m, es, k, w)
  }

  function Ending(extra: Extra, from: nat): (t: seq<Elem>) {
    match extra
    case Endless => [REF(from)]
    case Most(q) => if q == 0 then [] else [REF(from + q - 1)]
  }

  lemma EndingExact(g: Rules, es: seq<Elem>, extra: Extra, from: nat, w: seq<nat>)
    requires Solid(es, 0) && Helped(g, es, extra, from)
    ensures Solid(Ending(extra, from), 0)
    ensures Lang(MachineOf(g), Ending(extra, from), w) <==> Beyond(MachineOf(g), es, extra, w)
  {
    var m := MachineOf(g);
    match extra
    case Endless =>
      RefLang(m, from, w);
      LoopExact(g, es, from, w);
    case Most(q) =>
      if q == 0 {
        if w == [] { assert Within(0, 0, extra) && Power(m, es, 0, w); }
      } else {
        RefLang(m, from + q - 1, w);
        ChainExact(g, es, from, q, q - 1, w);
        if k :| 0 <= k <= q && Power(m, es, k, w) { assert Within(k, 0, extra); }
      }
  }

  lemma CopiesAndMore(m: Machine, es: seq<Elem>, min: nat, extra: Extra, u: seq<nat>, v: seq<nat>)
    requires Power(m, es, min, u) && Beyond(m, es, extra, v)
    ensures Repeated(m, es, min, extra, u + v)
  {
    var k: nat :| Within(k, 0, extra) && Power(m, es, k, v);
    PowerPaste(m, es, min, k, u, v);
    assert Within(min + k, min, extra);
  }

  lemma RewriteSound(g: Rules, es: seq<Elem>, min: nat, extra: Extra, from: nat, w: seq<nat>)
    requires Solid(es, 0) && Helped(g, es, extra, from) && Lang(MachineOf(g), Tail(es, min, extra, from), w)
    ensures Repeated(MachineOf(g), es, min, extra, w)
  {
    EndingExact(g, es, extra, from, []);
    var i := ConcatCut(MachineOf(g), Copies(es, min), Ending(extra, from), w);
    CopiesPower(MachineOf(g), es, min, w[..i]);
    EndingExact(g, es, extra, from, w[i..]);
    CopiesAndMore(MachineOf(g), es, min, extra, w[..i], w[i..]);
    assert w[..i] + w[i..] == w;
  }

  lemma RewriteComplete(g: Rules, es: seq<Elem>, min: nat, extra: Extra, from: nat, w: seq<nat>)
    requires Solid(es, 0) && Helped(g, es, extra, from) && Repeated(MachineOf(g), es, min, extra, w)
    ensures Lang(MachineOf(g), Tail(es, min, extra, from), w)
  {
    var m, end := MachineOf(g), Ending(extra, from);
    var k: nat :| Within(k, min, extra) && Power(m, es, k, w);
    var i := PowerCutAt(m, es, min, k - min, w);
    assert Within(k - min, 0, extra);
    CopiesPower(m, es, min, w[..i]);
    EndingExact(g, es, extra, from, w[i..]);
    ConcatPaste(m, Copies(es, min), end, w[..i], w[i..]);
    assert w[..i] + w[i..] == w;
  }

  /** The rewriting preserves meaning: what replaces the item derives exactly the concatenations of as many of its strings
      as asked for, in every grammar that has the helper rules. */
  lemma RewriteExact(g: Rules, es: seq<Elem>, min: nat, extra: Extra, from: nat, w: seq<nat>)
    requires Solid(es, 0) && Helped(g, es, extra, from)
    ensures Solid(Tail(es, min, extra, from), 0)
    ensures Lang(MachineOf(g), Tail(es, min, extra, from), w) <==> Repeated(MachineOf(g), es, min, extra, w)
  {
    CopiesPower(MachineOf(g), es, min, w);
    EndingExact(g, es, extra, from, w);
    SolidJoin(Copies(es, min), Ending(extra, from), 0);
    if Lang(MachineOf(g), Tail(es, min, extra, from), w) { RewriteSound(g, es, min, extra, from, w); }
    if Repeated(MachineOf(g), es, min, extra, w) { RewriteComplete(g, es, min, extra, from, w); }
  }

  // ---- the other rules ----

  /** The machines agree outside the rules made, and nothing outside refers to those. */
  ghost predicate Apart(m: Machine, m': Machine, made: set<nat>) {
    && (forall p: Pos :: p.rule !in made ==> SameAt(m, m', p) && StaysOut(m, p, made))
    && (forall k :: k !in made ==> SameAlts(m, m', k))
  }

  ghost predicate SameAt(m: Machine, m': Machine, p: Pos) {
    m.node(p) == m'.node(p) && forall chr :: m.hit(p, chr) == m'.hit(p, chr)
  }

  ghost predicate StaysOut(m: Machine, p: Pos, made: set<nat>) {
    match m.node(p)
    case Done => true
    case Sub(k, q) => k !in made && q.rule !in made
    case Term(q) => q.rule !in made
  }

  ghost predicate SameAlts(m: Machine, m': Machine, k: nat) {
    m.alts(k) == m'.alts(k) && forall j :: 0 <= j < |m.alts(k)| ==> m.alts(k)[j].rule == k
  }

  lemma {:induction false} ApartSeq(m: Machine, m': Machine, made: set<nat>, p: Pos, w: seq<nat>, n: nat)
    requires Apart(m, m', made) && p.rule !in made && SeqDerives(m, p, w, n)
    ensures SeqDerives(m', p, w, n)
    decreases n, 0
  {
    assert SameAt(m, m', p) && StaysOut(m, p, made);
    match m.node(p)
    case Done =>
    case Sub(k, q) =>
      var i :| 0 <= i <= |w| && Splits(m, k, q, w, i, n);
      ApartRule(m, m', made, k, w[..i], n - 1);
      ApartSeq(m, m', made, q, w[i..], n - 1);
      assert Splits(m', k, q, w, i, n);
    case Term(q) =>
      ApartSeq(m, m', made, q, w[1..], n - 1);
  }

  lemma {:induction false} ApartRule(m: Machine, m': Machine, made: set<nat>, k: nat, w: seq<nat>, n: nat)
    requires Apart(m, m', made) && k !in made && RuleDerives(m, k, w, n)
    ensures RuleDerives(m', k, w, n)
    decreases n, 1
  {
    assert SameAlts(m, m', k);
    var j := WhichAlt(m, k, w, n);
    ApartSeq(m, m', made, m.alts(k)[j], w, n);
  }

  function RuleAt(g: Rules, k: nat): (r: Rule) { if k < |g| then g[k] else [] }

  /** The grammars have the same rules outside those made, and do not refer to those. */
  ghost predicate Extends(g: Rules, g': Rules, made: set<nat>) {
    forall k: nat :: k !in made ==> RuleAt(g, k) == RuleAt(g', k) && RefersOut(RuleAt(g, k), made)
  }

  ghost predicate RefersOut(r: Rule, made: set<nat>) {
    forall i :: 0 <= i < |r| && r[i].REF? ==> r[i].rule !in made
  }

  lemma ExtendsApart(g: Rules, g': Rules, made: set<nat>)
    requires Extends(g, g', made)
    ensures Apart(MachineOf(g), MachineOf(g'), made)
  {
    var m, m' := MachineOf(g), MachineOf(g');
    forall p: Pos | p.rule !in made ensures SameAt(m, m', p) && StaysOut(m, p, made) {
      assert RuleAt(g, p.rule) == RuleAt(g', p.rule) && RefersOut(RuleAt(g, p.rule), made);
    }
    forall k: nat | k !in made ensures SameAlts(m, m', k) {
      assert RuleAt(g, k) == RuleAt(g', k);
    }
  }

  /** No other rule's language changes when rules are made that it does not refer to. */
  lemma OtherRulesKeep(g: Rules, g': Rules, made: set<nat>, k: nat, w: seq<nat>)
    requires Extends(g, g', made) && Extends(g', g, made) && k !in made
    ensures Derives(MachineOf(g), k, w) <==> Derives(MachineOf(g'), k, w)
  {
    ExtendsApart(g, g', made);
    ExtendsApart(g', g, made);
    if Derives(MachineOf(g), k, w) {
      var n: nat :| RuleDerives(MachineOf(g), k, w, n);
      ApartRule(MachineOf(g), MachineOf(g'), made, k, w, n);
    }
    if Derives(MachineOf(g'), k, w) {
      var n: nat :| RuleDerives(MachineOf(g'), k, w, n);
      ApartRule(MachineOf(g'), MachineOf(g), made, k, w, n);
    }
  }

  // ---- the symbol table ----

  /** A rule's name as written, or a generated one. Written names hold no underscore, generated ones always do. */
  datatype Name = Word(text: string) | Helper(base: string, id: nat)

  datatype Outcome = Rewritten(rule: Rule, n_prev_rules: nat) | NoItem | TooMany

  /** Unsigned 64-bit subtraction. */
  function WrapSub(a: nat, b: nat): (r: int) {
    if b <= a then a - b else a + 0x1_0000_0000_0000_0000 - b
  }

  /** How many helper rules the code makes: none to spare for a minimum above the maximum, the difference wraps. */
  function ExtraOf(min: nat, max: Limit): (e: Extra)
    requires min <= 0x1_0000_0000_0000_0000
  {
    match max case NoMax => Endless case Bound(n) => Most(WrapSub(n, min))
  }

  datatype Limit = NoMax | Bound(n: nat)

  function TotalRules(min: nat, max: Limit): (n: nat) {
    if max.Bound? && max.n > 0 then max.n else if min > 0 then min else 1
  }

  /** The maximum written in braces, as the code takes it: above the threshold it becomes no maximum. */
  function Clamp(n: nat): (max: Limit) { if n > MAX_REPETITION_THRESHOLD then NoMax else Bound(n) }

  /** S{min,n} stands for min to n items exactly when min <= n and n is not above the threshold. */
  lemma BoundsKept(min: nat, n: nat)
    requires min <= MAX_REPETITION_THRESHOLD
    ensures (forall k: nat :: Within(k, min, ExtraOf(min, Clamp(n))) <==> min <= k <= n) <==> min <= n <= MAX_REPETITION_THRESHOLD
  {
    var extra := ExtraOf(min, Clamp(n));
    assert Within(min, min, extra);
    if n > MAX_REPETITION_THRESHOLD { assert Within(n + 1, min, extra); }
  }

  predicate RefersBelow(r: Rule, n: nat) {
    forall i :: 0 <= i < |r| && r[i].REF? ==> r[i].rule < n
  }

  /** The rules there were derive what they did. */
  ghost predicate SameBelow(g: Rules, g': Rules, n: nat) {
    forall k, w {:trigger Derives(MachineOf(g), k, w)} :: 0 <= k < n ==> (Derives(MachineOf(g), k, w) <==> Derives(MachineOf(g'), k, w))
  }

  ghost function Ids(n: nat, q: nat): (r: set<nat>)
    ensures forall k :: k in r <==> n <= k < n + q
  {
    if q == 0 then {} else Ids(n, q - 1) + {n + q - 1}
  }

  lemma KeepBelow(g: Rules, g': Rules, n: nat)
    requires g <= g' && |g| <= n && (forall k :: 0 <= k < |g| ==> RefersBelow(g[k], n))
    requires forall k :: |g| <= k < n && k < |g'| ==> g'[k] == []
    ensures SameBelow(g, g', n)
  {
    var made := Ids(n, |g'|);
    forall k: nat | k !in made
      ensures RuleAt(g, k) == RuleAt(g', k) && RefersOut(RuleAt(g, k), made)
    {
      if k < |g| { assert RefersBelow(g[k], n); }
    }
    forall k, w | 0 <= k < n ensures Derives(MachineOf(g), k, w) <==> Derives(MachineOf(g'), k, w) {
      OtherRulesKeep(g, g', made, k, w);
    }
  }

  class SymbolTable {
    var symbols: map<Name, nat>
    var rules: seq<Rule>           // [] where a rule is referred to and not yet defined

    /** Ids are given out in order, and a generated name holds its own id. */
    ghost predicate Valid()
      reads this
    {
      && |rules| <= |symbols| && (forall x :: x in symbols && x.Helper? ==> x.id < |symbols|)
      && (forall k :: 0 <= k < |rules| ==> RefersBelow(rules[k], |symbols|))
    }

    /** generate_symbol_id: the name is new, so the id is as well. */
    method GenerateId(base: string) returns (id: nat)
      requires Valid()
      modifies this`symbols
      ensures Valid() && id == old(|symbols|) && |symbols| == id + 1
      ensures Helper(base, id) !in old(symbols) && symbols == old(symbols)[Helper(base, id) := id]
    {
      id := |symbols|;
      symbols := symbols[Helper(base, id) := id];
    }

    /** add_rule */
    method AddRule(id: nat, rule: Rule)
      requires Valid() && id < |symbols| && RefersBelow(rule, |symbols|)
      modifies this`rules
      ensures Valid() && |rules| == Max(|old(rules)|, id + 1) && rules[id] == rule
      ensures forall k :: 0 <= k < |old(rules)| && k != id ==> rules[k] == old(rules[k])
      ensures forall k :: |old(rules)| <= k < id ==> rules[k] == []
    {
      if |rules| <= id { rules := rules + seq(id + 1 - |rules|, i => []); }
      rules := rules[id := rule];
    }

    /** handle_repetitions: the item from start on is repeated. All rules there were stay as they are. */
    method HandleRepetitions(base: string, rule: Rule, start: nat, n_prev_rules: nat, min: nat, max: Limit)
      returns (r: Outcome)
      requires Valid() && start <= |rule| && min <= MAX_REPETITION_THRESHOLD && RefersBelow(rule, |symbols|)
      modifies this
      ensures Valid() && old(rules) <= rules && SameBelow(old(rules), rules, old(|symbols|))
      ensures r.NoItem? <==> start == |rule|
      ensures r.TooMany? <==> start < |rule| && n_prev_rules * TotalRules(min, max) > MAX_REPETITION_THRESHOLD
      ensures !r.Rewritten? ==> rules == old(rules) && symbols == old(symbols)
      ensures r.Rewritten? ==>
        && r.rule == rule[..start] + Tail(rule[start..], min, ExtraOf(min, max), old(|symbols|))
        && Helped(rules, rule[start..], ExtraOf(min, max), old(|symbols|))
        && r.n_prev_rules == n_prev_rules * TotalRules(min, max)
    {
      KeepBelow(rules, rules, |symbols|);
      if start == |rule| { return NoItem; }
      var item := rule[start..];
      var total := TotalRules(min, max);
      if n_prev_rules * total > MAX_REPETITION_THRESHOLD { return TooMany; }
      var kept := CopyItem(rule, start, min);
      var last := MakeHelpers(base, item, ExtraOf(min, max));
      KeepBelow(old(rules), rules, old(|symbols|));
      r := Rewritten(kept + last, n_prev_rules * total);
      assert kept + last == rule[..start] + (Copies(item, min) + last);
    }

    /** Dropped for a minimum of zero, otherwise written min - 1 times more. */
    method CopyItem(rule: Rule, start: nat, min: nat) returns (kept: Rule)
      requires start <= |rule|
      ensures kept == rule[..start] + Copies(rule[start..], min)
    {
      if min == 0 {
        kept := rule[..start];
      } else {
        kept := rule;
        ghost var item := rule[start..];
        for i := 1 to min
          invariant kept + Copies(item, min - i) == rule[..start] + Copies(item, min)
        {
          assert kept + Copies(item, min - i) == kept + item + Copies(item, min - (i + 1));
          kept := kept + rule[start..];
        }
      }
    }

    /** The loop that generates the helper rules; a reference to the last of them ends the rewritten item. */
    method MakeHelpers(base: string, item: Rule, extra: Extra) returns (last: Rule)
      requires Valid() && RefersBelow(item, |symbols|)
      modifies this
      ensures Valid() && old(rules) <= rules && (forall k :: |old(rules)| <= k < old(|symbols|) && k < |rules| ==> rules[k] == [])
      ensures Helped(rules, item, extra, old(|symbols|))
      ensures last == Ending(extra, old(|symbols|))
    {
      ghost var from := |symbols|;
      var n := if extra.Endless? then 1 else extra.q;
      var lastId := 0;
      for i := 0 to n
        invariant Valid() && |symbols| == from + i && old(rules) <= rules
        invariant forall k :: |old(rules)| <= k < from && k < |rules| ==> rules[k] == []
        invariant i > 0 ==> lastId == from + i - 1
        invariant if extra.Endless? then i > 0 ==> Looped(rules, item, from) else Chained(rules, item, from, i)
      {
        var id := GenerateId(base);
        var body := if extra.Endless? then item + [REF(id)] else if i > 0 then item + [REF(lastId)] else item;
        ghost var before := rules;
        AddRule(id, body + [ALT, END]);
        lastId := id;
        assert before <= rules;
        if extra.Most? {
          assert LinkAt(rules, item, from, i);
          ChainMore(before, rules, item, from, i);
        }
      }
      last := if n > 0 then [REF(lastId)] else [];
    }
  }
}
