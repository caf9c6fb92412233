/** When entering rules comes to an end, and how far the left-recursion check decides that. */
module LeftRecursion {
  import opened Pushdown
  import opened Grammars
  import opened GrammarEngine

  // ---- bounds ----

  lemma {:induction false} RestsLonger(m: Machine, s: Stack, n: nat, n': nat)
    requires Rests(m, s, n) && n <= n'
    ensures Rests(m, s, n')
    decreases n
  {
    forall j | 0 <= j < Ways(m, s) ensures n' > 0 && RestsVia(m, s, j, n') {
      assert RestsVia(m, s, j, n);
      RestsLonger(m, Way(m, s, j), n - 1, n' - 1);
    }
  }

  ghost predicate WaySettles(g: Rules, s: Stack, j: nat) {
    j < Ways(MachineOf(g), s) && Settles(g, Way(MachineOf(g), s, j))
  }

  lemma {:induction false} CommonBound(g: Rules, s: Stack, k: nat) returns (n: nat)
    requires k <= Ways(MachineOf(g), s) && forall j :: 0 <= j < k ==> WaySettles(g, s, j)
    ensures forall j :: 0 <= j < k ==> Rests(MachineOf(g), Way(MachineOf(g), s, j), n)
    decreases k
  {
    n := 0;
    if k > 0 {
      var m := MachineOf(g);
      var n1 := CommonBound(g, s, k - 1);
      assert WaySettles(g, s, k - 1);
      var n2: nat :| Rests(m, Way(m, s, k - 1), n2);
      n := n1 + n2;
      forall j | 0 <= j < k ensures Rests(m, Way(m, s, j), n) {
        if j < k - 1 { RestsLonger(m, Way(m, s, j), n1, n); } else { RestsLonger(m, Way(m, s, j), n2, n); }
      }
    }
  }

  /** A stack settles if it does after every way to enter the rule on top. */
  lemma SettlesByWays(g: Rules, s: Stack)
    requires forall j :: 0 <= j < Ways(MachineOf(g), s) ==> WaySettles(g, s, j)
    ensures Settles(g, s)
  {
    var m := MachineOf(g);
    var n0 := CommonBound(g, s, Ways(m, s));
    var n := n0 + 1;
    forall j | 0 <= j < Ways(m, s) ensures RestsVia(m, s, j, n) { assert Rests(m, Way(m, s, j), n - 1); }
    assert Rests(m, s, n);
  }

  lemma LeafSettles(g: Rules, s: Stack)
    requires IsLeaf(MachineOf(g), s)
    ensures Settles(g, s)
  {
    assert Rests(MachineOf(g), s, 0);
  }

  // ---- grammars without left recursion ----

  /** From left position off of rule k on: a rule that may be entered next leads to at most n - 1 further ones in a row,
      and if only rules in empty stand before the end, k is in empty. */
  ghost predicate LeftOk(g: Rules, empty: set<nat>, k: nat, off: nat, n: nat)
    requires k < |g|
    decreases n, |g[k]| - off, 0
  {
    off < |g[k]| && match g[k][off]
      case END => k in empty
      case ALT => k in empty
      case REF(j) => j < |g| && n > 0 && Shallow(g, empty, j, n - 1) && (j in empty ==> LeftOk(g, empty, k, off + 1, n))
      case _ => true
  }

  /** Rule k leads to at most n rules in a row without reading. */
  ghost predicate Shallow(g: Rules, empty: set<nat>, k: nat, n: nat)
    requires k < |g|
    decreases n + 1, 0, 0
  {
    forall i :: 0 <= i < |AltsAt(g, k)| ==> LeftOk(g, empty, k, AltsAt(g, k)[i].off, n)
  }

  /** Some set of rules holds all that can be empty, and from no rule one comes back to it without reading. */
  ghost predicate NoLeftRecursion(g: Rules, empty: set<nat>) {
    forall k :: 0 <= k < |g| ==> Bounded(g, empty, k)
  }

  ghost predicate Bounded(g: Rules, empty: set<nat>, k: nat)
    requires k < |g|
  {
    exists n :: Shallow(g, empty, k, n)
  }

  lemma AltsRule(g: Rules, k: nat, i: nat)
    requires Wf(g) && k < |g| && i < |AltsAt(g, k)|
    ensures AltsAt(g, k)[i].rule == k && GoodPos(g, AltsAt(g, k)[i])
  {
    AltsAtGood(g, k);
  }

  /** Pushing a left position of a shallow rule settles, over a stack that settles if the rule can be empty. */
  lemma {:induction false} LeftSettles(g: Rules, empty: set<nat>, k: nat, off: nat, n: nat, base: Stack)
    requires Wf(g) && k < |g| && GoodPos(g, Pos(k, off)) && LeftOk(g, empty, k, off, n) && (k in empty ==> Settles(g, base))
    ensures Settles(g, Push(MachineOf(g), base, Pos(k, off)))
    decreases n, |g[k]| - off
  {
    var m, p := MachineOf(g), Pos(k, off);
    DoneIsEnd(g, p);
    if !IsEnd(g[k][off]) {
      NextGood(g, p);
      PushTop(m, base, p);
      var s := Push(m, base, p);
      if g[k][off].REF? {
        var j := g[k][off].rule;
        var x := Push(m, base, Pos(k, off + 1));
        if j in empty { LeftSettles(g, empty, k, off + 1, n, base); }
        forall i | 0 <= i < Ways(m, s) ensures WaySettles(g, s, i) {
          AltsRule(g, j, i);
          LeftSettles(g, empty, j, AltsAt(g, j)[i].off, n - 1, x);
        }
        SettlesByWays(g, s);
      } else {
        LeafSettles(g, s);
      }
    }
  }

  lemma {:induction false} AnySettles(g: Rules, empty: set<nat>, k: nat, off: nat, base: Stack)
    requires Wf(g) && NoLeftRecursion(g, empty) && k < |g| && GoodPos(g, Pos(k, off)) && Settles(g, base)
    ensures Settles(g, Push(MachineOf(g), base, Pos(k, off)))
    decreases |g[k]| - off
  {
    var m, p := MachineOf(g), Pos(k, off);
    DoneIsEnd(g, p);
    if !IsEnd(g[k][off]) {
      NextGood(g, p);
      PushTop(m, base, p);
      var s := Push(m, base, p);
      if g[k][off].REF? {
        var j := g[k][off].rule;
        AnySettles(g, empty, k, off + 1, base);
        assert Bounded(g, empty, j);
        var n: nat :| Shallow(g, empty, j, n);
        forall i | 0 <= i < Ways(m, s) ensures WaySettles(g, s, i) {
          AltsRule(g, j, i);
          LeftSettles(g, empty, j, AltsAt(g, j)[i].off, n, Push(m, base, Pos(k, off + 1)));
        }
        SettlesByWays(g, s);
      } else {
        LeafSettles(g, s);
      }
    }
  }

  lemma {:induction false} StackSettles(g: Rules, empty: set<nat>, s: Stack)
    requires Wf(g) && NoLeftRecursion(g, empty) && StackOk(g, s)
    ensures Settles(g, s)
    decreases |s|
  {
    if s == [] {
      LeafSettles(g, s);
    } else {
      StackSettles(g, empty, Base(s));
      AnySettles(g, empty, Top(s).rule, Top(s).off, Base(s));
      DoneIsEnd(g, Top(s));
      assert Push(MachineOf(g), Base(s), Top(s)) == s;
    }
  }

  /** Without left recursion, also through rules that can be empty, every stack settles. */
  lemma NoLeftRecursionIsUsable(g: Rules, empty: set<nat>)
    requires Wf(g) && NoLeftRecursion(g, empty)
    ensures Usable(g)
  {
    forall s | StackOk(g, s) ensures Settles(g, s) { StackSettles(g, empty, s); }
  }

  // ---- the check ----

  /** Some alternative of the rule is empty. */
  predicate HasEmpty(r: Rule) {
    exists i :: 0 <= i < |r| && EmptyAt(r, i)
  }

  predicate EmptyAt(r: Rule, i: nat) {
    i < |r| && IsEnd(r[i]) && (i == 0 || IsEnd(r[i - 1]))
  }

  /** The rules with an alternative that is empty as it stands. */
  function Direct(g: Rules): (e: set<nat>)
    ensures forall k: nat :: k in e <==> k < |g| && HasEmpty(g[k])
  {
    DirectUpTo(g, |g|)
  }

  function DirectUpTo(g: Rules, n: nat): (e: set<nat>)
    requires n <= |g|
    ensures forall k: nat :: k in e <==> k < n && HasEmpty(g[k])
  {
    if n == 0 then {} else DirectUpTo(g, n - 1) + if HasEmpty(g[n - 1]) then {n - 1} else {}
  }

  /** Scanning from i on, with the mark left set where only references to directly empty rules precede, meets j. */
  ghost predicate Meets(empty: set<nat>, r: Rule, i: nat, left: bool, j: nat)
    decreases |r| - i
  {
    i < |r| && match r[i]
      case REF(x) => (left && x == j) || Meets(empty, r, i + 1, left && x in empty, j)
      case END => Meets(empty, r, i + 1, true, j)
      case ALT => Meets(empty, r, i + 1, true, j)
      case _ => Meets(empty, r, i + 1, false, j)
  }

  /** Rule j may be entered right after rule k without reading. */
  ghost predicate Left(g: Rules, empty: set<nat>, k: nat, j: nat) {
    k < |g| && Meets(empty, g[k], 0, true, j)
  }

  /** From k one enters at most n rules in a row. */
  ghost predicate Deep(g: Rules, empty: set<nat>, k: nat, n: nat)
    decreases n
  {
    forall j :: Left(g, empty, k, j) ==> n > 0 && Deep(g, empty, j, n - 1)
  }

  ghost predicate Path(g: Rules, empty: set<nat>, k: nat, j: nat, n: nat)
    decreases n
  {
    if n == 0 then k == j else exists x :: Left(g, empty, k, x) && Path(g, empty, x, j, n - 1)
  }

  ghost predicate Reaches(g: Rules, empty: set<nat>, k: nat, j: nat) {
    exists n :: n > 0 && Path(g, empty, k, j, n)
  }

  ghost predicate Cyclic(g: Rules, empty: set<nat>) {
    exists k :: Reaches(g, empty, k, k)
  }

  lemma {:induction false} PathSnoc(g: Rules, empty: set<nat>, k: nat, x: nat, j: nat, n: nat)
    requires Path(g, empty, k, x, n) && Left(g, empty, x, j)
    ensures Path(g, empty, k, j, n + 1)
    decreases n
  {
    if n == 0 {
      assert Path(g, empty, j, j, 0);
    } else {
      var y :| Left(g, empty, k, y) && Path(g, empty, y, x, n - 1);
      PathSnoc(g, empty, y, x, j, n - 1);
    }
  }

  lemma ReachesOn(g: Rules, empty: set<nat>, k: nat, x: nat, j: nat)
    requires (k == x || Reaches(g, empty, k, x)) && Left(g, empty, x, j)
    ensures Reaches(g, empty, k, j)
  {
    if k == x {
      assert Path(g, empty, x, x, 0);
      PathSnoc(g, empty, k, x, j, 0);
    } else {
      var n: nat :| n > 0 && Path(g, empty, k, x, n);
      PathSnoc(g, empty, k, x, j, n);
    }
  }

  method ScanEmpty(r: Rule) returns (e: bool)
    ensures e <==> HasEmpty(r)
  {
    var atStart := true;
    e := false;
    for i := 0 to |r|
      invariant atStart <==> i == 0 || IsEnd(r[i - 1])
      invariant !e && forall k :: 0 <= k < i ==> !EmptyAt(r, k)
    {
      if IsEnd(r[i]) {
        if atStart {
          assert EmptyAt(r, i);
          return true;
        }
        atStart := true;
      } else {
        atStart := false;
      }
    }
  }

  ghost function AllRules(n: nat): (e: set<nat>)
    ensures |e| == n && forall k: nat :: k in e <==> k < n
  {
    if n == 0 then {} else AllRules(n - 1) + {n - 1}
  }

  lemma Fewer(all: set<nat>, done: set<nat>, k: nat)
    requires k in all && k !in done
    ensures |all - (done + {k})| == |all - done| - 1
  {
    assert all - done == (all - (done + {k})) + {k};
  }

  lemma {:induction false} SpanHasNoRef(r: Rule, off: nat, i: nat)
    requires off <= i < |r| && (IsClass(r[off]) || r[off].MORE?) && i < ClassEnd(r, off)
    ensures !r[i].REF?
    decreases |r| - off
  {
    var k := ItemEnd(r, off);
    if i >= k && k < |r| && r[k].MORE? { SpanHasNoRef(r, k, i); }
  }

  lemma {:induction false} RefBelow(r: Rule, n: nat, off: nat, i: nat)
    requires Good(r, n, off) && off <= i < |r| && r[i].REF?
    ensures r[i].rule < n
    decreases |r| - off
  {
    if i > off {
      if r[off].REF? || r[off].ALT? {
        RefBelow(r, n, off + 1, i);
      } else if IsClass(r[off]) {
        if i < ClassEnd(r, off) { SpanHasNoRef(r, off, i); } else { RefBelow(r, n, ClassEnd(r, off), i); }
      }
    }
  }

  /** The rules entered in a row from k on are boundedly many. */
  ghost predicate Bottoms(g: Rules, empty: set<nat>, k: nat) {
    exists n :: Deep(g, empty, k, n)
  }

  ghost predicate AllBottom(g: Rules, empty: set<nat>, visited: set<nat>) {
    forall k :: k in visited ==> Bottoms(g, empty, k)
  }

  /** The marks of the search: rules done, and rules known to be directly empty. */
  datatype Marks = Marks(visited: set<nat>, mayBeEmpty: set<nat>)

  ghost predicate Sound(g: Rules, m: Marks) {
    AllBottom(g, Direct(g), m.visited) && m.mayBeEmpty <= Direct(g)
  }

  lemma MarkEmpty(g: Rules, m: Marks, k: nat)
    requires Sound(g, m) && k in Direct(g)
    ensures Sound(g, m.(mayBeEmpty := m.mayBeEmpty + {k}))
  {
  }

  lemma MarkVisited(g: Rules, m: Marks, k: nat, n: nat)
    requires Sound(g, m) && Deep(g, Direct(g), k, n)
    ensures Sound(g, m.(visited := m.visited + {k}))
  {
    assert Bottoms(g, Direct(g), k);
  }

  ghost predicate LeadTo(g: Rules, empty: set<nat>, inProgress: set<nat>, k: nat) {
    forall r :: r in inProgress ==> Reaches(g, empty, r, k)
  }

  lemma LeadOn(g: Rules, empty: set<nat>, inProgress: set<nat>, k: nat, j: nat)
    requires LeadTo(g, empty, inProgress, k) && Left(g, empty, k, j)
    ensures LeadTo(g, empty, inProgress + {k}, j)
  {
    forall r | r in inProgress + {k} ensures Reaches(g, empty, r, j) { ReachesOn(g, empty, r, k, j); }
  }

  ghost function Open(g: Rules, inProgress: set<nat>): nat { |AllRules(|g|) - inProgress| }

  /** detect_left_recursion: a search from rule k, where the rules in progress lead to k. What it finds is a cycle; if it
      finds none, only boundedly many rules are entered in a row. */
  method Detect(g: Rules, k: nat, inProgress: set<nat>, m: Marks) returns (found: bool, m': Marks)
    requires Wf(g) && k < |g| && inProgress <= AllRules(|g|) && Sound(g, m) && LeadTo(g, Direct(g), inProgress, k)
    ensures Sound(g, m') && m.visited <= m'.visited && m.mayBeEmpty <= m'.mayBeEmpty
    ensures found ==> Cyclic(g, Direct(g))
    ensures !found ==> k in m'.visited && (k in Direct(g) ==> k in m'.mayBeEmpty) && Deep(g, Direct(g), k, Open(g, inProgress))
    decreases Open(g, inProgress), 1
  {
    if k in inProgress { return true, m; }
    Fewer(AllRules(|g|), inProgress, k);
    m' := m;
    var e := ScanEmpty(g[k]);
    if e {
      MarkEmpty(g, m, k);
      m' := m.(mayBeEmpty := m.mayBeEmpty + {k});
    }
    found, m' := Recurse(g, k, inProgress, m');
    if !found {
      MarkVisited(g, m', k, Open(g, inProgress));
      m' := m'.(visited := m'.visited + {k});
    }
  }

  /** The second loop: into the leftmost references of every alternative, past rules that may be empty. */
  method Recurse(g: Rules, k: nat, inProgress: set<nat>, m: Marks) returns (found: bool, m': Marks)
    requires Wf(g) && k < |g| && inProgress <= AllRules(|g|) && Sound(g, m) && LeadTo(g, Direct(g), inProgress, k)
    requires k !in inProgress && Open(g, inProgress + {k}) == Open(g, inProgress) - 1
    ensures Sound(g, m') && m.visited <= m'.visited && m.mayBeEmpty <= m'.mayBeEmpty
    ensures found ==> Cyclic(g, Direct(g))
    ensures !found ==> Deep(g, Direct(g), k, Open(g, inProgress))
    decreases Open(g, inProgress), 0
  {
    m', found := m, false;
    ghost var n := Open(g, inProgress);
    var recurse := true;
    for i := 0 to |g[k]|
      invariant Sound(g, m') && m.visited <= m'.visited && m.mayBeEmpty <= m'.mayBeEmpty && !found
      invariant forall j :: Meets(Direct(g), g[k], i, recurse, j) ==> Left(g, Direct(g), k, j)
      invariant forall j :: Left(g, Direct(g), k, j) ==> Meets(Direct(g), g[k], i, recurse, j) || Deep(g, Direct(g), j, n - 1)
    {
      if g[k][i].REF? && recurse {
        var j := g[k][i].rule;
        RefBelow(g[k], |g|, 0, i);
        assert Left(g, Direct(g), k, j);
        LeadOn(g, Direct(g), inProgress, k, j);
        found, m' := Detect(g, j, inProgress + {k}, m');
        if found { return; }
        recurse := j in m'.mayBeEmpty;
      } else {
        recurse := IsEnd(g[k][i]);
      }
    }
  }

  // ---- what the scan meets, alternative by alternative ----

  /** From off on, only references to directly empty rules precede a reference to j. */
  ghost predicate LeftRef(empty: set<nat>, r: Rule, off: nat, j: nat)
    decreases |r| - off
  {
    off < |r| && r[off].REF? && (r[off].rule == j || (r[off].rule in empty && LeftRef(empty, r, off + 1, j)))
  }

  ghost predicate EndLast(r: Rule) {
    |r| > 0 && r[|r| - 1].END? && forall i :: 0 <= i < |r| && r[i].END? ==> i == |r| - 1
  }

  lemma {:induction false} GoodEndLast(r: Rule, n: nat, off: nat, i: nat)
    requires Good(r, n, off) && off <= i < |r| && r[i].END?
    ensures i == |r| - 1
    decreases |r| - off
  {
    if i > off {
      if r[off].REF? || r[off].ALT? {
        GoodEndLast(r, n, off + 1, i);
      } else if IsClass(r[off]) {
        if i < ClassEnd(r, off) { SpanHasNoEnd(r, off, i); } else { GoodEndLast(r, n, ClassEnd(r, off), i); }
      }
    }
  }

  lemma {:induction false} SpanHasNoEnd(r: Rule, off: nat, i: nat)
    requires off <= i < |r| && (IsClass(r[off]) || r[off].MORE?) && i < ClassEnd(r, off)
    ensures !IsEnd(r[i])
    decreases |r| - off
  {
    var k := ItemEnd(r, off);
    if i >= k && k < |r| && r[k].MORE? { SpanHasNoEnd(r, k, i); }
  }

  lemma RuleEndLast(g: Rules, k: nat)
    requires Wf(g) && k < |g|
    ensures EndLast(g[k])
  {
    GoodEnds(g[k], |g|, 0);
    forall i | 0 <= i < |g[k]| && g[k][i].END? ensures i == |g[k]| - 1 { GoodEndLast(g[k], |g|, 0, i); }
  }

  ghost predicate Later(empty: set<nat>, r: Rule, off: nat, j: nat)
    requires EndLast(r) && off < |r|
  {
    var k := SkipAlt(r, off);
    r[k].ALT? && Meets(empty, r, k + 1, true, j)
  }

  lemma {:induction false} MeetsRest(empty: set<nat>, r: Rule, off: nat, j: nat)
    requires EndLast(r) && off < |r|
    ensures Meets(empty, r, off, false, j) <==> Later(empty, r, off, j)
    decreases |r| - off
  {
    if !IsEnd(r[off]) { MeetsRest(empty, r, off + 1, j); }
  }

  lemma {:induction false} MeetsSplit(empty: set<nat>, r: Rule, off: nat, j: nat)
    requires EndLast(r) && off < |r|
    ensures Meets(empty, r, off, true, j) <==> LeftRef(empty, r, off, j) || Later(empty, r, off, j)
    decreases |r| - off
  {
    if !IsEnd(r[off]) {
      MeetsRest(empty, r, off + 1, j);
      if r[off].REF? { MeetsSplit(empty, r, off + 1, j); }
    }
  }

  ghost predicate LeftIn(empty: set<nat>, r: Rule, off: nat, i: nat, j: nat)
    requires EndLast(r) && off < |r|
  {
    i < |Alts(r, off)| && LeftRef(empty, r, Alts(r, off)[i], j)
  }

  lemma {:induction false} MeetsAlts(empty: set<nat>, r: Rule, off: nat, j: nat)
    requires EndLast(r) && off < |r|
    ensures Meets(empty, r, off, true, j) <==> exists i :: LeftIn(empty, r, off, i, j)
    decreases |r| - off
  {
    MeetsSplit(empty, r, off, j);
    var k := SkipAlt(r, off);
    if LeftRef(empty, r, off, j) { assert LeftIn(empty, r, off, 0, j); }
    if r[k].ALT? {
      MeetsAlts(empty, r, k + 1, j);
      if Meets(empty, r, k + 1, true, j) {
        var i: nat :| LeftIn(empty, r, k + 1, i, j);
        assert Alts(r, off)[i + 1] == Alts(r, k + 1)[i];
        assert LeftIn(empty, r, off, i + 1, j);
      }
    }
    if i: nat :| LeftIn(empty, r, off, i, j) {
      if i > 0 {
        assert Alts(r, off)[i] == Alts(r, k + 1)[i - 1];
        assert LeftIn(empty, r, k + 1, i - 1, j);
      }
    }
  }

  /** j may be entered right after k: by some alternative of k, after directly empty rules only. */
  lemma LeftIsAlts(g: Rules, empty: set<nat>, k: nat, j: nat)
    requires Wf(g) && k < |g|
    ensures Left(g, empty, k, j) <==> exists i :: 0 <= i < |AltsAt(g, k)| && LeftRef(empty, g[k], AltsAt(g, k)[i].off, j)
  {
    RuleEndLast(g, k);
    MeetsAlts(empty, g[k], 0, j);
    if Left(g, empty, k, j) {
      var i: nat :| LeftIn(empty, g[k], 0, i, j);
      assert AltsAt(g, k)[i].off == Alts(g[k], 0)[i];
    }
    if i :| 0 <= i < |AltsAt(g, k)| && LeftRef(empty, g[k], AltsAt(g, k)[i].off, j) {
      assert LeftIn(empty, g[k], 0, i, j);
    }
  }

  // ---- rules that can be empty ----

  /** Rule k can be empty, by alternatives nested at most n deep. */
  ghost predicate CanEnd(g: Rules, k: nat, n: nat)
    decreases n + 1, 0
  {
    k < |g| && exists i :: 0 <= i < |AltsAt(g, k)| && EndsFrom(g, k, AltsAt(g, k)[i].off, n)
  }

  ghost predicate EndsFrom(g: Rules, k: nat, off: nat, n: nat)
    requires k < |g|
    decreases n, |g[k]| - off
  {
    off < |g[k]| && match g[k][off]
      case END => true
      case ALT => true
      case REF(x) => n > 0 && CanEnd(g, x, n - 1) && EndsFrom(g, k, off + 1, n)
      case _ => false
  }

  ghost predicate Vanishes(g: Rules, k: nat) {
    exists n :: CanEnd(g, k, n)
  }

  /** All rules that can be empty, directly or through others. */
  ghost function Nullable(g: Rules): (e: set<nat>) {
    set k: nat | k < |g| && Vanishes(g, k)
  }

  lemma {:induction false} CanEndLonger(g: Rules, k: nat, n: nat, n': nat)
    requires CanEnd(g, k, n) && n <= n'
    ensures CanEnd(g, k, n')
    decreases n + 1, 0
  {
    var i :| 0 <= i < |AltsAt(g, k)| && EndsFrom(g, k, AltsAt(g, k)[i].off, n);
    EndsLonger(g, k, AltsAt(g, k)[i].off, n, n');
  }

  lemma {:induction false} EndsLonger(g: Rules, k: nat, off: nat, n: nat, n': nat)
    requires k < |g| && EndsFrom(g, k, off, n) && n <= n'
    ensures EndsFrom(g, k, off, n')
    decreases n, |g[k]| - off
  {
    if g[k][off].REF? {
      CanEndLonger(g, g[k][off].rule, n - 1, n' - 1);
      EndsLonger(g, k, off + 1, n, n');
    }
  }

  /** From off on: if only references to rules in empty precede the end, rule k is in empty itself. */
  predicate Ends(g: Rules, empty: set<nat>, k: nat, off: nat)
    requires k < |g|
    decreases |g[k]| - off
  {
    off < |g[k]| && match g[k][off]
      case END => k in empty
      case ALT => k in empty
      case REF(x) => x in empty ==> Ends(g, empty, k, off + 1)
      case _ => true
  }

  predicate Closed(g: Rules, empty: set<nat>) {
    forall k, i :: 0 <= k < |g| && 0 <= i < |AltsAt(g, k)| ==> Ends(g, empty, k, AltsAt(g, k)[i].off)
  }

  /** Every rule that can be empty has an alternative that is empty as it stands. */
  predicate EmptyIsDirect(g: Rules) { Closed(g, Direct(g)) }

  lemma {:induction false} NullableEnds(g: Rules, k: nat, off: nat)
    requires Wf(g) && k < |g| && Good(g[k], |g|, off)
    requires forall n :: EndsFrom(g, k, off, n) ==> k in Nullable(g)
    ensures Ends(g, Nullable(g), k, off)
    decreases |g[k]| - off
  {
    if IsEnd(g[k][off]) {
      assert EndsFrom(g, k, off, 0);
    } else if g[k][off].REF? && g[k][off].rule in Nullable(g) {
      var next, n0 := off + 1, VanishDepth(g, g[k][off].rule);
      forall n | EndsFrom(g, k, next, n) ensures k in Nullable(g) {
        var n' := n0 + n + 1;
        CanEndLonger(g, g[k][off].rule, n0, n' - 1);
        EndsLonger(g, k, next, n, n');
        assert EndsFrom(g, k, off, n');
      }
      NullableEnds(g, k, next);
    }
  }

  ghost function VanishDepth(g: Rules, k: nat): (n: nat)
    requires Vanishes(g, k)
    ensures CanEnd(g, k, n)
  {
    var n: nat :| CanEnd(g, k, n); n
  }

  lemma NullableClosed(g: Rules)
    requires Wf(g)
    ensures Closed(g, Nullable(g))
  {
    forall k, i | 0 <= k < |g| && 0 <= i < |AltsAt(g, k)| ensures Ends(g, Nullable(g), k, AltsAt(g, k)[i].off) {
      AltsRule(g, k, i);
      forall n | EndsFrom(g, k, AltsAt(g, k)[i].off, n) ensures k in Nullable(g) { assert CanEnd(g, k, n); }
      NullableEnds(g, k, AltsAt(g, k)[i].off);
    }
  }

  lemma {:induction false} ClosedHas(g: Rules, empty: set<nat>, k: nat, n: nat)
    requires Closed(g, empty) && CanEnd(g, k, n)
    ensures k in empty
    decreases n + 1, 0
  {
    var i :| 0 <= i < |AltsAt(g, k)| && EndsFrom(g, k, AltsAt(g, k)[i].off, n);
    ClosedHasFrom(g, empty, k, AltsAt(g, k)[i].off, n);
  }

  lemma {:induction false} ClosedHasFrom(g: Rules, empty: set<nat>, k: nat, off: nat, n: nat)
    requires Closed(g, empty) && k < |g| && EndsFrom(g, k, off, n) && Ends(g, empty, k, off)
    ensures k in empty
    decreases n, |g[k]| - off
  {
    if g[k][off].REF? {
      ClosedHas(g, empty, g[k][off].rule, n - 1);
      ClosedHasFrom(g, empty, k, off + 1, n);
    }
  }

  lemma DirectIsNullable(g: Rules)
    requires Wf(g)
    ensures Direct(g) <= Nullable(g)
    ensures EmptyIsDirect(g) ==> Direct(g) == Nullable(g)
  {
    forall k | k in Direct(g) ensures k in Nullable(g) {
      var i := EmptyAlternative(g, k);
      AltsRule(g, k, i);
      DoneIsEnd(g, AltsAt(g, k)[i]);
      assert EndsFrom(g, k, AltsAt(g, k)[i].off, 0);
      assert CanEnd(g, k, 0);
    }
    if EmptyIsDirect(g) {
      forall k | k in Nullable(g) ensures k in Direct(g) { ClosedHas(g, Direct(g), k, VanishDepth(g, k)); }
    }
  }

  // ---- no cycle ----

  lemma {:induction false} DeepShallow(g: Rules, empty: set<nat>, k: nat, n: nat)
    requires Wf(g) && Closed(g, empty) && k < |g| && Deep(g, empty, k, n)
    ensures Shallow(g, empty, k, n)
    decreases n + 1, 0
  {
    forall i | 0 <= i < |AltsAt(g, k)| ensures LeftOk(g, empty, k, AltsAt(g, k)[i].off, n) {
      AltsRule(g, k, i);
      forall j | LeftRef(empty, g[k], AltsAt(g, k)[i].off, j) ensures n > 0 && Deep(g, empty, j, n - 1) {
        LeftIsAlts(g, empty, k, j);
      }
      LeftOkFrom(g, empty, k, AltsAt(g, k)[i].off, n);
    }
  }

  lemma {:induction false} LeftOkFrom(g: Rules, empty: set<nat>, k: nat, off: nat, n: nat)
    requires Wf(g) && Closed(g, empty) && k < |g| && Good(g[k], |g|, off) && Ends(g, empty, k, off)
    requires forall j :: LeftRef(empty, g[k], off, j) ==> n > 0 && Deep(g, empty, j, n - 1)
    ensures LeftOk(g, empty, k, off, n)
    decreases n, |g[k]| - off
  {
    if g[k][off].REF? {
      var j := g[k][off].rule;
      assert LeftRef(empty, g[k], off, j);
      DeepShallow(g, empty, j, n - 1);
      if j in empty {
        var next := off + 1;
        forall x | LeftRef(empty, g[k], next, x) ensures n > 0 && Deep(g, empty, x, n - 1) {
          assert LeftRef(empty, g[k], off, x);
        }
        LeftOkFrom(g, empty, k, next, n);
      }
    }
  }

  lemma LeftInRange(g: Rules, empty: set<nat>, k: nat, j: nat)
    requires Wf(g) && Left(g, empty, k, j)
    ensures j < |g|
  {
    LeftIsAlts(g, empty, k, j);
    var i :| 0 <= i < |AltsAt(g, k)| && LeftRef(empty, g[k], AltsAt(g, k)[i].off, j);
    AltsRule(g, k, i);
    var p := RefPosition(g, empty, k, AltsAt(g, k)[i].off, j);
  }

  lemma NotInProgress(g: Rules, empty: set<nat>, k: nat, inProgress: set<nat>)
    requires !Cyclic(g, empty) && LeadTo(g, empty, inProgress, k)
    ensures k !in inProgress
  {
    assert !Reaches(g, empty, k, k);
  }

  /** Without a cycle no rule comes up twice, so there are boundedly many in a row. */
  lemma {:induction false} AcyclicIsDeep(g: Rules, empty: set<nat>, k: nat, inProgress: set<nat>)
    requires Wf(g) && !Cyclic(g, empty) && k < |g| && inProgress <= AllRules(|g|) && LeadTo(g, empty, inProgress, k)
    ensures Deep(g, empty, k, Open(g, inProgress))
    decreases Open(g, inProgress)
  {
    NotInProgress(g, empty, k, inProgress);
    Fewer(AllRules(|g|), inProgress, k);
    forall j | Left(g, empty, k, j) ensures Deep(g, empty, j, Open(g, inProgress) - 1) {
      LeftInRange(g, empty, k, j);
      LeadOn(g, empty, inProgress, k, j);
      AcyclicIsDeep(g, empty, j, inProgress + {k});
    }
  }

  lemma AcyclicIsUsable(g: Rules)
    requires Wf(g) && !Cyclic(g, Nullable(g))
    ensures Usable(g)
  {
    NullableClosed(g);
    forall k | 0 <= k < |g| ensures Bounded(g, Nullable(g), k) {
      AcyclicIsDeep(g, Nullable(g), k, {});
      DeepShallow(g, Nullable(g), k, Open(g, {}));
    }
    NoLeftRecursionIsUsable(g, Nullable(g));
  }

  // ---- a cycle ----

  lemma {:induction false} RestsAfter(m: Machine, s: Stack, t: Stack, n: nat, e: nat)
    requires Rests(m, s, n) && Enters(m, s, t, e)
    ensures e <= n && Rests(m, t, n - e)
    decreases e
  {
    if e > 0 {
      var j := FirstWay(m, s, t, e);
      assert RestsVia(m, s, j, n);
      RestsAfter(m, Way(m, s, j), t, n - 1, e - 1);
    }
  }

  lemma {:induction false} StartsIn(r: Rule, off: nat, i: nat) returns (k: nat)
    requires EndLast(r) && off <= i < |r| && (i == off || r[i - 1].ALT?)
    ensures k < |Alts(r, off)| && Alts(r, off)[k] == i
    decreases |r| - off
  {
    if i == off {
      k := 0;
    } else {
      var e := SkipAlt(r, off);
      SkipBefore(r, off, i - 1);
      k := StartsIn(r, e + 1, i);
      k := k + 1;
    }
  }

  lemma {:induction false} SkipBefore(r: Rule, off: nat, i: nat)
    requires EndLast(r) && off <= i < |r| && IsEnd(r[i])
    ensures SkipAlt(r, off) <= i
    decreases |r| - off
  {
    if !IsEnd(r[off]) { SkipBefore(r, off + 1, i); }
  }

  lemma EmptyAlternative(g: Rules, k: nat) returns (i: nat)
    requires Wf(g) && k in Direct(g)
    ensures k < |g| && i < |AltsAt(g, k)| && MachineOf(g).node(AltsAt(g, k)[i]).Done?
  {
    RuleEndLast(g, k);
    var r := g[k];
    var e :| 0 <= e < |r| && EmptyAt(r, e);
    i := StartsIn(r, 0, e);
  }

  ghost predicate Entering(m: Machine, s: Stack, j: nat) {
    s != [] && m.node(Top(s)).Sub? && m.node(Top(s)).rule == j
  }

  lemma {:induction false} EntersTrans(m: Machine, s: Stack, t: Stack, u: Stack, n: nat, n': nat)
    requires Enters(m, s, t, n) && Enters(m, t, u, n')
    ensures Enters(m, s, u, n + n')
    decreases n
  {
    if n > 0 {
      var j := FirstWay(m, s, t, n);
      EntersTrans(m, Way(m, s, j), t, u, n - 1, n');
      assert EntersVia(m, s, u, j, n + n');
    }
  }

  lemma WayInto(g: Rules, base: Stack, p: Pos, x: nat, i: nat)
    requires Wf(g) && GoodPos(g, p) && g[p.rule][p.off] == REF(x) && i < |AltsAt(g, x)|
    ensures var m := MachineOf(g); var s := Push(m, base, p);
      i < Ways(m, s) && Way(m, s, i) == Push(m, Push(m, base, Pos(p.rule, p.off + 1)), AltsAt(g, x)[i])
  {
    PushTop(MachineOf(g), base, p);
  }

  /** A rule that can be empty goes away. */
  lemma {:induction false} GoesAway(g: Rules, base: Stack, p: Pos, x: nat, n: nat) returns (e: nat)
    requires Wf(g) && GoodPos(g, p) && g[p.rule][p.off] == REF(x) && CanEnd(g, x, n)
    ensures Enters(MachineOf(g), Push(MachineOf(g), base, p), Push(MachineOf(g), base, Pos(p.rule, p.off + 1)), e)
    decreases n + 1, 0
  {
    var m := MachineOf(g);
    var s, t := Push(m, base, p), Push(m, base, Pos(p.rule, p.off + 1));
    var i :| 0 <= i < |AltsAt(g, x)| && EndsFrom(g, x, AltsAt(g, x)[i].off, n);
    AltsRule(g, x, i);
    e := GoesAwayFrom(g, t, x, AltsAt(g, x)[i].off, n);
    e := e + 1;
    WayInto(g, base, p, x, i);
    assert EntersVia(m, s, t, i, e);
  }

  lemma {:induction false} GoesAwayFrom(g: Rules, base: Stack, k: nat, off: nat, n: nat) returns (e: nat)
    requires Wf(g) && k < |g| && Good(g[k], |g|, off) && EndsFrom(g, k, off, n)
    ensures Enters(MachineOf(g), Push(MachineOf(g), base, Pos(k, off)), base, e)
    decreases n, |g[k]| - off
  {
    var m := MachineOf(g);
    if IsEnd(g[k][off]) {
      e := 0;
    } else {
      var e1 := GoesAway(g, base, Pos(k, off), g[k][off].rule, n - 1);
      var e2 := GoesAwayFrom(g, base, k, off + 1, n);
      EntersTrans(m, Push(m, base, Pos(k, off)), Push(m, base, Pos(k, off + 1)), base, e1, e2);
      e := e1 + e2;
    }
  }

  /** Past rules that are empty, the stack comes to the reference. */
  lemma {:induction false} WalkTo(g: Rules, empty: set<nat>, base: Stack, k: nat, off: nat, j: nat) returns (t: Stack, e: nat)
    requires Wf(g) && empty <= Nullable(g) && k < |g| && Good(g[k], |g|, off) && LeftRef(empty, g[k], off, j)
    ensures Enters(MachineOf(g), Push(MachineOf(g), base, Pos(k, off)), t, e) && Entering(MachineOf(g), t, j)
    decreases |g[k]| - off
  {
    var m := MachineOf(g);
    var s := Push(m, base, Pos(k, off));
    PushTop(m, base, Pos(k, off));
    var x := g[k][off].rule;
    if x == j {
      t, e := s, 0;
    } else {
      var e1 := GoesAway(g, base, Pos(k, off), x, VanishDepth(g, x));
      t, e := WalkTo(g, empty, base, k, off + 1, j);
      EntersTrans(m, s, Push(m, base, Pos(k, off + 1)), t, e1, e);
      e := e1 + e;
    }
  }

  lemma StepTo(g: Rules, empty: set<nat>, s: Stack, k: nat, j: nat) returns (t: Stack, e: nat)
    requires Wf(g) && empty <= Nullable(g) && k < |g| && Entering(MachineOf(g), s, k) && Left(g, empty, k, j)
    ensures e > 0 && Enters(MachineOf(g), s, t, e) && Entering(MachineOf(g), t, j)
  {
    var m := MachineOf(g);
    LeftIsAlts(g, empty, k, j);
    var i :| 0 <= i < |AltsAt(g, k)| && LeftRef(empty, g[k], AltsAt(g, k)[i].off, j);
    AltsRule(g, k, i);
    var base := Push(m, Base(s), m.node(Top(s)).next);
    t, e := WalkTo(g, empty, base, k, AltsAt(g, k)[i].off, j);
    e := e + 1;
    assert Way(m, s, i) == Push(m, base, AltsAt(g, k)[i]);
    assert EntersVia(m, s, t, i, e);
  }

  /** On the way round a cycle a stack never rests. */
  lemma {:induction false} NeverRests(g: Rules, empty: set<nat>, s: Stack, k: nat, j: nat, l: nat, c: nat, n: nat)
    requires Wf(g) && empty <= Nullable(g) && Entering(MachineOf(g), s, k) && Path(g, empty, k, j, l) && c > 0 && Path(g, empty, j, j, c)
    ensures !Rests(MachineOf(g), s, n)
    decreases n
  {
    if Rests(MachineOf(g), s, n) {
      var d := if l > 0 then l else c;
      var x :| Left(g, empty, k, x) && Path(g, empty, x, j, d - 1);
      var t, e := StepTo(g, empty, s, k, x);
      RestsAfter(MachineOf(g), s, t, n, e);
      NeverRests(g, empty, t, x, j, d - 1, c, n - e);
    }
  }

  lemma {:induction false} RefPosition(g: Rules, empty: set<nat>, k: nat, off: nat, j: nat) returns (p: Pos)
    requires Wf(g) && k < |g| && Good(g[k], |g|, off) && LeftRef(empty, g[k], off, j)
    ensures GoodPos(g, p) && g[p.rule][p.off] == REF(j)
    decreases |g[k]| - off
  {
    if g[k][off].rule == j { p := Pos(k, off); } else { p := RefPosition(g, empty, k, off + 1, j); }
  }

  /** A cycle is a stack that never settles. */
  lemma CyclicIsUnusable(g: Rules, empty: set<nat>)
    requires Wf(g) && empty <= Nullable(g) && Cyclic(g, empty)
    ensures !Usable(g)
  {
    var k: nat :| Reaches(g, empty, k, k);
    var c: nat :| c > 0 && Path(g, empty, k, k, c);
    var x :| Left(g, empty, k, x) && Path(g, empty, x, k, c - 1);
    var s := LeftStack(g, empty, k, x);
    forall n: nat ensures !Rests(MachineOf(g), s, n) { NeverRests(g, empty, s, x, k, c - 1, c, n); }
    assert !Settles(g, s);
  }

  lemma LeftStack(g: Rules, empty: set<nat>, k: nat, j: nat) returns (s: Stack)
    requires Wf(g) && Left(g, empty, k, j)
    ensures StackOk(g, s) && Entering(MachineOf(g), s, j)
  {
    LeftIsAlts(g, empty, k, j);
    var i :| 0 <= i < |AltsAt(g, k)| && LeftRef(empty, g[k], AltsAt(g, k)[i].off, j);
    AltsRule(g, k, i);
    var p := RefPosition(g, empty, k, AltsAt(g, k)[i].off, j);
    s := [p];
  }

  lemma {:induction false} DeepHasNoCycle(g: Rules, empty: set<nat>, k: nat, j: nat, l: nat, c: nat, n: nat)
    requires Path(g, empty, k, j, l) && c > 0 && Path(g, empty, j, j, c)
    ensures !Deep(g, empty, k, n)
    decreases n
  {
    if Deep(g, empty, k, n) {
      var d := if l > 0 then l else c;
      var x :| Left(g, empty, k, x) && Path(g, empty, x, j, d - 1);
      DeepHasNoCycle(g, empty, x, j, d - 1, c, n - 1);
    }
  }

  lemma NoCycle(g: Rules, empty: set<nat>)
    requires forall k :: 0 <= k < |g| ==> Bottoms(g, empty, k)
    ensures !Cyclic(g, empty)
  {
    if Cyclic(g, empty) {
      var k: nat :| Reaches(g, empty, k, k);
      var c: nat :| c > 0 && Path(g, empty, k, k, c);
      assert Bottoms(g, empty, k);
      var n: nat :| Deep(g, empty, k, n);
      DeepHasNoCycle(g, empty, k, k, c, c, n);
    }
  }

  /** Entering rules comes to an end on every stack exactly if no rule leads back to itself without reading. */
  lemma UsableIffAcyclic(g: Rules)
    requires Wf(g)
    ensures Usable(g) <==> !Cyclic(g, Nullable(g))
  {
    if Cyclic(g, Nullable(g)) { CyclicIsUnusable(g, Nullable(g)); } else { AcyclicIsUsable(g); }
  }

  /** The check over all rules. It finds a cycle exactly if there is one past directly empty rules. A refused grammar is
      never usable. The verdict is right exactly if a cycle past empty rules is only there with one past directly empty
      ones; so it is if every rule that can be empty is so directly. */
  method HasLeftRecursion(g: Rules) returns (found: bool)
    requires Wf(g)
    ensures found <==> Cyclic(g, Direct(g))
    ensures found ==> !Usable(g)
    ensures (found <==> !Usable(g)) <==> (Cyclic(g, Nullable(g)) ==> Cyclic(g, Direct(g)))
    ensures EmptyIsDirect(g) ==> (found <==> !Usable(g))
  {
    found := SearchAll(g);
    Verdict(g);
  }

  lemma Verdict(g: Rules)
    requires Wf(g)
    ensures Cyclic(g, Direct(g)) ==> Cyclic(g, Nullable(g))
    ensures Usable(g) <==> !Cyclic(g, Nullable(g))
    ensures EmptyIsDirect(g) ==> Direct(g) == Nullable(g)
  {
    DirectIsNullable(g);
    UsableIffAcyclic(g);
    if Cyclic(g, Direct(g)) { CyclicIsUnusable(g, Direct(g)); }
  }

  method SearchAll(g: Rules) returns (found: bool)
    requires Wf(g)
    ensures found <==> Cyclic(g, Direct(g))
  {
    found := false;
    var m := Marks({}, {});
    for k := 0 to |g|
      invariant Sound(g, m) && !found && forall i :: 0 <= i < k ==> i in m.visited
    {
      if k !in m.visited {
        found, m := Detect(g, k, {}, m);
        if found { return; }
      }
    }
    NoCycle(g, Direct(g));
  }

  // ---- two grammars ----

  /** s ::= a s "x" | "y", a ::= b, b ::= nothing: a can be empty, but only through b. */
  const HIDDEN: Rules := [[REF(1), REF(0), CHAR(120), ALT, CHAR(121), END], [REF(2), END], [END]]

  lemma HiddenAlts()
    ensures AltsAt(HIDDEN, 0) == [Pos(0, 0), Pos(0, 4)] && AltsAt(HIDDEN, 1) == [Pos(1, 0)] && AltsAt(HIDDEN, 2) == [Pos(2, 0)]
  {
    var r := HIDDEN[0];
    assert SkipAlt(r, 3) == 3 && SkipAlt(r, 2) == 3 && SkipAlt(r, 1) == 3 && SkipAlt(r, 0) == 3;
    assert SkipAlt(r, 5) == 5 && SkipAlt(r, 4) == 5;
    assert Alts(r, 4) == [4] && Alts(r, 0) == [0, 4];
    assert SkipAlt(HIDDEN[1], 1) == 1 && Alts(HIDDEN[1], 0) == [0];
    assert Alts(HIDDEN[2], 0) == [0];
  }

  /** Entering a, then b, which is empty, then s again. */
  lemma HiddenRound(base: Stack)
    ensures Enters(MachineOf(HIDDEN), base + [Pos(0, 0)], base + [Pos(0, 2)] + [Pos(0, 0)], 3)
  {
    var m := MachineOf(HIDDEN);
    HiddenAlts();
    var s0, s1, s2, s3 := base + [Pos(0, 0)], base + [Pos(0, 1)] + [Pos(1, 0)], base + [Pos(0, 1)], base + [Pos(0, 2)] + [Pos(0, 0)];
    assert Way(m, s0, 0) == s1;
    assert Way(m, s1, 0) == s2;
    assert Way(m, s2, 0) == s3;
    assert EntersVia(m, s2, s3, 0, 1);
    assert EntersVia(m, s1, s3, 0, 2);
    assert EntersVia(m, s0, s3, 0, 3);
  }

  lemma {:induction false} HiddenNeverRests(base: Stack, n: nat)
    ensures !Rests(MachineOf(HIDDEN), base + [Pos(0, 0)], n)
    decreases n
  {
    if Rests(MachineOf(HIDDEN), base + [Pos(0, 0)], n) {
      HiddenRound(base);
      RestsAfter(MachineOf(HIDDEN), base + [Pos(0, 0)], base + [Pos(0, 2)] + [Pos(0, 0)], n, 3);
      HiddenNeverRests(base + [Pos(0, 2)], n - 3);
    }
  }

  /** The check passes a grammar on which entering rules never ends: the condition that empty rules be so directly is
      needed. */
  lemma HiddenRecursionPasses()
    ensures Wf(HIDDEN) && !Cyclic(HIDDEN, Direct(HIDDEN)) && !Usable(HIDDEN) && !EmptyIsDirect(HIDDEN)
  {
    var g := HIDDEN;
    assert Good(g[0], 3, 5) && Good(g[0], 3, 4) && Good(g[0], 3, 3) && Good(g[0], 3, 2) && Good(g[0], 3, 1) && Good(g[0], 3, 0);
    assert Good(g[1], 3, 1) && Good(g[2], 3, 0);
    HiddenIsAcyclic();
    var s := [Pos(0, 0)];
    forall n: nat ensures !Rests(MachineOf(g), s, n) {
      HiddenNeverRests([], n);
      assert [] + [Pos(0, 0)] == s;
    }
    assert !Settles(g, s);
    HiddenAlts();
    assert EmptyAt(g[2], 0) && !EmptyAt(g[1], 0) && !EmptyAt(g[1], 1);
    assert !Ends(g, Direct(g), 1, 1);
    assert !Ends(g, Direct(g), 1, AltsAt(g, 1)[0].off);
  }

  lemma HiddenIsAcyclic()
    ensures !Cyclic(HIDDEN, Direct(HIDDEN))
  {
    var g := HIDDEN;
    assert !EmptyAt(g[1], 0) && !EmptyAt(g[1], 1) && 1 !in Direct(g);
    forall j | Left(g, Direct(g), 2, j) ensures false {}
    assert Deep(g, Direct(g), 2, 0);
    forall j | Left(g, Direct(g), 1, j) ensures j == 2 { assert !Meets(Direct(g), g[1], 1, false, j); }
    assert Deep(g, Direct(g), 1, 1);
    forall j | Left(g, Direct(g), 0, j) ensures j == 1 {
      assert !Meets(Direct(g), g[0], 5, false, j) && !Meets(Direct(g), g[0], 4, true, j) && !Meets(Direct(g), g[0], 3, false, j);
      assert !Meets(Direct(g), g[0], 2, false, j) && !Meets(Direct(g), g[0], 1, false, j);
    }
    assert Deep(g, Direct(g), 0, 2);
    assert Bottoms(g, Direct(g), 0) && Bottoms(g, Direct(g), 1) && Bottoms(g, Direct(g), 2);
    NoCycle(g, Direct(g));
  }

  /** s ::= "(" s ")" s | nothing. */
  const PARENS: Rules := [[CHAR(40), REF(0), CHAR(41), REF(0), ALT, END]]

  /** A recursive grammar the engine can use. */
  lemma ParensUsable()
    ensures Wf(PARENS) && Usable(PARENS)
  {
    var g, r := PARENS, PARENS[0];
    assert Good(r, 1, 5) && Good(r, 1, 4) && Good(r, 1, 3) && Good(r, 1, 2) && Good(r, 1, 1) && Good(r, 1, 0);
    assert SkipAlt(r, 4) == 4 && SkipAlt(r, 3) == 4 && SkipAlt(r, 2) == 4 && SkipAlt(r, 1) == 4 && SkipAlt(r, 0) == 4;
    assert Alts(r, 5) == [5] && Alts(r, 0) == [0, 5];
    assert AltsAt(g, 0) == [Pos(0, 0), Pos(0, 5)];
    assert Shallow(g, {0}, 0, 0);
    assert Bounded(g, {0}, 0);
    NoLeftRecursionIsUsable(g, {0});
  }
}
