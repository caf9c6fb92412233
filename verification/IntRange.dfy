/** Integer bounds compiled to a grammar expression. */
module IntRange {

  // ---- expressions as written: items in sequence, sequences as alternatives, a group in parentheses ----

  datatype Item = Lit(text: string) | Range(lo: char, hi: char) | Digits(least: nat, most: nat) | Group(alts: seq<Seq>)
  datatype Seq = One(item: Item) | Then(item: Item, rest: Seq)

  predicate IsDigit(c: char) { '0' <= c <= '9' }
  predicate AllDigits(s: string) { forall i :: 0 <= i < |s| ==> IsDigit(s[i]) }

  ghost predicate MatchItem(it: Item, s: string) {
    match it
    case Lit(text) => s == text
    case Range(lo, hi) => |s| == 1 && lo <= s[0] <= hi
    case Digits(least, most) => least <= |s| <= most && AllDigits(s)
    case Group(alts) => exists i :: 0 <= i < |alts| && MatchSeq(alts[i], s)
  }

  ghost predicate MatchSeq(q: Seq, s: string) {
    match q
    case One(it) => MatchItem(it, s)
    case Then(it, rest) => exists i :: 0 <= i <= |s| && MatchItem(it, s[..i]) && MatchSeq(rest, s[i..])
  }

  ghost predicate MatchAny(alts: seq<Seq>, s: string) {
    exists i :: 0 <= i < |alts| && MatchSeq(alts[i], s)
  }

  /** After an item of fixed length k, the sequence goes on at k. */
  lemma ThenAt(it: Item, rest: Seq, s: string, k: nat)
    requires forall u :: MatchItem(it, u) ==> |u| == k
    ensures MatchSeq(Then(it, rest), s) <==> k <= |s| && MatchItem(it, s[..k]) && MatchSeq(rest, s[k..])
  {
    if MatchSeq(Then(it, rest), s) {
      var i :| 0 <= i <= |s| && MatchItem(it, s[..i]) && MatchSeq(rest, s[i..]);
      assert |s[..i]| == k;
    }
  }

  lemma AnyMore(alts: seq<Seq>, q: Seq, s: string)
    ensures MatchAny(alts + [q], s) <==> MatchAny(alts, s) || MatchSeq(q, s)
  {
    if MatchAny(alts, s) {
      var i :| 0 <= i < |alts| && MatchSeq(alts[i], s);
      assert (alts + [q])[i] == alts[i];
    }
    if MatchSeq(q, s) { assert (alts + [q])[|alts|] == q; }
  }

  // ---- digit strings ----

  /** Order of digit strings of equal length. */
  predicate Le(a: string, b: string)
    requires |a| == |b|
  {
    a == [] || a[0] < b[0] || (a[0] == b[0] && Le(a[1..], b[1..]))
  }

  function Fill(c: char, n: nat): (s: string)
    ensures |s| == n && forall i :: 0 <= i < n ==> s[i] == c
  {
    if n == 0 then "" else [c] + Fill(c, n - 1)
  }

  lemma {:induction false} LeEnds(s: string)
    requires AllDigits(s)
    ensures Le(Fill('0', |s|), s) && Le(s, Fill('9', |s|))
  {
    if s != [] {
      LeEnds(s[1..]);
      assert Fill('0', |s|)[1..] == Fill('0', |s| - 1) && Fill('9', |s|)[1..] == Fill('9', |s| - 1);
    }
  }

  predicate Between(from: string, to: string, s: string)
    requires |from| == |to|
  {
    |s| == |from| && AllDigits(s) && Le(from, s) && Le(s, to)
  }

  /** The bounds share their first k digits: so does everything between them. */
  lemma {:induction false} CommonPrefix(from: string, to: string, k: nat, s: string)
    requires |from| == |to| && k <= |from| && AllDigits(from) && from[..k] == to[..k]
    ensures Between(from, to, s) <==> k <= |s| && s[..k] == from[..k] && Between(from[k..], to[k..], s[k..])
    decreases k
  {
    if k == 0 {
      assert from[0..] == from && to[0..] == to && s[0..] == s;
    } else {
      assert from[..k][0] == from[0] && to[..k][0] == to[0];
      if |s| == |from| {
        assert from[1..][..k - 1] == from[..k][1..] && to[1..][..k - 1] == to[..k][1..];
        CommonPrefix(from[1..], to[1..], k - 1, s[1..]);
        assert from[1..][k - 1..] == from[k..] && to[1..][k - 1..] == to[k..] && s[1..][k - 1..] == s[k..];
        assert s[1..][..k - 1] == s[..k][1..];
        FirstAndRest(s, from, k);
        DigitsCons(s);
      }
    }
  }

  lemma DigitsCons(s: string)
    requires s != []
    ensures AllDigits(s) <==> IsDigit(s[0]) && AllDigits(s[1..])
  {
    if IsDigit(s[0]) && AllDigits(s[1..]) {
      forall i | 0 <= i < |s| ensures IsDigit(s[i]) { if i > 0 { assert s[i] == s[1..][i - 1]; } }
    }
  }

  lemma FirstAndRest(s: string, t: string, k: nat)
    requires 0 < k <= |s| && k <= |t|
    ensures s[..k] == t[..k] <==> s[0] == t[0] && s[..k][1..] == t[..k][1..]
  {
    assert s[..k] == [s[0]] + s[..k][1..] && t[..k] == [t[0]] + t[..k][1..];
  }

  // ---- uniform_range ----

  /** The digit strings between two of equal length. */
  method UniformRange(from: string, to: string) returns (q: Seq)
    requires |from| == |to| > 0 && AllDigits(from) && AllDigits(to) && Le(from, to)
    ensures forall s :: MatchSeq(q, s) <==> Between(from, to, s)
    decreases |from|, 2
  {
    var i := 0;
    while i < |from| && from[i] == to[i]
      invariant i <= |from| && from[..i] == to[..i]
    {
      i := i + 1;
    }
    forall s ensures Between(from, to, s) <==> i <= |s| && s[..i] == from[..i] && Between(from[i..], to[i..], s[i..]) {
      CommonPrefix(from, to, i, s);
    }
    if i == |from| {
      q := One(Lit(from));
      assert forall s: string :: |s| == i ==> s[..i] == s;
      assert from[..i] == from;
    } else {
      RestOk(from, to, i);
      var it := SplitDigit(from[i..], to[i..]);
      if i > 0 {
        q := Then(Lit(from[..i]), One(it));
        forall s ensures MatchSeq(q, s) <==> Between(from, to, s) { ThenAt(Lit(from[..i]), One(it), s, i); }
      } else {
        q := One(it);
        assert from[0..] == from && to[0..] == to;
      }
    }
  }

  lemma {:induction false} RestOk(from: string, to: string, i: nat)
    requires |from| == |to| && i < |from| && from[..i] == to[..i] && AllDigits(from) && AllDigits(to) && Le(from, to)
    ensures AllDigits(from[i..]) && AllDigits(to[i..]) && Le(from[i..], to[i..])
    decreases i
  {
    if i > 0 {
      assert from[..i][0] == from[0] && to[..i][0] == to[0];
      assert from[1..][..i - 1] == from[..i][1..] && to[1..][..i - 1] == to[..i][1..];
      DigitsCons(from);
      DigitsCons(to);
      RestOk(from[1..], to[1..], i - 1);
      assert from[1..][i - 1..] == from[i..] && to[1..][i - 1..] == to[i..];
    }
  }

  function Down(c: char): (d: char)
    requires IsDigit(c)
  {
    (c as int - 1) as char
  }

  function Up(c: char): (d: char)
    requires IsDigit(c)
  {
    (c as int + 1) as char
  }

  /** The digit strings that start with a digit from lo to hi and go on as told. */
  ghost predicate Part(q: Seq, n: nat, lo: char, hi: char, from: string, to: string)
    requires |from| == |to| == n
  {
    forall s :: MatchSeq(q, s) <==> |s| == n + 1 && lo <= s[0] <= hi && Between(from, to, s[1..])
  }

  lemma PartIs(q: Seq, n: nat, lo: char, hi: char, from: string, to: string, rest: Seq)
    requires |from| == |to| == n && q == Then(Range(lo, hi), rest) && forall t :: MatchSeq(rest, t) <==> Between(from, to, t)
    ensures Part(q, n, lo, hi, from, to)
  {
    forall s ensures MatchSeq(q, s) <==> |s| == n + 1 && lo <= s[0] <= hi && Between(from, to, s[1..]) {
      ThenAt(Range(lo, hi), rest, s, 1);
    }
  }

  lemma AnyDigits(n: nat)
    ensures forall t :: MatchSeq(One(Digits(n, n)), t) <==> Between(Fill('0', n), Fill('9', n), t)
  {
    forall t ensures MatchSeq(One(Digits(n, n)), t) <==> Between(Fill('0', n), Fill('9', n), t) {
      if |t| == n && AllDigits(t) { LeEnds(t); }
    }
  }

  lemma Grouped(q: Seq)
    ensures forall t :: MatchSeq(One(Group([q])), t) <==> MatchSeq(q, t)
  {
    assert [q][0] == q;
  }

  /** Bounds that differ in their first digit. */
  method SplitDigit(a: string, b: string) returns (it: Item)
    requires |a| == |b| > 0 && AllDigits(a) && AllDigits(b) && a[0] < b[0]
    ensures forall s :: MatchItem(it, s) <==> Between(a, b, s)
    decreases |a|, 1
  {
    if |a| == 1 {
      it := Range(a[0], b[0]);
      OneDigit(a, b);
    } else {
      var alts, reached := LowerParts(a, b);
      if !reached {
        var last := LastPart(b);
        BothParts(a, b, alts, last);
        alts := alts + [last];
      } else {
        OnePart(a, b, alts);
      }
      it := Group(alts);
    }
  }

  /** Everything that starts with the bound's first digit, up to the bound. */
  method LastPart(b: string) returns (last: Seq)
    requires |b| > 1 && AllDigits(b)
    ensures Part(last, |b| - 1, b[0], b[0], Fill('0', |b| - 1), b[1..])
    decreases |b|, 0
  {
    DigitsCons(b);
    LeEnds(b[1..]);
    var q := UniformRange(Fill('0', |b| - 1), b[1..]);
    last := Then(Range(b[0], b[0]), q);
    PartIs(last, |b| - 1, b[0], b[0], Fill('0', |b| - 1), b[1..], q);
  }

  /** Everything that starts below the upper bound's first digit, and all the rest too where reached. */
  method LowerParts(a: string, b: string) returns (alts: seq<Seq>, reached: bool)
    requires |a| == |b| > 1 && AllDigits(a) && AllDigits(b) && a[0] < b[0]
    ensures forall s :: MatchAny(alts, s) <==> Lower(a, b, s) || (reached && Upper(a, b, s))
    decreases |a|, 0
  {
    var n := |a| - 1;
    DigitsCons(a);
    LeEnds(a[1..]);
    AnyDigits(n);
    reached := false;
    var digits := One(Digits(n, n));
    if a[1..] == Fill('0', n) {
      var q := Then(Range(a[0], Down(b[0])), digits);
      PartIs(q, n, a[0], Down(b[0]), Fill('0', n), Fill('9', n), digits);
      forall s ensures MatchAny([q], s) <==> Lower(a, b, s) { LowAll(a, b, q, s); }
      alts := [q];
    } else {
      var q := UniformRange(a[1..], Fill('9', n));
      Grouped(q);
      var low := Then(Range(a[0], a[0]), One(Group([q])));
      PartIs(low, n, a[0], a[0], a[1..], Fill('9', n), One(Group([q])));
      alts := [low];
      if a[0] < Down(b[0]) {
        reached := b[1..] == Fill('9', n);
        var top := if reached then b[0] else Down(b[0]);
        var mid := Then(Range(Up(a[0]), top), digits);
        PartIs(mid, n, Up(a[0]), top, Fill('0', n), Fill('9', n), digits);
        alts := [low, mid];
        forall s ensures MatchAny(alts, s) <==> Lower(a, b, s) || (reached && Upper(a, b, s)) {
          LowTwo(a, b, low, mid, reached, s);
        }
      } else {
        forall s ensures MatchAny(alts, s) <==> Lower(a, b, s) { LowOne(a, b, low, s); }
      }
    }
  }

  lemma LowAll(a: string, b: string, q: Seq, s: string)
    requires |a| == |b| > 1 && AllDigits(a) && AllDigits(b) && a[0] < b[0] && a[1..] == Fill('0', |a| - 1)
    requires Part(q, |a| - 1, a[0], Down(b[0]), Fill('0', |a| - 1), Fill('9', |a| - 1))
    ensures MatchAny([q], s) <==> Lower(a, b, s)
  {
    assert [q][0] == q;
    Tails(a, s);
  }

  lemma LowOne(a: string, b: string, low: Seq, s: string)
    requires |a| == |b| > 1 && AllDigits(a) && AllDigits(b) && a[0] < b[0] && a[0] >= Down(b[0])
    requires Part(low, |a| - 1, a[0], a[0], a[1..], Fill('9', |a| - 1))
    ensures MatchAny([low], s) <==> Lower(a, b, s)
  {
    assert [low][0] == low;
    Tails(a, s);
  }

  lemma LowTwo(a: string, b: string, low: Seq, mid: Seq, reached: bool, s: string)
    requires |a| == |b| > 1 && AllDigits(a) && AllDigits(b) && a[0] < Down(b[0])
    requires Part(low, |a| - 1, a[0], a[0], a[1..], Fill('9', |a| - 1))
    requires Part(mid, |a| - 1, Up(a[0]), if reached then b[0] else Down(b[0]), Fill('0', |a| - 1), Fill('9', |a| - 1))
    requires reached ==> b[1..] == Fill('9', |a| - 1)
    ensures MatchAny([low, mid], s) <==> Lower(a, b, s) || (reached && Upper(a, b, s))
  {
    assert [low, mid][0] == low && [low, mid][1] == mid;
    Tails(a, s);
  }

  lemma UpperIs(a: string, b: string, last: Seq, s: string)
    requires |a| == |b| > 1 && AllDigits(b) && Part(last, |a| - 1, b[0], b[0], Fill('0', |a| - 1), b[1..])
    ensures MatchSeq(last, s) <==> Upper(a, b, s)
  {
    Tails(b, s);
  }

  lemma BothParts(a: string, b: string, alts: seq<Seq>, last: Seq)
    requires |a| == |b| > 1 && AllDigits(a) && AllDigits(b) && a[0] < b[0]
    requires Part(last, |a| - 1, b[0], b[0], Fill('0', |a| - 1), b[1..]) && forall s :: MatchAny(alts, s) <==> Lower(a, b, s)
    ensures forall s :: MatchItem(Group(alts + [last]), s) <==> Between(a, b, s)
  {
    forall s ensures MatchItem(Group(alts + [last]), s) <==> Between(a, b, s) {
      assert MatchItem(Group(alts + [last]), s) <==> MatchAny(alts + [last], s);
      AnyMore(alts, last, s);
      UpperIs(a, b, last, s);
      FirstDigit(a, b, s);
    }
  }

  lemma OnePart(a: string, b: string, alts: seq<Seq>)
    requires |a| == |b| > 1 && AllDigits(a) && AllDigits(b) && a[0] < b[0]
    requires forall s :: MatchAny(alts, s) <==> Lower(a, b, s) || Upper(a, b, s)
    ensures forall s :: MatchItem(Group(alts), s) <==> Between(a, b, s)
  {
    forall s ensures MatchItem(Group(alts), s) <==> Between(a, b, s) {
      assert MatchItem(Group(alts), s) <==> MatchAny(alts, s);
      FirstDigit(a, b, s);
    }
  }

  lemma Tails(a: string, s: string)
    requires |a| > 0
    ensures |s| == |a| ==> (AllDigits(s) <==> IsDigit(s[0]) && AllDigits(s[1..]))
    ensures |s| == |a| && AllDigits(s[1..]) ==> Between(Fill('0', |a| - 1), Fill('9', |a| - 1), s[1..])
  {
    if |s| == |a| {
      DigitsCons(s);
      if AllDigits(s[1..]) { LeEnds(s[1..]); }
    }
  }

  lemma OneDigit(a: string, b: string)
    requires |a| == |b| == 1 && AllDigits(a) && AllDigits(b) && a[0] < b[0]
    ensures forall s :: MatchItem(Range(a[0], b[0]), s) <==> Between(a, b, s)
  {
    forall s ensures MatchItem(Range(a[0], b[0]), s) <==> Between(a, b, s) {
      if |s| == 1 {
        assert a[1..] == [] && s[1..] == [] && b[1..] == [];
        assert Le(a[1..], s[1..]) && Le(s[1..], b[1..]);
      }
    }
  }

  /** Where a string lies between the bounds, by its first digit. */
  lemma FirstDigit(a: string, b: string, s: string)
    requires |a| == |b| > 0 && a[0] < b[0] && AllDigits(a) && AllDigits(b)
    ensures Between(a, b, s) <==> Lower(a, b, s) || Upper(a, b, s)
  {
    if |s| == |a| {
      DigitsCons(s);
      DigitsCons(a);
      DigitsCons(b);
      if AllDigits(s[1..]) { LeEnds(s[1..]); }
    }
  }

  ghost predicate Lower(a: string, b: string, s: string)
    requires |a| == |b| > 0
  {
    |s| == |a| && AllDigits(s) && s[0] < b[0] && (a[0] < s[0] || (a[0] == s[0] && Le(a[1..], s[1..])))
  }

  ghost predicate Upper(a: string, b: string, s: string)
    requires |a| == |b| > 0
  {
    |s| == |a| && AllDigits(s) && s[0] == b[0] && Le(s[1..], b[1..])
  }

  // ---- numerals ----

  function DigitOf(d: nat): (c: char)
    requires d < 10
    ensures IsDigit(c)
  {
    ('0' as int + d) as char
  }

  function Digit(c: char): (d: nat)
    requires IsDigit(c)
    ensures d < 10
  {
    c as int - '0' as int
  }

  function Val(s: string): (v: nat)
    requires AllDigits(s)
  {
    if s == [] then 0 else 10 * Val(s[..|s| - 1]) + Digit(s[|s| - 1])
  }

  function Pow10(n: nat): (p: nat)
    ensures p > 0
  {
    if n == 0 then 1 else 10 * Pow10(n - 1)
  }

  /** A numeral without leading zeros. */
  predicate Canonical(s: string) {
    AllDigits(s) && |s| > 0 && (|s| > 1 ==> s[0] != '0')
  }

  /** to_string of a value that is not negative. */
  function Numeral(v: nat): (s: string)
    ensures Canonical(s) && Val(s) == v
  {
    if v < 10 then [DigitOf(v)]
    else
      var t := Numeral(v / 10);
      assert (t + [DigitOf(v % 10)])[..|t|] == t;
      t + [DigitOf(v % 10)]
  }

  lemma {:induction false} ValBelow(s: string)
    requires AllDigits(s)
    ensures Val(s) < Pow10(|s|)
  {
    if s != [] { ValBelow(s[..|s| - 1]); }
  }

  lemma {:induction false} ValFrom(s: string)
    requires Canonical(s) && s[0] != '0'
    ensures Pow10(|s| - 1) <= Val(s)
  {
    if |s| > 1 { ValFrom(s[..|s| - 1]); }
  }

  lemma {:induction false} PowGrows(n: nat, k: nat)
    requires n <= k
    ensures Pow10(n) <= Pow10(k)
    decreases k
  {
    if n < k { PowGrows(n, k - 1); }
  }

  /** A shorter numeral is a smaller one. */
  lemma ShorterIsLess(s: string, t: string)
    requires Canonical(s) && Canonical(t) && |s| < |t|
    ensures Val(s) < Val(t)
  {
    ValBelow(s);
    ValFrom(t);
    PowGrows(|s|, |t| - 1);
  }

  lemma {:induction false} LeSnoc(a: string, b: string, c: char, d: char)
    requires |a| == |b|
    ensures Le(a + [c], b + [d]) <==> (Le(a, b) && a != b) || (a == b && c <= d)
  {
    if a == [] {
      assert (a + [c])[1..] == [] && (b + [d])[1..] == [];
      assert Le((a + [c])[1..], (b + [d])[1..]);
    } else {
      assert (a + [c])[1..] == a[1..] + [c] && (b + [d])[1..] == b[1..] + [d];
      LeSnoc(a[1..], b[1..], c, d);
      assert a == [a[0]] + a[1..] && b == [b[0]] + b[1..];
    }
  }

  lemma ValSnoc(a: string)
    requires a != [] && AllDigits(a)
    ensures var t, c := a[..|a| - 1], a[|a| - 1]; a == t + [c] && AllDigits(t) && IsDigit(c) && Val(a) == 10 * Val(t) + Digit(c)
  {
  }

  lemma SameDigits(x: nat, c: char, y: nat, d: char)
    requires IsDigit(c) && IsDigit(d) && 10 * x + Digit(c) == 10 * y + Digit(d)
    ensures x == y && c == d
  {
  }

  lemma {:induction false} SameVal(a: string, b: string)
    requires |a| == |b| && AllDigits(a) && AllDigits(b) && Val(a) == Val(b)
    ensures a == b
  {
    if a != [] {
      ValSnoc(a);
      ValSnoc(b);
      SameDigits(Val(a[..|a| - 1]), a[|a| - 1], Val(b[..|b| - 1]), b[|b| - 1]);
      SameVal(a[..|a| - 1], b[..|b| - 1]);
    }
  }

  /** At equal length the order of digit strings is the order of values. */
  lemma {:induction false} LeIsVal(a: string, b: string)
    requires |a| == |b| && AllDigits(a) && AllDigits(b)
    ensures Le(a, b) <==> Val(a) <= Val(b)
  {
    if a != [] {
      var a', b' := a[..|a| - 1], b[..|b| - 1];
      LeIsVal(a', b');
      LeSnoc(a', b', a[|a| - 1], b[|b| - 1]);
      assert a == a' + [a[|a| - 1]] && b == b' + [b[|b| - 1]];
      if Val(a') == Val(b') { SameVal(a', b'); }
    }
  }

  // ---- build_min_max_int with both bounds ----

  const INT64_MIN := -0x8000_0000_0000_0000
  const INT64_MAX := 0x7fff_ffff_ffff_ffff

  /** s is a numeral for a value in the range, where negative numerals have a minus sign and "-0" is let through as long
      as negative values are. */
  ghost predicate InRange(min: int, max: int, s: string) {
    || (Canonical(s) && min <= Val(s) <= max)
    || (min < 0 && |s| > 1 && s[0] == '-' && Canonical(s[1..]) && -max <= Val(s[1..]) <= -min)
  }

  ghost predicate Covers(alts: seq<Seq>, min: int, max: int) {
    forall s :: MatchAny(alts, s) <==> InRange(min, max, s)
  }

  /** So far: the numerals of at least min with fewer than d digits. */
  ghost predicate Emitted(alts: seq<Seq>, min: nat, d: nat) {
    forall s :: MatchAny(alts, s) <==> Canonical(s) && min <= Val(s) && |s| < d
  }

  /** The smallest numeral of d digits that is at least min. */
  ghost predicate LowEnd(t: string, min: nat, d: nat) {
    |t| == d && Canonical(t) && forall s :: Canonical(s) && |s| == d ==> (min <= Val(s) <==> Val(t) <= Val(s))
  }

  lemma {:induction false} ZerosVal(d: nat)
    ensures AllDigits("1" + Fill('0', d)) && Val("1" + Fill('0', d)) == Pow10(d)
  {
    if d == 0 {
      assert "1" + Fill('0', 0) == "1" && "1"[..0] == [];
      assert Val("1"[..0]) == 0;
    } else {
      ZerosVal(d - 1);
      var t := "1" + Fill('0', d);
      assert t[..|t| - 1] == "1" + Fill('0', d - 1);
      assert t[|t| - 1] == '0';
    }
  }

  lemma NextLowEnd(t: string, min: nat, d: nat)
    requires LowEnd(t, min, d)
    ensures LowEnd("1" + Fill('0', d), min, d + 1)
  {
    ZerosVal(d);
    forall s | Canonical(s) && |s| == d + 1 ensures min <= Val(s) && Pow10(d) <= Val(s) {
      ValFrom(s);
      ValBelow(t);
      assert min <= Val(t);
    }
  }

  lemma StillCanonical(t: string, to: string, s: string)
    requires Canonical(t) && |to| == |t| && Between(t, to, s)
    ensures Canonical(s)
  {
  }

  lemma EmitMore(alts: seq<Seq>, min: nat, d: nat, t: string, q: Seq)
    requires Emitted(alts, min, d) && LowEnd(t, min, d) && forall s :: MatchSeq(q, s) <==> Between(t, Fill('9', d), s)
    ensures Emitted(alts + [q], min, d + 1)
  {
    forall s ensures MatchAny(alts + [q], s) <==> Canonical(s) && min <= Val(s) && |s| < d + 1 {
      AnyMore(alts, q, s);
      if |s| == d && AllDigits(s) {
        LeEnds(s);
        LeIsVal(t, s);
        if Between(t, Fill('9', d), s) { StillCanonical(t, Fill('9', d), s); }
      }
    }
  }

  lemma EmitLast(alts: seq<Seq>, min: nat, max: nat, t: string, q: Seq)
    requires var d := |Numeral(max)|; Emitted(alts, min, d) && LowEnd(t, min, d)
    requires |t| == |Numeral(max)| && forall s :: MatchSeq(q, s) <==> Between(t, Numeral(max), s)
    ensures Covers(alts + [q], min, max)
  {
    var top := Numeral(max);
    forall s ensures MatchAny(alts + [q], s) <==> InRange(min, max, s) {
      AnyMore(alts, q, s);
      if |s| == |top| && AllDigits(s) {
        LeIsVal(t, s);
        LeIsVal(s, top);
        if Between(t, top, s) { StillCanonical(t, top, s); }
      } else if Canonical(s) {
        if |s| < |top| { ShorterIsLess(s, top); } else { ShorterIsLess(top, s); }
      }
    }
  }

  lemma FirstLowEnd(min: nat)
    ensures LowEnd(Numeral(min), min, |Numeral(min)|) && Emitted([], min, |Numeral(min)|)
  {
    var t := Numeral(min);
    forall s ensures !(Canonical(s) && min <= Val(s) && |s| < |t|) {
      if Canonical(s) && |s| < |t| { ShorterIsLess(s, t); }
    }
  }

  /** The loop over the digit counts. */
  method NotNegative(min: nat, max: nat) returns (alts: seq<Seq>)
    requires min <= max
    ensures Covers(alts, min, max)
  {
    var minS, maxS := Numeral(min), Numeral(max);
    FirstLowEnd(min);
    if |maxS| < |minS| { ShorterIsLess(maxS, minS); }
    alts := [];
    for digits := |minS| to |maxS|
      invariant LowEnd(minS, min, digits) && Emitted(alts, min, digits)
    {
      LeEnds(minS);
      var q := UniformRange(minS, Fill('9', digits));
      EmitMore(alts, min, digits, minS, q);
      alts := alts + [q];
      NextLowEnd(minS, min, digits);
      minS := "1" + Fill('0', digits);
    }
    LeIsVal(minS, maxS);
    var q := UniformRange(minS, maxS);
    EmitLast(alts, min, max, minS, q);
    alts := alts + [q];
  }

  lemma Signed(alts: seq<Seq>, lo: nat, hi: nat, s: string)
    requires Covers(alts, lo, hi)
    ensures MatchSeq(Then(Lit("-"), One(Group(alts))), s) <==> |s| > 1 && s[0] == '-' && Canonical(s[1..]) && lo <= Val(s[1..]) <= hi
  {
    ThenAt(Lit("-"), One(Group(alts)), s, 1);
    if |s| > 0 {
      assert s[..1] == [s[0]];
      assert MatchItem(Group(alts), s[1..]) <==> MatchAny(alts, s[1..]);
    }
  }

  // ---- a lower bound only ----

  /** The string with its last character raised to a nine. */
  function Raised(s: string): (r: string)
    requires s != []
    ensures |r| == |s|
  {
    s[..|s| - 1] + ['9']
  }

  /** Strings of at least n characters may end in a nine as well. */
  ghost predicate Raises(alts: seq<Seq>, n: nat) {
    forall s :: s != [] && |s| >= n && MatchAny(alts, s) ==> MatchAny(alts, Raised(s))
  }

  lemma DigitsRaise(s: string)
    requires s != [] && AllDigits(s)
    ensures AllDigits(Raised(s))
  {
  }

  lemma RaisedTail(s: string)
    requires |s| > 1
    ensures Raised(s)[0] == s[0] && Raised(s)[..1] == s[..1] && Raised(s)[1..] == Raised(s[1..])
  {
  }

  lemma RaiseThen(lo: char, hi: char, it: Item, s: string)
    requires |s| > 1 && MatchSeq(Then(Range(lo, hi), One(it)), s) && (MatchItem(it, s[1..]) ==> MatchItem(it, Raised(s[1..])))
    ensures MatchSeq(Then(Range(lo, hi), One(it)), Raised(s))
  {
    ThenAt(Range(lo, hi), One(it), s, 1);
    ThenAt(Range(lo, hi), One(it), Raised(s), 1);
    RaisedTail(s);
  }

  /** A digit from a range, and then digits. */
  function Run(lo: char, hi: char, least: nat, most: nat): (q: Seq) { Then(Range(lo, hi), One(Digits(least, most))) }

  lemma RunRaises(lo: char, hi: char, least: nat, most: nat, s: string)
    requires s != [] && MatchSeq(Run(lo, hi, least, most), s) && (|s| > 1 || (hi == '9' && lo <= hi))
    ensures MatchSeq(Run(lo, hi, least, most), Raised(s))
  {
    ThenAt(Range(lo, hi), One(Digits(least, most)), s, 1);
    if |s| > 1 {
      if AllDigits(s[1..]) { DigitsRaise(s[1..]); }
      RaiseThen(lo, hi, Digits(least, most), s);
    } else {
      ThenAt(Range(lo, hi), One(Digits(least, most)), Raised(s), 1);
      assert Raised(s)[1..] == s[1..];
    }
  }

  lemma RunLong(lo: char, hi: char, least: nat, most: nat, s: string)
    requires MatchSeq(Run(lo, hi, least, most), s)
    ensures |s| >= 1 + least
  {
    ThenAt(Range(lo, hi), One(Digits(least, most)), s, 1);
  }

  lemma RaisesNone(n: nat)
    ensures Raises([], n)
  {
  }

  lemma RaisesMore(alts: seq<Seq>, q: Seq, n: nat)
    requires Raises(alts, n) && forall s :: s != [] && |s| >= n && MatchSeq(q, s) ==> MatchSeq(q, Raised(s))
    ensures Raises(alts + [q], n)
  {
    forall s | s != [] && |s| >= n && MatchAny(alts + [q], s) ensures MatchAny(alts + [q], Raised(s)) {
      AnyMore(alts, q, s);
      AnyMore(alts, q, Raised(s));
    }
  }

  lemma RaisesRun(alts: seq<Seq>, lo: char, hi: char, least: nat, most: nat, n: nat)
    requires Raises(alts, n) && (n > 1 || least > 0 || (hi == '9' && lo <= hi))
    ensures Raises(alts + [Run(lo, hi, least, most)], n)
  {
    var q := Run(lo, hi, least, most);
    forall s | s != [] && |s| >= n && MatchSeq(q, s) ensures MatchSeq(q, Raised(s)) {
      RunLong(lo, hi, least, most, s);
      RunRaises(lo, hi, least, most, s);
    }
    RaisesMore(alts, q, n);
  }

  lemma RaisesInner(alts: seq<Seq>, c: char, inner: seq<Seq>, n: nat)
    requires Raises(alts, n) && Raises(inner, 1) && !MatchAny(inner, [])
    ensures Raises(alts + [Then(Range(c, c), One(Group(inner)))], n)
  {
    var q := Then(Range(c, c), One(Group(inner)));
    forall s | s != [] && |s| >= n && MatchSeq(q, s) ensures MatchSeq(q, Raised(s)) {
      ThenAt(Range(c, c), One(Group(inner)), s, 1);
      assert MatchAny(inner, s[1..]);
      assert s[1..] != [];
      assert MatchItem(Group(inner), Raised(s[1..])) <==> MatchAny(inner, Raised(s[1..]));
      RaiseThen(c, c, Group(inner), s);
    }
    RaisesMore(alts, q, n);
  }

  lemma NeverEmpty(alts: seq<Seq>)
    requires forall i :: 0 <= i < |alts| ==> alts[i].Then? && alts[i].item.Range?
    ensures !MatchAny(alts, [])
  {
    forall i | 0 <= i < |alts| ensures !MatchSeq(alts[i], []) {
      ThenAt(alts[i].item, alts[i].rest, [], 1);
    }
  }

  lemma RestIsLess(s: string)
    requires Canonical(s) && |s| > 1
    ensures AllDigits(s[1..]) && Val(s[1..]) < Val(s)
  {
    DigitsCons(s);
    ValBelow(s[1..]);
    ValFrom(s);
  }

  /** build_min_max_int with a lower bound that is not negative, and none above: numerals of limited length. Below the top
      level leading zeros are allowed. Whatever is emitted, its last digit may be a nine. */
  method AtLeast(min: nat, decimals: nat, top: bool) returns (alts: seq<Seq>)
    ensures Raises(alts, if top then 2 else 1) && !MatchAny(alts, [])
    decreases min
  {
    var less := if decimals > 2 then decimals - 1 else 1;
    ghost var n := if top then 2 else 1;
    var start := if top then '1' else '0';
    RaisesNone(n);
    alts := [];
    assert alts == [];
    if min == 0 {
      alts := FromZero(decimals, less, top);
    } else if min <= 9 {
      var c := DigitOf(min);
      if c > start {
        RaisesRun(alts, start, Down(c), 1, less, n);
        alts := alts + [Run(start, Down(c), 1, less)];
      }
      RaisesRun(alts, c, '9', 0, less, n);
      alts := alts + [Run(c, '9', 0, less)];
      NeverEmpty(alts);
    } else {
      alts := AtLeastLong(min, less, top);
    }
  }

  lemma OneIs(it: Item, s: string)
    requires it.Range? || it.Digits?
    ensures MatchSeq(One(it), s) <==>
      if it.Range? then |s| == 1 && it.lo <= s[0] <= it.hi else it.least <= |s| <= it.most && AllDigits(s)
  {
  }

  method FromZero(decimals: nat, less: nat, top: bool) returns (alts: seq<Seq>)
    ensures Raises(alts, if top then 2 else 1) && !MatchAny(alts, [])
  {
    alts := [];
    assert !MatchAny(alts, []);
    if top {
      var zero := One(Range('0', '0'));
      forall s ensures MatchSeq(zero, s) ==> |s| == 1 { OneIs(Range('0', '0'), s); }
      RaisesNone(2);
      RaisesMore(alts, zero, 2);
      AnyMore(alts, zero, []);
      RaisesRun([] + [zero], '1', '9', 0, less, 2);
      AnyMore([] + [zero], Run('1', '9', 0, less), []);
      ThenAt(Range('1', '9'), One(Digits(0, less)), [], 1);
      alts := alts + [zero] + [Run('1', '9', 0, less)];
    } else {
      var q := One(Digits(1, decimals));
      forall s ensures s != [] && MatchSeq(q, s) ==> MatchSeq(q, Raised(s)) { DigitsCanRaise(decimals, s); }
      RaisesNone(1);
      RaisesMore(alts, q, 1);
      AnyMore(alts, q, []);
      OneIs(Digits(1, decimals), []);
      alts := alts + [q];
    }
  }

  lemma DigitsCanRaise(decimals: nat, s: string)
    ensures s != [] && MatchSeq(One(Digits(1, decimals)), s) ==> MatchSeq(One(Digits(1, decimals)), Raised(s))
  {
    if s != [] && MatchSeq(One(Digits(1, decimals)), s) {
      OneIs(Digits(1, decimals), s);
      DigitsRaise(s);
      OneIs(Digits(1, decimals), Raised(s));
    }
  }

  // For a bound of 16 digits or more, len exceeds less: the braces ask for more repetitions than they allow, and the
  // expression is read here as matching nothing. Rewriting.BoundsKept says that the grammar parser does not read it so.
  method AtLeastLong(min: nat, less: nat, top: bool) returns (alts: seq<Seq>)
    requires min > 9
    ensures Raises(alts, if top then 2 else 1) && !MatchAny(alts, [])
    decreases min, 0
  {
    ghost var n := if top then 2 else 1;
    var minS := Numeral(min);
    var len, c := |minS|, minS[0];
    LongNumeral(min);
    RestIsLess(minS);
    RaisesNone(n);
    alts := [];
    if c > '1' {
      RaisesRun(alts, if top then '1' else '0', Down(c), len, less, n);
      alts := alts + [Run(if top then '1' else '0', Down(c), len, less)];
    }
    var inner := AtLeast(Val(minS[1..]), less, false);
    RaisesInner(alts, c, inner, n);
    alts := alts + [Then(Range(c, c), One(Group(inner)))];
    if c < '9' {
      RaisesRun(alts, Up(c), '9', len - 1, less, n);
      alts := alts + [Run(Up(c), '9', len - 1, less)];
    }
    NeverEmpty(alts);
  }

  lemma LongNumeral(v: nat)
    requires v > 9
    ensures |Numeral(v)| > 1
  {
    ValBelow(Numeral(v));
    assert Pow10(1) == 10;
  }

  // ---- both bounds ----

  lemma RaisedVal(v: nat)
    requires v > 9 && v % 10 != 9
    ensures var r := Raised(Numeral(v)); Canonical(r) && Val(r) > v
  {
    var n := Numeral(v);
    LongNumeral(v);
    ValSnoc(n);
    DigitsRaise(n);
    ValSnoc(Raised(n));
    assert Raised(n)[..|n| - 1] == n[..|n| - 1];
  }

  /** Without an upper bound on the magnitude, the lowest value's numeral is missed or a lower one let through. */
  lemma LowestLost(v: nat, max: int, inner: seq<Seq>, rest: seq<Seq>)
    requires v > 9 && v % 10 != 9 && Raises(inner, 2) && 0 - v <= max
    requires forall s :: MatchAny(rest, s) ==> Canonical(s)
    ensures !Covers([Then(Lit("-"), One(Group(inner)))] + rest, 0 - v, max)
  {
    var n := Numeral(v);
    LongNumeral(v);
    RaisedVal(v);
    MinusMatches(inner, rest, n);
    MinusMatches(inner, rest, Raised(n));
    assert InRange(0 - v, max, "-" + n) by { assert ("-" + n)[1..] == n; }
    assert !InRange(0 - v, max, "-" + Raised(n)) by { assert ("-" + Raised(n))[1..] == Raised(n); }
    assert MatchAny(inner, n) ==> MatchAny(inner, Raised(n));
  }

  lemma MinusMatches(inner: seq<Seq>, rest: seq<Seq>, t: string)
    requires forall s :: MatchAny(rest, s) ==> Canonical(s)
    ensures MatchAny([Then(Lit("-"), One(Group(inner)))] + rest, "-" + t) <==> MatchAny(inner, t)
  {
    var s := "-" + t;
    assert s[1..] == t && s[..1] == "-" && s[0] == '-';
    AnyFirst(Then(Lit("-"), One(Group(inner))), rest, s);
    ThenAt(Lit("-"), One(Group(inner)), s, 1);
    assert MatchItem(Group(inner), t) <==> MatchAny(inner, t);
    assert !Canonical(s);
  }

  /** A call for values from lo to hi, both not negative: the largest 64-bit value means no upper bound. */
  method Magnitudes(lo: nat, hi: nat) returns (alts: seq<Seq>)
    requires lo <= hi
    ensures if hi == INT64_MAX then Raises(alts, 2) else Covers(alts, lo, hi)
  {
    if hi == INT64_MAX {
      alts := AtLeast(lo, 16, true);
    } else {
      alts := NotNegative(lo, hi);
    }
  }

  /** build_min_max_int with both bounds given; the smallest and the largest 64-bit value stand for no bound. It is exact
      but for one lower bound: its negation is the largest value, and so loses its meaning as a bound on the way. */
  method BuildMinMax(min: int, max: int) returns (alts: seq<Seq>)
    requires INT64_MIN < min <= max < INT64_MAX
    ensures Covers(alts, min, max) <==> min != -INT64_MAX
  {
    if min >= 0 {
      alts := NotNegative(min, max);
    } else {
      var inner := Magnitudes(if max < 0 then -max else 0, -min);
      var rest := [];
      if max >= 0 { rest := NotNegative(0, max); }
      alts := [Then(Lit("-"), One(Group(inner)))] + rest;
      if min == -INT64_MAX {
        LowestLost(-min, max, inner, rest);
      } else {
        forall s ensures MatchAny(alts, s) <==> InRange(min, max, s) {
          Signed(inner, if max < 0 then -max else 0, -min, s);
          AnyFirst(Then(Lit("-"), One(Group(inner))), rest, s);
        }
      }
    }
  }

  lemma AnyFirst(q: Seq, alts: seq<Seq>, s: string)
    ensures MatchAny([q] + alts, s) <==> MatchSeq(q, s) || MatchAny(alts, s)
  {
    if MatchAny(alts, s) {
      var i :| 0 <= i < |alts| && MatchSeq(alts[i], s);
      assert ([q] + alts)[i + 1] == alts[i];
    }
    if MatchSeq(q, s) { assert ([q] + alts)[0] == q; }
  }
}
