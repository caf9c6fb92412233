/** Decoding the bytes of token pieces to code points, a piece at a time. */
module Utf8 {
  import opened Types

  type Byte = b: int | 0 <= b < 256

  /** What a piece leaves of a character: its value so far and the bytes missing; -1 after an invalid byte. */
  datatype Partial = Partial(value: nat, remain: int)

  const CLEAN := Partial(0, 0)

  datatype Decoding = Decoding(cps: seq<nat>, partial: Partial)

  /** The length a first byte announces; 0 for a byte that may not come first. */
  function Length(first: Byte): (n: nat)
    ensures n <= 4
  {
    if first < 0x80 then 1 else if first < 0xC0 then 0 else if first < 0xE0 then 2 else if first < 0xF0 then 3 else 4
  }

  /** The bits of a first byte that count. */
  function Payload(first: Byte): (v: nat) {
    match Length(first)
    case 1 => first % 0x80
    case 2 => first % 0x40
    case 3 => first % 0x20
    case _ => first % 0x10
  }

  predicate Continues(b: Byte) { b / 0x40 == 2 }

  /** The value v, continued by the low six bits of each byte. */
  function Value(v: nat, rest: seq<Byte>): (w: nat) {
    if rest == [] then v else Value(v, rest[..|rest| - 1]) * 0x40 + rest[|rest| - 1] % 0x40
  }

  /** Strings end at their first zero byte. */
  function UpToNul(s: seq<Byte>): (r: seq<Byte>)
    ensures |r| <= |s| && r == s[..|r|] && 0 !in r && (|r| < |s| ==> s[|r|] == 0)
  {
    if s == [] || s[0] == 0 then [] else [s[0]] + UpToNul(s[1..])
  }

  // ---- what decoding means ----

  const INVALID := Decoding([], Partial(0, -1))

  /** One character after the other; an invalid first byte voids the whole piece. The value of the last character is kept
      in v. */
  function Chars(s: seq<Byte>, v: nat): (d: Decoding)
    decreases |s|, 0
  {
    if s == [] then Decoding([], Partial(v, 0))
    else
      var n := Length(s[0]);
      if n == 0 then INVALID
      else if |s| < n then Decoding([], Partial(Value(Payload(s[0]), s[1..]), n - |s|))
      else Before(Value(Payload(s[0]), s[1..n]), s[n..])
  }

  /** A character and what follows it. */
  function Before(v: nat, s: seq<Byte>): (d: Decoding)
    decreases |s|, 1
  {
    Prepend([v], Chars(s, v))
  }

  function Prepend(cps: seq<nat>, d: Decoding): (r: Decoding) {
    if d.partial.remain < 0 then d else d.(cps := cps + d.cps)
  }

  /** The piece s, after a piece that left `start` of a character. */
  function Decode(start: Partial, s: seq<Byte>): (d: Decoding) {
    if s == [] then Decoding([], start)
    else if start.remain <= 0 then Chars(s, start.value)
    else
      var k := Min(start.remain, |s|);
      if exists i :: 0 <= i < k && !Continues(s[i]) then INVALID
      else if k < start.remain then Decoding([], Partial(Value(start.value, s[..k]), start.remain - k))
      else Before(Value(start.value, s[..k]), s[k..])
  }

  // ---- the decoder ----

  lemma SliceMore(s: seq<Byte>, lo: nat, hi: nat)
    requires lo <= hi < |s|
    ensures s[lo..hi] + [s[hi]] == s[lo..hi + 1]
  {
  }

  /** One character from its first byte on, as far as the string goes. */
  method ReadChar(src: seq<Byte>, at: nat) returns (value: nat, pos: nat, remain: nat)
    requires at < |UpToNul(src)| && Length(src[at]) > 0
    ensures var s := UpToNul(src);
      && at < pos == Min(at + Length(s[at]), |s|) && remain == at + Length(s[at]) - pos
      && value == Value(Payload(s[at]), s[at + 1..pos])
  {
    ghost var s := UpToNul(src);
    value, pos, remain := Payload(src[at]), at + 1, Length(src[at]) - 1;
    while pos < |src| && src[pos] != 0 && remain > 0
      invariant at < pos <= |s| && remain == at + Length(s[at]) - pos && value == Value(Payload(s[at]), s[at + 1..pos])
    {
      assert s[pos] == src[pos];
      ValueStep(Payload(s[at]), s[at + 1..pos], s[pos]);
      SliceMore(s, at + 1, pos);
      value := value * 0x40 + src[pos] % 0x40;
      pos, remain := pos + 1, remain - 1;
    }
  }

  ghost predicate Halfway(s: seq<Byte>, d: Decoding, at: nat, pos: nat, cps: seq<nat>, value: nat, remain: int) {
    && at < pos <= |s|
    && (if remain > 0 then pos == |s| && d == Decoding(cps, Partial(value, remain))
        else remain == 0 && d == Prepend(cps, Chars(s[pos..], value)))
  }

  lemma OneMore(s: seq<Byte>, d: Decoding, at: nat, pos: nat, cps: seq<nat>, v: nat, pos': nat, value: nat, remain: nat)
    requires at <= pos < |s| && d == Prepend(cps, Chars(s[pos..], v)) && Length(s[pos]) > 0
    requires pos' == Min(pos + Length(s[pos]), |s|) && remain == pos + Length(s[pos]) - pos'
    requires value == Value(Payload(s[pos]), s[pos + 1..pos'])
    ensures Halfway(s, d, at, pos', if remain == 0 then cps + [value] else cps, value, remain)
  {
    var t, n := s[pos..], Length(s[pos]);
    assert t[0] == s[pos];
    if remain == 0 {
      assert t[1..n] == s[pos + 1..pos'] && t[n..] == s[pos'..];
      var e := Chars(s[pos'..], value);
      assert cps + ([value] + e.cps) == (cps + [value]) + e.cps;
    } else {
      assert t[1..] == s[pos + 1..pos'];
    }
  }

  /** All characters from `at` on. */
  method ReadChars(src: seq<Byte>, at: nat, value: nat) returns (cps: seq<nat>, partial: Partial)
    requires at < |UpToNul(src)|
    ensures Decoding(cps, partial) == Chars(UpToNul(src)[at..], value)
  {
    ghost var s := UpToNul(src);
    ghost var d := Chars(s[at..], value);
    var pos, v: nat, remain: int := at, value, 0;
    cps := [];
    while pos < |src| && src[pos] != 0
      invariant pos <= |s|
      invariant if pos == at then cps == [] && v == value && remain == 0 else Halfway(s, d, at, pos, cps, v, remain)
      decreases |s| - pos
    {
      assert s[pos] == src[pos];
      ghost var v0 := v;
      if Length(src[pos]) == 0 {
        assert s[pos..][0] == s[pos];
        return [], Partial(0, -1);
      }
      ghost var pos0 := pos;
      v, pos, remain := ReadChar(src, pos);
      OneMore(s, d, at, pos0, cps, v0, pos, v, remain);
      if remain == 0 { cps := cps + [v]; }
    }
    assert s[|s|..] == [];
    partial := Partial(v, remain);
  }

  /** decode_utf8: the code points of a piece, with a zero behind them, and what it leaves of a character. */
  method DecodeUtf8(src: seq<Byte>, start: Partial) returns (cps: seq<nat>, partial: Partial)
    ensures cps == Decode(start, UpToNul(src)).cps + [0] && partial == Decode(start, UpToNul(src)).partial
  {
    ghost var s := UpToNul(src);
    var pos: nat, value: nat, remain := 0, start.value, start.remain;
    while pos < |src| && src[pos] != 0 && remain > 0
      invariant pos <= |s| && remain == start.remain - pos && (pos > 0 ==> remain >= 0) && value == Value(start.value, s[..pos])
      invariant forall i :: 0 <= i < pos ==> Continues(s[i])
    {
      assert s[pos] == src[pos] && s[..pos + 1][..pos] == s[..pos];
      if !Continues(src[pos]) { return [0], Partial(0, -1); }
      value := value * 0x40 + src[pos] % 0x40;
      pos, remain := pos + 1, remain - 1;
    }
    cps := [];
    if start.remain > 0 && remain == 0 { cps := [value]; }
    partial := Partial(value, remain);
    assert s[..0] == [] && s[|s|..] == [];
    if pos < |src| && src[pos] != 0 {
      var more;
      more, partial := ReadChars(src, pos, value);
      assert s[0..] == s;
      cps := if partial.remain < 0 then more else cps + more;
    }
    cps := cps + [0];
  }

  // ---- piece by piece ----

  lemma {:induction false} ValueMore(v: nat, a: seq<Byte>, b: seq<Byte>)
    ensures Value(v, a + b) == Value(Value(v, a), b)
    decreases |b|
  {
    if b == [] {
      assert a + b == a;
    } else {
      ValueMore(v, a, b[..|b| - 1]);
      assert (a + b)[..|a + b| - 1] == a + b[..|b| - 1];
    }
  }

  /** d, then e. */
  function Then(d: Decoding, e: Decoding): (r: Decoding) {
    Decoding(d.cps + e.cps, e.partial)
  }

  lemma PrependThen(cps: seq<nat>, d: Decoding, e: Decoding)
    requires d.partial.remain >= 0 && e.partial.remain >= 0
    ensures Prepend(cps, Then(d, e)) == Then(Prepend(cps, d), e)
  {
    assert cps + (d.cps + e.cps) == (cps + d.cps) + e.cps;
  }

  /** The piece b completes a character of which n - |a| bytes were missing, or some of them. */
  lemma CharStreams(v: nat, a: seq<Byte>, n: nat, b: seq<Byte>)
    requires |a| < n
    requires var e := Decode(Partial(Value(v, a), n - |a|), b); e.partial.remain >= 0
    ensures Decode(Partial(Value(v, a), n - |a|), b) ==
      if |a + b| < n then Decoding([], Partial(Value(v, a + b), n - |a + b|)) else Before(Value(v, (a + b)[..n]), (a + b)[n..])
  {
    if |a + b| < n {
      ValueMore(v, a, b);
      assert b[..|b|] == b;
      assert b == [] ==> a + b == a;
    } else {
      var k := n - |a|;
      ValueMore(v, a, b[..k]);
      assert (a + b)[..n] == a + b[..k] && (a + b)[n..] == b[k..];
    }
  }

  lemma CutChar(a: seq<Byte>, v: nat, b: seq<Byte>)
    requires a != [] && 0 < |a| < Length(a[0]) && Decode(Chars(a, v).partial, b).partial.remain >= 0
    ensures Chars(a + b, v) == Then(Chars(a, v), Decode(Chars(a, v).partial, b))
  {
    var n, t, rest := Length(a[0]), a + b, a[1..] + b;
    Shifted(a, b, n);
    CharStreams(Payload(a[0]), a[1..], n - 1, b);
    if |t| < n {
      assert Chars(t, v) == Decoding([], Partial(Value(Payload(a[0]), rest), n - |t|));
    } else {
      assert Chars(t, v) == Before(Value(Payload(a[0]), rest[..n - 1]), rest[n - 1..]);
    }
  }

  lemma Shifted(a: seq<Byte>, b: seq<Byte>, n: nat)
    requires a != [] && n > 0
    ensures (a + b)[0] == a[0] && (a + b)[1..] == a[1..] + b
    ensures n <= |a + b| ==> (a[1..] + b)[..n - 1] == (a + b)[1..n] && (a[1..] + b)[n - 1..] == (a + b)[n..]
  {
  }

  lemma WholeChar(a: seq<Byte>, v: nat, b: seq<Byte>, x: nat)
    requires a != [] && 0 < Length(a[0]) <= |a| && x == Value(Payload(a[0]), a[1..Length(a[0])])
    ensures Chars(a, v) == Prepend([x], Chars(a[Length(a[0])..], x))
    ensures Chars(a + b, v) == Prepend([x], Chars(a[Length(a[0])..] + b, x))
  {
    var n, t := Length(a[0]), a + b;
    assert t[0] == a[0] && t[1..n] == a[1..n] && t[n..] == a[n..] + b;
  }

  lemma {:induction false} CharsStream(a: seq<Byte>, v: nat, b: seq<Byte>)
    requires Chars(a, v).partial.remain >= 0 && Decode(Chars(a, v).partial, b).partial.remain >= 0
    ensures Chars(a + b, v) == Then(Chars(a, v), Decode(Chars(a, v).partial, b))
    decreases |a|
  {
    if a == [] {
      assert a + b == b;
    } else if |a| < Length(a[0]) {
      CutChar(a, v, b);
    } else {
      var n := Length(a[0]);
      var x := Value(Payload(a[0]), a[1..n]);
      WholeChar(a, v, b, x);
      CharsStream(a[n..], x, b);
      PrependThen([x], Chars(a[n..], x), Decode(Chars(a, v).partial, b));
    }
  }

  /** Where a text is cut into pieces does not matter, not even inside a character: if both pieces decode, decoding them
      one after the other is decoding them together. */
  lemma Streams(start: Partial, a: seq<Byte>, b: seq<Byte>)
    requires Decode(start, a).partial.remain >= 0 && Decode(Decode(start, a).partial, b).partial.remain >= 0
    ensures Decode(start, a + b) == Then(Decode(start, a), Decode(Decode(start, a).partial, b))
  {
    if a == [] {
      assert a + b == b;
    } else if start.remain <= 0 {
      CharsStream(a, start.value, b);
    } else if |a| < start.remain {
      StreamsShort(start, a, b);
    } else {
      StreamsLong(start, a, b);
    }
  }

  lemma StreamsShort(start: Partial, a: seq<Byte>, b: seq<Byte>)
    requires a != [] && |a| < start.remain
    requires Decode(start, a).partial.remain >= 0 && Decode(Decode(start, a).partial, b).partial.remain >= 0
    ensures Decode(start, a + b) == Then(Decode(start, a), Decode(Decode(start, a).partial, b))
  {
    assert a[..|a|] == a;
    CharStreams(start.value, a, start.remain, b);
    var k := Min(start.remain, |a + b|);
    forall i | 0 <= i < k ensures Continues((a + b)[i]) {
      if i >= |a| { assert (a + b)[i] == b[i - |a|]; }
    }
    if |a + b| < start.remain { assert (a + b)[..k] == a + b; }
  }

  lemma StreamsLong(start: Partial, a: seq<Byte>, b: seq<Byte>)
    requires a != [] && 0 < start.remain <= |a|
    requires Decode(start, a).partial.remain >= 0 && Decode(Decode(start, a).partial, b).partial.remain >= 0
    ensures Decode(start, a + b) == Then(Decode(start, a), Decode(Decode(start, a).partial, b))
  {
    var k := start.remain;
    var x := Value(start.value, a[..k]);
    assert (a + b)[..k] == a[..k] && (a + b)[k..] == a[k..] + b;
    CharsStream(a[k..], x, b);
    PrependThen([x], Chars(a[k..], x), Decode(Decode(start, a).partial, b));
    forall i | 0 <= i < k ensures (a + b)[i] == a[i] {}
  }

  // ---- what text decodes to ----

  /** The UTF-8 bytes of a code point (section 3 of RFC 3629). */
  function Encode(cp: nat): (s: seq<Byte>)
    requires cp < 0x11_0000
  {
    if cp < 0x80 then [cp]
    else if cp < 0x800 then [0xC0 + cp / 0x40, 0x80 + cp % 0x40]
    else if cp < 0x1_0000 then [0xE0 + cp / 0x1000, 0x80 + cp / 0x40 % 0x40, 0x80 + cp % 0x40]
    else [0xF0 + cp / 0x4_0000, 0x80 + cp / 0x1000 % 0x40, 0x80 + cp / 0x40 % 0x40, 0x80 + cp % 0x40]
  }

  predicate IsText(cps: seq<nat>) {
    forall i :: 0 <= i < |cps| ==> 0 < cps[i] < 0x11_0000
  }

  function EncodeAll(cps: seq<nat>): (s: seq<Byte>)
    requires IsText(cps)
  {
    if cps == [] then [] else Encode(cps[0]) + EncodeAll(cps[1..])
  }

  lemma ValueStep(v: nat, rest: seq<Byte>, b: Byte)
    ensures Value(v, rest + [b]) == Value(v, rest) * 0x40 + b % 0x40
  {
    assert (rest + [b])[..|rest|] == rest;
  }

  lemma ValueTwo(v: nat, a: Byte, b: Byte)
    ensures Value(v, [a]) == v * 0x40 + a % 0x40 && Value(v, [a, b]) == (v * 0x40 + a % 0x40) * 0x40 + b % 0x40
  {
    assert [] + [a] == [a] && [a] + [b] == [a, b];
    ValueStep(v, [], a);
    ValueStep(v, [a], b);
  }

  lemma ValueThree(v: nat, a: Byte, b: Byte, c: Byte)
    ensures Value(v, [a, b, c]) == ((v * 0x40 + a % 0x40) * 0x40 + b % 0x40) * 0x40 + c % 0x40
  {
    assert [a, b] + [c] == [a, b, c];
    ValueTwo(v, a, b);
    ValueStep(v, [a, b], c);
  }

  lemma EncodeLength(cp: nat)
    requires 0 < cp < 0x11_0000
    ensures var s := Encode(cp); |s| == Length(s[0]) > 0 && 0 !in s
  {
  }

  lemma EncodeValue(cp: nat)
    requires cp < 0x11_0000
    ensures var s := Encode(cp); Value(Payload(s[0]), s[1..]) == cp
  {
    var s := Encode(cp);
    if cp < 0x80 {
      assert s[1..] == [];
    } else if cp < 0x800 {
      assert s[1..] == [s[1]];
      ValueTwo(Payload(s[0]), s[1], s[1]);
    } else if cp < 0x1_0000 {
      assert s[1..] == [s[1], s[2]];
      EncodeThree(cp);
    } else {
      assert s[1..] == [s[1], s[2], s[3]];
      EncodeFour(cp);
    }
  }

  lemma EncodeThree(cp: nat)
    requires 0x800 <= cp < 0x1_0000
    ensures var s := Encode(cp); Value(Payload(s[0]), [s[1], s[2]]) == cp
  {
    var s := Encode(cp);
    ValueTwo(Payload(s[0]), s[1], s[2]);
    assert Payload(s[0]) == cp / 0x1000 && s[1] % 0x40 == cp / 0x40 % 0x40 && s[2] % 0x40 == cp % 0x40;
    SixBits(cp);
  }

  lemma EncodeFour(cp: nat)
    requires 0x1_0000 <= cp < 0x11_0000
    ensures var s := Encode(cp); Value(Payload(s[0]), [s[1], s[2], s[3]]) == cp
  {
    var s := Encode(cp);
    ValueThree(Payload(s[0]), s[1], s[2], s[3]);
    FourParts(cp / 0x4_0000, cp / 0x1000 % 0x40, cp / 0x40 % 0x40, cp % 0x40);
    SixBits(cp);
  }

  lemma FourParts(a: nat, b: nat, c: nat, d: nat)
    requires a < 8 && b < 0x40 && c < 0x40 && d < 0x40
    ensures Payload(0xF0 + a) == a && (0x80 + b) % 0x40 == b && (0x80 + c) % 0x40 == c && (0x80 + d) % 0x40 == d
  {
  }

  lemma SixBits(n: nat)
    ensures n == n / 0x40 * 0x40 + n % 0x40
    ensures n / 0x40 == n / 0x1000 * 0x40 + n / 0x40 % 0x40
    ensures n / 0x1000 == n / 0x4_0000 * 0x40 + n / 0x1000 % 0x40
  {
    var a, b := n / 0x40, n / 0x1000;
    assert a == a / 0x40 * 0x40 + a % 0x40 && a / 0x40 == b;
    assert b == b / 0x40 * 0x40 + b % 0x40 && b / 0x40 == n / 0x4_0000;
  }

  /** Encoded text decodes to itself, with nothing left over. */
  lemma {:induction false} RoundTrip(cps: seq<nat>, v: nat)
    requires IsText(cps)
    ensures Chars(EncodeAll(cps), v).cps == cps && Chars(EncodeAll(cps), v).partial.remain == 0 && 0 !in EncodeAll(cps)
    decreases |cps|
  {
    if cps != [] {
      var s, t := Encode(cps[0]), EncodeAll(cps[1..]);
      EncodeLength(cps[0]);
      EncodeValue(cps[0]);
      RoundTrip(cps[1..], cps[0]);
      assert (s + t)[0] == s[0] && (s + t)[1..|s|] == s[1..] && (s + t)[|s|..] == t;
    }
  }

  lemma EncodeContinues(cp: nat, i: nat)
    requires 0 < cp < 0x11_0000 && 1 <= i < |Encode(cp)|
    ensures Continues(Encode(cp)[i])
  {
  }

  lemma FirstWhole(a: seq<Byte>, t: seq<Byte>, v: nat, x: nat)
    requires a != [] && |a| == Length(a[0]) > 0 && x == Value(Payload(a[0]), a[1..])
    ensures Chars(a + t, v) == Prepend([x], Chars(t, x))
  {
    assert (a + t)[0] == a[0] && (a + t)[1..|a|] == a[1..] && (a + t)[|a|..] == t;
  }

  lemma CutFirst(a: seq<Byte>, b: seq<Byte>, v: nat, k: nat)
    requires 0 < k < |a| && |a| == Length(a[0])
    ensures Chars((a + b)[..k], v).partial.remain == |a| - k && (a + b)[|a|..] == b
  {
    assert (a + b)[..k][0] == a[0];
  }

  lemma CutLater(a: seq<Byte>, b: seq<Byte>, v: nat, x: nat, k: nat)
    requires a != [] && |a| == Length(a[0]) > 0 && x == Value(Payload(a[0]), a[1..]) && |a| <= k <= |a + b|
    requires var m := Chars(b[..k - |a|], x).partial.remain;
      0 <= m <= |a + b| - k && forall i :: k - |a| <= i < k - |a| + m ==> Continues(b[i])
    ensures var s, m := a + b, Chars((a + b)[..k], v).partial.remain;
      && m == Chars(b[..k - |a|], x).partial.remain && s[k + m..] == b[k - |a| + m..]
      && forall i :: k <= i < k + m ==> Continues(s[i])
  {
    var s, m := a + b, Chars(b[..k - |a|], x).partial.remain;
    assert s[..k] == a + b[..k - |a|];
    FirstWhole(a, b[..k - |a|], v, x);
    forall i | k <= i < k + m ensures Continues(s[i]) { assert s[i] == b[i - |a|]; }
    assert s[k + m..] == b[k - |a| + m..];
  }

  /** The first k bytes of a text decode, and what is missing of a character are the next bytes; the rest is text again. */
  lemma {:induction false} TextCut(cps: seq<nat>, v: nat, k: nat) returns (j: nat)
    requires IsText(cps) && k <= |EncodeAll(cps)|
    ensures var s, m := EncodeAll(cps), Chars(EncodeAll(cps)[..k], v).partial.remain;
      && 0 <= m <= |s| - k && (forall i :: k <= i < k + m ==> Continues(s[i]))
      && j <= |cps| && s[k + m..] == EncodeAll(cps[j..])
    decreases |cps|
  {
    var s := EncodeAll(cps);
    if k == 0 {
      j := 0;
      assert s[..0] == [] && cps[0..] == cps;
    } else {
      var a, b := Encode(cps[0]), EncodeAll(cps[1..]);
      EncodeLength(cps[0]);
      EncodeValue(cps[0]);
      if k < |a| {
        j := 1;
        CutFirst(a, b, v, k);
        forall i | k <= i < |a| ensures Continues(s[i]) { EncodeContinues(cps[0], i); }
      } else {
        var l := TextCut(cps[1..], cps[0], k - |a|);
        j := l + 1;
        CutLater(a, b, v, cps[0], k);
        assert cps[1..][l..] == cps[j..];
      }
    }
  }

  /** A text cut anywhere, even inside a character, decodes piece by piece: nothing is taken for invalid, and together the
      pieces give the text. */
  lemma TextStreams(cps: seq<nat>, k: nat)
    requires IsText(cps) && k <= |EncodeAll(cps)|
    ensures var s := EncodeAll(cps); var d := Decode(CLEAN, s[..k]); var e := Decode(d.partial, s[k..]);
      d.partial.remain >= 0 && e.partial.remain == 0 && d.cps + e.cps == cps
  {
    var s := EncodeAll(cps);
    var d := Chars(s[..k], 0);
    var j := TextCut(cps, 0, k);
    assert Decode(CLEAN, s[..k]) == d;
    assert Decode(d.partial, s[k..]).partial.remain >= 0 by { Resumes(cps, j, d.partial, s[k..]); }
    CharsStream(s[..k], 0, s[k..]);
    assert s[..k] + s[k..] == s;
    RoundTrip(cps, 0);
  }

  lemma Resumes(cps: seq<nat>, j: nat, start: Partial, t: seq<Byte>)
    requires IsText(cps) && j <= |cps| && 0 <= start.remain <= |t| && t[start.remain..] == EncodeAll(cps[j..])
    requires forall i :: 0 <= i < start.remain ==> Continues(t[i])
    ensures Decode(start, t).partial.remain >= 0
  {
    var m := start.remain;
    RoundTrip(cps[j..], if m == 0 then start.value else Value(start.value, t[..m]));
    if m == 0 { assert t[0..] == t; }
  }

  // ---- code point zero ----

  /** Zero spelled with two, three or four bytes. */
  predicate OverlongZero(s: seq<Byte>) {
    s != [] && (s[0] == 0xC0 || s[0] == 0xE0 || s[0] == 0xF0) && forall i :: 1 <= i < |s| ==> s[i] % 0x40 == 0
  }

  /** Some character of s is an overlong zero. */
  predicate HasOverlongZero(s: seq<Byte>) {
    s != [] && var n := Length(s[0]); 0 < n <= |s| && (OverlongZero(s[..n]) || HasOverlongZero(s[n..]))
  }

  lemma {:induction false} ValueZero(v: nat, rest: seq<Byte>)
    ensures Value(v, rest) == 0 <==> v == 0 && forall i :: 0 <= i < |rest| ==> rest[i] % 0x40 == 0
  {
    if rest != [] {
      ValueZero(v, rest[..|rest| - 1]);
      assert forall i :: 0 <= i < |rest| - 1 ==> rest[..|rest| - 1][i] == rest[i];
    }
  }

  lemma CharZero(s: seq<Byte>)
    requires s != [] && s[0] != 0 && Length(s[0]) == |s|
    ensures Value(Payload(s[0]), s[1..]) == 0 <==> OverlongZero(s)
  {
    ValueZero(Payload(s[0]), s[1..]);
    assert forall i :: 1 <= i < |s| ==> s[i] == s[1..][i - 1];
    assert forall i :: 0 <= i < |s| - 1 ==> s[1..][i] == s[i + 1];
  }

  /** A string decodes to a code point zero only through an overlong one, as it ends at a zero byte. */
  lemma {:induction false} ZeroIsOverlong(s: seq<Byte>, v: nat)
    requires 0 !in s && Chars(s, v).partial.remain >= 0
    ensures 0 in Chars(s, v).cps <==> HasOverlongZero(s)
    decreases |s|
  {
    if s != [] && Length(s[0]) <= |s| {
      var n := Length(s[0]);
      var x := Value(Payload(s[0]), s[1..n]);
      assert s[..n][1..] == s[1..n];
      CharZero(s[..n]);
      ZeroIsOverlong(s[n..], x);
      assert 0 in Chars(s, v).cps <==> x == 0 || 0 in Chars(s[n..], x).cps;
    }
  }
}
