/** The vocabulary mask of one sampling step, and what it means for the text. */
module GrammarMask {
  import opened Types
  import opened Pushdown
  import opened Grammars
  import opened GrammarEngine
  import opened CandidateFilter
  import opened Utf8

  /** A piece that ends between two characters, for a decoder that stands between two characters. */
  predicate Whole(piece: seq<Byte>) { Decode(CLEAN, UpToNul(piece)).partial.remain == 0 }

  type Piece = piece: seq<Byte> | Whole(piece)

  function Points(piece: Piece): (cps: seq<nat>) { Decode(CLEAN, UpToNul(piece)).cps }

  datatype Token = Eog | Text(piece: Piece)

  /** A piece that spells nothing. */
  predicate Silent(piece: Piece) { piece == [] || piece[0] == 0 }

  /** Some stack can read the piece up to its first code point zero. */
  ghost predicate LetThrough(g: Rules, ss: seq<Stack>, piece: Piece) {
    !Silent(piece) && AnyLives(MachineOf(g), ss, UpToZero(Points(piece)))
  }

  /** Ending is allowed after a sentence. */
  ghost predicate Allowed(g: Rules, root: nat, text: seq<nat>, ss: seq<Stack>, tok: Token) {
    match tok
    case Eog => Derives(MachineOf(g), root, text)
    case Text(piece) => LetThrough(g, ss, piece)
  }

  /** apply: the whole vocabulary in one pass of the filter. A token banned before stays banned. */
  method Apply(gr: Grammar, vocab: seq<Token>, excluded: seq<bool>) returns (banned: seq<bool>)
    requires gr.Valid() && gr.stacks != [] && |excluded| == |vocab|
    ensures |banned| == |vocab|
    ensures forall id :: 0 <= id < |vocab| ==>
      (banned[id] <==> excluded[id] || !Allowed(gr.rules, gr.root, gr.text, gr.stacks, vocab[id]))
  {
    var end := gr.AllowsEnd();
    var cs;
    ghost var n;
    banned, cs, n := Prepare(vocab, excluded, end);
    var rejects := RejectAll(gr.rules, gr.stacks, cs, n);
    ghost var before := banned;
    banned := BanAll(banned, rejects);
    forall id | 0 <= id < |vocab|
      ensures banned[id] <==> excluded[id] || !Allowed(gr.rules, gr.root, gr.text, gr.stacks, vocab[id])
    {
      BannedRight(gr.rules, gr.root, gr.text, gr.stacks, end, vocab, excluded, cs, rejects, before, banned, id);
    }
  }

  predicate Direct(tok: Token, excluded: bool, end: bool) {
    excluded || match tok case Eog => !end case Text(piece) => Silent(piece)
  }

  predicate Tested(tok: Token, excluded: bool) {
    !excluded && tok.Text? && !Silent(tok.piece)
  }

  ghost predicate Prepared(vocab: seq<Token>, excluded: seq<bool>, end: bool, banned: seq<bool>, cs: seq<Cand>)
    requires |excluded| == |vocab|
  {
    && |banned| <= |vocab|
    && (forall i :: 0 <= i < |banned| ==> (banned[i] <==> Direct(vocab[i], excluded[i], end)))
    && (forall c :: c in cs <==> Collects(vocab, excluded, |banned|, c))
  }

  ghost predicate Collects(vocab: seq<Token>, excluded: seq<bool>, n: nat, c: Cand)
    requires |excluded| == |vocab| >= n
  {
    c.index < n && Tested(vocab[c.index], excluded[c.index]) && c == CandOf(vocab, c.index)
  }

  function CandOf(vocab: seq<Token>, i: nat): (c: Cand)
    requires i < |vocab|
  {
    Cand(i, if vocab[i].Text? then Points(vocab[i].piece) + [0] else [], 0)
  }

  lemma PreparedMore(vocab: seq<Token>, excluded: seq<bool>, end: bool, banned: seq<bool>, cs: seq<Cand>)
    requires |excluded| == |vocab| && |banned| < |vocab| && Prepared(vocab, excluded, end, banned, cs)
    ensures var id := |banned|;
      Prepared(vocab, excluded, end, banned + [Direct(vocab[id], excluded[id], end)],
               if Tested(vocab[id], excluded[id]) then cs + [CandOf(vocab, id)] else cs)
  {
    var id := |banned|;
    var tested := Tested(vocab[id], excluded[id]);
    var more := if tested then cs + [CandOf(vocab, id)] else cs;
    forall c ensures c in more <==> Collects(vocab, excluded, id + 1, c) {
      CollectsNext(vocab, excluded, id, c);
    }
  }

  lemma CollectsNext(vocab: seq<Token>, excluded: seq<bool>, n: nat, c: Cand)
    requires |excluded| == |vocab| > n
    ensures Collects(vocab, excluded, n + 1, c) <==>
      Collects(vocab, excluded, n, c) || (Tested(vocab[n], excluded[n]) && c == CandOf(vocab, n))
  {
  }

  /** Decides what needs no grammar, and collects the candidates. */
  method Prepare(vocab: seq<Token>, excluded: seq<bool>, end: bool) returns (banned: seq<bool>, cs: seq<Cand>, ghost n: nat)
    requires |excluded| == |vocab|
    ensures |banned| == |vocab| && Prepared(vocab, excluded, end, banned, cs) && Short(cs, n)
  {
    banned, cs, n := [], [], 0;
    for id := 0 to |vocab|
      invariant |banned| == id && Prepared(vocab, excluded, end, banned, cs) && Short(cs, n)
    {
      PreparedMore(vocab, excluded, end, banned, cs);
      banned := banned + [Direct(vocab[id], excluded[id], end)];
      if Tested(vocab[id], excluded[id]) {
        var cps, _ := DecodeUtf8(vocab[id].piece, CLEAN);
        cs := cs + [Cand(id, cps, 0)];
        n := Max(n, |cps|);
      }
    }
  }

  method BanAll(banned: seq<bool>, rejects: seq<Cand>) returns (r: seq<bool>)
    requires forall c :: c in rejects ==> c.index < |banned|
    ensures |r| == |banned| && forall i :: 0 <= i < |r| ==> (r[i] <==> banned[i] || Named(rejects, i))
  {
    r := banned;
    for k := 0 to |rejects|
      invariant |r| == |banned| && forall i :: 0 <= i < |r| ==> (r[i] <==> banned[i] || Named(rejects[..k], i))
    {
      assert rejects[k] in rejects;
      NamedMore(rejects[..k], rejects[k]);
      assert rejects[..k + 1] == rejects[..k] + [rejects[k]];
      r := r[rejects[k].index := true];
    }
    assert rejects[..|rejects|] == rejects;
  }

  ghost predicate Named(rejects: seq<Cand>, i: nat) {
    exists c :: c in rejects && c.index == i
  }

  lemma NamedMore(rejects: seq<Cand>, c: Cand)
    ensures forall i :: Named(rejects + [c], i) <==> Named(rejects, i) || i == c.index
  {
    forall i ensures Named(rejects + [c], i) <==> Named(rejects, i) || i == c.index {
      if Named(rejects, i) {
        var d :| d in rejects && d.index == i;
        assert d in rejects + [c];
      }
      if i == c.index { assert c in rejects + [c]; }
    }
  }

  lemma BannedRight(g: Rules, root: nat, text: seq<nat>, ss: seq<Stack>, end: bool, vocab: seq<Token>, excluded: seq<bool>,
                    cs: seq<Cand>, rejects: seq<Cand>, before: seq<bool>, banned: seq<bool>, id: nat)
    requires |excluded| == |vocab| == |before| == |banned| && id < |vocab|
    requires Prepared(vocab, excluded, end, before, cs) && Sifted(MachineOf(g), ss, cs, rejects)
    requires end <==> Derives(MachineOf(g), root, text)
    requires banned[id] <==> before[id] || Named(rejects, id)
    ensures banned[id] <==> excluded[id] || !Allowed(g, root, text, ss, vocab[id])
  {
    var c := CandOf(vocab, id);
    assert c.cps[0..] == c.cps;
    assert Rest(c) == UpToZero(c.cps);
    if vocab[id].Text? { ZeroAtEnd(Points(vocab[id].piece)); }
    if Named(rejects, id) {
      var d :| d in rejects && d.index == id;
      assert d in cs && d == c;
    }
    if Tested(vocab[id], excluded[id]) { assert c in cs; }
  }

  /** would_accept: a vocabulary of one. */
  method WouldAccept(gr: Grammar, tok: Token) returns (ok: bool)
    requires gr.Valid() && gr.stacks != []
    ensures ok <==> Allowed(gr.rules, gr.root, gr.text, gr.stacks, tok)
  {
    match tok
    case Eog => ok := gr.AllowsEnd();
    case Text(piece) =>
      if Silent(piece) { return false; }
      var cps, _ := DecodeUtf8(piece, CLEAN);
      ZeroAtEnd(Points(piece));
      var c := Cand(0, cps, 0);
      assert cps[0..] == cps;
      var rejects := RejectAll(gr.rules, gr.stacks, [c], |cps|);
      ok := rejects == [];
      assert c in [c];
      if !ok { assert rejects[0] in rejects; }
  }

  // ---- the mask and the acceptor ----

  lemma {:induction false} ZeroFree(cps: seq<nat>)
    ensures UpToZero(cps) == cps <==> 0 !in cps
    ensures |UpToZero(cps)| <= |cps| && (0 in cps ==> |UpToZero(cps)| < |cps|)
  {
    if cps != [] && cps[0] != 0 {
      ZeroFree(cps[1..]);
      assert cps == [cps[0]] + cps[1..];
    }
  }

  /** For every grammar and every state of it: the mask lets the piece through exactly when the acceptor, which reads all
      its code points, would keep a stack. */
  ghost predicate AlwaysAgree(piece: Piece) {
    forall g, ss :: Usable(g) && StacksOk(g, ss) ==> Agree(g, ss, piece)
  }

  ghost predicate Agree(g: Rules, ss: seq<Stack>, piece: Piece) {
    LetThrough(g, ss, piece) <==> AnyLives(MachineOf(g), ss, Points(piece))
  }

  lemma PieceZero(piece: Piece)
    ensures 0 in Points(piece) <==> HasOverlongZero(UpToNul(piece))
    ensures Silent(piece) <==> Points(piece) == []
  {
    var s := UpToNul(piece);
    if s != [] { ZeroIsOverlong(s, 0); }
  }

  /** Mask and acceptor agree if and only if the piece spells something and has no overlong zero before its first zero
      byte. */
  lemma AgreeIffZeroFree(piece: Piece)
    ensures AlwaysAgree(piece) <==> !Silent(piece) && !HasOverlongZero(UpToNul(piece))
  {
    var cps := Points(piece);
    ZeroFree(cps);
    PieceZero(piece);
    if Silent(piece) || 0 in cps {
      var k := |UpToZero(cps)|;
      var g := [Anys(k)];
      var s := Push(MachineOf(g), [], Pos(0, 0));
      AnysUsable(k);
      AnysLive(k, 0, UpToZero(cps));
      AnysLive(k, 0, cps);
      OneLives(MachineOf(g), s, UpToZero(cps));
      OneLives(MachineOf(g), s, cps);
      assert !Agree(g, [s], piece);
    }
  }

  /** The letter a and an overlong zero: the mask reads the letter only, the acceptor both. */
  lemma OverlongDisagrees()
    ensures Whole([0x61, 0xC0, 0x80]) && Points([0x61, 0xC0, 0x80]) == [0x61, 0] && !AlwaysAgree([0x61, 0xC0, 0x80])
  {
    var s: seq<Byte> := [0x61, 0xC0, 0x80];
    assert s[1..] == [0xC0, 0x80] && s[1..][1..] == [0x80] && s[1..][1..][1..] == [];
    assert UpToNul(s) == s;
    assert s[1..1] == [] && s[1..][2..] == [] && s[1..][1..2] == [0x80] && [0x80][..0] == [];
    assert Value(0, [0x80]) == 0;
    assert Chars(s[1..], 0x61) == Decoding([0], Partial(0, 0));
    assert Chars(s, 0) == Decoding([0x61, 0], Partial(0, 0));
    PieceZero(s);
    AgreeIffZeroFree(s);
  }

  /** The bytes of text are a piece that spells it, and mask and acceptor agree about it. */
  lemma TextAgrees(cps: seq<nat>)
    requires IsText(cps) && cps != []
    ensures Whole(EncodeAll(cps)) && Points(EncodeAll(cps)) == cps && AlwaysAgree(EncodeAll(cps))
  {
    var s := EncodeAll(cps);
    RoundTrip(cps, 0);
    NoNul(s);
    EncodeLength(cps[0]);
    PieceZero(s);
    AgreeIffZeroFree(s);
  }

  lemma {:induction false} NoNul(s: seq<Byte>)
    requires 0 !in s
    ensures UpToNul(s) == s
  {
    if s != [] {
      NoNul(s[1..]);
      assert s == [s[0]] + s[1..];
    }
  }

  /** What follows a zero byte is read by neither. */
  lemma NulCuts(piece: Piece, rest: seq<Byte>)
    ensures Whole(piece + [0] + rest) && Points(piece + [0] + rest) == Points(piece)
    ensures forall g, ss :: LetThrough(g, ss, piece + [0] + rest) <==> LetThrough(g, ss, piece)
  {
    NulEnds(piece, rest);
    var p := piece + [0] + rest;
    assert p[0] == if piece == [] then 0 else piece[0];
  }

  lemma {:induction false} NulEnds(s: seq<Byte>, rest: seq<Byte>)
    ensures UpToNul(s + [0] + rest) == UpToNul(s)
  {
    if s != [] && s[0] != 0 {
      assert (s + [0] + rest)[1..] == s[1..] + [0] + rest;
      NulEnds(s[1..], rest);
    }
  }

  lemma {:induction false} ZeroAtEnd(cps: seq<nat>)
    ensures UpToZero(cps + [0]) == UpToZero(cps)
  {
    if cps != [] && cps[0] != 0 {
      assert (cps + [0])[1..] == cps[1..] + [0];
      ZeroAtEnd(cps[1..]);
    }
  }

  /** The rule for any k code points. */
  function Anys(k: nat): (r: Rule)
    ensures |r| == k + 1 && forall i :: 0 <= i <= k ==> r[i] == if i < k then ANY else END
  {
    if k == 0 then [END] else [ANY] + Anys(k - 1)
  }

  lemma {:induction false} AnysGood(k: nat, off: nat)
    requires off <= k
    ensures Good(Anys(k), 1, off)
    decreases k - off
  {
    if off < k { AnysGood(k, off + 1); }
  }

  lemma AnysUsable(k: nat)
    ensures var g := [Anys(k)]; Usable(g) && StacksOk(g, [Push(MachineOf(g), [], Pos(0, 0))])
  {
    var g := [Anys(k)];
    AnysGood(k, 0);
    forall s | StackOk(g, s) ensures Settles(g, s) && IsLeaf(MachineOf(g), s) {
      assert Rests(MachineOf(g), s, 0);
    }
    PushOk(g, [], Pos(0, 0));
  }

  lemma {:induction false} AnysLive(k: nat, off: nat, w: seq<nat>)
    requires off <= k
    ensures var m := MachineOf([Anys(k)]); Lives(m, Push(m, [], Pos(0, off)), w) <==> |w| <= k - off
    decreases |w|
  {
    var g := [Anys(k)];
    var m := MachineOf(g);
    var s := Push(m, [], Pos(0, off));
    if w == [] {
      assert Through(m, s, w, s);
    } else if off == k {
      FinishedLives(m, w);
    } else {
      var t := Push(m, [], Pos(0, off + 1));
      LivesStep(m, s, w);
      AnyHits(k, off, w[0]);
      assert Pop(m, s) == t;
      LeafClosure(m, t);
      AnysLive(k, off + 1, w[1..]);
    }
  }

  lemma AnyHits(k: nat, off: nat, chr: nat)
    requires off < k
    ensures var m := MachineOf([Anys(k)]); m.node(Pos(0, off)) == Term(Pos(0, off + 1)) && m.hit(Pos(0, off), chr)
  {
    var r := Anys(k);
    RangesStep(r, off, chr);
  }

  lemma LeafClosure(m: Machine, t: Stack)
    requires IsLeaf(m, t)
    ensures forall x :: InClosure(m, t, x) <==> x == t
  {
    assert Enters(m, t, t, 0);
    forall x | InClosure(m, t, x) ensures x == t {
      var n: nat :| Enters(m, t, x, n);
    }
  }

  // ---- what is let through can be completed ----

  ghost predicate Finishes(m: Machine, p: Pos) {
    exists w, n :: SeqDerives(m, p, w, n)
  }

  /** Every part of the grammar derives something. */
  ghost predicate Fruitful(g: Rules) {
    forall p :: GoodPos(g, p) ==> Finishes(MachineOf(g), p)
  }

  lemma {:induction false} StackFinishes(g: Rules, s: Stack) returns (v: seq<nat>)
    requires Fruitful(g) && StackOk(g, s)
    ensures Accepts(MachineOf(g), s, v)
    decreases |s|
  {
    var m := MachineOf(g);
    if s == [] {
      v := [];
      assert Reads(m, s, v, 0);
    } else {
      var r := StackFinishes(g, Base(s));
      assert Finishes(m, Top(s));
      var u: seq<nat>, n: nat :| SeqDerives(m, Top(s), u, n);
      var l: nat :| Reads(m, Base(s), r, l);
      var k := DeriveThenRead(m, Base(s), Top(s), u, n, r, l);
      DoneIsEnd(g, Top(s));
      assert Push(m, Base(s), Top(s)) == s;
      v := u + r;
    }
  }

  lemma EntersOk(g: Rules, s: Stack, t: Stack, n: nat)
    requires Wf(g) && StackOk(g, s) && Enters(MachineOf(g), s, t, n)
    ensures StackOk(g, t)
  {
    var ok := (x: Stack) => StackOk(g, x);
    forall x, j | ok(x) && 0 <= j < Ways(MachineOf(g), x) ensures ok(Way(MachineOf(g), x, j)) { WayOk(g, x, j); }
    EntersKeeps(MachineOf(g), ok, s, t, n);
  }

  lemma {:induction false} ThroughOk(g: Rules, s: Stack, w: seq<nat>, t: Stack)
    requires Wf(g) && StackOk(g, s) && IsLeaf(MachineOf(g), s) && Through(MachineOf(g), s, w, t)
    ensures StackOk(g, t)
    decreases |w|
  {
    if w != [] {
      var m := MachineOf(g);
      var x := FirstOf(m, s, w, t);
      PopOk(g, s);
      var n: nat :| Enters(m, Pop(m, s), x, n);
      EntersOk(g, Pop(m, s), x, n);
      ThroughOk(g, x, w[1..], t);
    }
  }

  ghost predicate Completable(m: Machine, root: nat, text: seq<nat>) {
    exists v :: Derives(m, root, text + v)
  }

  lemma CompletableLives(m: Machine, root: nat, text: seq<nat>, ss: seq<Stack>, w: seq<nat>)
    requires Residual(m, root, text, ss) && Completable(m, root, text + w)
    ensures AnyLives(m, ss, w)
  {
    var v :| Derives(m, root, text + w + v);
    assert text + w + v == text + (w + v);
    var s :| s in ss && Accepts(m, s, w + v);
    ThroughReads(m, s, w, v);
    var t :| Through(m, s, w, t) && Accepts(m, t, v);
    assert Lives(m, s, w);
  }

  lemma LivesCompletable(m: Machine, root: nat, text: seq<nat>, ss: seq<Stack>, w: seq<nat>, s: Stack, t: Stack, v: seq<nat>)
    requires Residual(m, root, text, ss) && s in ss && Through(m, s, w, t) && Accepts(m, t, v)
    ensures Completable(m, root, text + w)
  {
    ThroughReads(m, s, w, v);
    assert text + w + v == text + (w + v);
    assert AnyAccepts(m, ss, w + v);
  }

  lemma WhoLives(m: Machine, ss: seq<Stack>, w: seq<nat>) returns (s: Stack, t: Stack)
    requires AnyLives(m, ss, w)
    ensures s in ss && Through(m, s, w, t)
  {
    s :| s in ss && Lives(m, s, w);
    t :| Through(m, s, w, t);
  }

  /** No dead ends and nothing held back: a word is let through exactly when the text with it can be completed. */
  lemma LetThroughIffCompletable(g: Rules, root: nat, text: seq<nat>, ss: seq<Stack>, w: seq<nat>)
    requires Usable(g) && StacksOk(g, ss) && Residual(MachineOf(g), root, text, ss)
    ensures Completable(MachineOf(g), root, text + w) ==> AnyLives(MachineOf(g), ss, w)
    ensures Fruitful(g) && AnyLives(MachineOf(g), ss, w) ==> Completable(MachineOf(g), root, text + w)
  {
    var m := MachineOf(g);
    if Completable(m, root, text + w) {
      CompletableLives(m, root, text, ss, w);
    }
    if Fruitful(g) && AnyLives(m, ss, w) {
      var s, t := WhoLives(m, ss, w);
      ThroughOk(g, s, w, t);
      var v := StackFinishes(g, t);
      LivesCompletable(m, root, text, ss, w, s, t, v);
    }
  }
}
