/** Sampling under a grammar: draw first, mask and draw again if the grammar objects, then accept. */
module GuidedDecoding {
  import opened Pushdown
  import opened Grammars
  import opened GrammarEngine
  import opened GrammarMask
  import opened Utf8

  /** The sampler: a token id from what is excluded and the output so far. */
  type Pick = (seq<bool>, seq<nat>) -> nat

  /** It stays in the vocabulary, and takes nothing excluded while something else is left. */
  ghost predicate Picks(pick: Pick, size: nat) {
    forall ex: seq<bool>, ids: seq<nat> :: |ex| == size ==> pick(ex, ids) < size && (false in ex ==> !ex[pick(ex, ids)])
  }

  /** Every other processor's mask at this point of the output. */
  type Mask = seq<nat> -> seq<bool>

  ghost predicate MaskOk(mask: Mask, size: nat) {
    forall ids: seq<nat> :: |mask(ids)| == size
  }

  ghost predicate Candidate(g: Rules, root: nat, text: seq<nat>, ss: seq<Stack>, vocab: seq<Token>, ex: seq<bool>, i: nat) {
    i < |vocab| == |ex| && !ex[i] && Allowed(g, root, text, ss, vocab[i])
  }

  /** Draws a token. If any token is neither excluded nor refused by the grammar, so is the one drawn. */
  method Draw(gr: Grammar, vocab: seq<Token>, ex: seq<bool>, pick: Pick, ids: seq<nat>) returns (id: nat)
    requires gr.Valid() && gr.stacks != [] && |ex| == |vocab| && Picks(pick, |vocab|)
    ensures id < |vocab|
    ensures (exists i :: Candidate(gr.rules, gr.root, gr.text, gr.stacks, vocab, ex, i)) ==>
      Candidate(gr.rules, gr.root, gr.text, gr.stacks, vocab, ex, id)
  {
    id := pick(ex, ids);
    var fine := WouldAccept(gr, vocab[id]);
    if !fine {
      var banned := Apply(gr, vocab, ex);
      id := pick(banned, ids);
      if i: nat :| Candidate(gr.rules, gr.root, gr.text, gr.stacks, vocab, ex, i) { assert !banned[i]; }
    } else {
      if i: nat :| Candidate(gr.rules, gr.root, gr.text, gr.stacks, vocab, ex, i) { assert !ex[i]; }
    }
  }

  /** No overlong zero. */
  ghost predicate Plain(tok: Token) {
    tok.Text? ==> !HasOverlongZero(UpToNul(tok.piece))
  }

  predicate Spells(tok: Token) { tok.Text? ==> !Silent(tok.piece) }

  function Spelling(tok: Token): seq<nat> {
    match tok case Eog => [] case Text(piece) => Points(piece)
  }

  /** accept_impl: ending needs a sentence; a token moves the stacks. */
  method AcceptImpl(gr: Grammar, tok: Token) returns (ok: bool)
    requires gr.Valid() && gr.stacks != []
    modifies gr
    ensures Plain(tok) && Spells(tok) ==> gr.Valid() && gr.text == old(gr.text) + Spelling(tok)
    ensures Plain(tok) && Spells(tok) ==> (ok <==> Allowed(gr.rules, gr.root, old(gr.text), old(gr.stacks), tok))
    ensures ok ==> gr.stacks != []
  {
    match tok
    case Eog =>
      ok := gr.AllowsEnd();
      assert gr.text + [] == gr.text;
    case Text(piece) =>
      var cps, _ := DecodeUtf8(piece, CLEAN);
      assert cps[..|cps| - 1] == Points(piece);
      ok := gr.AcceptToken(cps[..|cps| - 1]);
      PieceZero(piece);
      ZeroFree(Points(piece));
  }

  function Spelled(vocab: seq<Token>, ids: seq<nat>): (text: seq<nat>)
    requires forall i :: 0 <= i < |ids| ==> ids[i] < |vocab|
  {
    if ids == [] then [] else Spelled(vocab, ids[..|ids| - 1]) + Spelling(vocab[ids[|ids| - 1]])
  }

  /** The token goes on with some sentence that starts with text, or ends it there. */
  ghost predicate Continues(g: Rules, root: nat, text: seq<nat>, tok: Token) {
    match tok
    case Eog => Derives(MachineOf(g), root, text)
    case Text(piece) => !Silent(piece) && Completable(MachineOf(g), root, text + Points(piece))
  }

  ghost predicate DeadEnd(g: Rules, root: nat, text: seq<nat>, vocab: seq<Token>, ex: seq<bool>) {
    forall i :: 0 <= i < |vocab| == |ex| && !ex[i] ==> !Continues(g, root, text, vocab[i])
  }

  lemma ContinuesIsAllowed(g: Rules, root: nat, text: seq<nat>, ss: seq<Stack>, tok: Token)
    requires Usable(g) && StacksOk(g, ss) && Residual(MachineOf(g), root, text, ss)
    requires Plain(tok) && Continues(g, root, text, tok)
    ensures Allowed(g, root, text, ss, tok)
  {
    if tok.Text? {
      PieceZero(tok.piece);
      ZeroFree(Points(tok.piece));
      LetThroughIffCompletable(g, root, text, ss, Points(tok.piece));
    }
  }

  lemma NoneIsDeadEnd(g: Rules, root: nat, text: seq<nat>, ss: seq<Stack>, vocab: seq<Token>, ex: seq<bool>)
    requires Usable(g) && StacksOk(g, ss) && Residual(MachineOf(g), root, text, ss)
    requires (forall i :: 0 <= i < |vocab| ==> Plain(vocab[i])) && forall i :: !Candidate(g, root, text, ss, vocab, ex, i)
    ensures DeadEnd(g, root, text, vocab, ex)
  {
    forall i | 0 <= i < |vocab| == |ex| && !ex[i] ensures !Continues(g, root, text, vocab[i]) {
      assert !Candidate(g, root, text, ss, vocab, ex, i);
      if Continues(g, root, text, vocab[i]) { ContinuesIsAllowed(g, root, text, ss, vocab[i]); }
    }
  }

  lemma AliveCompletable(g: Rules, root: nat, text: seq<nat>, ss: seq<Stack>)
    requires Usable(g) && StacksOk(g, ss) && Residual(MachineOf(g), root, text, ss) && ss != [] && Fruitful(g)
    ensures Completable(MachineOf(g), root, text)
  {
    var m := MachineOf(g);
    assert Through(m, ss[0], [], ss[0]);
    assert ss[0] in ss && Lives(m, ss[0], []);
    LetThroughIffCompletable(g, root, text, ss, []);
    assert text + [] == text;
  }

  /** A whole constrained generation, up to the first step with nothing to draw. What has been put out can always be
      completed to a sentence, it is one when the output ends by itself, and generation breaks off only where no token that
      is left continues any sentence. */
  method Guided(gr: Grammar, vocab: seq<Token>, mask: Mask, pick: Pick, limit: nat)
    returns (ids: seq<nat>, ended: bool, failed: bool)
    requires gr.Valid() && gr.stacks != [] && gr.text == [] && MaskOk(mask, |vocab|) && Picks(pick, |vocab|)
    requires forall i :: 0 <= i < |vocab| ==> Plain(vocab[i])
    modifies gr
    ensures |ids| <= limit && (forall i :: 0 <= i < |ids| ==> ids[i] < |vocab|)
    ensures ended ==> Derives(MachineOf(gr.rules), gr.root, Spelled(vocab, ids))
    ensures failed ==> DeadEnd(gr.rules, gr.root, Spelled(vocab, ids), vocab, mask(ids))
    ensures Fruitful(gr.rules) ==> Completable(MachineOf(gr.rules), gr.root, Spelled(vocab, ids))
    ensures !ended && !failed ==> |ids| == limit
    ensures Fruitful(gr.rules) && Rich(gr.rules, gr.root, vocab, mask) ==> !failed
  {
    ids, ended, failed := [], false, false;
    while |ids| < limit && !ended
      invariant |ids| <= limit && (forall i :: 0 <= i < |ids| ==> ids[i] < |vocab|) && !failed
      invariant gr.Valid() && gr.stacks != [] && gr.text == Spelled(vocab, ids)
      invariant ended ==> Derives(MachineOf(gr.rules), gr.root, gr.text)
      decreases limit - |ids|
    {
      var ex := mask(ids);
      var id := Draw(gr, vocab, ex, pick, ids);
      ghost var text, ss := gr.text, gr.stacks;
      var ok := AcceptImpl(gr, vocab[id]);
      if !ok || !Spells(vocab[id]) {
        failed := true;
        Refused(gr.rules, gr.root, text, ss, vocab, ex, id);
        if Fruitful(gr.rules) {
          AliveCompletable(gr.rules, gr.root, text, ss);
          if Rich(gr.rules, gr.root, vocab, mask) { RichNeverDead(gr.rules, gr.root, vocab, mask, ids); }
        }
        return;
      }
      ended := vocab[id].Eog?;
      assert text + [] == text;
      assert (ids + [id])[..|ids|] == ids;
      ids := ids + [id];
    }
    if Fruitful(gr.rules) { AliveCompletable(gr.rules, gr.root, gr.text, gr.stacks); }
  }

  lemma Refused(g: Rules, root: nat, text: seq<nat>, ss: seq<Stack>, vocab: seq<Token>, ex: seq<bool>, id: nat)
    requires Usable(g) && StacksOk(g, ss) && Residual(MachineOf(g), root, text, ss) && |ex| == |vocab| && id < |vocab|
    requires forall i :: 0 <= i < |vocab| ==> Plain(vocab[i])
    requires (exists i :: Candidate(g, root, text, ss, vocab, ex, i)) ==> Candidate(g, root, text, ss, vocab, ex, id)
    requires !Allowed(g, root, text, ss, vocab[id])
    ensures DeadEnd(g, root, text, vocab, ex)
  {
    NoneIsDeadEnd(g, root, text, ss, vocab, ex);
  }

  // ---- vocabularies that never run dry ----

  /** Some token, never excluded, is the end or spells just w. */
  ghost predicate Offers(vocab: seq<Token>, mask: Mask, w: seq<nat>) {
    exists i :: 0 <= i < |vocab| && Says(vocab[i], w) && Open(vocab, mask, i)
  }

  ghost predicate Says(tok: Token, w: seq<nat>) {
    if w == [] then tok.Eog? else tok.Text? && Points(tok.piece) == w
  }

  ghost predicate Open(vocab: seq<Token>, mask: Mask, i: nat) {
    forall ids: seq<nat> :: |mask(ids)| == |vocab| && i < |vocab| && !mask(ids)[i]
  }

  ghost predicate Writable(vocab: seq<Token>, mask: Mask, v: seq<nat>) {
    Offers(vocab, mask, []) && forall k :: 0 <= k < |v| ==> Offers(vocab, mask, [v[k]])
  }

  /** What can be completed can be completed with the code points of the vocabulary. */
  ghost predicate Rich(g: Rules, root: nat, vocab: seq<Token>, mask: Mask) {
    forall text :: Completable(MachineOf(g), root, text) ==> CanWrite(g, root, vocab, mask, text)
  }

  ghost predicate CanWrite(g: Rules, root: nat, vocab: seq<Token>, mask: Mask, text: seq<nat>) {
    exists v :: Writable(vocab, mask, v) && Derives(MachineOf(g), root, text + v)
  }

  lemma WriteOn(g: Rules, root: nat, text: seq<nat>, vocab: seq<Token>, mask: Mask, v: seq<nat>) returns (i: nat)
    requires Writable(vocab, mask, v) && Derives(MachineOf(g), root, text + v)
    ensures i < |vocab| && Continues(g, root, text, vocab[i]) && Open(vocab, mask, i)
  {
    var w := if v == [] then [] else [v[0]];
    assert Offers(vocab, mask, w);
    i :| 0 <= i < |vocab| && Says(vocab[i], w) && Open(vocab, mask, i);
    if v == [] {
      assert text + v == text;
    } else {
      PieceZero(vocab[i].piece);
      assert text + v == text + [v[0]] + v[1..];
    }
  }

  lemma RichNeverDead(g: Rules, root: nat, vocab: seq<Token>, mask: Mask, ids: seq<nat>)
    requires (forall i :: 0 <= i < |ids| ==> ids[i] < |vocab|) && Rich(g, root, vocab, mask)
    requires Completable(MachineOf(g), root, Spelled(vocab, ids))
    ensures !DeadEnd(g, root, Spelled(vocab, ids), vocab, mask(ids))
  {
    var text := Spelled(vocab, ids);
    assert CanWrite(g, root, vocab, mask, text);
    var v :| Writable(vocab, mask, v) && Derives(MachineOf(g), root, text + v);
    var i := WriteOn(g, root, text, vocab, mask, v);
    assert !mask(ids)[i];
  }
}
